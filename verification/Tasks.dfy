/** The task table: its rows, what each statement does to a row, and the repository. */
module Tasks {
  import opened Options

  type TaskId = nat
  type WorkerId = nat

  datatype Status = PENDING | WORKING | DONE | FAILED
  datatype TaskType = IMPORT | TRANSCRIBE | NORMALIZE | SUMMARIZE | CLEAN

  datatype Task = Task(
    kind: TaskType,
    status: Status,
    priority: int,
    progress: int,
    error: Option<string>,
    createdAt: real,
    claimedBy: Option<WorkerId>,
    claimedAt: Option<real>,
    attempts: nat,
    maxAttempts: nat,
    notBefore: Option<real>)

  const MAX_CLAIM_CANDIDATES := 5
  const DEFAULT_ATTEMPTS := 3

  /** A transcription is not repeated automatically; every other type keeps the default. */
  function AttemptBudget(kind: TaskType): nat {
    if kind == TRANSCRIBE then 1 else DEFAULT_ATTEMPTS
  }

  // ---------------------------------------------------------------------------
  // Rows

  function Queued(kind: TaskType, priority: int, now: real): Task {
    Task(kind, PENDING, priority, 0, None, now, None, None, 0, AttemptBudget(kind), None)
  }

  function Claimed(t: Task, worker: WorkerId, now: real): Task {
    t.(status := WORKING, claimedBy := Some(worker), claimedAt := Some(now))
  }

  /** The wait after the k-th failure; later failures wait the last delay. */
  function RetryDelay(delays: seq<real>, k: int): real
    requires delays != []
  {
    var step := if k < 1 then 1 else k;
    delays[(if step < |delays| then step else |delays|) - 1]
  }

  function FailedOrRetried(t: Task, error: string, delays: seq<real>, now: real): Task
    requires delays != []
  {
    var failed := t.(attempts := t.attempts + 1, error := Some(error));
    if failed.attempts < failed.maxAttempts then
      failed.(status := PENDING, claimedBy := None, claimedAt := None, progress := 0,
              notBefore := Some(now + RetryDelay(delays, failed.attempts)))
    else
      failed.(status := FAILED)
  }

  function Recovered(t: Task, error: string): Task {
    var cut := t.(attempts := t.attempts + 1, error := Some(error), claimedBy := None,
                  claimedAt := None, progress := 0, notBefore := None);
    cut.(status := if cut.attempts < cut.maxAttempts then PENDING else FAILED)
  }

  function WithStatus(t: Task, status: Status, error: Option<string>): Task {
    if status == PENDING then
      t.(status := PENDING, progress := 0, error := None, claimedBy := None,
         claimedAt := None, notBefore := None)
    else
      t.(status := status, error := error)
  }

  // ---------------------------------------------------------------------------
  // Choosing what to claim

  predicate Due(t: Task, now: real) {
    t.status == PENDING && (t.notBefore.None? || t.notBefore.value <= now)
  }

  /** The order of the select: priority descending, then oldest first. */
  predicate Before(a: Task, b: Task) {
    a.priority > b.priority || (a.priority == b.priority && a.createdAt < b.createdAt)
  }

  /** `ids` is what the ordered, limited select may return; equal rows come in any order. */
  ghost predicate Selection(rows: seq<Task>, now: real, ids: seq<TaskId>) {
    && |ids| <= MAX_CLAIM_CANDIDATES
    && (forall i | 0 <= i < |ids| :: ids[i] < |rows| && Due(rows[ids[i]], now))
    && (forall i, j | 0 <= i < j < |ids| :: ids[i] != ids[j] && !Before(rows[ids[j]], rows[ids[i]]))
    && (forall t | 0 <= t < |rows| && Due(rows[t], now) && t !in ids ::
          |ids| == MAX_CLAIM_CANDIDATES && forall i | 0 <= i < |ids| :: !Before(rows[t], rows[ids[i]]))
  }

  /** It waits and may run now, and so does no task of higher priority, or of the same and older. */
  predicate FirstDue(rows: seq<Task>, now: real, id: TaskId) {
    && id < |rows| && rows[id].status == PENDING
    && (rows[id].notBefore.Some? ==> rows[id].notBefore.value <= now)
    && forall t | 0 <= t < |rows| && rows[t].status == PENDING ::
         || (rows[t].notBefore.Some? && now < rows[t].notBefore.value)
         || rows[t].priority < rows[id].priority
         || (rows[t].priority == rows[id].priority && rows[id].createdAt <= rows[t].createdAt)
  }

  /** Each task that waits has to wait on. */
  predicate NothingDue(rows: seq<Task>, now: real) {
    forall t | 0 <= t < |rows| && rows[t].status == PENDING ::
      rows[t].notBefore.Some? && now < rows[t].notBefore.value
  }

  function RecoverAll(rows: seq<Task>, error: string): (r: seq<Task>)
    ensures |r| == |rows|
    ensures forall i | 0 <= i < |rows| ::
      r[i] == if rows[i].status == WORKING then Recovered(rows[i], error) else rows[i]
  {
    seq(|rows|, i requires 0 <= i < |rows| =>
      if rows[i].status == WORKING then Recovered(rows[i], error) else rows[i])
  }

  /** `ids` lists exactly the WORKING tasks, in order. */
  ghost predicate Interrupted(rows: seq<Task>, ids: seq<TaskId>) {
    && (forall i | 0 <= i < |ids| :: ids[i] < |rows| && rows[ids[i]].status == WORKING)
    && (forall i, j | 0 <= i < j < |ids| :: ids[i] < ids[j])
    && (forall id | 0 <= id < |rows| && rows[id].status == WORKING :: id in ids)
  }

  // ---------------------------------------------------------------------------
  // The repository

  class TaskRepository {
    var rows: seq<Task>
    const retryDelays: seq<real>

    constructor (retryDelays: seq<real>)
      ensures rows == [] && this.retryDelays == retryDelays
    {
      rows := [];
      this.retryDelays := retryDelays;
    }

    /** TaskService._create: the type's attempt budget applies to every queued task. */
    method Create(kind: TaskType, priority: int, now: real) returns (id: TaskId)
      modifies this
      ensures rows == old(rows) + [Queued(kind, priority, now)] && id == |old(rows)|
    {
      var task := Task(kind, PENDING, priority, 0, None, now, None, None, 0, DEFAULT_ATTEMPTS, None);
      task := task.(maxAttempts := AttemptBudget(kind));
      id := |rows|;
      rows := rows + [task];
    }

    method SelectDue(now: real) returns (ids: seq<TaskId>)
      ensures Selection(rows, now, ids) && |ids| <= 5
    {
      ids := [];
      while |ids| < MAX_CLAIM_CANDIDATES
        invariant |ids| <= MAX_CLAIM_CANDIDATES
        invariant forall i | 0 <= i < |ids| :: ids[i] < |rows| && Due(rows[ids[i]], now)
        invariant forall i, j | 0 <= i < j < |ids| :: ids[i] != ids[j] && !Before(rows[ids[j]], rows[ids[i]])
        invariant forall t | 0 <= t < |rows| && Due(rows[t], now) && t !in ids ::
          forall i | 0 <= i < |ids| :: !Before(rows[t], rows[ids[i]])
      {
        var best := NextDue(now, ids);
        if best.None? {
          return;
        }
        ids := ids + [best.value];
      }
    }

    method NextDue(now: real, skip: seq<TaskId>) returns (best: Option<TaskId>)
      ensures best.None? ==> forall t | 0 <= t < |rows| && Due(rows[t], now) :: t in skip
      ensures best.Some? ==>
        && best.value < |rows| && Due(rows[best.value], now) && best.value !in skip
        && forall t | 0 <= t < |rows| && Due(rows[t], now) && t !in skip ::
             !Before(rows[t], rows[best.value])
    {
      best := None;
      for id := 0 to |rows|
        invariant best.None? ==> forall t | 0 <= t < id && Due(rows[t], now) :: t in skip
        invariant best.Some? ==>
          && best.value < id && Due(rows[best.value], now) && best.value !in skip
          && forall t | 0 <= t < id && Due(rows[t], now) && t !in skip ::
               !Before(rows[t], rows[best.value])
      {
        if Due(rows[id], now) && id !in skip && (best.None? || Before(rows[id], rows[best.value])) {
          best := Some(id);
        }
      }
    }

    /** The conditional update: it takes the row only if it is still PENDING. */
    method TryClaim(id: TaskId, worker: WorkerId, now: real) returns (won: bool)
      modifies this
      ensures won == (id < |old(rows)| && old(rows)[id].status == PENDING)
      ensures rows == if won then old(rows)[id := Claimed(old(rows)[id], worker, now)] else old(rows)
    {
      won := id < |rows| && rows[id].status == PENDING;
      if won {
        rows := rows[id := rows[id].(status := WORKING, claimedBy := Some(worker), claimedAt := Some(now))];
      }
    }

    /** With no other claimer between the select and the updates. */
    method ClaimNext(worker: WorkerId, now: real) returns (claimed: Option<TaskId>)
      modifies this
      ensures claimed.None? ==> rows == old(rows) && NothingDue(rows, now)
      ensures claimed.Some? ==>
        && FirstDue(old(rows), now, claimed.value)
        && rows == old(rows)[claimed.value := Claimed(old(rows)[claimed.value], worker, now)]
    {
      var candidates := SelectDue(now);
      for i := 0 to |candidates|
        invariant rows == old(rows) && i == 0
      {
        var won := TryClaim(candidates[i], worker, now);
        if won {
          return Some(candidates[i]);
        }
      }
      return None;
    }

    method MarkFailedOrRetry(id: TaskId, error: string, now: real)
      requires retryDelays != []
      modifies this
      ensures rows == if id < |old(rows)|
        then old(rows)[id := FailedOrRetried(old(rows)[id], error, retryDelays, now)] else old(rows)
    {
      if id < |rows| {
        var task := rows[id];
        task := task.(attempts := task.attempts + 1, error := Some(error));
        if task.attempts < task.maxAttempts {
          task := task.(status := PENDING, claimedBy := None, claimedAt := None, progress := 0);
          var step := task.attempts;
          if step > |retryDelays| {
            step := |retryDelays|;
          }
          task := task.(notBefore := Some(now + retryDelays[step - 1]));
        } else {
          task := task.(status := FAILED);
        }
        rows := rows[id := task];
      }
    }

    method RecoverInterrupted(error: string) returns (recovered: seq<TaskId>)
      modifies this
      ensures rows == RecoverAll(old(rows), error)
      ensures Interrupted(old(rows), recovered)
    {
      recovered := [];
      for id := 0 to |rows|
        invariant |rows| == |old(rows)|
        invariant forall k | 0 <= k < id :: rows[k] == RecoverAll(old(rows), error)[k]
        invariant forall k | id <= k < |rows| :: rows[k] == old(rows)[k]
        invariant Interrupted(old(rows)[..id], recovered)
      {
        if rows[id].status == WORKING {
          var task := rows[id];
          task := task.(attempts := task.attempts + 1, error := Some(error), claimedBy := None, claimedAt := None,
                        progress := 0, notBefore := None);
          if task.attempts < task.maxAttempts {
            task := task.(status := PENDING);
          } else {
            task := task.(status := FAILED);
          }
          rows := rows[id := task];
          recovered := recovered + [id];
        }
      }
    }

    method UpdateStatus(id: TaskId, status: Status, error: Option<string>)
      modifies this
      ensures rows == if id < |old(rows)|
        then old(rows)[id := WithStatus(old(rows)[id], status, error)] else old(rows)
    {
      if id < |rows| {
        var task := rows[id].(status := status, error := error);
        if status == PENDING {
          task := task.(progress := 0, error := None, claimedBy := None, claimedAt := None,
                        notBefore := None);
        }
        rows := rows[id := task];
      }
    }
  }
}
