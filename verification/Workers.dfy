/** The worker: one process's loop over the task table. */
module Workers {
  import opened Options
  import opened Tasks

  const STATUS_WRITE_TIMEOUT := 30.0
  const FIRST_DELAY := 0.1
  const LONGEST_DELAY := 2.0
  const INTERRUPTED := "Interrupted before finishing"

  /** A clock never runs backwards, and a sleep lasts at least as asked. */
  class Clock {
    var now: real

    constructor () {
      now := 0.0;
    }

    method Read() returns (t: real)
      modifies this
      ensures old(now) <= now == t
    {
      Pass();
      t := now;
    }

    method Sleep(delay: real)
      modifies this
      ensures old(now) + delay <= now
    {
      now := now + delay;
      Pass();
    }

    method Pass()
      modifies this
      ensures old(now) <= now
    {
      var elapsed: real := *;
      if elapsed > 0.0 {
        now := now + elapsed;
      }
    }
  }

  // ---------------------------------------------------------------------------
  // Status writes and what came of them

  datatype Write =
    | Finish
    | Retry(error: string)
    | Reject(error: string)
    | Requeue

  /** The table after a task's status write. */
  function Written(rows: seq<Task>, id: TaskId, w: Write, delays: seq<real>, now: real): seq<Task>
    requires delays != []
  {
    if id >= |rows| then rows
    else
      match w
      case Finish => rows[id := WithStatus(rows[id], DONE, None)]
      case Retry(error) => rows[id := FailedOrRetried(rows[id], error, delays, now)]
      case Reject(error) => rows[id := WithStatus(rows[id], FAILED, Some(error))]
      case Requeue => rows[id := WithStatus(rows[id], PENDING, None)]
  }

  /** How a step that can be cut short ended. `Locked` is the database error it re-raises. */
  datatype Ended = Completed | Locked | Cancelled

  function DelayAfter(tries: nat): real {
    if tries == 0 then FIRST_DELAY
    else if DelayAfter(tries - 1) * 2.0 < LONGEST_DELAY then DelayAfter(tries - 1) * 2.0
    else LONGEST_DELAY
  }

  /** The time slept before the try with this number, counting from zero. */
  function SleptBefore(tries: nat): real {
    if tries == 0 then 0.0 else SleptBefore(tries - 1) + DelayAfter(tries - 1)
  }

  lemma {:induction false} DelayBounds(tries: nat)
    ensures FIRST_DELAY <= DelayAfter(tries) <= LONGEST_DELAY
  {
    if tries > 0 {
      DelayBounds(tries - 1);
    }
  }

  lemma {:induction false} SleptGrows(a: nat, b: nat)
    requires a <= b
    ensures SleptBefore(a) <= SleptBefore(b)
    decreases b
  {
    if a < b {
      SleptGrows(a, b - 1);
      DelayBounds(b - 1);
    }
  }

  /** The default timeout leaves room for at most 19 tries, and 19 are possible. */
  lemma DefaultTimeoutAllowsNineteenTries(tries: nat)
    requires tries > 0
    ensures SleptBefore(tries - 1) <= STATUS_WRITE_TIMEOUT <==> tries <= 19
  {
    FirstSleeps();
    if tries <= 19 {
      SleptGrows(tries - 1, 18);
    } else {
      SleptGrows(19, tries - 1);
    }
  }

  lemma FirstSleeps()
    ensures SleptBefore(18) == 29.1 && SleptBefore(19) == 31.1
  {
    assert DelayAfter(1) == 0.2 && DelayAfter(2) == 0.4;
    assert DelayAfter(3) == 0.8 && DelayAfter(4) == 1.6;
    assert DelayAfter(5) == 2.0 && SleptBefore(5) == 3.1;
    SteadySleeps(13);
    SteadySleeps(14);
  }

  lemma {:induction false} SteadySleeps(more: nat)
    requires DelayAfter(5) == 2.0 && SleptBefore(5) == 3.1
    ensures DelayAfter(5 + more) == 2.0 && SleptBefore(5 + more) == 3.1 + 2.0 * more as real
  {
    if more > 0 {
      SteadySleeps(more - 1);
    }
  }

  // ---------------------------------------------------------------------------
  // How much running the queue can still ask for

  /** A waiting task is good for the attempts it has left, or one when they are spent. */
  function Weight(t: Task): nat {
    if t.status != PENDING then 0
    else if t.maxAttempts <= t.attempts + 1 then 1
    else t.maxAttempts - t.attempts
  }

  function Load(rows: seq<Task>): nat {
    if rows == [] then 0 else Weight(rows[0]) + Load(rows[1..])
  }

  lemma {:induction false} LoadUpdate(rows: seq<Task>, id: nat, t: Task)
    requires id < |rows|
    ensures Load(rows[id := t]) == Load(rows) - Weight(rows[id]) + Weight(t)
  {
    if id == 0 {
      assert rows[id := t][1..] == rows[1..];
    } else {
      LoadUpdate(rows[1..], id - 1, t);
      assert rows[id := t][1..] == rows[1..][id - 1 := t];
    }
  }

  // ---------------------------------------------------------------------------
  // The worker

  /** A wait of the outcome write: when it was decided on, and for how long. */
  datatype Nap = Nap(at: real, delay: real)

  datatype Event = TaskCompleted(id: TaskId, kind: TaskType, status: Status)

  /** What recovery does for a task it failed, in order. */
  datatype Call = Cleanup(id: TaskId) | Announce(id: TaskId)

  datatype HandlerResult = Returned | Raised(error: string) | Stopped

  /** One execution of a task: what its handler did, None when there is no handler, and the
      status write that followed from it. */
  datatype Run = Run(id: TaskId, result: Option<HandlerResult>, write: Write)

  const NO_HANDLER := "No handler registered"

  /** `after` is `before` with the write applied once to a task whose handler may have
      reported progress. */
  ghost predicate WrittenOnce(before: seq<Task>, after: seq<Task>, id: TaskId, w: Write, delays: seq<real>, from: real, until: real)
    requires delays != [] && id < |before|
  {
    exists progress: int, now: real :: from <= now <= until && after == Ran(before, id, progress, w, delays, now)
  }

  function Ran(before: seq<Task>, id: TaskId, progress: int, w: Write, delays: seq<real>, now: real): seq<Task>
    requires delays != [] && id < |before|
  {
    Written(before[id := before[id].(progress := progress)], id, w, delays, now)
  }

  /** `after` is `before` with the write applied once, between two times. */
  ghost predicate Wrote(before: seq<Task>, after: seq<Task>, id: TaskId, w: Write, delays: seq<real>, from: real, until: real)
    requires delays != [] && id < |before|
  {
    exists now: real :: from <= now <= until && after == Written(before, id, w, delays, now)
  }

  /** Waits that double up to the longest delay, each over by the deadline. */
  ghost predicate Paced(naps: seq<Nap>, deadline: real) {
    forall i | 0 <= i < |naps| :: naps[i].delay == DelayAfter(i) && naps[i].at + naps[i].delay <= deadline
  }

  ghost predicate SameButProgress(before: seq<Task>, after: seq<Task>, id: TaskId)
    requires id < |before|
  {
    exists progress: int :: after == before[id := before[id].(progress := progress)]
  }

  /** A task is announced once it has reached a final state. */
  function Announcement(hasBus: bool, rows: seq<Task>, id: TaskId): seq<Event>
    requires id < |rows|
  {
    if hasBus && rows[id].status != PENDING then [TaskCompleted(id, rows[id].kind, rows[id].status)]
    else []
  }

  /** The calls recovery owes to the tasks of `ids` that it failed. */
  function CallsFor(ids: seq<TaskId>, rows: seq<Task>, cleanups: set<TaskType>): seq<Call>
    requires forall i | 0 <= i < |ids| :: ids[i] < |rows|
  {
    if ids == [] then []
    else
      var last := ids[|ids| - 1];
      CallsFor(ids[..|ids| - 1], rows, cleanups)
      + if rows[last].status != FAILED then []
        else if rows[last].kind in cleanups then [Cleanup(last), Announce(last)]
        else [Announce(last)]
  }

  /** What a handler did, as it shows in its task: one that returned leaves it DONE, one that
      raised costs an attempt, a stop puts it back, and without a handler it is rejected. */
  predicate Recorded(before: Task, after: Task, result: Option<HandlerResult>) {
    && after.maxAttempts == before.maxAttempts && after.kind == before.kind
    && match result
       case None => after.status == FAILED && after.error == Some(NO_HANDLER) && after.attempts == before.attempts
       case Some(Returned) => after.status == DONE && after.error.None? && after.attempts == before.attempts
       case Some(Stopped) =>
         && after.status == PENDING && after.error.None? && after.attempts == before.attempts
         && after.claimedBy.None? && after.notBefore.None?
       case Some(Raised(error)) =>
         && after.error == Some(error) && after.attempts == before.attempts + 1
         && after.status == (if after.attempts < before.maxAttempts then PENDING else FAILED)
         && (after.status == PENDING ==> after.claimedBy.None? && after.notBefore.Some?)
  }

  /** The task was the first one due, and no other row changed. */
  ghost predicate Claimable(before: seq<Task>, after: seq<Task>, id: TaskId, checked: real) {
    && |before| == |after| && FirstDue(before, checked, id)
    && forall i | 0 <= i < |before| && i != id :: after[i] == before[i]
  }

  lemma LoadIsPositive(rows: seq<Task>, id: TaskId)
    requires id < |rows| && rows[id].status == PENDING
    ensures Load(rows) > 0
  {
    if id > 0 {
      LoadIsPositive(rows[1..], id - 1);
    }
  }

  /** What was published since `before` is of tasks that were WORKING and have been failed. */
  ghost predicate OnlyFailuresAnnounced(published: seq<Event>, before: seq<Event>, was: seq<Task>, now: seq<Task>) {
    before <= published && forall k | |before| <= k < |published| :: OfFailure(published[k], was, now)
  }

  ghost predicate OfFailure(event: Event, was: seq<Task>, now: seq<Task>) {
    && event.id < |was| == |now| && was[event.id].status == WORKING && now[event.id].status == FAILED
    && event == TaskCompleted(event.id, now[event.id].kind, FAILED)
  }

  /** Since the table was `before`, the tasks `ran` were run and finished, and only they changed. */
  ghost predicate Progressed(before: seq<Task>, rows: seq<Task>, ran: seq<TaskId>) {
    && |rows| == |before|
    && (forall id <- ran :: id < |rows| && before[id].status == PENDING)
    && forall i | 0 <= i < |rows| ::
         && (if i in ran then rows[i].status != WORKING else rows[i] == before[i])
         && multiset(ran)[i] + Weight(rows[i]) <= Weight(before[i])
  }

  lemma OneMoreProgressed(before: seq<Task>, rows: seq<Task>, ran: seq<TaskId>, id: TaskId, after: seq<Task>, checked: real)
    requires Progressed(before, rows, ran) && Claimable(rows, after, id, checked)
    requires after[id].status != WORKING && Weight(after[id]) < Weight(rows[id])
    ensures Progressed(before, after, ran + [id])
  {
    OneMoreRun(ran, id);
    assert before[id].status == PENDING by {
      if id in ran {
        assert before[id].status == PENDING;
      }
    }
  }

  ghost predicate OnlyPendingChanged(before: seq<Task>, rows: seq<Task>) {
    |rows| == |before| && forall i | 0 <= i < |rows| && before[i].status != PENDING :: rows[i] == before[i]
  }

  ghost predicate OnlyRunsChanged(before: seq<Task>, rows: seq<Task>, ran: seq<TaskId>) {
    |rows| == |before| && forall i | 0 <= i < |rows| && i !in ran :: rows[i] == before[i]
  }

  /** No task was run more often than once for each attempt it had left, and at least once. */
  ghost predicate RunsBounded(before: seq<Task>, ran: seq<TaskId>) {
    forall i | 0 <= i < |before| ::
      multiset(ran)[i] <= RunsLeft(before[i].status, before[i].maxAttempts - before[i].attempts)
  }

  /** Each task that was due was run, and none that was run is left WORKING. */
  ghost predicate AllDueRan(before: seq<Task>, rows: seq<Task>, ran: seq<TaskId>, checked: real) {
    forall i | 0 <= i < |before| == |rows| ::
      (Due(before[i], checked) ==> i in ran) && (i in ran ==> rows[i].status != WORKING)
  }

  /** What a pass over the queue has done by the way it ended. */
  ghost predicate Processed(before: seq<Task>, rows: seq<Task>, ran: seq<TaskId>, ended: Ended, checked: real) {
    && OnlyPendingChanged(before, rows) && RunsBounded(before, ran)
    && (ended != Locked ==> OnlyRunsChanged(before, rows, ran))
    && (ended == Completed ==> NothingDue(rows, checked) && AllDueRan(before, rows, ran, checked))
  }

  lemma ProgressedMeans(before: seq<Task>, rows: seq<Task>, ran: seq<TaskId>, ended: Ended, checked: real)
    requires Progressed(before, rows, ran) && (ended == Completed ==> NothingDue(rows, checked))
    ensures Processed(before, rows, ran, ended, checked)
  {
    forall i | 0 <= i < |rows| && before[i].status != PENDING ensures rows[i] == before[i] {
      assert i !in ran;
    }
  }

  /** A task claimed from there may be left unfinished, by a lock or a stop. */
  lemma UnfinishedMeans(before: seq<Task>, rows: seq<Task>, ran: seq<TaskId>, id: TaskId, after: seq<Task>, ended: Ended, checked: real)
    requires Progressed(before, rows, ran) && Claimable(rows, after, id, checked) && ended != Completed
    ensures Processed(before, after, ran + [id], ended, checked)
    ensures Processed(before, after, ran, Locked, checked)
  {
    ProgressedMeans(before, rows, ran, Locked, checked);
    OneMoreRun(ran, id);
    assert before[id].status == PENDING;
    forall i | 0 <= i < |rows| && i !in ran + [id] ensures after[i] == before[i] {
      assert i !in ran && i != id by { assert (ran + [id])[|ran|] == id; }
    }
  }

  /** The executions since `before` are those of the tasks `ran`, in order. */
  ghost predicate RunsOf(runs: seq<Run>, before: seq<Run>, ran: seq<TaskId>) {
    && |runs| == |before| + |ran| && before <= runs
    && forall k | 0 <= k < |ran| :: runs[|before| + k].id == ran[k]
  }

  /** How often a task can still be run: once for each attempt left, and at least once. */
  function RunsLeft(status: Status, attemptsLeft: int): nat {
    if status != PENDING then 0 else if attemptsLeft > 1 then attemptsLeft else 1
  }

  lemma OneMoreRun(ran: seq<TaskId>, id: TaskId)
    ensures forall i: TaskId :: multiset(ran + [id])[i] == multiset(ran)[i] + if i == id then 1 else 0
  {
  }

  class WorkerManager {
    const tasks: TaskRepository
    const clock: Clock      // the monotonic clock
    const wallClock: Clock
    const workerId: WorkerId
    const hasBus: bool
    const statusWriteTimeout: real
    var handlers: set<TaskType>
    var cleanups: set<TaskType>
    var recovered: bool
    var published: seq<Event>
    var calls: seq<Call>
    var runs: seq<Run>
    var tries: nat          // of status writes

    ghost predicate Valid()
      reads this, tasks
    {
      tasks.retryDelays != [] && wallClock != clock
    }

    constructor (tasks: TaskRepository, clock: Clock, wallClock: Clock, workerId: WorkerId, hasBus: bool, timeout: real)
      requires tasks.retryDelays != [] && wallClock != clock
      ensures Valid() && !recovered && handlers == {} && cleanups == {} && published == [] && calls == [] && runs == [] && tries == 0
      ensures this.tasks == tasks && this.clock == clock && this.wallClock == wallClock && this.workerId == workerId
      ensures this.hasBus == hasBus && statusWriteTimeout == timeout
    {
      this.tasks, this.clock, this.wallClock, this.workerId, this.hasBus := tasks, clock, wallClock, workerId, hasBus;
      statusWriteTimeout := timeout;
      handlers, cleanups, recovered, published, calls, runs, tries := {}, {}, false, [], [], [], 0;
    }

    /** One short session running one status write: it commits, or the database is locked. */
    method TryWrite(id: TaskId, w: Write) returns (locked: bool)
      requires Valid() && id < |tasks.rows|
      modifies this`tries, tasks, wallClock
      ensures tries == old(tries) + 1 && old(wallClock.now) <= wallClock.now
      ensures locked ==> tasks.rows == old(tasks.rows)
      ensures !locked ==> Wrote(old(tasks.rows), tasks.rows, id, w, tasks.retryDelays, old(wallClock.now), wallClock.now)
    {
      tries := tries + 1;
      locked := *;
      if !locked {
        var now := wallClock.Read();
        match w {
          case Finish => tasks.UpdateStatus(id, DONE, None);
          case Retry(error) => tasks.MarkFailedOrRetry(id, error, now);
          case Reject(error) => tasks.UpdateStatus(id, FAILED, Some(error));
          case Requeue => tasks.UpdateStatus(id, PENDING, None);
        }
        assert tasks.rows == Written(old(tasks.rows), id, w, tasks.retryDelays, now);
      }
    }

    /** Retries the write while the database is locked, until the timeout or a stop. */
    method RecordOutcome(id: TaskId, w: Write)
      returns (ended: Ended, wrote: bool, deadline: real, naps: seq<Nap>)
      requires Valid() && id < |tasks.rows|
      modifies this`tries, tasks, clock, wallClock
      ensures tries == old(tries) + |naps| + 1 && old(wallClock.now) <= wallClock.now
      ensures old(clock.now) + statusWriteTimeout <= deadline <= clock.now + statusWriteTimeout
      ensures wrote ==> Wrote(old(tasks.rows), tasks.rows, id, w, tasks.retryDelays, old(wallClock.now), wallClock.now)
      ensures !wrote ==> tasks.rows == old(tasks.rows)
      ensures ended == Completed ==> wrote
      ensures ended == Locked ==> !wrote && clock.now + DelayAfter(|naps|) > deadline
      ensures Paced(naps, deadline)
      ensures SleptBefore(|naps|) <= statusWriteTimeout || naps == []
      ensures statusWriteTimeout == STATUS_WRITE_TIMEOUT ==> |naps| + 1 <= 19
    {
      var start := clock.Read();
      deadline := start + statusWriteTimeout;
      var delay := FIRST_DELAY;
      naps := [];
      ended, wrote := Locked, false;
      while true
        invariant !wrote && tasks.rows == old(tasks.rows)
        invariant tries == old(tries) + |naps| && old(wallClock.now) <= wallClock.now
        invariant delay == DelayAfter(|naps|)
        invariant start + SleptBefore(|naps|) <= clock.now && deadline <= clock.now + statusWriteTimeout
        invariant Paced(naps, deadline)
        invariant SleptBefore(|naps|) <= statusWriteTimeout || naps == []
        decreases (deadline - clock.now) * 10.0
      {
        var locked := TryWrite(id, w);
        if !locked {
          ended, wrote := Completed, true;
          break;
        }
        DelayBounds(|naps|);
        var now := clock.Read();
        if now + delay > deadline {
          ended := Locked;
          break;
        }
        naps := naps + [Nap(now, delay)];
        var cancelled: bool := *;
        if cancelled {
          // Stopped while waiting out the lock: one last direct try.
          locked := TryWrite(id, w);
          ended, wrote := Cancelled, !locked;
          break;
        }
        clock.Sleep(delay);
        delay := if delay * 2.0 < LONGEST_DELAY then delay * 2.0 else LONGEST_DELAY;
      }
      if statusWriteTimeout == STATUS_WRITE_TIMEOUT {
        DefaultTimeoutAllowsNineteenTries(|naps| + 1);
      }
    }

    method PublishCompletion(id: TaskId) returns (ended: Ended)
      requires id < |tasks.rows|
      modifies this`published
      ensures ended != Cancelled
      ensures ended == Locked ==> published == old(published)
      ensures ended == Completed ==> published == old(published) + Announcement(hasBus, tasks.rows, id)
    {
      ended := Completed;
      if !hasBus {
        return;
      }
      var locked: bool := *;
      if locked {
        ended := Locked;
        return;
      }
      var task := tasks.rows[id];
      if task.status != PENDING {
        published := published + [TaskCompleted(id, task.kind, task.status)];
      }
    }

    /** Runs a claimed task's handler and records what came of it: a handler that returned leaves
        its task DONE, one that raised costs it an attempt, a stop puts it back. */
    method ExecuteTask(id: TaskId) returns (ended: Ended, wrote: bool, result: Option<HandlerResult>, w: Write)
      requires Valid() && id < |tasks.rows|
      modifies this`published, this`runs, this`tries, tasks, clock, wallClock
      ensures runs == old(runs) + [Run(id, result, w)] && old(wallClock.now) <= wallClock.now
      ensures if w == Requeue then tries == old(tries) + 1 else tries > old(tries)
      ensures result.None? <==> old(tasks.rows)[id].kind !in handlers
      ensures result.None? <==> w == Reject(NO_HANDLER)
      ensures result == Some(Returned) <==> w == Finish
      ensures forall error :: result == Some(Raised(error)) <==> w == Retry(error)
      ensures result == Some(Stopped) <==> w == Requeue
      ensures wrote ==> WrittenOnce(old(tasks.rows), tasks.rows, id, w, tasks.retryDelays, old(wallClock.now), wallClock.now)
      ensures !wrote ==> SameButProgress(old(tasks.rows), tasks.rows, id)
      ensures |tasks.rows| == |old(tasks.rows)|
      ensures forall i | 0 <= i < |tasks.rows| && i != id :: tasks.rows[i] == old(tasks.rows)[i]
      ensures wrote ==> Recorded(old(tasks.rows)[id], tasks.rows[id], result)
      ensures ended == Completed ==> wrote
      ensures w == Requeue ==> ended == Cancelled
      ensures ended == Completed ==> published == old(published) + Announcement(hasBus, tasks.rows, id)
      ensures ended != Completed ==> published == old(published)
    {
      var before := tasks.rows;
      var progress := before[id].progress;
      result := None;
      if before[id].kind !in handlers {
        w := Reject(NO_HANDLER);
      } else {
        var outcome: HandlerResult := *;
        progress, result := *, Some(outcome);
        tasks.rows := tasks.rows[id := tasks.rows[id].(progress := progress)];
        match outcome {
          case Returned => w := Finish;
          case Raised(error) => w := Retry(error);
          case Stopped => w := Requeue;
        }
      }
      runs := runs + [Run(id, result, w)];
      var ran := tasks.rows;
      assert ran == before[id := before[id].(progress := progress)];
      if w == Requeue {
        // One try only, so a locked database does not hold up the shutdown.
        var locked := TryWrite(id, w);
        ended, wrote := Cancelled, !locked;
      } else {
        var deadline, naps;
        ended, wrote, deadline, naps := RecordOutcome(id, w);
      }
      if wrote {
        ghost var now: real :| old(wallClock.now) <= now <= wallClock.now && tasks.rows == Written(ran, id, w, tasks.retryDelays, now);
        assert tasks.rows == Ran(before, id, progress, w, tasks.retryDelays, now);
      }
      if ended == Completed {
        ended := PublishCompletion(id);
      }
    }

    /** One round of the loop: claims a task and runs it. `id` is the task claimed, `ran` whether
        it was run; it is not when the claimed row could not be read back. */
    method Round() returns (ended: Ended, id: Option<TaskId>, ran: bool, checked: real)
      requires Valid()
      modifies this`published, this`runs, this`tries, tasks, clock, wallClock
      ensures old(wallClock.now) <= wallClock.now
      ensures id.Some? || ended == Completed ==> old(wallClock.now) <= checked <= wallClock.now
      ensures id.None? ==> tasks.rows == old(tasks.rows) && !ran && ended != Cancelled
      ensures id.None? && ended == Completed ==> NothingDue(tasks.rows, checked)
      ensures id.Some? ==> Claimable(old(tasks.rows), tasks.rows, id.value, checked)
      ensures id.Some? && !ran ==> ended == Locked
      ensures id.Some? && ended == Completed ==>
        tasks.rows[id.value].status != WORKING && Weight(tasks.rows[id.value]) < Weight(old(tasks.rows)[id.value])
      ensures id.Some? && ended != Cancelled ==> Load(tasks.rows) < Load(old(tasks.rows))
      ensures if ran then RunsOf(runs, old(runs), [id.value]) else runs == old(runs)
    {
      ran, checked, id := false, 0.0, None;
      var locked: bool := *;
      if locked {
        ended := Locked;
        return;
      }
      checked := wallClock.Read();
      var rows := tasks.rows;
      id := tasks.ClaimNext(workerId, checked);
      if id.None? {
        ended := Completed;
        return;
      }
      LoadUpdate(rows, id.value, tasks.rows[id.value]);
      var unread: bool := *;
      if unread {
        // The claim is committed, but reading the row back met a lock.
        ended := Locked;
        return;
      }
      ran := true;
      ghost var before := tasks.rows;
      var wrote, result, w;
      ended, wrote, result, w := ExecuteTask(id.value);
      RunEffect(rows, before, tasks.rows, id.value, workerId, checked, wrote, w, tasks.retryDelays, checked, wallClock.now);
    }

    /** Runs every task that is due, with no task queued or retried meanwhile. */
    method ProcessTasks() returns (ended: Ended, ran: seq<TaskId>, checked: real)
      requires Valid()
      modifies this`published, this`runs, this`tries, tasks, clock, wallClock
      ensures Processed(old(tasks.rows), tasks.rows, ran, ended, checked)
      ensures old(wallClock.now) <= wallClock.now && (ended == Completed ==> old(wallClock.now) <= checked <= wallClock.now)
      ensures RunsOf(runs, old(runs), ran)
      ensures |ran| <= Load(old(tasks.rows))
      ensures ended != Cancelled ==> |ran| + Load(tasks.rows) <= Load(old(tasks.rows))
    {
      ran := [];
      while true
        invariant RunsOf(runs, old(runs), ran) && Progressed(old(tasks.rows), tasks.rows, ran)
        invariant old(wallClock.now) <= wallClock.now
        invariant |ran| + Load(tasks.rows) <= Load(old(tasks.rows))
        decreases Load(tasks.rows)
      {
        ghost var rows, earlier := tasks.rows, ran;
        var id, started;
        ended, id, started, checked := Round();
        if started {
          ran := ran + [id.value];
        }
        if id.None? {
          ProgressedMeans(old(tasks.rows), tasks.rows, ran, ended, checked);
          return;
        }
        if ended != Completed {
          LoadIsPositive(rows, id.value);
          UnfinishedMeans(old(tasks.rows), rows, earlier, id.value, tasks.rows, ended, checked);
          return;
        }
        OneMoreProgressed(old(tasks.rows), rows, earlier, id.value, tasks.rows, checked);
      }
    }

    /** What is left over from a worker that died goes back to the queue, or fails. */
    method RecoverInterrupted() returns (ended: Ended)
      requires Valid()
      modifies this`published, this`calls, tasks
      ensures ended == Completed || ended == Locked
      ensures ended == Locked ==>
        tasks.rows == old(tasks.rows) && calls == old(calls) && published == old(published)
      ensures ended == Completed ==> tasks.rows == RecoverAll(old(tasks.rows), INTERRUPTED)
      ensures ended == Completed ==> exists ids: seq<TaskId> ::
        && Interrupted(old(tasks.rows), ids)
        && calls == old(calls) + CallsFor(ids, tasks.rows, cleanups)
      ensures OnlyFailuresAnnounced(published, old(published), old(tasks.rows), tasks.rows) && (!hasBus ==> published == old(published))
    {
      var locked: bool := *;
      if locked {
        return Locked;
      }
      var ids := tasks.RecoverInterrupted(INTERRUPTED);
      for i := 0 to |ids|
        invariant tasks.rows == RecoverAll(old(tasks.rows), INTERRUPTED)
        invariant calls == old(calls) + CallsFor(ids[..i], tasks.rows, cleanups)
        invariant OnlyFailuresAnnounced(published, old(published), old(tasks.rows), tasks.rows)
        invariant !hasBus ==> published == old(published)
      {
        assert ids[..i + 1][..i] == ids[..i];
        var task := tasks.rows[ids[i]];
        if task.status == FAILED {
          if task.kind in cleanups {
            // A cleanup that raises is logged and costs the others nothing.
            calls := calls + [Cleanup(ids[i])];
          }
          calls := calls + [Announce(ids[i])];
          var announced := PublishCompletion(ids[i]);
          assert old(tasks.rows)[ids[i]].status == WORKING;
        }
      }
      assert ids[..|ids|] == ids;
      return Completed;
    }

    /** One pass of run_forever. Nothing is claimed until recovery has worked once. */
    method Poll() returns (ended: Ended, ran: seq<TaskId>, checked: real)
      requires Valid()
      modifies this`recovered, this`published, this`calls, this`runs, this`tries, tasks, clock, wallClock
      ensures ended == Completed ==>
        recovered && NothingDue(tasks.rows, checked) && old(wallClock.now) <= checked <= wallClock.now
      ensures ended == Completed ==> forall i | 0 <= i < |tasks.rows| && tasks.rows[i].status == WORKING ::
        old(recovered) && i < |old(tasks.rows)| && old(tasks.rows)[i].status == WORKING
      ensures RunsOf(runs, old(runs), ran)
      ensures old(recovered) ==> recovered && calls == old(calls)
      ensures !recovered ==> tasks.rows == old(tasks.rows) && ran == []
      ensures !old(recovered) && recovered ==>
        && |tasks.rows| == |old(tasks.rows)|
        && forall i | 0 <= i < |tasks.rows| ::
             var found := RecoverAll(old(tasks.rows), INTERRUPTED)[i];
             found.status != WORKING && (found.status != PENDING ==> tasks.rows[i] == found)
    {
      ran, checked := [], 0.0;
      if !recovered {
        ended := RecoverInterrupted();
        if ended != Completed {
          return;
        }
        recovered := true;
      }
      ended, ran, checked := ProcessTasks();
    }
  }

  /** What one run does to the rows and to the load, whether or not its write came through. */
  lemma RunEffect(rows: seq<Task>, claimed: seq<Task>, after: seq<Task>, id: TaskId, worker: WorkerId,
      at: real, wrote: bool, w: Write, delays: seq<real>, from: real, until: real)
    requires id < |rows| && rows[id].status == PENDING && delays != []
    requires claimed == rows[id := Claimed(rows[id], worker, at)]
    requires wrote ==> WrittenOnce(claimed, after, id, w, delays, from, until)
    requires !wrote ==> SameButProgress(claimed, after, id)
    ensures |after| == |rows| && forall i | 0 <= i < |rows| && i != id :: after[i] == rows[i]
    ensures w == Requeue || !wrote ==> Load(after) <= Load(rows)
    ensures !(wrote && w == Requeue) ==> Load(after) < Load(rows) && Weight(after[id]) < Weight(rows[id])
    ensures Weight(after[id]) <= Weight(rows[id])
  {
    if wrote {
      var p: int, now: real :| after == Ran(claimed, id, p, w, delays, now);
      assert after == rows[id := after[id]];
    } else {
      var p: int :| after == claimed[id := claimed[id].(progress := p)];
      assert after == rows[id := after[id]];
    }
    LoadUpdate(rows, id, after[id]);
  }
}
