/** Every process that ever opens the workspace, as steps over one task table: opening and
    recovering, claiming, running, writing outcomes, crashing, being stopped; and the
    clients that queue and retry tasks meanwhile. */
module Fleet {
  import opened Options
  import opened Tasks
  import opened Workers

  /** One incarnation of a process: a restart gets a new one. */
  type Pid = WorkerId

  datatype Phase =
    | Opening
    | Polling
    | Claiming(ids: seq<TaskId>, at: real)
    | Running(id: TaskId)
    | Recording(id: TaskId, write: Write)
    | Halted

  datatype Process = Process(recovered: bool, phase: Phase)

  datatype System = System(
    rows: seq<Task>,
    lock: Option<Pid>,
    processes: map<Pid, Process>,
    delays: seq<real>,
    handlers: set<TaskType>,
    now: real)

  datatype Step =
    | Open(p: Pid)
    | OpenFails(p: Pid)
    | Opened(p: Pid)
    | Recover(p: Pid)
    | Select(p: Pid, ids: seq<TaskId>)
    | TryNext(p: Pid)
    | ClaimUnread(p: Pid)
    | HandlerEnds(p: Pid, result: HandlerResult)
    | WriteOutcome(p: Pid)
    | WriteGivenUp(p: Pid)
    | Stop(p: Pid, written: bool)
    | Close(p: Pid)
    | Crash(p: Pid)
    | Enqueue(kind: TaskType, priority: int)
    | RetryTask(id: TaskId)
    | Wake(later: real)

  // ---------------------------------------------------------------------------
  // Steps

  function PhaseOf(s: System, p: Pid): Option<Phase> {
    if p in s.processes then Some(s.processes[p].phase) else None
  }

  predicate In(s: System, p: Pid, phase: Phase) {
    PhaseOf(s, p) == Some(phase)
  }

  /** The retry button is offered for finished tasks only. */
  predicate Retryable(s: System, id: TaskId) {
    id < |s.rows| && (s.rows[id].status == FAILED || s.rows[id].status == DONE)
  }

  ghost predicate Enabled(s: System, a: Step) {
    s.delays != [] &&
    match a
    case Open(p) => p !in s.processes && s.lock.None?
    case OpenFails(p) => In(s, p, Opening)
    case Opened(p) => In(s, p, Opening)
    case Recover(p) => In(s, p, Polling) && !s.processes[p].recovered
    case Select(p, ids) => In(s, p, Polling) && s.processes[p].recovered && Selection(s.rows, s.now, ids)
    case TryNext(p) => p in s.processes && s.processes[p].phase.Claiming?
    case ClaimUnread(p) =>
      p in s.processes && s.processes[p].phase.Claiming? && Wins(s, p)
    case HandlerEnds(p, result) => p in s.processes && s.processes[p].phase.Running? && !result.Stopped?
    case WriteOutcome(p) => p in s.processes && s.processes[p].phase.Recording?
    case WriteGivenUp(p) => p in s.processes && s.processes[p].phase.Recording?
    case Stop(p, _) => p in s.processes && !s.processes[p].phase.Opening? && !s.processes[p].phase.Halted?
    case Close(p) => In(s, p, Halted)
    case Crash(p) => p in s.processes
    case Enqueue(_, _) => true
    case RetryTask(id) => Retryable(s, id)
    case Wake(later) => s.now <= later
  }

  /** The conditional update succeeds: the first candidate left is still PENDING. */
  predicate Wins(s: System, p: Pid)
    requires p in s.processes && s.processes[p].phase.Claiming?
  {
    var ids := s.processes[p].phase.ids;
    ids != [] && ids[0] < |s.rows| && s.rows[ids[0]].status == PENDING
  }

  function Move(s: System, p: Pid, phase: Phase): System
    requires p in s.processes
  {
    s.(processes := s.processes[p := s.processes[p].(phase := phase)])
  }

  function Gone(s: System, p: Pid): System {
    s.(processes := s.processes - {p}, lock := if s.lock == Some(p) then None else s.lock)
  }

  /** A status write that commits. */
  function Commit(s: System, id: TaskId, w: Write): System
    requires s.delays != []
  {
    s.(rows := Written(s.rows, id, w, s.delays, s.now))
  }

  function Claim(s: System, p: Pid): System
    requires p in s.processes && s.processes[p].phase.Claiming? && Wins(s, p)
  {
    var Claiming(ids, at) := s.processes[p].phase;
    s.(rows := s.rows[ids[0] := Claimed(s.rows[ids[0]], p, at)])
  }

  ghost function Apply(s: System, a: Step): System
    requires Enabled(s, a)
  {
    match a
    case Open(p) => s.(lock := Some(p), processes := s.processes[p := Process(false, Opening)])
    case OpenFails(p) => Gone(s, p)
    case Opened(p) => Move(s, p, Polling)
    case Recover(p) =>
      s.(rows := RecoverAll(s.rows, INTERRUPTED),
         processes := s.processes[p := s.processes[p].(recovered := true)])
    case Select(p, ids) => Move(s, p, Claiming(ids, s.now))
    case TryNext(p) =>
      var ids := s.processes[p].phase.ids;
      if ids == [] then Move(s, p, Polling)
      else if !Wins(s, p) then Move(s, p, Claiming(ids[1..], s.processes[p].phase.at))
      else if s.rows[ids[0]].kind in s.handlers then Move(Claim(s, p), p, Running(ids[0]))
      else Move(Claim(s, p), p, Recording(ids[0], Reject(NO_HANDLER)))
    case ClaimUnread(p) => Move(Claim(s, p), p, Polling)
    case HandlerEnds(p, result) =>
      var id := s.processes[p].phase.id;
      Move(s, p, Recording(id, if result.Raised? then Retry(result.error) else Finish))
    case WriteOutcome(p) =>
      var Recording(id, w) := s.processes[p].phase;
      Move(Commit(s, id, w), p, Polling)
    case WriteGivenUp(p) => Move(s, p, Polling)
    case Stop(p, written) =>
      var phase := s.processes[p].phase;
      if !written then Move(s, p, Halted)
      else if phase.Running? then Move(Commit(s, phase.id, Requeue), p, Halted)
      else if phase.Recording? then Move(Commit(s, phase.id, phase.write), p, Halted)
      else Move(s, p, Halted)
    case Close(p) => Gone(s, p)
    case Crash(p) => Gone(s, p)
    case Enqueue(kind, priority) => s.(rows := s.rows + [Queued(kind, priority, s.now)])
    case RetryTask(id) => Retried(s, id)
    case Wake(later) => s.(now := later)
  }

  /** What TaskService.retry_task does, to whatever row it is given. */
  function Retried(s: System, id: TaskId): System
    requires id < |s.rows|
  {
    s.(rows := s.rows[id := WithStatus(s.rows[id], PENDING, None)])
  }

  // ---------------------------------------------------------------------------
  // The invariant

  /** The task a process has in hand. */
  function Busy(phase: Phase): Option<TaskId> {
    match phase
    case Running(id) => Some(id)
    case Recording(id, _) => Some(id)
    case _ => None
  }

  predicate Holds(s: System, p: Pid, id: TaskId) {
    p in s.processes && Busy(s.processes[p].phase) == Some(id)
  }

  /** Whatever a process has in hand is WORKING in its name. */
  ghost predicate Owned(s: System) {
    forall p: Pid, id: TaskId | Holds(s, p, id) ::
      id < |s.rows| && s.rows[id].status == WORKING && s.rows[id].claimedBy == Some(p)
  }

  ghost predicate Exclusive(s: System) {
    && (forall p | p in s.processes :: s.lock == Some(p))
    && (s.lock.Some? ==> s.lock.value in s.processes)
  }

  /** Nothing is selected or run before recovery has worked. */
  ghost predicate RecoveredFirst(s: System) {
    forall p | p in s.processes ::
      s.processes[p].recovered || s.processes[p].phase in {Opening, Polling, Halted}
  }

  /** A process that has recovered finds nothing WORKING that another one left. */
  ghost predicate NoneLeftOver(s: System) {
    forall p, id | p in s.processes && s.processes[p].recovered && 0 <= id < |s.rows| && s.rows[id].status == WORKING ::
      s.rows[id].claimedBy == Some(p)
  }

  /** A lone claimer's candidates stay claimable until it gets to them. */
  ghost predicate Fresh(s: System) {
    forall p | p in s.processes && s.processes[p].phase.Claiming? ::
      var Claiming(ids, at) := s.processes[p].phase;
      && at <= s.now
      && (forall i | 0 <= i < |ids| :: ids[i] < |s.rows| && Due(s.rows[ids[i]], at))
      && (forall i, j | 0 <= i < j < |ids| :: ids[i] != ids[j])
  }

  ghost predicate Inv(s: System) {
    && s.delays != []
    && Exclusive(s)
    && RecoveredFirst(s)
    && Owned(s)
    && NoneLeftOver(s)
    && Fresh(s)
  }

  function Start(delays: seq<real>, handlers: set<TaskType>, now: real): System {
    System([], None, map[], delays, handlers, now)
  }

  // ---------------------------------------------------------------------------
  // What every step keeps

  lemma ClaimKeepsOwned(s: System, p: Pid, phase: Phase)
    requires Owned(s)
    requires p in s.processes && s.processes[p].phase.Claiming? && Wins(s, p)
    requires Busy(phase).None? || Busy(phase) == Some(s.processes[p].phase.ids[0])
    ensures Owned(Move(Claim(s, p), p, phase))
  {
    var id, after := s.processes[p].phase.ids[0], Move(Claim(s, p), p, phase);
    forall q: Pid, k: TaskId | Holds(after, q, k)
      ensures k < |s.rows| && after.rows[k].status == WORKING && after.rows[k].claimedBy == Some(q)
    {
      if q != p {
        assert Holds(s, q, k);
      }
    }
  }

  lemma CommitKeepsOwned(s: System, p: Pid, id: TaskId, w: Write, phase: Phase)
    requires Owned(s) && s.delays != [] && Holds(s, p, id) && Busy(phase).None?
    ensures Owned(Move(Commit(s, id, w), p, phase))
  {
    var after := Move(Commit(s, id, w), p, phase);
    forall q: Pid, k: TaskId | Holds(after, q, k)
      ensures k < |s.rows| && after.rows[k].status == WORKING && after.rows[k].claimedBy == Some(q)
    {
      assert q != p && Holds(s, q, k);
      assert s.rows[k].claimedBy == Some(q) && s.rows[id].claimedBy == Some(p);
      assert after.rows[k] == s.rows[k];
    }
  }

  lemma ReleaseKeepsOwned(s: System, p: Pid, phase: Phase)
    requires Owned(s) && p in s.processes && Busy(phase).None?
    ensures Owned(Move(s, p, phase))
  {
    var after := Move(s, p, phase);
    forall q: Pid, k: TaskId | Holds(after, q, k)
      ensures k < |s.rows| && after.rows[k].status == WORKING && after.rows[k].claimedBy == Some(q)
    {
      assert q != p && Holds(s, q, k);
    }
  }

  /** However many processes claim from one table, with or without the workspace lock: as long
      as none recovers, whatever a process has in hand is WORKING in its name alone. */
  lemma StepKeepsOwned(s: System, a: Step)
    requires Owned(s) && Enabled(s, a) && !a.Recover?
    ensures Owned(Apply(s, a))
  {
    if a.TryNext? {
      var ids := s.processes[a.p].phase.ids;
      if ids != [] && Wins(s, a.p) {
        ClaimKeepsOwned(s, a.p, Running(ids[0]));
        ClaimKeepsOwned(s, a.p, Recording(ids[0], Reject(NO_HANDLER)));
      } else {
        ReleaseKeepsOwned(s, a.p, Polling);
        ReleaseKeepsOwned(s, a.p, Claiming(if ids == [] then [] else ids[1..], s.processes[a.p].phase.at));
      }
    } else if a.ClaimUnread? {
      ClaimKeepsOwned(s, a.p, Polling);
    } else if a.WriteOutcome? {
      var Recording(id, w) := s.processes[a.p].phase;
      CommitKeepsOwned(s, a.p, id, w, Polling);
    } else if a.Stop? {
      var phase := s.processes[a.p].phase;
      ReleaseKeepsOwned(s, a.p, Halted);
      if phase.Running? {
        CommitKeepsOwned(s, a.p, phase.id, Requeue, Halted);
      } else if phase.Recording? {
        CommitKeepsOwned(s, a.p, phase.id, phase.write, Halted);
      }
    } else if a.RetryTask? {
      var after := Apply(s, a);
      forall q: Pid, k: TaskId | Holds(after, q, k)
        ensures k < |s.rows| && after.rows[k].status == WORKING && after.rows[k].claimedBy == Some(q)
      {
        assert Holds(s, q, k) && s.rows[k].status == WORKING;
      }
    } else {
      var after := Apply(s, a);
      forall q: Pid, k: TaskId | Holds(after, q, k) ensures Holds(s, q, k) {
      }
    }
  }

  /** Recovery finds no task in the hands of a live process. */
  lemma RecoveryMeetsNoHandler(s: System, p: Pid, q: Pid, id: TaskId)
    requires Exclusive(s) && RecoveredFirst(s) && Enabled(s, Recover(p))
    ensures !Holds(s, q, id)
  {
    if q in s.processes {
      assert s.lock == Some(p) && s.lock == Some(q);
    }
  }

  lemma StepKeepsNoneLeftOver(s: System, a: Step)
    requires Inv(s) && Enabled(s, a)
    ensures NoneLeftOver(Apply(s, a))
  {
    var after := Apply(s, a);
    forall p, id | p in after.processes && after.processes[p].recovered && 0 <= id < |after.rows| && after.rows[id].status == WORKING
      ensures after.rows[id].claimedBy == Some(p)
    {
      if id < |s.rows| && p in s.processes {
        assert s.lock == Some(p);
      }
    }
  }

  lemma StepKeepsFresh(s: System, a: Step)
    requires Inv(s) && Enabled(s, a)
    ensures Fresh(Apply(s, a))
  {
    var after := Apply(s, a);
    forall q: Pid | q in after.processes && after.processes[q].phase.Claiming?
      ensures var Claiming(ids, at) := after.processes[q].phase;
        && at <= after.now
        && (forall i | 0 <= i < |ids| :: ids[i] < |after.rows| && Due(after.rows[ids[i]], at))
        && (forall i, j | 0 <= i < j < |ids| :: ids[i] != ids[j])
    {
      if !a.Select? && !a.TryNext? {
        assert s.processes[q].phase == after.processes[q].phase;
        assert s.lock == Some(q);
      }
    }
  }

  lemma StepKeepsInv(s: System, a: Step)
    requires Inv(s) && Enabled(s, a)
    ensures Inv(Apply(s, a))
  {
    StepKeepsFresh(s, a);
    StepKeepsNoneLeftOver(s, a);
    if a.Recover? {
      forall q: Pid, id: TaskId | Holds(Apply(s, a), q, id) ensures false {
        assert Holds(s, q, id);
        RecoveryMeetsNoHandler(s, a.p, q, id);
      }
    } else {
      StepKeepsOwned(s, a);
    }
  }

  // ---------------------------------------------------------------------------
  // Whole runs

  ghost predicate IsRun(states: seq<System>, steps: seq<Step>) {
    && |states| == |steps| + 1
    && forall i | 0 <= i < |steps| :: Enabled(states[i], steps[i]) && states[i + 1] == Apply(states[i], steps[i])
  }

  /** Every state of every run from an empty workspace keeps the invariant. */
  lemma {:induction false} RunsKeepInv(states: seq<System>, steps: seq<Step>, i: nat)
    requires IsRun(states, steps) && i < |states| && Initial(states[0])
    ensures Inv(states[i])
  {
    if i > 0 {
      RunsKeepInv(states, steps, i - 1);
      StepKeepsInv(states[i - 1], steps[i - 1]);
    }
  }

  /** No process, no task. */
  predicate Initial(s: System) {
    s.delays != [] && s == Start(s.delays, s.handlers, s.now)
  }

  /** At most one process is open on the workspace, so at most one runs handlers, and what it
      runs is WORKING in its name. */
  lemma OneProcessRuns(states: seq<System>, steps: seq<Step>, i: nat, p: Pid, q: Pid, id: TaskId)
    requires IsRun(states, steps) && i < |states| && Initial(states[0])
    requires Holds(states[i], p, id) && q in states[i].processes
    ensures p == q && states[i].lock == Some(p) && states[i].processes[p].recovered
    ensures id < |states[i].rows| && states[i].rows[id].status == WORKING
    ensures states[i].rows[id].claimedBy == Some(p)
  {
    RunsKeepInv(states, steps, i);
  }

  /** With any number of claimers at work and no lock between them, no two ever have the same
      task in hand. */
  lemma {:induction false} ClaimersNeverShare(states: seq<System>, steps: seq<Step>, i: nat)
    requires IsRun(states, steps) && i < |states|
    requires forall p | p in states[0].processes :: Busy(states[0].processes[p].phase).None?
    requires forall a <- steps :: !a.Recover?
    ensures Owned(states[i])
    ensures forall p: Pid, q: Pid, id: TaskId | Holds(states[i], p, id) && Holds(states[i], q, id) :: p == q
  {
    if i > 0 {
      ClaimersNeverShare(states, steps, i - 1);
      StepKeepsOwned(states[i - 1], steps[i - 1]);
    }
  }

  /** Of two claimers that selected the same task first, one update at most takes it. */
  lemma SecondClaimerLoses(s: System, p: Pid, q: Pid)
    requires p != q && Enabled(s, TryNext(p)) && Enabled(s, TryNext(q)) && Wins(s, p)
    requires s.processes[q].phase.ids != [] && s.processes[q].phase.ids[0] == s.processes[p].phase.ids[0]
    ensures var after := Apply(s, TryNext(p));
      && !Wins(after, q)
      && Apply(after, TryNext(q)).rows == after.rows
      && after.rows[s.processes[p].phase.ids[0]].claimedBy == Some(p)
  {
  }

  /** The lone claimer always gets the first task it selected. */
  lemma LoneClaimerWins(s: System, p: Pid)
    requires Inv(s) && p in s.processes && s.processes[p].phase.Claiming?
    ensures Wins(s, p) <==> s.processes[p].phase.ids != []
  {
  }

  /** The lock goes with the process that had it: whenever none is open, any can open. */
  lemma AbandonedWorkspaceOpens(states: seq<System>, steps: seq<Step>, i: nat, p: Pid)
    requires IsRun(states, steps) && i < |states| && Initial(states[0])
    ensures Enabled(states[i], Open(p)) <==> states[i].processes == map[]
  {
    RunsKeepInv(states, steps, i);
    var s := states[i];
    if s.lock.None? {
      assert forall q | q in s.processes :: false;
    }
  }

  /** Before it claims anything a process has recovered what others left: whatever is WORKING then
      is its own. */
  lemma NothingIsLeftBehind(states: seq<System>, steps: seq<Step>, i: nat, p: Pid, id: TaskId)
    requires IsRun(states, steps) && i < |states| && Initial(states[0])
    requires p in states[i].processes && !(states[i].processes[p].phase in {Opening, Polling, Halted})
    requires id < |states[i].rows| && states[i].rows[id].status == WORKING
    ensures states[i].rows[id].claimedBy == Some(p)
  {
    RunsKeepInv(states, steps, i);
  }

  /** What is open to whom: a free workspace to any process, a crash to every process, queueing to
      clients at any time, a retry to them for a task that is FAILED or DONE and no other. */
  lemma WhatIsPossible(s: System, p: Pid, id: TaskId, kind: TaskType, priority: int, later: real)
    requires s.delays != []
    ensures Enabled(s, Open(p)) <==> s.lock.None? && p !in s.processes
    ensures Enabled(s, Crash(p)) <==> p in s.processes
    ensures Enabled(s, Enqueue(kind, priority)) && (Enabled(s, Wake(later)) <==> s.now <= later)
    ensures Enabled(s, RetryTask(id)) <==> id < |s.rows| && (s.rows[id].status == FAILED || s.rows[id].status == DONE)
  {
  }

  /** From an abandoned workspace a process gets to its first task in five steps, whatever the last
      one left. */
  lemma AbandonedTaskRuns(s: System, p: Pid, ids: seq<TaskId>) returns (states: seq<System>)
    requires Inv(s) && s.processes == map[] && ids != []
    requires Selection(RecoverAll(s.rows, INTERRUPTED), s.now, ids)
    ensures |states| == 6 && states[0] == s
    ensures IsRun(states, [Open(p), Opened(p), Recover(p), Select(p, ids), TryNext(p)])
    ensures Holds(states[5], p, ids[0]) && ids[0] < |states[5].rows| && states[5].rows[ids[0]].status == WORKING
  {
    assert s.lock.None?;
    var s1 := Apply(s, Open(p));
    var s2 := Apply(s1, Opened(p));
    var s3 := Apply(s2, Recover(p));
    var s4 := Apply(s3, Select(p, ids));
    states := [s, s1, s2, s3, s4, Apply(s4, TryNext(p))];
  }

  /** No task is ever lost, nor made another one. */
  lemma {:induction false} TasksStay(states: seq<System>, steps: seq<Step>, i: nat, j: nat, id: TaskId)
    requires IsRun(states, steps) && Initial(states[0]) && i <= j < |states| && id < |states[i].rows|
    ensures id < |states[j].rows|
    ensures var t, u := states[i].rows[id], states[j].rows[id];
      u.kind == t.kind && u.priority == t.priority && u.createdAt == t.createdAt && u.maxAttempts == t.maxAttempts
  {
    if i < j {
      TasksStay(states, steps, i, j - 1, id);
      TaskStays(states[j - 1], steps[j - 1], id);
    }
  }

  lemma TaskStays(s: System, a: Step, id: TaskId)
    requires Enabled(s, a) && id < |s.rows|
    ensures id < |Apply(s, a).rows|
    ensures var t, u := s.rows[id], Apply(s, a).rows[id];
      u.kind == t.kind && u.priority == t.priority && u.createdAt == t.createdAt && u.maxAttempts == t.maxAttempts
  {
  }

  /** Recovery leaves nothing WORKING: what was costs an attempt and is back in the queue, free
      to be claimed at once, or FAILED with its budget spent. Nothing else changes. */
  lemma RecoveryMeans(s: System, p: Pid, id: TaskId)
    requires Enabled(s, Recover(p)) && id < |s.rows|
    ensures |Apply(s, Recover(p)).rows| == |s.rows|
    ensures var t, u := s.rows[id], Apply(s, Recover(p)).rows[id];
      if t.status != WORKING then u == t
      else
        && u.attempts == t.attempts + 1 && u.claimedBy.None? && u.notBefore.None?
        && u.status == if t.attempts + 1 < t.maxAttempts then PENDING else FAILED
  {
  }

  /** What a handler did is what its process records, when its write comes through at last,
      whatever happened in between. */
  lemma HandlerOutcomeIsRecorded(s: System, p: Pid, result: HandlerResult, later: System, a: Step)
    requires Inv(later) && Enabled(s, HandlerEnds(p, result)) && Enabled(later, a) && p in later.processes
    requires later.processes[p].phase == Apply(s, HandlerEnds(p, result)).processes[p].phase
    requires a == WriteOutcome(p) || a == Stop(p, true)
    ensures var id := s.processes[p].phase.id;
      id < |later.rows| && Recorded(later.rows[id], Apply(later, a).rows[id], Some(result))
  {
    assert Holds(later, p, s.processes[p].phase.id);
  }

  /** A task whose handler is stopped goes back as it came, and one without a handler is rejected. */
  lemma StopAndRejectAreRecorded(s: System, p: Pid, a: Step)
    requires Inv(s) && Enabled(s, a) && p in s.processes
    requires (a == Stop(p, true) && s.processes[p].phase.Running?)
      || (a == WriteOutcome(p) && s.processes[p].phase == Recording(s.processes[p].phase.id, Reject(NO_HANDLER)))
    ensures var id := s.processes[p].phase.id;
      id < |s.rows| && Recorded(s.rows[id], Apply(s, a).rows[id], if a.Stop? then Some(Stopped) else None)
  {
    assert Holds(s, p, s.processes[p].phase.id);
  }

  /** What becomes of a claimer that tries its next candidate. */
  lemma TryNextMeans(s: System, p: Pid)
    requires Enabled(s, TryNext(p))
    ensures
      var ids := s.processes[p].phase.ids;
      var after := Apply(s, TryNext(p));
      if ids == [] then after.rows == s.rows && after.processes[p].phase == Polling
      else if ids[0] >= |s.rows| || s.rows[ids[0]].status != PENDING then
        after.rows == s.rows && after.processes[p].phase == Claiming(ids[1..], s.processes[p].phase.at)
      else
        && after.rows[ids[0]] == s.rows[ids[0]].(status := WORKING, claimedBy := Some(p), claimedAt := Some(s.processes[p].phase.at))
        && after.processes[p].phase ==
             if s.rows[ids[0]].kind in s.handlers then Running(ids[0]) else Recording(ids[0], Reject(NO_HANDLER))
  {
  }

  // ---------------------------------------------------------------------------
  // What happens to one task over a run

  /** This step claims the task. */
  predicate Claims(s: System, a: Step, id: TaskId) {
    && (a.TryNext? || a.ClaimUnread?)
    && a.p in s.processes && s.processes[a.p].phase.Claiming? && Wins(s, a.p)
    && s.processes[a.p].phase.ids[0] == id
  }

  datatype StatusWrite = StatusWrite(id: TaskId, write: Write)

  /** The status write this step commits. */
  function Commits(s: System, a: Step): Option<StatusWrite> {
    if (a.WriteOutcome? || (a.Stop? && a.written)) && a.p in s.processes then
      match s.processes[a.p].phase
      case Recording(id, w) => Some(StatusWrite(id, w))
      case Running(id) => if a.Stop? then Some(StatusWrite(id, Requeue)) else None
      case _ => None
    else None
  }

  /** A task nobody has claimed stays as it is until somebody does. */
  lemma WaitingRowStays(s: System, a: Step, id: TaskId)
    requires Inv(s) && Enabled(s, a) && id < |s.rows| && s.rows[id].status == PENDING && !Claims(s, a, id)
    ensures id < |Apply(s, a).rows| && Apply(s, a).rows[id] == s.rows[id]
  {
    var w := Commits(s, a);
    if w.Some? {
      assert Holds(s, a.p, w.value.id);
    }
  }

  lemma {:induction false} WaitingRowStaysInRun(states: seq<System>, steps: seq<Step>, i: nat, j: nat, id: TaskId)
    requires IsRun(states, steps) && Initial(states[0]) && i <= j < |states|
    requires id < |states[i].rows| && states[i].rows[id].status == PENDING
    requires forall k | i <= k < j :: !Claims(states[k], steps[k], id)
    ensures id < |states[j].rows| && states[j].rows[id] == states[i].rows[id]
  {
    if i < j {
      WaitingRowStaysInRun(states, steps, i, j - 1, id);
      RunsKeepInv(states, steps, j - 1);
      WaitingRowStays(states[j - 1], steps[j - 1], id);
    }
  }

  /** After its k-th failure a task that will be tried again is not claimed before the k-th
      delay has passed. */
  lemma FailureIsWaitedOut(states: seq<System>, steps: seq<Step>, i: nat, j: nat, id: TaskId, error: string)
    requires IsRun(states, steps) && Initial(states[0]) && i < j < |steps|
    requires Commits(states[i], steps[i]) == Some(StatusWrite(id, Retry(error)))
    requires id < |states[i + 1].rows| && states[i + 1].rows[id].status == PENDING
    requires Claims(states[j], steps[j], id) && forall k | i < k < j :: !Claims(states[k], steps[k], id)
    ensures
      var failures := states[i].rows[id].attempts + 1;
      var delays := states[i].delays;
      && states[j].rows[id].attempts == failures
      && states[i].now + delays[if failures < |delays| then failures - 1 else |delays| - 1]
           <= states[j].processes[steps[j].p].phase.at <= states[j].now
  {
    RunsKeepInv(states, steps, i);
    assert Holds(states[i], steps[i].p, id);
    WaitingRowStaysInRun(states, steps, i + 1, j, id);
    RunsKeepInv(states, steps, j);
    var s := states[j];
    assert Due(s.rows[id], s.processes[steps[j].p].phase.at);
  }

  /** How often each thing has happened to one task. */
  datatype Tally = Tally(claims: nat, done: nat, requeued: nat, rejected: nat, retries: nat)

  function Counted(y: Tally, s: System, a: Step, id: TaskId): Tally {
    if Claims(s, a, id) then y.(claims := y.claims + 1)
    else if a == RetryTask(id) then y.(retries := y.retries + 1)
    else
      var w := Commits(s, a);
      if w.None? || w.value.id != id then y else Tallied(y, w.value.write)
  }

  function Tallied(y: Tally, w: Write): Tally {
    match w
    case Finish => y.(done := y.done + 1)
    case Requeue => y.(requeued := y.requeued + 1)
    case Reject(_) => y.(rejected := y.rejected + 1)
    case Retry(_) => y
  }

  /** The events of the first `i` steps, counted. */
  function Count(states: seq<System>, steps: seq<Step>, i: nat, id: TaskId): Tally
    requires i <= |steps| < |states|
  {
    if i == 0 then Tally(0, 0, 0, 0, 0)
    else Counted(Count(states, steps, i - 1, id), states[i - 1], steps[i - 1], id)
  }

  /** The claims made are all accounted for, and the attempt budget is kept. */
  predicate Accounted(t: Task, y: Tally) {
    && y.claims == t.attempts + y.done + y.requeued + y.rejected + (if t.status == WORKING then 1 else 0)
    && t.attempts <= t.maxAttempts + y.retries
    && (t.status == FAILED || t.attempts < t.maxAttempts + y.retries)
    && (t.status == DONE ==> y.done > 0)
    && (t.status == FAILED && y.rejected == 0 ==> t.attempts >= t.maxAttempts)
    && t.maxAttempts == (if t.kind == TRANSCRIBE then 1 else 3)
  }

  lemma StepKeepsAccount(s: System, a: Step, id: TaskId, y: Tally)
    requires Inv(s) && Enabled(s, a) && id < |s.rows| && Accounted(s.rows[id], y)
    ensures id < |Apply(s, a).rows| && Accounted(Apply(s, a).rows[id], Counted(y, s, a, id))
  {
    var w := Commits(s, a);
    if w.Some? {
      assert Holds(s, a.p, w.value.id);
      if w.value.id == id {
        CommitKeepsAccount(s, id, w.value.write, y);
      }
    } else if Claims(s, a, id) {
      assert Apply(s, a).rows[id] == Claim(s, a.p).rows[id];
    }
  }

  lemma CommitKeepsAccount(s: System, id: TaskId, w: Write, y: Tally)
    requires s.delays != [] && id < |s.rows| && s.rows[id].status == WORKING && Accounted(s.rows[id], y)
    ensures Accounted(Commit(s, id, w).rows[id], Tallied(y, w))
  {
  }

  /** Nothing has happened to a task that is not queued yet. */
  lemma {:induction false} UnqueuedIsUntouched(states: seq<System>, steps: seq<Step>, i: nat, id: TaskId)
    requires IsRun(states, steps) && Initial(states[0]) && i < |states| && id >= |states[i].rows|
    ensures Count(states, steps, i, id) == Tally(0, 0, 0, 0, 0)
  {
    if i > 0 {
      var s, a := states[i - 1], steps[i - 1];
      RunsKeepInv(states, steps, i - 1);
      assert |s.rows| <= |states[i].rows|;
      UnqueuedIsUntouched(states, steps, i - 1, id);
      var w := Commits(s, a);
      if w.Some? {
        assert Holds(s, a.p, w.value.id);
      }
    }
  }

  lemma {:induction false} RunsKeepAccounts(states: seq<System>, steps: seq<Step>, i: nat, id: TaskId)
    requires IsRun(states, steps) && Initial(states[0]) && i < |states| && id < |states[i].rows|
    ensures Accounted(states[i].rows[id], Count(states, steps, i, id))
  {
    if i > 0 {
      var s, a := states[i - 1], steps[i - 1];
      RunsKeepInv(states, steps, i - 1);
      if id < |s.rows| {
        RunsKeepAccounts(states, steps, i - 1, id);
        StepKeepsAccount(s, a, id, Count(states, steps, i - 1, id));
      } else {
        UnqueuedIsUntouched(states, steps, i - 1, id);
        QueuedIsAccounted(s, a, id);
      }
    }
  }

  lemma QueuedIsAccounted(s: System, a: Step, id: TaskId)
    requires Inv(s) && Enabled(s, a) && |s.rows| <= id < |Apply(s, a).rows|
    ensures Accounted(Apply(s, a).rows[id], Counted(Tally(0, 0, 0, 0, 0), s, a, id))
  {
    assert a.Enqueue? && Apply(s, a).rows[id] == Queued(a.kind, a.priority, s.now);
  }

  /** However a run goes, the claims of a task are its attempts, its finished, returned and
      rejected runs, and the one in progress; and attempts exceed the budget only by what
      manual retries bought. */
  lemma ClaimsAreConserved(states: seq<System>, steps: seq<Step>, i: nat, id: TaskId)
    requires IsRun(states, steps) && Initial(states[0]) && i < |states| && id < |states[i].rows|
    ensures
      var t, y := states[i].rows[id], Count(states, steps, i, id);
      && y.claims == t.attempts + y.done + y.requeued + y.rejected + (if t.status == WORKING then 1 else 0)
      && t.attempts <= t.maxAttempts + y.retries
      && y.claims <= t.maxAttempts + y.retries + y.done + y.requeued + y.rejected
  {
    RunsKeepAccounts(states, steps, i, id);
  }

  /** A task that takes the process down every time it runs is started at most as often as its
      budget allows, and is FAILED once it has been. */
  lemma CrashingTaskEndsFailed(states: seq<System>, steps: seq<Step>, i: nat, id: TaskId)
    requires IsRun(states, steps) && Initial(states[0]) && i < |states| && id < |states[i].rows|
    requires
      var y := Count(states, steps, i, id);
      y.done == 0 && y.requeued == 0 && y.rejected == 0 && y.retries == 0
    ensures
      var t, claims := states[i].rows[id], Count(states, steps, i, id).claims;
      && claims <= t.maxAttempts
      && (claims == t.maxAttempts && t.status != WORKING ==> t.status == FAILED)
      && (t.status == FAILED ==> claims == t.attempts == t.maxAttempts)
  {
    RunsKeepAccounts(states, steps, i, id);
  }

  /** `retry_task` itself checks nothing. It keeps the invariant and the account exactly when
      the task is not WORKING; on a running task it loses count of a claim. */
  lemma RetryKeepsAccountExactlyWhenNotWorking(s: System, id: TaskId, y: Tally)
    requires Inv(s) && id < |s.rows| && Accounted(s.rows[id], y)
    ensures
      var after := Retried(s, id);
      Inv(after) && Accounted(after.rows[id], y.(retries := y.retries + 1)) <==> s.rows[id].status != WORKING
  {
    var after := Retried(s, id);
    if s.rows[id].status != WORKING {
      forall q: Pid, k: TaskId | Holds(after, q, k) ensures Holds(s, q, k) && k != id {
        assert Holds(s, q, k);
      }
      assert Owned(after);
    }
  }
}
