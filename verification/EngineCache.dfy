/** The project engines of one process: coroutines opening and closing chronicles, cut into
    steps at each await. Nothing between two awaits can be interleaved. */
module EngineCache {
  import opened Options

  type Chronicle = nat
  type EngineId = nat
  type Coroutine = nat

  /** One engine: whose it is, and how far it has come. */
  datatype Engine = Engine(chronicle: Chronicle, migrated: bool, disposed: bool)

  datatype Phase =
    | Waiting(chronicle: Chronicle)        // for the migration lock
    | Migrating(engine: EngineId)          // holding it
    | Failing(engine: EngineId)            // holding it, disposing of a failed engine
    | MigratingArchive                     // holding it
    | Closing(engine: EngineId)            // disposing of an engine taken out of the cache
    | Opened(engine: EngineId)
    | Ended

  /** An engine handed to a caller: in which period between two closes, and which one. */
  datatype Handed = Handed(chronicle: Chronicle, period: nat, engine: EngineId)

  datatype State = State(
    cache: map<Chronicle, EngineId>,
    lock: Option<Coroutine>,
    engines: seq<Engine>,
    phases: map<Coroutine, Phase>,
    periods: map<Chronicle, nat>,
    handed: seq<Handed>)

  datatype Step =
    | StartOpen(c: Coroutine, chronicle: Chronicle)
    | StartArchive(c: Coroutine)
    | TakeLock(c: Coroutine)
    | MigrationDone(c: Coroutine)
    | MigrationFailed(c: Coroutine)
    | ArchiveDone(c: Coroutine)
    | FailureDisposed(c: Coroutine)
    | StartClose(c: Coroutine, chronicle: Chronicle)
    | CloseDisposed(c: Coroutine)

  // ---------------------------------------------------------------------------
  // Steps

  function Period(s: State, chronicle: Chronicle): nat {
    if chronicle in s.periods then s.periods[chronicle] else 0
  }

  predicate Enabled(s: State, a: Step) {
    match a
    case StartOpen(c, _) => c !in s.phases
    case StartArchive(c) => c !in s.phases && s.lock.None?
    case TakeLock(c) => c in s.phases && s.phases[c].Waiting? && s.lock.None?
    case MigrationDone(c) =>
      c in s.phases && s.phases[c].Migrating? && s.phases[c].engine < |s.engines|
    case MigrationFailed(c) => c in s.phases && s.phases[c].Migrating?
    case ArchiveDone(c) => c in s.phases && s.phases[c].MigratingArchive?
    case FailureDisposed(c) =>
      c in s.phases && s.phases[c].Failing? && s.phases[c].engine < |s.engines|
    case StartClose(c, _) => c !in s.phases
    case CloseDisposed(c) =>
      c in s.phases && s.phases[c].Closing? && s.phases[c].engine < |s.engines|
  }

  function Goto(s: State, c: Coroutine, phase: Phase): State {
    s.(phases := s.phases[c := phase])
  }

  function Release(s: State): State {
    s.(lock := None)
  }

  /** The caller gets what the cache holds for its chronicle. */
  function Return(s: State, c: Coroutine, chronicle: Chronicle): State
    requires chronicle in s.cache
  {
    var engine := s.cache[chronicle];
    Goto(s, c, Opened(engine)).(handed := s.handed + [Handed(chronicle, Period(s, chronicle), engine)])
  }

  function Dispose(s: State, engine: EngineId): State
    requires engine < |s.engines|
  {
    s.(engines := s.engines[engine := s.engines[engine].(disposed := true)])
  }

  function Apply(s: State, a: Step): State
    requires Enabled(s, a)
  {
    match a
    case StartOpen(c, chronicle) =>
      if chronicle in s.cache then Return(s, c, chronicle) else Goto(s, c, Waiting(chronicle))
    case StartArchive(c) => Goto(s, c, MigratingArchive).(lock := Some(c))
    case TakeLock(c) =>
      var chronicle := s.phases[c].chronicle;
      if chronicle in s.cache then Return(s, c, chronicle)
      else
        Goto(s, c, Migrating(|s.engines|)).(
          lock := Some(c), engines := s.engines + [Engine(chronicle, false, false)])
    case MigrationDone(c) =>
      var engine := s.phases[c].engine;
      var chronicle := s.engines[engine].chronicle;
      var cached := Release(s).(
        engines := s.engines[engine := s.engines[engine].(migrated := true)],
        cache := s.cache[chronicle := engine]);
      Return(cached, c, chronicle)
    case MigrationFailed(c) => Goto(s, c, Failing(s.phases[c].engine))
    case ArchiveDone(c) => Goto(Release(s), c, Ended)
    case FailureDisposed(c) => Goto(Release(Dispose(s, s.phases[c].engine)), c, Ended)
    case StartClose(c, chronicle) =>
      if chronicle !in s.cache then Goto(s, c, Ended)
      else
        Goto(s, c, Closing(s.cache[chronicle])).(
          cache := s.cache - {chronicle},
          periods := s.periods[chronicle := Period(s, chronicle) + 1])
    case CloseDisposed(c) => Goto(Dispose(s, s.phases[c].engine), c, Ended)
  }

  // ---------------------------------------------------------------------------
  // The invariant

  predicate Locking(phase: Phase) {
    phase.Migrating? || phase.Failing? || phase.MigratingArchive?
  }

  /** The engine a coroutine is building or disposing of. */
  function Handling(phase: Phase): Option<EngineId> {
    match phase
    case Migrating(e) => Some(e)
    case Failing(e) => Some(e)
    case Closing(e) => Some(e)
    case _ => None
  }

  predicate Handles(s: State, c: Coroutine, e: EngineId) {
    c in s.phases && Handling(s.phases[c]) == Some(e)
  }

  predicate Cached(s: State, e: EngineId)
    requires e < |s.engines|
  {
    s.engines[e].chronicle in s.cache && s.cache[s.engines[e].chronicle] == e
  }

  /** Migrating, or disposing of a failed migration, only under the lock; and the lock is taken
      only for that. */
  ghost predicate UnderLock(s: State) {
    && (forall c | c in s.phases && Locking(s.phases[c]) :: s.lock == Some(c))
    && (s.lock.Some? ==> s.lock.value in s.phases && Locking(s.phases[s.lock.value]))
  }

  /** What is cached belongs to the chronicle it is cached for, migrated and not disposed. */
  ghost predicate CacheGood(s: State) {
    forall k | k in s.cache ::
      && s.cache[k] < |s.engines|
      && s.engines[s.cache[k]] == Engine(k, true, false)
  }

  predicate HandGood(s: State, c: Coroutine, e: EngineId)
    requires c in s.phases
  {
    && e < |s.engines| && !s.engines[e].disposed && !Cached(s, e)
    && (s.phases[c].Migrating? ==> !s.engines[e].migrated)
    && (Locking(s.phases[c]) ==> s.engines[e].chronicle !in s.cache)
  }

  /** Each engine in hand is in one coroutine's hands only, alive, and not cached. */
  ghost predicate HandsGood(s: State) {
    && (forall c: Coroutine, e: EngineId | Handles(s, c, e) :: HandGood(s, c, e))
    && (forall c: Coroutine, d: Coroutine, e: EngineId | Handles(s, c, e) && Handles(s, d, e) :: c == d)
  }

  /** No engine is forgotten alive. */
  ghost predicate NoneLost(s: State) {
    forall e | 0 <= e < |s.engines| && !s.engines[e].disposed ::
      Cached(s, e) || exists c: Coroutine :: Handles(s, c, e)
  }

  /** What callers got is a migrated engine of their chronicle, and while the period lasts it is
      what is cached. */
  ghost predicate HandedCurrent(s: State) {
    forall i | 0 <= i < |s.handed| ::
      var h := s.handed[i];
      && h.period <= Period(s, h.chronicle)
      && h.engine < |s.engines| && s.engines[h.engine].chronicle == h.chronicle && s.engines[h.engine].migrated
      && (h.period == Period(s, h.chronicle) ==>
            h.chronicle in s.cache && s.cache[h.chronicle] == h.engine)
  }

  /** In each period they got the same. */
  ghost predicate HandedAlike(s: State) {
    forall i, j | 0 <= i < |s.handed| && 0 <= j < |s.handed| ::
      s.handed[i].chronicle == s.handed[j].chronicle && s.handed[i].period == s.handed[j].period
      ==> s.handed[i].engine == s.handed[j].engine
  }

  ghost predicate HandedGood(s: State) {
    HandedCurrent(s) && HandedAlike(s)
  }

  ghost predicate WasHanded(s: State, e: EngineId) {
    exists i | 0 <= i < |s.handed| :: s.handed[i].engine == e
  }

  /** What an opener returned is on the record. */
  ghost predicate OpenedGood(s: State) {
    forall c | c in s.phases && s.phases[c].Opened? :: WasHanded(s, s.phases[c].engine)
  }

  ghost predicate Inv(s: State) {
    UnderLock(s) && CacheGood(s) && HandsGood(s) && NoneLost(s) && HandedGood(s) && OpenedGood(s)
  }

  const EMPTY := State(map[], None, [], map[], map[], [])

  /** What the coroutine that moves has in hand afterwards it had before, has just created, or
      has just taken out of the cache. */
  lemma MoverHands(s: State, a: Step, e: EngineId)
    requires Inv(s) && Enabled(s, a) && Handles(Apply(s, a), a.c, e)
    ensures HandGood(Apply(s, a), a.c, e)
    ensures forall c: Coroutine | Handles(s, c, e) :: c == a.c
  {
    if a.StartClose? {
      assert Cached(s, e);
    } else if a.MigrationFailed? {
      assert Handles(s, a.c, e);
    }
    forall c: Coroutine | Handles(s, c, e) ensures c == a.c {
      assert HandGood(s, c, e);
    }
  }

  lemma OtherHands(s: State, a: Step, c: Coroutine, e: EngineId)
    requires Inv(s) && Enabled(s, a) && Handles(Apply(s, a), c, e) && c != a.c
    ensures Handles(s, c, e) && HandGood(Apply(s, a), c, e)
  {
    assert Handles(s, c, e) && HandGood(s, c, e);
    if a.MigrationDone? || a.FailureDisposed? || a.CloseDisposed? {
      assert Handles(s, a.c, s.phases[a.c].engine) && HandGood(s, a.c, s.phases[a.c].engine);
    }
  }

  lemma StepKeepsHands(s: State, a: Step)
    requires Inv(s) && Enabled(s, a)
    ensures HandsGood(Apply(s, a))
  {
    var after := Apply(s, a);
    forall c: Coroutine, e: EngineId | Handles(after, c, e)
      ensures HandGood(after, c, e) && forall d: Coroutine | Handles(after, d, e) :: c == d
    {
      if c == a.c {
        MoverHands(s, a, e);
      } else {
        OtherHands(s, a, c, e);
      }
      forall d: Coroutine | Handles(after, d, e) ensures c == d {
        if c == a.c && d != a.c {
          OtherHands(s, a, d, e);
        } else if c != a.c && d == a.c {
          MoverHands(s, a, e);
        } else if c != a.c {
          OtherHands(s, a, d, e);
        }
      }
    }
  }

  lemma StepLosesNone(s: State, a: Step)
    requires Inv(s) && Enabled(s, a)
    ensures NoneLost(Apply(s, a))
  {
    var after := Apply(s, a);
    forall e: EngineId | e < |after.engines| && !after.engines[e].disposed
      ensures Cached(after, e) || exists c: Coroutine :: Handles(after, c, e)
    {
      if e == |s.engines| || Handles(after, a.c, e) {
        assert Handles(after, a.c, e);
      } else if c: Coroutine :| Handles(s, c, e) {
        HandledStays(s, a, c, e);
      } else {
        CachedStays(s, a, e);
      }
    }
  }

  lemma HandledStays(s: State, a: Step, c: Coroutine, e: EngineId)
    requires Inv(s) && Enabled(s, a) && e < |s.engines| && !Apply(s, a).engines[e].disposed && Handles(s, c, e)
    ensures Cached(Apply(s, a), e) || Handles(Apply(s, a), c, e)
  {
  }

  lemma CachedStays(s: State, a: Step, e: EngineId)
    requires Inv(s) && Enabled(s, a) && e < |s.engines| && Cached(s, e)
    ensures Cached(Apply(s, a), e) || Handles(Apply(s, a), a.c, e)
  {
    if a.MigrationDone? {
      assert Handles(s, a.c, s.phases[a.c].engine) && HandGood(s, a.c, s.phases[a.c].engine);
    }
  }

  lemma StepKeepsCache(s: State, a: Step)
    requires Inv(s) && Enabled(s, a)
    ensures UnderLock(Apply(s, a)) && CacheGood(Apply(s, a))
  {
    if a.MigrationDone? || a.FailureDisposed? || a.CloseDisposed? {
      assert Handles(s, a.c, s.phases[a.c].engine) && HandGood(s, a.c, s.phases[a.c].engine);
    }
  }

  lemma StepKeepsCurrent(s: State, a: Step)
    requires Inv(s) && Enabled(s, a)
    ensures HandedCurrent(Apply(s, a))
  {
    if a.MigrationDone? {
      assert HandGood(s, a.c, s.phases[a.c].engine) by { assert Handles(s, a.c, s.phases[a.c].engine); }
    }
  }

  lemma StepKeepsAlike(s: State, a: Step)
    requires Inv(s) && Enabled(s, a)
    ensures HandedAlike(Apply(s, a))
  {
    StepKeepsCurrent(s, a);
    var t := Apply(s, a);
    assert forall i | 0 <= i < |s.handed| :: t.handed[i] == s.handed[i];
  }

  lemma StepKeepsOpened(s: State, a: Step)
    requires Inv(s) && Enabled(s, a)
    ensures OpenedGood(Apply(s, a))
  {
    var t := Apply(s, a);
    forall c | c in t.phases && t.phases[c].Opened? ensures WasHanded(t, t.phases[c].engine) {
      if c in s.phases && s.phases[c] == t.phases[c] {
        var i :| 0 <= i < |s.handed| && s.handed[i].engine == s.phases[c].engine;
        assert t.handed[i] == s.handed[i];
      } else {
        assert t.handed[|s.handed|].engine == t.phases[c].engine;
      }
    }
  }

  lemma StepKeepsInv(s: State, a: Step)
    requires Inv(s) && Enabled(s, a)
    ensures Inv(Apply(s, a))
  {
    StepKeepsCache(s, a);
    StepKeepsHands(s, a);
    StepLosesNone(s, a);
    StepKeepsCurrent(s, a);
    StepKeepsAlike(s, a);
    StepKeepsOpened(s, a);
  }

  // ---------------------------------------------------------------------------
  // Whole runs

  predicate Leads(s: State, a: Step, t: State) {
    Enabled(s, a) && t == Apply(s, a)
  }

  ghost predicate IsRun(states: seq<State>, steps: seq<Step>) {
    && |states| == |steps| + 1 && states[0] == EMPTY
    && forall i | 0 <= i < |steps| :: Leads(states[i], steps[i], states[i + 1])
  }

  lemma {:induction false} RunsKeepInv(states: seq<State>, steps: seq<Step>, i: nat)
    requires IsRun(states, steps) && i < |states|
    ensures Inv(states[i])
  {
    if i > 0 {
      RunsKeepInv(states, steps, i - 1);
      assert Leads(states[i - 1], steps[i - 1], states[i]);
      StepKeepsInv(states[i - 1], steps[i - 1]);
    }
  }

  /** Whatever the interleaving, no two migrations of any chain are ever in progress at once. */
  lemma OneMigrationAtATime(states: seq<State>, steps: seq<Step>, i: nat, c: Coroutine, d: Coroutine)
    requires IsRun(states, steps) && i < |states|
    requires c in states[i].phases && Locking(states[i].phases[c])
    requires d in states[i].phases && Locking(states[i].phases[d])
    ensures c == d
  {
    RunsKeepInv(states, steps, i);
  }

  /** The lock is given up by all that take it: a waiting opener can take it exactly when no
      coroutine is migrating or disposing of a failed engine. */
  lemma LockIsFreeExactlyWhenNobodyMigrates(states: seq<State>, steps: seq<Step>, i: nat, c: Coroutine)
    requires IsRun(states, steps) && i < |states|
    requires c in states[i].phases && states[i].phases[c].Waiting?
    ensures Enabled(states[i], TakeLock(c))
      <==> forall d | d in states[i].phases :: !Locking(states[i].phases[d])
  {
    RunsKeepInv(states, steps, i);
  }

  /** And it is never further away than the one step that ends such a migration or disposal. */
  lemma LockIsOneStepAway(states: seq<State>, steps: seq<Step>, i: nat, c: Coroutine) returns (a: Step)
    requires IsRun(states, steps) && i < |states|
    requires c in states[i].phases && states[i].phases[c].Waiting?
    ensures Enabled(states[i], TakeLock(c)) || (Enabled(states[i], a) && Enabled(Apply(states[i], a), TakeLock(c)))
  {
    RunsKeepInv(states, steps, i);
    var s := states[i];
    a := TakeLock(c);
    if s.lock.Some? {
      var d := s.lock.value;
      if s.phases[d].MigratingArchive? {
        a := ArchiveDone(d);
      } else {
        assert Handles(s, d, s.phases[d].engine) && HandGood(s, d, s.phases[d].engine);
        a := if s.phases[d].Migrating? then MigrationDone(d) else FailureDisposed(d);
      }
    }
  }

  /** What an opener returned is an engine of a chronicle that was migrated. */
  lemma OpenersGetMigratedEngines(states: seq<State>, steps: seq<Step>, n: nat, c: Coroutine, e: EngineId)
    requires IsRun(states, steps) && n < |states| && c in states[n].phases && states[n].phases[c] == Phase.Opened(e)
    ensures exists i | 0 <= i < |states[n].handed| ::
      var h := states[n].handed[i];
      h.engine == e < |states[n].engines| && states[n].engines[e].chronicle == h.chronicle && states[n].engines[e].migrated
  {
    RunsKeepInv(states, steps, n);
    assert WasHanded(states[n], e);
  }

  /** Every caller that got an engine of a chronicle between two of its closes got the same one,
      and while that period lasts it is cached, migrated and not disposed. */
  lemma OpenersShareOneEngine(states: seq<State>, steps: seq<Step>, n: nat, i: nat, j: nat)
    requires IsRun(states, steps) && n < |states| && i < |states[n].handed| && j < |states[n].handed|
    requires states[n].handed[i].chronicle == states[n].handed[j].chronicle
    requires states[n].handed[i].period == states[n].handed[j].period
    ensures states[n].handed[i].engine == states[n].handed[j].engine
    ensures
      var s, h := states[n], states[n].handed[i];
      h.period == Period(s, h.chronicle) ==>
        && h.chronicle in s.cache && s.cache[h.chronicle] == h.engine < |s.engines|
        && s.engines[h.engine] == Engine(h.chronicle, true, false)
  {
    RunsKeepInv(states, steps, n);
  }

  /** Every engine ever created is disposed of, cached, or in exactly one coroutine's hands. */
  lemma NoEngineIsLost(states: seq<State>, steps: seq<Step>, n: nat, e: EngineId)
    requires IsRun(states, steps) && n < |states| && e < |states[n].engines|
    ensures
      var s := states[n];
      var handled := exists c: Coroutine :: Handles(s, c, e);
      && (s.engines[e].disposed ==> !Cached(s, e) && !handled)
      && (!s.engines[e].disposed ==> Cached(s, e) != handled)
      && forall c: Coroutine, d: Coroutine | Handles(s, c, e) && Handles(s, d, e) :: c == d
  {
    RunsKeepInv(states, steps, n);
  }

  /** Two live engines of one chronicle exist only while a close is still disposing of one. */
  lemma SecondEngineNeedsAClose(states: seq<State>, steps: seq<Step>, n: nat, e: EngineId, f: EngineId)
    requires IsRun(states, steps) && n < |states| && e < f < |states[n].engines|
    requires !states[n].engines[e].disposed && !states[n].engines[f].disposed
    requires states[n].engines[e].chronicle == states[n].engines[f].chronicle
    ensures exists c | c in states[n].phases ::
      states[n].phases[c] == Closing(e) || states[n].phases[c] == Closing(f)
  {
    RunsKeepInv(states, steps, n);
    var s := states[n];
    assert Cached(s, e) || exists c: Coroutine :: Handles(s, c, e);
    assert Cached(s, f) || exists c: Coroutine :: Handles(s, c, f);
  }

  /** Two engines of the chronicle are alive. */
  ghost predicate TwoLive(s: State, k: Chronicle) {
    exists e, f | 0 <= e < f < |s.engines| :: LiveFor(s, e, k) && LiveFor(s, f, k)
  }

  predicate LiveFor(s: State, e: EngineId, k: Chronicle)
    requires e < |s.engines|
  {
    !s.engines[e].disposed && s.engines[e].chronicle == k
  }

  /** A close of the chronicle has popped its engine and is still disposing of it. */
  ghost predicate BeingClosed(s: State, k: Chronicle) {
    exists c, e | c in s.phases && 0 <= e < |s.engines| :: s.phases[c] == Closing(e) && s.engines[e].chronicle == k
  }

  /** An opener gets the lock, finds the chronicle not cached, and meets such a close. */
  ghost predicate MeetsClose(s: State, a: Step, k: Chronicle) {
    && a.TakeLock? && a.c in s.phases && s.phases[a.c] == Waiting(k)
    && k !in s.cache && BeingClosed(s, k)
  }

  /** What an opener creates is the second live engine exactly when the first is being closed. */
  lemma CreationMakesTwoExactlyInAClose(s: State, c: Coroutine)
    requires Inv(s) && Enabled(s, TakeLock(c)) && s.phases[c].chronicle !in s.cache
    requires !TwoLive(s, s.phases[c].chronicle)
    ensures TwoLive(Apply(s, TakeLock(c)), s.phases[c].chronicle) <==> BeingClosed(s, s.phases[c].chronicle)
  {
    var k, t := s.phases[c].chronicle, Apply(s, TakeLock(c));
    var created := |s.engines|;
    assert t.engines[created] == Engine(k, false, false);
    if TwoLive(t, k) {
      var e, f :| 0 <= e < f < |t.engines| && LiveFor(t, e, k) && LiveFor(t, f, k);
      assert f == created by {
        if f < created {
          assert LiveFor(s, e, k) && LiveFor(s, f, k);
        }
      }
      assert LiveFor(s, e, k) && !Cached(s, e);
      var d: Coroutine :| Handles(s, d, e);
      assert s.phases[d] == Closing(e);
    }
    if BeingClosed(s, k) {
      var d, e :| d in s.phases && 0 <= e < |s.engines| && s.phases[d] == Closing(e) && s.engines[e].chronicle == k;
      assert Handles(s, d, e);
      assert HandGood(s, d, e);
      assert LiveFor(t, e, k) && LiveFor(t, created, k);
    }
  }

  /** No other step can make two. */
  lemma TwoLiveExactlyWhenCloseIsMet(s: State, a: Step, k: Chronicle)
    requires Inv(s) && Enabled(s, a) && !TwoLive(s, k)
    ensures TwoLive(Apply(s, a), k) <==> MeetsClose(s, a, k)
  {
    var t := Apply(s, a);
    if a.TakeLock? && s.phases[a.c].chronicle == k && k !in s.cache {
      CreationMakesTwoExactlyInAClose(s, a.c);
    } else if TwoLive(t, k) {
      var e, f :| 0 <= e < f < |t.engines| && LiveFor(t, e, k) && LiveFor(t, f, k);
      assert f < |s.engines| && LiveFor(s, e, k) && LiveFor(s, f, k);
    }
  }

  /** Over any run: a chronicle has two live engines at some point exactly when, at some step
      before it, an opener created one while the last was being closed. */
  lemma {:induction false} RunHasTwoLiveExactlyWhenACloseIsMet(states: seq<State>, steps: seq<Step>, n: nat, k: Chronicle)
    requires IsRun(states, steps) && n < |states|
    ensures (exists i | 0 <= i <= n :: TwoLive(states[i], k))
      <==> (exists i | 0 <= i < n :: MeetsClose(states[i], steps[i], k))
  {
    if n > 0 {
      var s, a := states[n - 1], steps[n - 1];
      RunHasTwoLiveExactlyWhenACloseIsMet(states, steps, n - 1, k);
      RunsKeepInv(states, steps, n - 1);
      assert Leads(s, a, states[n]);
      if !TwoLive(s, k) {
        TwoLiveExactlyWhenCloseIsMet(s, a, k);
      }
    }
  }

  const FRESH := Engine(7, false, false)
  const MIGRATED := Engine(7, true, false)
  /** Chronicle 7 has been opened once. */
  const OPEN_ONCE := State(map[7 := 0], None, [MIGRATED], map[0 := Phase.Opened(0)], map[], [Handed(7, 0, 0)])

  lemma OpensOnce(s1: State, s2: State)
    requires s1 == EMPTY.(phases := map[0 := Waiting(7)])
    requires s2 == State(map[], Some(0), [FRESH], map[0 := Migrating(0)], map[], [])
    ensures Leads(EMPTY, StartOpen(0, 7), s1) && Leads(s1, TakeLock(0), s2) && Leads(s2, MigrationDone(0), OPEN_ONCE)
  {
  }

  lemma OpensAgain(s4: State, s5: State, s6: State)
    requires s4 == OPEN_ONCE.(cache := map[], phases := map[0 := Phase.Opened(0), 1 := Closing(0)], periods := map[7 := 1])
    requires s5 == s4.(phases := s4.phases[2 := Waiting(7)])
    requires s6 == s5.(lock := Some(2), engines := [MIGRATED, FRESH], phases := s4.phases[2 := Migrating(1)])
    ensures Leads(OPEN_ONCE, StartClose(1, 7), s4) && Leads(s4, StartOpen(2, 7), s5) && Leads(s5, TakeLock(2), s6)
  {
  }

  /** And that does happen: a chronicle opened, closed and opened again before the first engine
      is gone. */
  lemma SecondEngineIsPossible()
    ensures
      var steps := [StartOpen(0, 7), TakeLock(0), MigrationDone(0), StartClose(1, 7), StartOpen(2, 7), TakeLock(2)];
      exists states: seq<State> :: IsRun(states, steps) &&
        states[6].engines == [Engine(7, true, false), Engine(7, false, false)]
  {
    var steps := [StartOpen(0, 7), TakeLock(0), MigrationDone(0), StartClose(1, 7), StartOpen(2, 7), TakeLock(2)];
    var s1 := EMPTY.(phases := map[0 := Waiting(7)]);
    var s2 := State(map[], Some(0), [FRESH], map[0 := Migrating(0)], map[], []);
    var s4 := OPEN_ONCE.(cache := map[], phases := map[0 := Phase.Opened(0), 1 := Closing(0)], periods := map[7 := 1]);
    var s5 := s4.(phases := s4.phases[2 := Waiting(7)]);
    var s6 := s5.(lock := Some(2), engines := [MIGRATED, FRESH], phases := s4.phases[2 := Migrating(1)]);
    OpensOnce(s1, s2);
    OpensAgain(s4, s5, s6);
    var states := [EMPTY, s1, s2, OPEN_ONCE, s4, s5, s6];
    forall i | 0 <= i < 6 ensures Leads(states[i], steps[i], states[i + 1]) {
    }
    assert IsRun(states, steps);
  }

  // ---------------------------------------------------------------------------
  // The manager itself: each method is the code between two awaits

  class DatabaseManager {
    var projectEngines: map<Chronicle, EngineId>
    var migrationLock: Option<Coroutine>
    var engines: seq<Engine>
    ghost var phases: map<Coroutine, Phase>
    ghost var periods: map<Chronicle, nat>
    ghost var handed: seq<Handed>

    ghost function View(): State
      reads this
    {
      State(projectEngines, migrationLock, engines, phases, periods, handed)
    }

    constructor ()
      ensures View() == EMPTY
    {
      projectEngines, migrationLock, engines := map[], None, [];
      phases, periods, handed := map[], map[], [];
    }

    ghost method Hand(c: Coroutine, chronicle: Chronicle)
      requires chronicle in projectEngines
      modifies this`phases, this`handed
      ensures View() == Return(old(View()), c, chronicle)
    {
      var engine := projectEngines[chronicle];
      phases := phases[c := Opened(engine)];
      handed := handed + [Handed(chronicle, Period(View(), chronicle), engine)];
    }

    /** _project_engine up to the lock: the unlocked look in the cache. */
    method LookUp(c: Coroutine, chronicle: Chronicle) returns (engine: Option<EngineId>)
      requires c !in phases
      modifies this
      ensures View() == Apply(old(View()), StartOpen(c, chronicle))
      ensures engine.Some? ==> phases[c] == Opened(engine.value)
      ensures engine.None? ==> phases[c] == Waiting(chronicle)
    {
      if chronicle in projectEngines {
        engine := Some(projectEngines[chronicle]);
        Hand(c, chronicle);
      } else {
        engine := None;
        phases := phases[c := Waiting(chronicle)];
      }
    }

    /** _project_engine once it has the lock: the second look, and the engine it creates. */
    method LookAgain(c: Coroutine, chronicle: Chronicle) returns (engine: EngineId, created: bool)
      requires c in phases && phases[c] == Waiting(chronicle) && migrationLock.None?
      modifies this
      ensures View() == Apply(old(View()), TakeLock(c))
      ensures phases[c] == if created then Migrating(engine) else Opened(engine)
    {
      if chronicle in projectEngines {
        engine, created := projectEngines[chronicle], false;
        Hand(c, chronicle);
      } else {
        engine, created := |engines|, true;
        migrationLock := Some(c);
        engines := engines + [Engine(chronicle, false, false)];
        phases := phases[c := Migrating(engine)];
      }
    }

    /** _project_engine after its migration: cache the engine, give up the lock, return. */
    method Keep(c: Coroutine, chronicle: Chronicle, engine: EngineId)
      requires c in phases && phases[c] == Migrating(engine)
      requires engine < |engines| && engines[engine].chronicle == chronicle
      modifies this
      ensures View() == Apply(old(View()), MigrationDone(c))
    {
      engines := engines[engine := engines[engine].(migrated := true)];
      projectEngines := projectEngines[chronicle := engine];
      migrationLock := None;
      Hand(c, chronicle);
    }

    /** close_project up to its await: the engine leaves the cache at once, without the lock. */
    method Pop(c: Coroutine, chronicle: Chronicle) returns (engine: Option<EngineId>)
      requires c !in phases
      modifies this
      ensures View() == Apply(old(View()), StartClose(c, chronicle))
      ensures phases[c] == if engine.Some? then Closing(engine.value) else Ended
    {
      if chronicle in projectEngines {
        engine := Some(projectEngines[chronicle]);
        phases := phases[c := Closing(projectEngines[chronicle])];
        periods := periods[chronicle := Period(View(), chronicle) + 1];
        projectEngines := projectEngines - {chronicle};
      } else {
        engine := None;
        phases := phases[c := Ended];
      }
    }

    /** The await of engine.dispose, in close_project or, still locked, after a failed migration. */
    method DisposeEngine(c: Coroutine, engine: EngineId, failed: bool)
      requires c in phases && engine < |engines|
      requires phases[c] == if failed then Failing(engine) else Closing(engine)
      modifies this
      ensures View() == Apply(old(View()), if failed then FailureDisposed(c) else CloseDisposed(c))
    {
      engines := engines[engine := engines[engine].(disposed := true)];
      if failed {
        migrationLock := None;
      }
      phases := phases[c := Ended];
    }
  }
}
