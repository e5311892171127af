/** What the guard's acceptance is worth: every accepted pattern is matched in polynomial work. */
module GuardSoundness {
  import opened Options
  import opened RegexSyntax
  import opened Backtracking
  import opened Powers
  import opened SafeBodies
  import opened CapturedGroups

  // ---------------------------------------------------------------------------
  // The three figures of a pattern the bounds are stated in

  /** The repeats that can follow one another on one way through the pattern. */
  function Repeats(data: seq<Node>): nat {
    if data == [] then 0 else NodeRepeats(data[0]) + Repeats(data[1..])
  }

  function NodeRepeats(n: Node): nat
    decreases n, 1
  {
    match n
    case Repeat(_, _, _, body) => 1 + Repeats(body.data)
    case Group(_, body) => Repeats(body.data)
    case Assert(_, _, body) => Repeats(body.data)
    case Branch(branches) => BranchRepeats(n, 0)
    case _ => 0
  }

  function BranchRepeats(n: Node, i: nat): nat
    requires n.Branch? && i <= |n.branches|
    decreases n, 0, |n.branches| - i
  {
    if i == |n.branches| then 0
    else
      var here, rest := Repeats(n.branches[i].data), BranchRepeats(n, i + 1);
      if here > rest then here else rest
  }

  /** The ways to choose a branch at every alternation outside the repeats. */
  function Choices(data: seq<Node>): nat {
    if data == [] then 1 else NodeChoices(data[0]) * Choices(data[1..])
  }

  function NodeChoices(n: Node): nat
    decreases n, 1
  {
    match n
    case Group(_, body) => Choices(body.data)
    case Branch(branches) => BranchChoices(n, 0)
    case _ => 1
  }

  function BranchChoices(n: Node, i: nat): nat
    requires n.Branch? && i <= |n.branches|
    decreases n, 0, |n.branches| - i
  {
    if i == |n.branches| then 0 else Choices(n.branches[i].data) + BranchChoices(n, i + 1)
  }

  /** The work of one pass, which depends on the pattern alone. */
  function Effort(data: seq<Node>): nat {
    if data == [] then 1 else NodeEffort(data[0]) + NodeChoices(data[0]) * Effort(data[1..])
  }

  function NodeEffort(n: Node): nat
    decreases n, 1
  {
    match n
    case Group(_, body) => 1 + Effort(body.data)
    case Branch(branches) => 1 + BranchEffort(n, 0)
    case Repeat(_, min, _, body) => (min + 1) * (1 + Effort(body.data))
    case Assert(_, _, body) => 1 + Effort(body.data)
    case _ => 1
  }

  function BranchEffort(n: Node, i: nat): nat
    requires n.Branch? && i <= |n.branches|
    decreases n, 0, |n.branches| - i
  {
    if i == |n.branches| then 0 else Effort(n.branches[i].data) + BranchEffort(n, i + 1)
  }

  /** The repeats anywhere in a pattern. */
  function RepeatNodes(data: seq<Node>): nat {
    if data == [] then 0 else RepeatNodesOf(data[0]) + RepeatNodes(data[1..])
  }

  function RepeatNodesOf(n: Node): nat
    decreases n, 1
  {
    match n
    case Repeat(_, _, _, body) => 1 + RepeatNodes(body.data)
    case Group(_, body) => RepeatNodes(body.data)
    case Assert(_, _, body) => RepeatNodes(body.data)
    case Branch(branches) => RepeatNodesFrom(n, 0)
    case _ => 0
  }

  function RepeatNodesFrom(n: Node, i: nat): nat
    requires n.Branch? && i <= |n.branches|
    decreases n, 0, |n.branches| - i
  {
    if i == |n.branches| then 0 else RepeatNodes(n.branches[i].data) + RepeatNodesFrom(n, i + 1)
  }

  predicate NoAlternation(data: seq<Node>) {
    forall i | 0 <= i < |data| :: NoAlternationIn(data[i])
  }

  predicate NoAlternationIn(n: Node) {
    match n
    case Group(_, body) => NoAlternation(body.data)
    case Branch(_) => false
    case _ => true
  }

  /** The degree is at most the number of repeats, and without alternations outside repeats and
      assertions there is one choice only. */
  lemma {:induction false} FiguresMean(data: seq<Node>)
    ensures Repeats(data) <= RepeatNodes(data)
    ensures NoAlternation(data) ==> Choices(data) == 1
    decreases data, 0, 0
  {
    if data != [] {
      NodeFiguresMean(data[0]);
      FiguresMean(data[1..]);
      if NoAlternation(data) {
        assert NoAlternationIn(data[0]) && NoAlternation(data[1..]);
      }
    }
  }

  lemma {:induction false} NodeFiguresMean(n: Node)
    ensures NodeRepeats(n) <= RepeatNodesOf(n)
    ensures NoAlternationIn(n) ==> NodeChoices(n) == 1
    decreases n, 1, 0
  {
    match n
    case Group(_, body) => FiguresMean(body.data);
    case Repeat(_, _, _, body) => FiguresMean(body.data);
    case Assert(_, _, body) => FiguresMean(body.data);
    case Branch(_) => BranchFiguresMean(n, 0);
    case _ =>
  }

  lemma {:induction false} BranchFiguresMean(n: Node, i: nat)
    requires n.Branch? && i <= |n.branches|
    ensures BranchRepeats(n, i) <= RepeatNodesFrom(n, i)
    decreases n, 0, |n.branches| - i
  {
    if i < |n.branches| {
      FiguresMean(n.branches[i].data);
      BranchFiguresMean(n, i + 1);
    }
  }

  // ---------------------------------------------------------------------------
  // Counting the ways

  /** A loop over an unambiguous body is a single chain, left at most once per position. */
  lemma {:induction false} LoopWays(n: Node, x: Input, s: State, count: nat, last: Option<nat>)
    requires n.Repeat? && !DangerousBody(n.body) && s.pos <= |x|
    ensures |Loop(n, x, s, count, last)|
      <= |x| - s.pos + if count >= n.min && last == Some(s.pos) then 1 else 2
    decreases Room(n.min, x, s.pos, count, last)
  {
    if Continues(n, s.pos, count, last) {
      SafeBodyIsUnambiguous(n.body, x, s);
      var ss := Ends(n.body.data, x, s);
      if ss != [] {
        LoopWays(n, x, ss[0], count + 1, Mark(n, s.pos, count, last));
        assert LoopAll(n, x, s, ss[1..], count, last) == [];
      }
    }
  }

  /** A loop whose iterations all move on is left at most once per position. */
  lemma {:induction false} MovingLoopWays(n: Node, x: Input, s: State, count: nat, last: Option<nat>)
    requires n.Repeat? && s.pos <= |x| && OneWay(n.body.data, x) && Moving(n.body)
    ensures |Loop(n, x, s, count, last)| <= |x| - s.pos + 1
    decreases |x| - s.pos
  {
    if Continues(n, s.pos, count, last) {
      var ss := Ends(n.body.data, x, s);
      assert |ss| <= 1;
      if ss != [] {
        DataMoves(n.body.data, x, s);
        assert ss[0] in ss;
        MovingLoopWays(n, x, ss[0], count + 1, Mark(n, s.pos, count, last));
        assert LoopAll(n, x, s, ss[1..], count, last) == [];
      }
    }
  }

  /** Every repeat outside the assertions moves on with each iteration. */
  predicate RepeatsMove(data: seq<Node>) {
    forall i | 0 <= i < |data| :: NodeRepeatsMove(data[i])
  }

  predicate NodeRepeatsMove(n: Node) {
    match n
    case Repeat(_, _, _, body) => Moving(body)
    case Group(_, body) => RepeatsMove(body.data)
    case Branch(branches) => forall i | 0 <= i < |branches| :: RepeatsMove(branches[i].data)
    case _ => true
  }

  /** The parser formed the pattern, what was captured so far is before it, and the input is
      not empty. */
  ghost predicate Fresh(formed: bool, x: Input, s: State, known: Groups) {
    formed && x != [] && s.groups.Keys <= known
  }

  lemma {:induction false} EndsAllWays(data: seq<Node>, x: Input, from: nat, ss: seq<State>, b: nat)
    requires Forward(x, from, ss)
    requires forall s <- ss :: |Ends(data, x, s)| <= b
    ensures |EndsAll(data, x, from, ss)| <= |ss| * b
  {
    if ss != [] {
      EndsAllWays(data, x, from, ss[1..], b);
      OneTimesMore(|ss|, b);
    }
  }

  lemma {:induction false} DataWays(data: seq<Node>, x: Input, s: State, N: nat, known: Groups)
    requires (forall n <- data :: !UnsafeNode(n)) && s.pos <= |x|
    requires N >= |x| + 2 || (N == |x| + 1 && (RepeatsMove(data) || Fresh(Formed(data, known), x, s, known)))
    ensures |Ends(data, x, s)| <= Choices(data) * Pow(N, Repeats(data))
    decreases data, 0, 0
  {
    if data != [] {
      var h, t, ss := data[0], data[1..], Step(data[0], x, s);
      var b := Choices(t) * Pow(N, Repeats(t));
      NodeWays(h, x, s, N, known);
      StepCaptures(h, x, s);
      forall e <- ss ensures |Ends(t, x, e)| <= b {
        DataWays(t, x, e, N, known + NodeCaptures(h));
      }
      EndsAllWays(t, x, s.pos, ss, b);
      MulMonotone(|ss|, b, NodeChoices(h) * Pow(N, NodeRepeats(h)), b);
      Shuffle(NodeChoices(h), Pow(N, NodeRepeats(h)), Choices(t), Pow(N, Repeats(t)));
      PowAdd(N, NodeRepeats(h), Repeats(t));
    }
  }

  lemma {:induction false} NodeWays(n: Node, x: Input, s: State, N: nat, known: Groups)
    requires !UnsafeNode(n) && s.pos <= |x|
    requires N >= |x| + 2 || (N == |x| + 1 && (NodeRepeatsMove(n) || Fresh(FormedNode(n, known), x, s, known)))
    ensures |Step(n, x, s)| <= NodeChoices(n) * Pow(N, NodeRepeats(n))
    decreases n, 1, 0
  {
    PowMonotone(N, 0, NodeRepeats(n));
    match n
    case Group(_, body) => DataWays(body.data, x, s, N, known);
    case Branch(_) => BranchWays(n, 0, x, s, N, known);
    case Repeat(_, _, _, body) =>
      RepeatWays(n, x, s, known);
      PowMonotone(N, 1, NodeRepeats(n));
      assert Pow(N, 1) == N;
    case _ =>
  }

  lemma {:induction false} RepeatWays(n: Node, x: Input, s: State, known: Groups)
    requires n.Repeat? && !UnsafeNode(n) && s.pos <= |x|
    ensures |Step(n, x, s)| <= |x| + 2
    ensures Moving(n.body) || Fresh(FormedNode(n, known), x, s, known) ==> |Step(n, x, s)| <= |x| + 1
  {
    LoopWays(n, x, s, 0, None);
    if Moving(n.body) {
      forall e: State | e.pos <= |x| ensures |Ends(n.body.data, x, e)| <= 1 {
        SafeBodyIsUnambiguous(n.body, x, e);
      }
      MovingLoopWays(n, x, s, 0, None);
    } else if Fresh(FormedNode(n, known), x, s, known) {
      SignsBeforeLoop(n.body, known, s.groups);
      SignedLoopWays(n, x, s, 0, None, Signs(n.body.data, Filled(s.groups)));
    }
  }

  lemma {:induction false} BranchWays(n: Node, i: nat, x: Input, s: State, N: nat, known: Groups)
    requires n.Branch? && !UnsafeNode(n) && i <= |n.branches| && s.pos <= |x|
    requires N >= |x| + 2 || (N == |x| + 1 && (NodeRepeatsMove(n) || Fresh(FormedBranches(n, i, known), x, s, known)))
    ensures |BranchEnds(n, i, x, s)| <= BranchChoices(n, i) * Pow(N, BranchRepeats(n, i))
    decreases n, 0, |n.branches| - i
  {
    if i < |n.branches| {
      var p := n.branches[i].data;
      DataWays(p, x, s, N, known);
      BranchWays(n, i + 1, x, s, N, known + Captures(p));
      BoundSum(N,
        |Ends(p, x, s)|, Choices(p), Repeats(p),
        |BranchEnds(n, i + 1, x, s)|, BranchChoices(n, i + 1), BranchRepeats(n, i + 1),
        BranchRepeats(n, i));
    }
  }

  // ---------------------------------------------------------------------------
  // Counting the work

  lemma {:induction false} WorkAllBound(data: seq<Node>, x: Input, from: nat, ss: seq<State>, b: nat)
    requires Forward(x, from, ss)
    requires forall s <- ss :: Work(data, x, s) <= b
    ensures WorkAll(data, x, from, ss) <= |ss| * b
  {
    if ss != [] {
      WorkAllBound(data, x, from, ss[1..], b);
      OneTimesMore(|ss|, b);
    }
  }

  /** A loop over a body with at most one way through is walked one iteration after another. */
  lemma LoopWorkChain(n: Node, x: Input, s: State, count: nat, last: Option<nat>)
    requires n.Repeat? && s.pos <= |x| && Continues(n, s.pos, count, last)
    requires |Ends(n.body.data, x, s)| <= 1
    ensures
      var ss := Ends(n.body.data, x, s);
      LoopWork(n, x, s, count, last) == 1 + Work(n.body.data, x, s)
        + if ss == [] then 0 else LoopWork(n, x, ss[0], count + 1, Mark(n, s.pos, count, last))
  {
    var ss := Ends(n.body.data, x, s);
    if ss != [] {
      assert LoopWorkAll(n, x, s, ss[1..], count, last) == 0;
    }
  }

  ghost predicate WorkAtMost(data: seq<Node>, x: Input, w: nat) {
    forall e: State | e.pos <= |x| :: Work(data, x, e) <= w
  }

  /** Each iteration that goes on leaves room for fewer. */
  lemma RoomShrinks(n: Node, x: Input, from: nat, to: nat, count: nat, last: Option<nat>)
    requires n.Repeat? && from <= to <= |x| && Continues(n, from, count, last)
    ensures Room(n.min, x, to, count + 1, Mark(n, from, count, last)) + 1 <= Room(n.min, x, from, count, last)
  {
  }

  lemma {:induction false} LoopWorkBound(n: Node, x: Input, s: State, count: nat, last: Option<nat>, w: nat, room: nat)
    requires n.Repeat? && s.pos <= |x| && OneWay(n.body.data, x) && WorkAtMost(n.body.data, x, w)
    requires Room(n.min, x, s.pos, count, last) <= room
    ensures LoopWork(n, x, s, count, last) <= Iterations(room + 1, w)
    decreases room
  {
    if Continues(n, s.pos, count, last) {
      var body, ss := Work(n.body.data, x, s), Ends(n.body.data, x, s);
      assert body <= w && |ss| <= 1;
      LoopWorkChain(n, x, s, count, last);
      if ss != [] {
        RoomShrinks(n, x, s.pos, ss[0].pos, count, last);
        LoopWorkBound(n, x, ss[0], count + 1, Mark(n, s.pos, count, last), w, room - 1);
      }
    }
  }

  lemma {:induction false} DataWork(data: seq<Node>, x: Input, s: State)
    requires (forall n <- data :: !UnsafeNode(n)) && s.pos <= |x|
    ensures Work(data, x, s) <= Effort(data) * Pow(|x| + 2, Repeats(data))
    decreases data, 0, 0
  {
    if data != [] {
      var h, t, ss := data[0], data[1..], Step(data[0], x, s);
      var N := |x| + 2;
      var b := Effort(t) * Pow(N, Repeats(t));
      NodeWays(h, x, s, N, {});
      NodeWork(h, x, s);
      forall e <- ss ensures Work(t, x, e) <= b {
        DataWork(t, x, e);
      }
      WorkAllBound(t, x, s.pos, ss, b);
      MulMonotone(|ss|, b, NodeChoices(h) * Pow(N, NodeRepeats(h)), b);
      Shuffle(NodeChoices(h), Pow(N, NodeRepeats(h)), Effort(t), Pow(N, Repeats(t)));
      PowAdd(N, NodeRepeats(h), Repeats(t));
      BoundSum(N,
        StepWork(h, x, s), NodeEffort(h), NodeRepeats(h),
        WorkAll(t, x, s.pos, ss), NodeChoices(h) * Effort(t), Repeats(data),
        Repeats(data));
    }
  }

  lemma {:induction false} NodeWork(n: Node, x: Input, s: State)
    requires !UnsafeNode(n) && s.pos <= |x|
    ensures StepWork(n, x, s) <= NodeEffort(n) * Pow(|x| + 2, NodeRepeats(n))
    decreases n, 1, 0
  {
    var N := |x| + 2;
    PowMonotone(N, 0, NodeRepeats(n));
    match n
    case Group(_, body) =>
      DataWork(body.data, x, s);
      OneMore(Work(body.data, x, s), Effort(body.data), Pow(N, Repeats(body.data)));
    case Assert(_, back, body) =>
      if back <= s.pos {
        DataWork(body.data, x, s.(pos := s.pos - back));
        OneMore(Work(body.data, x, s.(pos := s.pos - back)), Effort(body.data), Pow(N, Repeats(body.data)));
      } else {
        OneMore(0, Effort(body.data), Pow(N, Repeats(body.data)));
      }
    case Branch(_) =>
      BranchWorkBound(n, 0, x, s);
      OneMore(BranchWork(n, 0, x, s), BranchEffort(n, 0), Pow(N, BranchRepeats(n, 0)));
    case Repeat(_, _, _, _) => RepeatWork(n, x, s);
    case _ =>
  }

  lemma {:induction false} RepeatWork(n: Node, x: Input, s: State)
    requires n.Repeat? && !UnsafeNode(n) && s.pos <= |x|
    ensures StepWork(n, x, s) <= NodeEffort(n) * Pow(|x| + 2, NodeRepeats(n))
    decreases n, 0, 0
  {
    var N, body := |x| + 2, n.body;
    var P, c := Pow(N, Repeats(body.data)), Effort(body.data);
    forall e: State | e.pos <= |x| ensures Work(body.data, x, e) <= c * P {
      DataWork(body.data, x, e);
    }
    WholeLoopWork(n, x, s, c * P);
    PowMonotone(N, 0, Repeats(body.data));
    RepeatArithmetic(n.min, N, Room(n.min, x, s.pos, 0, None), c, P);
  }

  lemma WholeLoopWork(n: Node, x: Input, s: State, w: nat)
    requires n.Repeat? && !UnsafeNode(n) && s.pos <= |x| && WorkAtMost(n.body.data, x, w)
    ensures StepWork(n, x, s) <= (Room(n.min, x, s.pos, 0, None) + 1) * (1 + w)
  {
    forall e: State | e.pos <= |x| ensures |Ends(n.body.data, x, e)| <= 1 {
      SafeBodyIsUnambiguous(n.body, x, e);
    }
    LoopWorkBound(n, x, s, 0, None, w, Room(n.min, x, s.pos, 0, None));
    IterationsIsProduct(Room(n.min, x, s.pos, 0, None) + 1, w);
  }


  lemma {:induction false} BranchWorkBound(n: Node, i: nat, x: Input, s: State)
    requires n.Branch? && !UnsafeNode(n) && i <= |n.branches| && s.pos <= |x|
    ensures BranchWork(n, i, x, s) <= BranchEffort(n, i) * Pow(|x| + 2, BranchRepeats(n, i))
    decreases n, 0, |n.branches| - i
  {
    if i < |n.branches| {
      var p := n.branches[i].data;
      DataWork(p, x, s);
      BranchWorkBound(n, i + 1, x, s);
      BoundSum(|x| + 2,
        Work(p, x, s), Effort(p), Repeats(p),
        BranchWork(n, i + 1, x, s), BranchEffort(n, i + 1), BranchRepeats(n, i + 1),
        BranchRepeats(n, i));
    }
  }

  // ---------------------------------------------------------------------------
  // The main results

  const START := State(0, map[])

  /** Every accepted pattern, from any state of any input: the ways through it and the work
      of trying them all are polynomial, of a degree the pattern's repeats bound. */
  lemma AcceptedPatternsArePolynomial(length: nat, parsed: Option<SubPattern>, x: Input, s: State)
    requires AssertSafePattern(length, parsed).Accepted? && s.pos <= |x|
    ensures
      var d := parsed.value.data;
      && |Ends(d, x, s)| <= Choices(d) * Pow(|x| + 2, Repeats(d))
      && Work(d, x, s) <= Effort(d) * Pow(|x| + 2, Repeats(d))
  {
    DataWays(parsed.value.data, x, s, |x| + 2, {});
    DataWork(parsed.value.data, x, s);
  }

  /** The same bound over |x| + 1, at the price of a factor two for each repeat. */
  lemma AcceptedPatternsOverLengthPlusOne(p: SubPattern, x: Input)
    requires !FindUnsafeRepeat(p)
    ensures |Ends(p.data, x, START)|
      <= (Choices(p.data) * Pow(2, Repeats(p.data))) * Pow(|x| + 1, Repeats(p.data))
  {
    var c, r := Choices(p.data), Repeats(p.data);
    DataWays(p.data, x, START, |x| + 2, {});
    PowBase(|x| + 2, 2 * (|x| + 1), r);
    PowProduct(2, |x| + 1, r);
    Regroup(|Ends(p.data, x, START)|, c, Pow(|x| + 2, r), Pow(2, r), Pow(|x| + 1, r));
  }

  /** On an input that is not empty no pattern the parser forms needs that factor. */
  lemma NonEmptyInputsMeetTheTighterBound(p: SubPattern, x: Input)
    requires !FindUnsafeRepeat(p) && Formed(p.data, {}) && x != []
    ensures |Ends(p.data, x, START)| <= Choices(p.data) * Pow(|x| + 1, Repeats(p.data))
  {
    DataWays(p.data, x, START, |x| + 1, {});
  }

  /** On the empty one neither, where every iteration of a repeat moves on. */
  lemma MovingRepeatsMeetTheTighterBound(p: SubPattern, x: Input, s: State)
    requires !FindUnsafeRepeat(p) && RepeatsMove(p.data) && s.pos <= |x|
    ensures |Ends(p.data, x, s)| <= Choices(p.data) * Pow(|x| + 1, Repeats(p.data))
  {
    DataWays(p.data, x, s, |x| + 1, {});
  }

  /** So whether the choices and the degree alone bound the ways is decided by the ways through
      the empty input. */
  lemma TighterBoundExactlyWhenOnTheEmptyInput(p: SubPattern)
    requires !FindUnsafeRepeat(p) && Formed(p.data, {})
    ensures (forall x: Input :: |Ends(p.data, x, START)| <= Choices(p.data) * Pow(|x| + 1, Repeats(p.data)))
      <==> |Ends(p.data, [], START)| <= Choices(p.data)
  {
    var c, r := Choices(p.data), Repeats(p.data);
    PowOfOne(r);
    assert c * Pow(0 + 1, r) == c;
    forall x: Input | x != [] ensures |Ends(p.data, x, START)| <= c * Pow(|x| + 1, r) {
      NonEmptyInputsMeetTheTighterBound(p, x);
    }
  }

  /** And there it can fail: the accepted `()*` has two ways through the empty input. */
  lemma EmptyIterationCountsTwice()
    ensures
      var p := SubPattern([Repeat(true, 0, None, SubPattern([Group(Some(1), SubPattern([]))]))]);
      && !FindUnsafeRepeat(p) && Formed(p.data, {})
      && |Ends(p.data, [], START)| == 2 && Choices(p.data) == 1
  {
    var group := Group(Some(1), SubPattern([]));
    var n := Repeat(true, 0, None, SubPattern([group]));
    EmptyGroupLoops(group, n);
    SingleNode(n, [], START);
    SingleFigures(n);
    EmptyGroupIsFormed(group, n);
  }

  lemma EmptyGroupIsFormed(group: Node, n: Node)
    requires group == Group(Some(1), SubPattern([])) && n == Repeat(true, 0, None, SubPattern([group]))
    ensures Formed([n], {})
  {
    assert [group][1..] == [] && [n][1..] == [];
    assert Formed([group], {});
  }

  lemma EmptyGroupLoops(group: Node, n: Node)
    requires group == Group(Some(1), SubPattern([])) && n == Repeat(true, 0, None, SubPattern([group]))
    ensures |Step(n, [], START)| == 2
  {
    var captured := State(0, map[1 := []]);
    SingleNode(group, [], START);
    assert Ends([], [], START) == [START];
    assert Ends([group], [], START) == [captured];
    assert Loop(n, [], captured, 1, Some(0)) == [captured];
    assert LoopAll(n, [], START, [captured], 0, None) == [captured];
  }

  lemma SingleFigures(n: Node)
    ensures Repeats([n]) == NodeRepeats(n) && Choices([n]) == NodeChoices(n)
  {
    assert [n][1..] == [];
  }

  lemma {:induction false} EndsAllOfNothing(x: Input, from: nat, ss: seq<State>)
    requires Forward(x, from, ss)
    ensures EndsAll([], x, from, ss) == ss
  {
    if ss != [] {
      EndsAllOfNothing(x, from, ss[1..]);
    }
  }

  lemma SingleNode(n: Node, x: Input, s: State)
    requires s.pos <= |x|
    ensures Ends([n], x, s) == Step(n, x, s)
  {
    EndsAllOfNothing(x, s.pos, Step(n, x, s));
    assert [n][1..] == [];
  }
}
