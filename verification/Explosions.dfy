/** The shapes the guard exists to reject: a repeat over an ambiguous body is exponential. */
module Explosions {
  import opened Options
  import opened RegexSyntax
  import opened Backtracking
  import opened Powers
  import opened GuardSoundness

  /** From `s` the body can stop within `stride` characters, having moved, in two ways. */
  ghost predicate TwoWays(body: SubPattern, x: Input, s: State, stride: nat)
    requires s.pos <= |x|
  {
    var ss := Ends(body.data, x, s);
    exists i, j | 0 <= i < j < |ss| :: Onward(s, ss[i], stride) && Onward(s, ss[j], stride)
  }

  predicate Onward(s: State, e: State, stride: nat) {
    s.pos < e.pos <= s.pos + stride
  }

  ghost predicate TwoWaysOnward(body: SubPattern, x: Input, stride: nat) {
    forall s: State | s.pos + stride <= |x| :: TwoWays(body, x, s, stride)
  }

  lemma PickTwo(body: SubPattern, x: Input, s: State, stride: nat) returns (i: nat, j: nat)
    requires TwoWaysOnward(body, x, stride) && s.pos + stride <= |x|
    ensures
      var ss := Ends(body.data, x, s);
      i < j < |ss| && Onward(s, ss[i], stride) && Onward(s, ss[j], stride)
  {
    var ss := Ends(body.data, x, s);
    assert TwoWays(body, x, s, stride);
    i, j :| 0 <= i < j < |ss| && Onward(s, ss[i], stride) && Onward(s, ss[j], stride);
  }

  /** An unbounded repeat of such a body doubles its ways with every stride. */
  lemma {:induction false} AmbiguousRepeatIsExponential(
      n: Node, x: Input, s: State, count: nat, last: Option<nat>, stride: nat, rounds: nat)
    requires n.Repeat? && n.max.None? && n.min <= count && TwoWaysOnward(n.body, x, stride)
    requires s.pos + rounds * stride <= |x| && last != Some(s.pos)
    ensures |Loop(n, x, s, count, last)| >= Pow(2, rounds)
    decreases rounds
  {
    if rounds > 0 {
      OneTimesMore(rounds, stride);
      var i, j := PickTwo(n.body, x, s, stride);
      var ss := Ends(n.body.data, x, s);
      LoopKeepsTwo(n, x, s, count, last, i, j);
      AmbiguousRepeatIsExponential(n, x, ss[i], count + 1, Some(s.pos), stride, rounds - 1);
      AmbiguousRepeatIsExponential(n, x, ss[j], count + 1, Some(s.pos), stride, rounds - 1);
    }
  }

  lemma {:induction false} LoopAllKeepsOne(n: Node, x: Input, s: State, ss: seq<State>,
      count: nat, last: Option<nat>, j: nat)
    requires n.Repeat? && s.pos <= |x| && Forward(x, s.pos, ss) && j < |ss|
    requires Continues(n, s.pos, count, last)
    ensures |LoopAll(n, x, s, ss, count, last)|
      >= |Loop(n, x, ss[j], count + 1, Mark(n, s.pos, count, last))|
  {
    if j > 0 {
      LoopAllKeepsOne(n, x, s, ss[1..], count, last, j - 1);
    }
  }

  lemma {:induction false} LoopAllKeepsTwo(n: Node, x: Input, s: State, ss: seq<State>,
      count: nat, last: Option<nat>, i: nat, j: nat)
    requires n.Repeat? && s.pos <= |x| && Forward(x, s.pos, ss) && i < j < |ss|
    requires Continues(n, s.pos, count, last)
    ensures |LoopAll(n, x, s, ss, count, last)|
      >= |Loop(n, x, ss[i], count + 1, Mark(n, s.pos, count, last))|
       + |Loop(n, x, ss[j], count + 1, Mark(n, s.pos, count, last))|
  {
    if i > 0 {
      LoopAllKeepsTwo(n, x, s, ss[1..], count, last, i - 1, j - 1);
    } else {
      LoopAllKeepsOne(n, x, s, ss[1..], count, last, j - 1);
    }
  }

  lemma LoopKeepsTwo(n: Node, x: Input, s: State, count: nat, last: Option<nat>, i: nat, j: nat)
    requires n.Repeat? && s.pos <= |x| && Continues(n, s.pos, count, last) && n.min <= count
    requires i < j < |Ends(n.body.data, x, s)|
    ensures
      var ss := Ends(n.body.data, x, s);
      |Loop(n, x, s, count, last)| >= |Loop(n, x, ss[i], count + 1, Some(s.pos))| + |Loop(n, x, ss[j], count + 1, Some(s.pos))|
  {
    LoopAllKeepsTwo(n, x, s, Ends(n.body.data, x, s), count, last, i, j);
  }

  const LETTER_A: nat := 97
  const A := SubPattern([Literal(LETTER_A)])

  predicate AllAs(x: Input) {
    forall i | 0 <= i < |x| :: x[i] == LETTER_A
  }

  function As(n: nat): (x: Input)
    ensures |x| == n && AllAs(x)
  {
    seq(n, _ => LETTER_A)
  }

  lemma OneA(x: Input, s: State)
    requires s.pos <= |x| && AllAs(x)
    ensures Ends(A.data, x, s) == if s.pos < |x| then [s.(pos := s.pos + 1)] else []
  {
    SingleNode(Literal(LETTER_A), x, s);
  }

  // ---------------------------------------------------------------------------
  // `(a|a)*`, whose common start the parser moves out of the alternation

  const NOTHING := SubPattern([])
  const EITHER := Branch([NOTHING, NOTHING])
  const A_OR_A := SubPattern([Literal(LETTER_A), EITHER])

  lemma EitherTwice(x: Input, s: State)
    requires s.pos <= |x|
    ensures Ends([EITHER], x, s) == [s, s]
  {
    SingleNode(EITHER, x, s);
    assert BranchEnds(EITHER, 1, x, s) == [s];
  }

  lemma LetterTwice(x: Input, s: State)
    requires s.pos < |x| && AllAs(x)
    ensures Ends(A_OR_A.data, x, s) == [s.(pos := s.pos + 1), s.(pos := s.pos + 1)]
  {
    var next := s.(pos := s.pos + 1);
    assert A_OR_A.data[1..] == [EITHER];
    EitherTwice(x, next);
    assert EndsAll([EITHER], x, s.pos, [next]) == [next, next];
  }

  /** `(a|a)*` is rejected, and has at least 2^n ways through n letters. */
  lemma OverlappingBranchesExplode(n: nat)
    ensures
      var p := SubPattern([Repeat(true, 0, None, SubPattern([Group(Some(1), A_OR_A)]))]);
      FindUnsafeRepeat(p) && |Ends(p.data, As(n), START)| >= Pow(2, n)
  {
    var group := Group(Some(1), A_OR_A);
    var r := Repeat(true, 0, None, SubPattern([group]));
    var x := As(n);
    forall s: State | s.pos + 1 <= |x| ensures TwoWays(r.body, x, s, 1) {
      LetterTwice(x, s);
      SingleNode(group, x, s);
      var ss := Ends([group], x, s);
      assert Onward(s, ss[0], 1) && Onward(s, ss[1], 1);
    }
    AmbiguousRepeatIsExponential(r, x, START, 0, None, 1, n);
    SingleNode(r, x, START);
    assert Clash(LeadingChars(EITHER.branches[0]), LeadingChars(EITHER.branches[1]));
    assert DangerousNode(A_OR_A.data[1]);
    assert DangerousNode(r.body.data[0]);
    assert UnsafeNode(SubPattern([r]).data[0]);
  }

  // ---------------------------------------------------------------------------
  // `(a+)+`

  const PLUS := Repeat(true, 1, None, A)

  /** One more turn of `a+`, at a letter. */
  lemma PlusTurn(x: Input, s: State, count: nat, last: Option<nat>)
    requires s.pos < |x| && AllAs(x) && last != Some(s.pos)
    ensures
      var on := Loop(PLUS, x, s.(pos := s.pos + 1), count + 1, Mark(PLUS, s.pos, count, last));
      Loop(PLUS, x, s, count, last) == if count == 0 then on else on + [s]
  {
    OneA(x, s);
    var next := s.(pos := s.pos + 1);
    assert LoopAll(PLUS, x, s, [next], count, last) == Loop(PLUS, x, next, count + 1, Mark(PLUS, s.pos, count, last));
  }

  /** What a turn of `a+` gives back last is where it stood. */
  lemma PlusStops(x: Input, s: State, count: nat, last: Option<nat>)
    requires s.pos <= |x| && AllAs(x) && count > 0
    ensures var ss := Loop(PLUS, x, s, count, last); ss != [] && ss[|ss| - 1] == s
  {
  }

  lemma PlusIsLoop(x: Input, s: State)
    requires s.pos < |x| && AllAs(x)
    ensures Ends([PLUS], x, s) == Loop(PLUS, x, s.(pos := s.pos + 1), 1, None)
  {
    SingleNode(PLUS, x, s);
    PlusTurn(x, s, 0, None);
  }

  /** What `a+` gives back last: one letter, and two before that. */
  lemma PlusEnds(x: Input, s: State)
    requires s.pos < |x| && AllAs(x)
    ensures var ss := Ends([PLUS], x, s);
      && ss != [] && ss[|ss| - 1] == s.(pos := s.pos + 1)
      && (s.pos + 2 <= |x| ==> |ss| > 1 && ss[|ss| - 2] == s.(pos := s.pos + 2))
  {
    var one := s.(pos := s.pos + 1);
    PlusIsLoop(x, s);
    PlusEndsFrom(x, one);
  }

  lemma PlusEndsFrom(x: Input, one: State)
    requires one.pos <= |x| && AllAs(x)
    ensures var ss := Loop(PLUS, x, one, 1, None);
      && ss != [] && ss[|ss| - 1] == one
      && (one.pos + 1 <= |x| ==> |ss| > 1 && ss[|ss| - 2] == one.(pos := one.pos + 1))
  {
    PlusStops(x, one, 1, None);
    if one.pos + 1 <= |x| {
      PlusTurn(x, one, 1, None);
      PlusStops(x, one.(pos := one.pos + 1), 2, Some(one.pos));
    }
  }

  const PLUS_GROUP := Group(Some(1), SubPattern([PLUS]))

  lemma PlusTwoWays(x: Input, s: State)
    requires AllAs(x) && s.pos + 2 <= |x|
    ensures TwoWays(SubPattern([PLUS_GROUP]), x, s, 2)
  {
    PlusEnds(x, s);
    SingleNode(PLUS_GROUP, x, s);
    var ss := Ends([PLUS_GROUP], x, s);
    assert Onward(s, ss[|ss| - 2], 2) && Onward(s, ss[|ss| - 1], 2);
  }

  const PLUS_OF_PLUS := Repeat(true, 1, None, SubPattern([PLUS_GROUP]))

  lemma PlusOfPlusIsRejected()
    ensures FindUnsafeRepeat(SubPattern([PLUS_OF_PLUS]))
  {
    assert DangerousNode(PLUS_GROUP.body.data[0]);
    assert DangerousNode(PLUS_OF_PLUS.body.data[0]);
    assert UnsafeNode(SubPattern([PLUS_OF_PLUS]).data[0]);
  }

  /** The outer repeat's body can stop after one letter. */
  lemma PlusGroupStops(x: Input) returns (j: nat)
    requires AllAs(x) && x != []
    ensures j < |Ends([PLUS_GROUP], x, START)| && Ends([PLUS_GROUP], x, START)[j].pos == 1
  {
    PlusEnds(x, START);
    SingleNode(PLUS_GROUP, x, START);
    j := |Ends([PLUS_GROUP], x, START)| - 1;
  }

  /** From there it may go on. */
  lemma PlusOfPlusGoesOn(x: Input, j: nat)
    requires j < |Ends([PLUS_GROUP], x, START)|
    ensures |Ends([PLUS_OF_PLUS], x, START)| >= |Loop(PLUS_OF_PLUS, x, Ends([PLUS_GROUP], x, START)[j], 1, None)|
  {
    LoopAllKeepsOne(PLUS_OF_PLUS, x, START, Ends([PLUS_GROUP], x, START), 0, None, j);
    SingleNode(PLUS_OF_PLUS, x, START);
  }

  /** `(a+)+` is rejected, and has at least 2^((n-1)/2) ways through n letters. */
  lemma NestedRepeatsExplode(n: nat)
    requires n > 0
    ensures
      var p := SubPattern([Repeat(true, 1, None, SubPattern([PLUS_GROUP]))]);
      FindUnsafeRepeat(p) && |Ends(p.data, As(n), START)| >= Pow(2, (n - 1) / 2)
  {
    var x := As(n);
    PlusOfPlusIsRejected();
    forall s: State | s.pos + 2 <= |x| ensures TwoWays(PLUS_OF_PLUS.body, x, s, 2) {
      PlusTwoWays(x, s);
    }
    var j := PlusGroupStops(x);
    PlusOfPlusGoesOn(x, j);
    AmbiguousRepeatIsExponential(PLUS_OF_PLUS, x, Ends([PLUS_GROUP], x, START)[j], 1, None, 2, (n - 1) / 2);
  }
}
