/** A backtracking matcher for the parse trees of RegexSyntax: every way through a
    pattern, in the order the engine tries them, and the work of trying them all. */
module Backtracking {
  import opened Options
  import opened RegexSyntax

  type Input = seq<nat>

  /** Where the matcher stands, and the text each group captured last. */
  datatype State = State(pos: nat, groups: map<nat, seq<nat>>)

  const NEWLINE: nat := 10

  predicate ItemsAccept(items: seq<Item>, c: nat, ok: bool) {
    if items == [] then !ok
    else
      match items[0]
      case Single(d) => if c == d then ok else ItemsAccept(items[1..], c, ok)
      case Range(lo, hi) => if lo <= c <= hi then ok else ItemsAccept(items[1..], c, ok)
      case Category(members) => if c in members then ok else ItemsAccept(items[1..], c, ok)
      case Negate => ItemsAccept(items[1..], c, !ok)
  }

  predicate AnchorHolds(a: Anchor, x: Input, pos: nat)
    requires pos <= |x|
  {
    match a
    case Beginning => pos == 0
    case End => pos == |x| || (pos + 1 == |x| && x[pos] == NEWLINE)
    case Boundary(word, here) =>
      var before := pos > 0 && x[pos - 1] in word;
      var after := pos < |x| && x[pos] in word;
      (before != after) == here
  }

  predicate Consumer(n: Node) {
    n.Literal? || n.NotLiteral? || n.Any? || n.In?
  }

  predicate Consumes(n: Node, c: nat)
    requires Consumer(n)
  {
    match n
    case Literal(d) => c == d
    case NotLiteral(d) => c != d
    case Any => c != NEWLINE
    case In(items) => ItemsAccept(items, c, true)
  }

  // ---------------------------------------------------------------------------
  // Ends: one state per way through

  ghost predicate Forward(x: Input, from: nat, ends: seq<State>) {
    forall e <- ends :: from <= e.pos <= |x|
  }

  function Ends(data: seq<Node>, x: Input, s: State): (r: seq<State>)
    requires s.pos <= |x|
    ensures Forward(x, s.pos, r)
    decreases data, 0, 0, 0
  {
    if data == [] then [s] else EndsAll(data[1..], x, s.pos, Step(data[0], x, s))
  }

  function EndsAll(data: seq<Node>, x: Input, from: nat, ss: seq<State>): (r: seq<State>)
    requires Forward(x, from, ss)
    ensures Forward(x, from, r)
    decreases data, 1, |ss|, 0
  {
    if ss == [] then [] else Ends(data, x, ss[0]) + EndsAll(data, x, from, ss[1..])
  }

  function Step(n: Node, x: Input, s: State): (r: seq<State>)
    requires s.pos <= |x|
    ensures Forward(x, s.pos, r)
    decreases n, 1, 0, 0
  {
    if Consumer(n) then
      if s.pos < |x| && Consumes(n, x[s.pos]) then [s.(pos := s.pos + 1)] else []
    else
      match n
      case At(anchor) => if AnchorHolds(anchor, x, s.pos) then [s] else []
      case GroupRef(g) =>
        if g in s.groups && s.groups[g] <= x[s.pos..] then [s.(pos := s.pos + |s.groups[g]|)]
        else []
      case Group(id, body) => Capture(id, x, s.pos, Ends(body.data, x, s))
      case Branch(branches) => BranchEnds(n, 0, x, s)
      case Repeat(_, _, _, _) => Loop(n, x, s, 0, None)
      case Assert(negative, back, body) =>
        var ahead := if back <= s.pos then Ends(body.data, x, s.(pos := s.pos - back)) else [];
        if negative then if ahead == [] then [s] else []
        else if ahead == [] then [] else [s.(groups := ahead[0].groups)]
  }

  function Capture(id: Option<nat>, x: Input, from: nat, ss: seq<State>): (r: seq<State>)
    requires Forward(x, from, ss)
    ensures Forward(x, from, r) && |r| == |ss|
    ensures forall i | 0 <= i < |r| :: r[i].pos == ss[i].pos
  {
    if id.None? then ss
    else
      seq(|ss|, i requires 0 <= i < |ss| && from <= ss[i].pos <= |x| =>
        ss[i].(groups := ss[i].groups[id.value := x[from..ss[i].pos]]))
  }

  function BranchEnds(n: Node, i: nat, x: Input, s: State): (r: seq<State>)
    requires n.Branch? && i <= |n.branches| && s.pos <= |x|
    ensures Forward(x, s.pos, r)
    decreases n, 0, |n.branches| - i, 0
  {
    if i == |n.branches| then []
    else Ends(n.branches[i].data, x, s) + BranchEnds(n, i + 1, x, s)
  }

  /** How many more iterations the loop can still make: the mandatory ones, then one per
      remaining position, and one more that matches nothing and so ends the loop. */
  function Room(min: nat, x: Input, pos: nat, count: nat, last: Option<nat>): nat
    requires pos <= |x|
  {
    (if count < min then min - count else 0) + (|x| - pos) + (if last == Some(pos) then 0 else 1)
  }

  predicate Continues(n: Node, pos: nat, count: nat, last: Option<nat>)
    requires n.Repeat?
  {
    count < n.min || (!(n.max.Some? && count >= n.max.value) && last != Some(pos))
  }

  /** What `last` is during the iteration that starts now. */
  function Mark(n: Node, pos: nat, count: nat, last: Option<nat>): Option<nat>
    requires n.Repeat?
  {
    if count < n.min then last else Some(pos)
  }

  function Loop(n: Node, x: Input, s: State, count: nat, last: Option<nat>): (r: seq<State>)
    requires n.Repeat? && s.pos <= |x|
    ensures Forward(x, s.pos, r)
    decreases n, 0, Room(n.min, x, s.pos, count, last) + 1, 0
  {
    if !Continues(n, s.pos, count, last) then [s]
    else
      var more := LoopAll(n, x, s, Ends(n.body.data, x, s), count, last);
      if count < n.min then more
      else if n.greedy then more + [s]
      else [s] + more
  }

  function LoopAll(n: Node, x: Input, s: State, ss: seq<State>, count: nat, last: Option<nat>)
    : (r: seq<State>)
    requires n.Repeat? && s.pos <= |x| && Forward(x, s.pos, ss)
    requires Continues(n, s.pos, count, last)
    ensures Forward(x, s.pos, r)
    decreases n, 0, Room(n.min, x, s.pos, count, last), |ss|
  {
    if ss == [] then []
    else
      Loop(n, x, ss[0], count + 1, Mark(n, s.pos, count, last))
      + LoopAll(n, x, s, ss[1..], count, last)
  }

  // ---------------------------------------------------------------------------
  // Work: the nodes visited when every way through is tried in turn

  function Work(data: seq<Node>, x: Input, s: State): nat
    requires s.pos <= |x|
    decreases data, 0, 0, 0
  {
    if data == [] then 1
    else StepWork(data[0], x, s) + WorkAll(data[1..], x, s.pos, Step(data[0], x, s))
  }

  function WorkAll(data: seq<Node>, x: Input, from: nat, ss: seq<State>): nat
    requires Forward(x, from, ss)
    decreases data, 1, |ss|, 0
  {
    if ss == [] then 0 else Work(data, x, ss[0]) + WorkAll(data, x, from, ss[1..])
  }

  function StepWork(n: Node, x: Input, s: State): nat
    requires s.pos <= |x|
    decreases n, 1, 0, 0
  {
    match n
    case Group(_, body) => 1 + Work(body.data, x, s)
    case Branch(branches) => 1 + BranchWork(n, 0, x, s)
    case Repeat(_, _, _, _) => LoopWork(n, x, s, 0, None)
    case Assert(_, back, body) =>
      1 + if back <= s.pos then Work(body.data, x, s.(pos := s.pos - back)) else 0
    case _ => 1
  }

  function BranchWork(n: Node, i: nat, x: Input, s: State): nat
    requires n.Branch? && i <= |n.branches| && s.pos <= |x|
    decreases n, 0, |n.branches| - i, 0
  {
    if i == |n.branches| then 0
    else Work(n.branches[i].data, x, s) + BranchWork(n, i + 1, x, s)
  }

  function LoopWork(n: Node, x: Input, s: State, count: nat, last: Option<nat>): nat
    requires n.Repeat? && s.pos <= |x|
    decreases n, 0, Room(n.min, x, s.pos, count, last) + 1, 0
  {
    if !Continues(n, s.pos, count, last) then 1
    else
      1 + Work(n.body.data, x, s)
      + LoopWorkAll(n, x, s, Ends(n.body.data, x, s), count, last)
  }

  function LoopWorkAll(n: Node, x: Input, s: State, ss: seq<State>, count: nat, last: Option<nat>): nat
    requires n.Repeat? && s.pos <= |x| && Forward(x, s.pos, ss)
    requires Continues(n, s.pos, count, last)
    decreases n, 0, Room(n.min, x, s.pos, count, last), |ss|
  {
    if ss == [] then 0
    else
      LoopWork(n, x, ss[0], count + 1, Mark(n, s.pos, count, last))
      + LoopWorkAll(n, x, s, ss[1..], count, last)
  }
}
