/** Back-references in the body of a repeat. In a pattern as the parser forms it, whether what
    a group captures is empty does not change from one iteration to the next. */
module CapturedGroups {
  import opened Options
  import opened RegexSyntax
  import opened Backtracking
  import opened SafeBodies

  type Groups = set<nat>

  /** The groups captured anywhere inside. */
  function Captures(data: seq<Node>): set<nat> {
    if data == [] then {} else NodeCaptures(data[0]) + Captures(data[1..])
  }

  function NodeCaptures(n: Node): set<nat>
    decreases n, 1
  {
    match n
    case Group(id, body) => (if id.None? then {} else {id.value}) + Captures(body.data)
    case Branch(branches) => BranchCaptures(n, 0)
    case Repeat(_, _, _, body) => Captures(body.data)
    case Assert(_, _, body) => Captures(body.data)
    case _ => {}
  }

  function BranchCaptures(n: Node, i: nat): set<nat>
    requires n.Branch? && i <= |n.branches|
    decreases n, 0, |n.branches| - i
  {
    if i == |n.branches| then {} else Captures(n.branches[i].data) + BranchCaptures(n, i + 1)
  }

  // ---------------------------------------------------------------------------
  // What the parser guarantees

  /** After the groups `known`: each group is captured in one place, and referred back to only
      after it is closed. */
  predicate Formed(data: seq<Node>, known: Groups) {
    data == [] || (FormedNode(data[0], known) && Formed(data[1..], known + NodeCaptures(data[0])))
  }

  predicate FormedNode(n: Node, known: Groups)
    decreases n, 1
  {
    match n
    case GroupRef(g) => g in known
    case Group(id, body) => Formed(body.data, known) && (id.Some? ==> id.value !in known + Captures(body.data))
    case Branch(branches) => FormedBranches(n, 0, known)
    case Repeat(_, _, _, body) => Formed(body.data, known)
    case Assert(_, _, body) => Formed(body.data, known)
    case _ => true
  }

  predicate FormedBranches(n: Node, i: nat, known: Groups)
    requires n.Branch? && i <= |n.branches|
    decreases n, 0, |n.branches| - i
  {
    i == |n.branches|
    || (Formed(n.branches[i].data, known) && FormedBranches(n, i + 1, known + Captures(n.branches[i].data)))
  }

  lemma {:induction false} CapturesAreNew(data: seq<Node>, known: Groups)
    requires Formed(data, known)
    ensures Captures(data) !! known
    decreases data, 0, 0
  {
    if data != [] {
      NodeCapturesAreNew(data[0], known);
      CapturesAreNew(data[1..], known + NodeCaptures(data[0]));
    }
  }

  lemma {:induction false} NodeCapturesAreNew(n: Node, known: Groups)
    requires FormedNode(n, known)
    ensures NodeCaptures(n) !! known
    decreases n, 1, 0
  {
    match n
    case Group(_, body) => CapturesAreNew(body.data, known);
    case Branch(_) => BranchCapturesAreNew(n, 0, known);
    case Repeat(_, _, _, body) => CapturesAreNew(body.data, known);
    case Assert(_, _, body) => CapturesAreNew(body.data, known);
    case _ =>
  }

  lemma {:induction false} BranchCapturesAreNew(n: Node, i: nat, known: Groups)
    requires n.Branch? && i <= |n.branches| && FormedBranches(n, i, known)
    ensures BranchCaptures(n, i) !! known
    decreases n, 0, |n.branches| - i
  {
    if i < |n.branches| {
      CapturesAreNew(n.branches[i].data, known);
      BranchCapturesAreNew(n, i + 1, known + Captures(n.branches[i].data));
    }
  }

  // ---------------------------------------------------------------------------
  // A way through captures only the pattern's groups

  ghost predicate Within(ends: seq<State>, groups: Groups) {
    forall e <- ends :: e.groups.Keys <= groups
  }

  lemma {:induction false} DataCaptures(data: seq<Node>, x: Input, s: State)
    requires s.pos <= |x|
    ensures Within(Ends(data, x, s), s.groups.Keys + Captures(data))
    decreases data, 0, 0, 0
  {
    if data != [] {
      StepCaptures(data[0], x, s);
      AllCapture(data[1..], x, s.pos, Step(data[0], x, s), s.groups.Keys + NodeCaptures(data[0]));
    }
  }

  lemma {:induction false} AllCapture(data: seq<Node>, x: Input, from: nat, ss: seq<State>, groups: Groups)
    requires Forward(x, from, ss) && Within(ss, groups)
    ensures Within(EndsAll(data, x, from, ss), groups + Captures(data))
    decreases data, 1, |ss|, 0
  {
    if ss != [] {
      DataCaptures(data, x, ss[0]);
      AllCapture(data, x, from, ss[1..], groups);
    }
  }

  lemma {:induction false} StepCaptures(n: Node, x: Input, s: State)
    requires s.pos <= |x|
    ensures Within(Step(n, x, s), s.groups.Keys + NodeCaptures(n))
    decreases n, 1, 0, 0
  {
    match n
    case Group(id, body) =>
      DataCaptures(body.data, x, s);
      var ss, r := Ends(body.data, x, s), Step(n, x, s);
      forall i | 0 <= i < |r| ensures r[i].groups.Keys <= s.groups.Keys + NodeCaptures(n) {
        assert ss[i] in ss;
      }
    case Branch(_) => BranchesCapture(n, 0, x, s);
    case Repeat(_, _, _, body) => LoopCaptures(n, x, s, 0, None, s.groups.Keys);
    case Assert(_, back, body) =>
      if back <= s.pos {
        DataCaptures(body.data, x, s.(pos := s.pos - back));
      }
    case _ =>
  }

  lemma {:induction false} BranchesCapture(n: Node, i: nat, x: Input, s: State)
    requires n.Branch? && i <= |n.branches| && s.pos <= |x|
    ensures Within(BranchEnds(n, i, x, s), s.groups.Keys + BranchCaptures(n, i))
    decreases n, 0, |n.branches| - i, 0
  {
    if i < |n.branches| {
      DataCaptures(n.branches[i].data, x, s);
      BranchesCapture(n, i + 1, x, s);
    }
  }

  lemma {:induction false} LoopCaptures(n: Node, x: Input, s: State, count: nat, last: Option<nat>, groups: Groups)
    requires n.Repeat? && s.pos <= |x| && s.groups.Keys <= groups + Captures(n.body.data)
    ensures Within(Loop(n, x, s, count, last), groups + Captures(n.body.data))
    decreases n, 0, Room(n.min, x, s.pos, count, last) + 1, 0
  {
    if Continues(n, s.pos, count, last) {
      DataCaptures(n.body.data, x, s);
      LoopAllCapture(n, x, s, Ends(n.body.data, x, s), count, last, groups);
    }
  }

  lemma {:induction false} LoopAllCapture(n: Node, x: Input, s: State, ss: seq<State>, count: nat, last: Option<nat>, groups: Groups)
    requires n.Repeat? && s.pos <= |x| && Forward(x, s.pos, ss) && Continues(n, s.pos, count, last)
    requires Within(ss, groups + Captures(n.body.data))
    ensures Within(LoopAll(n, x, s, ss, count, last), groups + Captures(n.body.data))
    decreases n, 0, Room(n.min, x, s.pos, count, last), |ss|
  {
    if ss != [] {
      LoopCaptures(n, x, ss[0], count + 1, Mark(n, s.pos, count, last), groups);
      LoopAllCapture(n, x, s, ss[1..], count, last, groups);
    }
  }

  // ---------------------------------------------------------------------------
  // Signs: which groups capture something

  /** The body moves on, when just the groups `filled` capture something. */
  predicate Pushes(data: seq<Node>, filled: Groups) {
    data != [] && (NodePushes(data[0], filled) || Pushes(data[1..], filled))
  }

  predicate NodePushes(n: Node, filled: Groups)
    decreases n, 1
  {
    match n
    case GroupRef(g) => g in filled
    case Group(_, body) => Pushes(body.data, filled)
    case Branch(branches) => forall i | 0 <= i < |branches| :: Pushes(branches[i].data, filled)
    case _ => Consumer(n)
  }

  /** `filled` is right about every group inside: it is in it when its body moves on. */
  predicate Signed(data: seq<Node>, filled: Groups) {
    data == [] || (SignedNode(data[0], filled) && Signed(data[1..], filled))
  }

  predicate SignedNode(n: Node, filled: Groups)
    decreases n, 1
  {
    match n
    case Group(id, body) =>
      Signed(body.data, filled) && (id.Some? ==> (id.value in filled <==> Pushes(body.data, filled)))
    case Branch(branches) => forall i | 0 <= i < |branches| :: Signed(branches[i].data, filled)
    case Assert(_, _, body) => Signed(body.data, filled)
    case _ => true
  }

  ghost predicate Matches(groups: map<nat, seq<nat>>, filled: Groups) {
    forall g | g in groups :: groups[g] != [] <==> g in filled
  }

  ghost predicate AllMatch(ends: seq<State>, filled: Groups, from: nat, moves: bool) {
    forall e <- ends :: Matches(e.groups, filled) && (e.pos > from <==> moves)
  }

  lemma {:induction false} MovingPushes(p: SubPattern, filled: Groups)
    requires Moving(p)
    ensures Pushes(p.data, filled)
  {
    var i :| 0 <= i < |p.data| && MovingNode(p.data[i]);
    MovingNodePushes(p.data[i], filled);
    PushesFrom(p.data, i, filled);
  }

  lemma {:induction false} PushesFrom(data: seq<Node>, i: nat, filled: Groups)
    requires i < |data| && NodePushes(data[i], filled)
    ensures Pushes(data, filled)
  {
    if i > 0 {
      PushesFrom(data[1..], i - 1, filled);
    }
  }

  lemma {:induction false} MovingNodePushes(n: Node, filled: Groups)
    requires MovingNode(n)
    ensures NodePushes(n, filled)
  {
    match n
    case Group(_, body) => MovingPushes(body, filled);
    case Branch(branches) =>
      forall i | 0 <= i < |branches| ensures Pushes(branches[i].data, filled) {
        MovingPushes(branches[i], filled);
      }
    case _ =>
  }

  lemma BranchesPushAlike(n: Node, i: nat, filled: Groups)
    requires n.Branch? && !BranchesOverlap(n.branches) && i < |n.branches|
    ensures Pushes(n.branches[i].data, filled) <==> NodePushes(n, filled)
  {
    if |n.branches| > 1 {
      forall j: nat | j < |n.branches| ensures Pushes(n.branches[j].data, filled) {
        SeveralBranchesMove(n, j);
        MovingPushes(n.branches[j], filled);
      }
    }
  }

  lemma CaptureMatches(id: Option<nat>, body: SubPattern, x: Input, s: State, filled: Groups)
    requires s.pos <= |x| && SignedNode(Group(id, body), filled)
    requires AllMatch(Ends(body.data, x, s), filled, s.pos, Pushes(body.data, filled))
    ensures AllMatch(Step(Group(id, body), x, s), filled, s.pos, Pushes(body.data, filled))
  {
    var ss, r := Ends(body.data, x, s), Step(Group(id, body), x, s);
    forall i | 0 <= i < |r| ensures Matches(r[i].groups, filled) && (r[i].pos > s.pos <==> Pushes(body.data, filled)) {
      assert ss[i] in ss;
    }
  }

  /** Under right signs every way through moves on, or none does, and the signs stay right. */
  lemma {:induction false} SignedDataMoves(data: seq<Node>, x: Input, s: State, filled: Groups)
    requires (forall n <- data :: !DangerousNode(n)) && s.pos <= |x|
    requires Signed(data, filled) && Matches(s.groups, filled)
    ensures AllMatch(Ends(data, x, s), filled, s.pos, Pushes(data, filled))
    decreases data, 0, 0
  {
    if data != [] {
      SafeChain(data, x, s);
      SignedNodeMoves(data[0], x, s, filled);
      var ss := Step(data[0], x, s);
      if ss != [] {
        assert ss[0] in ss;
        SignedDataMoves(data[1..], x, ss[0], filled);
      }
    }
  }

  lemma {:induction false} SignedNodeMoves(n: Node, x: Input, s: State, filled: Groups)
    requires !DangerousNode(n) && s.pos <= |x|
    requires SignedNode(n, filled) && Matches(s.groups, filled)
    ensures AllMatch(Step(n, x, s), filled, s.pos, NodePushes(n, filled))
    decreases n, 1, 0
  {
    match n
    case Group(id, body) =>
      SignedDataMoves(body.data, x, s, filled);
      CaptureMatches(id, body, x, s, filled);
    case Branch(_) => SignedBranchesMove(n, 0, x, s, filled);
    case Assert(_, back, body) =>
      if back <= s.pos {
        SignedDataMoves(body.data, x, s.(pos := s.pos - back), filled);
      }
    case _ =>
  }

  lemma {:induction false} SignedBranchesMove(n: Node, i: nat, x: Input, s: State, filled: Groups)
    requires n.Branch? && !DangerousNode(n) && i <= |n.branches| && s.pos <= |x|
    requires SignedNode(n, filled) && Matches(s.groups, filled)
    ensures AllMatch(BranchEnds(n, i, x, s), filled, s.pos, NodePushes(n, filled))
    decreases n, 0, |n.branches| - i
  {
    if i < |n.branches| {
      BranchesPushAlike(n, i, filled);
      SignedDataMoves(n.branches[i].data, x, s, filled);
      SignedBranchesMove(n, i + 1, x, s, filled);
    }
  }

  // ---------------------------------------------------------------------------
  // Right signs exist

  /** The signs of the groups inside, in the order they are closed, after those of `filled`. */
  function Signs(data: seq<Node>, filled: Groups): Groups {
    if data == [] then filled else Signs(data[1..], NodeSigns(data[0], filled))
  }

  function NodeSigns(n: Node, filled: Groups): Groups
    decreases n, 1
  {
    match n
    case Group(id, body) =>
      var inner := Signs(body.data, filled);
      if id.Some? && Pushes(body.data, inner) then inner + {id.value} else inner
    case Branch(branches) => BranchSigns(n, 0, filled)
    case Assert(_, _, body) => Signs(body.data, filled)
    case _ => filled
  }

  function BranchSigns(n: Node, i: nat, filled: Groups): Groups
    requires n.Branch? && i <= |n.branches|
    decreases n, 0, |n.branches| - i
  {
    if i == |n.branches| then filled else BranchSigns(n, i + 1, Signs(n.branches[i].data, filled))
  }

  ghost predicate Alike(a: Groups, b: Groups, where_: Groups) {
    forall g | g in where_ :: g in a <==> g in b
  }

  ghost predicate AlikeOutside(a: Groups, b: Groups, except: Groups) {
    forall g: nat | g !in except :: g in a <==> g in b
  }

  lemma {:induction false} SignsChangeOwn(data: seq<Node>, filled: Groups)
    ensures AlikeOutside(Signs(data, filled), filled, Captures(data))
    decreases data, 0, 0
  {
    if data != [] {
      NodeSignsChangeOwn(data[0], filled);
      SignsChangeOwn(data[1..], NodeSigns(data[0], filled));
    }
  }

  lemma {:induction false} NodeSignsChangeOwn(n: Node, filled: Groups)
    ensures AlikeOutside(NodeSigns(n, filled), filled, NodeCaptures(n))
    decreases n, 1, 0
  {
    match n
    case Group(_, body) => SignsChangeOwn(body.data, filled);
    case Branch(_) => BranchSignsChangeOwn(n, 0, filled);
    case Assert(_, _, body) => SignsChangeOwn(body.data, filled);
    case _ =>
  }

  lemma {:induction false} BranchSignsChangeOwn(n: Node, i: nat, filled: Groups)
    requires n.Branch? && i <= |n.branches|
    ensures AlikeOutside(BranchSigns(n, i, filled), filled, BranchCaptures(n, i))
    decreases n, 0, |n.branches| - i
  {
    if i < |n.branches| {
      SignsChangeOwn(n.branches[i].data, filled);
      BranchSignsChangeOwn(n, i + 1, Signs(n.branches[i].data, filled));
    }
  }

  /** Only the signs of groups known before or captured inside matter. */
  lemma {:induction false} OnlyKnownSignsMatter(data: seq<Node>, known: Groups, a: Groups, b: Groups)
    requires Formed(data, known) && Alike(a, b, known + Captures(data))
    ensures (Pushes(data, a) <==> Pushes(data, b)) && (Signed(data, a) <==> Signed(data, b))
    decreases data, 0, 0
  {
    if data != [] {
      OnlyKnownNodeSignsMatter(data[0], known, a, b);
      OnlyKnownSignsMatter(data[1..], known + NodeCaptures(data[0]), a, b);
    }
  }

  lemma {:induction false} OnlyKnownNodeSignsMatter(n: Node, known: Groups, a: Groups, b: Groups)
    requires FormedNode(n, known) && Alike(a, b, known + NodeCaptures(n))
    ensures (NodePushes(n, a) <==> NodePushes(n, b)) && (SignedNode(n, a) <==> SignedNode(n, b))
    decreases n, 1, 0
  {
    match n
    case Group(_, body) => OnlyKnownSignsMatter(body.data, known, a, b);
    case Branch(_) => OnlyKnownBranchSignsMatter(n, 0, known, a, b);
    case Assert(_, _, body) => OnlyKnownSignsMatter(body.data, known, a, b);
    case _ =>
  }

  lemma {:induction false} OnlyKnownBranchSignsMatter(n: Node, i: nat, known: Groups, a: Groups, b: Groups)
    requires n.Branch? && i <= |n.branches| && FormedBranches(n, i, known) && Alike(a, b, known + BranchCaptures(n, i))
    ensures forall j | i <= j < |n.branches| ::
      (Pushes(n.branches[j].data, a) <==> Pushes(n.branches[j].data, b))
      && (Signed(n.branches[j].data, a) <==> Signed(n.branches[j].data, b))
    decreases n, 0, |n.branches| - i
  {
    if i < |n.branches| {
      OnlyKnownSignsMatter(n.branches[i].data, known, a, b);
      OnlyKnownBranchSignsMatter(n, i + 1, known + Captures(n.branches[i].data), a, b);
    }
  }

  lemma {:induction false} SignsAreRight(data: seq<Node>, known: Groups, filled: Groups)
    requires Formed(data, known) && filled !! Captures(data)
    ensures Signed(data, Signs(data, filled))
    decreases data, 0, 0
  {
    if data != [] {
      var h, t := data[0], data[1..];
      var mid, late := NodeSigns(h, filled), known + NodeCaptures(h);
      NodeSignsAreRight(h, known, filled);
      NodeSignsChangeOwn(h, filled);
      CapturesAreNew(t, late);
      SignsAreRight(t, late, mid);
      SignsChangeOwn(t, mid);
      OnlyKnownNodeSignsMatter(h, known, mid, Signs(t, mid));
    }
  }

  lemma {:induction false} NodeSignsAreRight(n: Node, known: Groups, filled: Groups)
    requires FormedNode(n, known) && filled !! NodeCaptures(n)
    ensures SignedNode(n, NodeSigns(n, filled))
    decreases n, 1, 0
  {
    match n
    case Group(id, body) =>
      SignsAreRight(body.data, known, filled);
      SignsChangeOwn(body.data, filled);
      OnlyKnownSignsMatter(body.data, known, Signs(body.data, filled), NodeSigns(n, filled));
    case Branch(_) => BranchSignsAreRight(n, 0, known, filled);
    case Assert(_, _, body) => SignsAreRight(body.data, known, filled);
    case _ =>
  }

  lemma {:induction false} BranchSignsAreRight(n: Node, i: nat, known: Groups, filled: Groups)
    requires n.Branch? && i <= |n.branches| && FormedBranches(n, i, known) && filled !! BranchCaptures(n, i)
    ensures forall j | i <= j < |n.branches| :: Signed(n.branches[j].data, BranchSigns(n, i, filled))
    decreases n, 0, |n.branches| - i
  {
    if i < |n.branches| {
      var p := n.branches[i].data;
      var mid, late := Signs(p, filled), known + Captures(p);
      SignsAreRight(p, known, filled);
      SignsChangeOwn(p, filled);
      BranchCapturesAreNew(n, i + 1, late);
      BranchSignsAreRight(n, i + 1, late, mid);
      BranchSignsChangeOwn(n, i + 1, mid);
      OnlyKnownSignsMatter(p, known, mid, BranchSigns(n, i + 1, mid));
    }
  }

  function Filled(groups: map<nat, seq<nat>>): Groups {
    set g | g in groups && groups[g] != []
  }

  /** Before the first iteration none of the body's own groups is captured, so the signs that
      the others have then can be completed. */
  lemma SignsBeforeLoop(body: SubPattern, known: Groups, groups: map<nat, seq<nat>>)
    requires Formed(body.data, known) && groups.Keys <= known
    ensures var filled := Signs(body.data, Filled(groups)); Signed(body.data, filled) && Matches(groups, filled)
  {
    CapturesAreNew(body.data, known);
    SignsAreRight(body.data, known, Filled(groups));
    SignsChangeOwn(body.data, Filled(groups));
  }

  /** So a loop moves with every iteration, or never, and is then left at most twice. */
  lemma {:induction false} SignedLoopWays(n: Node, x: Input, s: State, count: nat, last: Option<nat>, filled: Groups)
    requires n.Repeat? && !DangerousBody(n.body) && s.pos <= |x|
    requires Signed(n.body.data, filled) && Matches(s.groups, filled)
    ensures |Loop(n, x, s, count, last)| <=
      if Pushes(n.body.data, filled) then |x| - s.pos + 1
      else if count >= n.min && last == Some(s.pos) then 1 else 2
    decreases Room(n.min, x, s.pos, count, last)
  {
    if Continues(n, s.pos, count, last) {
      SafeBodyIsUnambiguous(n.body, x, s);
      SignedDataMoves(n.body.data, x, s, filled);
      var ss := Ends(n.body.data, x, s);
      if ss != [] {
        assert ss[0] in ss;
        SignedLoopWays(n, x, ss[0], count + 1, Mark(n, s.pos, count, last), filled);
        assert LoopAll(n, x, s, ss[1..], count, last) == [];
      }
    }
  }
}
