/** Bodies the guard lets a repeat have: they match in at most one way, and those that have to
    consume something move on. */
module SafeBodies {
  import opened Options
  import opened RegexSyntax
  import opened Backtracking

  lemma {:induction false} ItemsAcceptOnlyListed(items: seq<Item>, c: nat)
    requires ItemChars(items).Some? && ItemsAccept(items, c, true)
    ensures c in ItemChars(items).value
  {
    if !((items[0].Single? && items[0].c == c) || (items[0].Range? && items[0].lo <= c <= items[0].hi)) {
      ItemsAcceptOnlyListed(items[1..], c);
    }
  }

  /** A match of a pattern with a leading set starts with a character of that set. */
  lemma {:induction false} LeadingCharsSound(p: SubPattern, x: Input, s: State)
    requires s.pos <= |x| && LeadingChars(p).Some? && Ends(p.data, x, s) != []
    ensures s.pos < |x| && x[s.pos] in LeadingChars(p).value
  {
    var n := p.data[0];
    assert Step(n, x, s) != [];
    match n
    case In(items) => ItemsAcceptOnlyListed(items, x[s.pos]);
    case Group(_, body) => LeadingCharsSound(body, x, s);
    case _ =>
  }

  lemma BothMatchMeansClash(p: SubPattern, q: SubPattern, x: Input, s: State)
    requires s.pos <= |x| && Ends(p.data, x, s) != [] && Ends(q.data, x, s) != []
    ensures Clash(LeadingChars(p), LeadingChars(q))
  {
    if LeadingChars(p).Some? && LeadingChars(q).Some? {
      LeadingCharsSound(p, x, s);
      LeadingCharsSound(q, x, s);
      assert x[s.pos] in LeadingChars(p).value * LeadingChars(q).value;
    }
  }

  lemma {:induction false} DisjointBranches(n: Node, i: nat, j: nat, x: Input, s: State)
    requires n.Branch? && !BranchesOverlap(n.branches) && i < j < |n.branches| && s.pos <= |x|
    requires Ends(n.branches[i].data, x, s) != []
    ensures Ends(n.branches[j].data, x, s) == []
  {
    if Ends(n.branches[j].data, x, s) != [] {
      BothMatchMeansClash(n.branches[i], n.branches[j], x, s);
    }
  }

  /** A body that is not dangerous matches in at most one way, from any state of any input. */
  lemma {:induction false} SafeBodyIsUnambiguous(p: SubPattern, x: Input, s: State)
    requires !DangerousBody(p) && s.pos <= |x|
    ensures |Ends(p.data, x, s)| <= 1
  {
    SafeDataIsUnambiguous(p.data, x, s);
  }

  lemma {:induction false} SafeDataIsUnambiguous(data: seq<Node>, x: Input, s: State)
    requires (forall n <- data :: !DangerousNode(n)) && s.pos <= |x|
    ensures |Ends(data, x, s)| <= 1
    decreases data, 0, 0
  {
    if data != [] {
      SafeNodeIsUnambiguous(data[0], x, s);
      var ss := Step(data[0], x, s);
      if ss != [] {
        SafeDataIsUnambiguous(data[1..], x, ss[0]);
        assert EndsAll(data[1..], x, s.pos, ss[1..]) == [];
      }
    }
  }

  lemma {:induction false} SafeNodeIsUnambiguous(n: Node, x: Input, s: State)
    requires !DangerousNode(n) && s.pos <= |x|
    ensures |Step(n, x, s)| <= 1
    decreases n, 1, 0
  {
    match n
    case Group(_, body) => SafeDataIsUnambiguous(body.data, x, s);
    case Branch(_) => SafeBranchIsUnambiguous(n, 0, x, s);
    case _ =>
  }

  lemma {:induction false} SafeBranchIsUnambiguous(n: Node, i: nat, x: Input, s: State)
    requires n.Branch? && !DangerousNode(n) && i <= |n.branches| && s.pos <= |x|
    ensures |BranchEnds(n, i, x, s)| <= 1
    ensures (forall j | i <= j < |n.branches| :: Ends(n.branches[j].data, x, s) == [])
      ==> BranchEnds(n, i, x, s) == []
    decreases n, 0, |n.branches| - i
  {
    if i < |n.branches| {
      SafeDataIsUnambiguous(n.branches[i].data, x, s);
      SafeBranchIsUnambiguous(n, i + 1, x, s);
      if Ends(n.branches[i].data, x, s) != [] {
        forall j | i < j < |n.branches| ensures Ends(n.branches[j].data, x, s) == [] {
          DisjointBranches(n, i, j, x, s);
        }
      }
    }
  }

  /** So a sequence of such nodes is walked one node after another. */
  lemma SafeChain(data: seq<Node>, x: Input, s: State)
    requires data != [] && !DangerousNode(data[0]) && s.pos <= |x|
    ensures
      var ss := Step(data[0], x, s);
      |ss| <= 1 && Ends(data, x, s) == if ss == [] then [] else Ends(data[1..], x, ss[0])
  {
    SafeNodeIsUnambiguous(data[0], x, s);
    var ss := Step(data[0], x, s);
    if ss != [] {
      assert EndsAll(data[1..], x, s.pos, ss[1..]) == [];
    }
  }

  ghost predicate OneWay(data: seq<Node>, x: Input) {
    forall e: State | e.pos <= |x| :: |Ends(data, x, e)| <= 1
  }

  // ---------------------------------------------------------------------------
  // Bodies that move on

  /** No way through the pattern leaves the matcher where it was. */
  predicate Moving(p: SubPattern) {
    exists i | 0 <= i < |p.data| :: MovingNode(p.data[i])
  }

  predicate MovingNode(n: Node) {
    match n
    case Group(_, body) => Moving(body)
    case Branch(branches) => forall i | 0 <= i < |branches| :: Moving(branches[i])
    case _ => Consumer(n)
  }

  ghost predicate Beyond(ends: seq<State>, pos: nat) {
    forall e <- ends :: e.pos > pos
  }

  lemma {:induction false} EndsAllMove(data: seq<Node>, x: Input, from: nat, ss: seq<State>, pos: nat)
    requires Forward(x, from, ss) && forall s <- ss :: Beyond(Ends(data, x, s), pos)
    ensures Beyond(EndsAll(data, x, from, ss), pos)
  {
    if ss != [] {
      EndsAllMove(data, x, from, ss[1..], pos);
    }
  }

  lemma {:induction false} DataMoves(data: seq<Node>, x: Input, s: State)
    requires (exists i | 0 <= i < |data| :: MovingNode(data[i])) && s.pos <= |x|
    ensures Beyond(Ends(data, x, s), s.pos)
    decreases data, 0, 0
  {
    var h, t, ss := data[0], data[1..], Step(data[0], x, s);
    if MovingNode(h) {
      NodeMoves(h, x, s);
    } else {
      var i :| 0 <= i < |data| && MovingNode(data[i]);
      assert t[i - 1] == data[i];
    }
    forall e <- ss ensures Beyond(Ends(t, x, e), s.pos) {
      if !MovingNode(h) {
        DataMoves(t, x, e);
      }
    }
    EndsAllMove(t, x, s.pos, ss, s.pos);
  }

  lemma {:induction false} NodeMoves(n: Node, x: Input, s: State)
    requires MovingNode(n) && s.pos <= |x|
    ensures Beyond(Step(n, x, s), s.pos)
    decreases n, 1, 0
  {
    match n
    case Group(id, body) =>
      DataMoves(body.data, x, s);
      var ss, r := Ends(body.data, x, s), Step(n, x, s);
      forall i | 0 <= i < |r| ensures r[i].pos > s.pos {
        assert ss[i] in ss;
      }
    case Branch(_) => BranchMoves(n, 0, x, s);
    case _ =>
  }

  lemma {:induction false} BranchMoves(n: Node, i: nat, x: Input, s: State)
    requires n.Branch? && MovingNode(n) && i <= |n.branches| && s.pos <= |x|
    ensures Beyond(BranchEnds(n, i, x, s), s.pos)
    decreases n, 0, |n.branches| - i
  {
    if i < |n.branches| {
      DataMoves(n.branches[i].data, x, s);
      BranchMoves(n, i + 1, x, s);
    }
  }

  lemma {:induction false} LeadingMeansMoving(p: SubPattern)
    requires LeadingChars(p).Some?
    ensures Moving(p)
  {
    if p.data[0].Group? {
      LeadingMeansMoving(p.data[0].body);
    }
    assert MovingNode(p.data[0]);
  }

  /** Of alternatives that can be told apart by how they start, all move on. */
  lemma SeveralBranchesMove(n: Node, i: nat)
    requires n.Branch? && !BranchesOverlap(n.branches) && i < |n.branches| && |n.branches| > 1
    ensures Moving(n.branches[i])
  {
    var j := if i == 0 then 1 else 0;
    assert !Clash(LeadingChars(n.branches[if i < j then i else j]), LeadingChars(n.branches[if i < j then j else i]));
    LeadingMeansMoving(n.branches[i]);
  }
}
