/** The parse tree the guard walks (the nodes of Python's `re` parser it can meet), and
    the guard itself. */
module RegexSyntax {

  import opened Options

  /** One entry of a character class. `Negate` flips the verdict of what follows it. */
  datatype Item =
    | Single(c: nat)
    | Range(lo: nat, hi: nat)
    | Category(members: set<nat>)
    | Negate

  datatype Anchor =
    | Beginning
    | End
    | Boundary(word: set<nat>, here: bool)

  datatype Node =
    | Literal(c: nat)
    | NotLiteral(c: nat)
    | Any
    | In(items: seq<Item>)
    | At(anchor: Anchor)
    | GroupRef(group: nat)
    | Group(id: Option<nat>, body: SubPattern)
    | Branch(branches: seq<SubPattern>)
    | Repeat(greedy: bool, min: nat, max: Option<nat>, body: SubPattern)
    | Assert(negative: bool, back: nat, body: SubPattern)

  datatype SubPattern = SubPattern(data: seq<Node>)

  const MAX_PATTERN_LENGTH := 500
  const MAX_RANGE_SPAN := 64

  // ---------------------------------------------------------------------------
  // The guard

  function Span(lo: nat, hi: nat): (r: set<nat>)
    ensures forall c: nat :: c in r <==> lo <= c <= hi
    decreases hi - lo
  {
    if lo > hi then {} else {lo} + Span(lo + 1, hi)
  }

  /** The characters a class can start with, when it only lists letters and short ranges. */
  function ItemChars(items: seq<Item>): Option<set<nat>> {
    if items == [] then Some({})
    else
      match items[0]
      case Single(c) =>
        var rest := ItemChars(items[1..]);
        if rest.None? then None else Some({c} + rest.value)
      case Range(lo, hi) =>
        if hi - lo > MAX_RANGE_SPAN then None
        else
          var rest := ItemChars(items[1..]);
          if rest.None? then None else Some(Span(lo, hi) + rest.value)
      case Category(_) => None
      case Negate => None
  }

  function LeadingChars(p: SubPattern): Option<set<nat>> {
    if p.data == [] then None
    else
      match p.data[0]
      case Literal(c) => Some({c})
      case In(items) => ItemChars(items)
      case Group(_, body) => LeadingChars(body)
      case _ => None
  }

  predicate Clash(a: Option<set<nat>>, b: Option<set<nat>>) {
    a.None? || b.None? || a.value * b.value != {}
  }

  predicate BranchesOverlap(branches: seq<SubPattern>) {
    exists i, j | 0 <= i < j < |branches| ::
      Clash(LeadingChars(branches[i]), LeadingChars(branches[j]))
  }

  predicate DangerousBody(p: SubPattern) {
    exists i | 0 <= i < |p.data| :: DangerousNode(p.data[i])
  }

  predicate DangerousNode(n: Node) {
    match n
    case Repeat(_, _, _, _) => true
    case Branch(branches) =>
      BranchesOverlap(branches) || exists i | 0 <= i < |branches| :: DangerousBody(branches[i])
    case Group(_, body) => DangerousBody(body)
    case Assert(_, _, body) => DangerousBody(body)
    case _ => false
  }

  predicate FindUnsafeRepeat(p: SubPattern) {
    exists i | 0 <= i < |p.data| :: UnsafeNode(p.data[i])
  }

  predicate UnsafeNode(n: Node) {
    match n
    case Repeat(_, _, _, body) => DangerousBody(body) || FindUnsafeRepeat(body)
    case Group(_, body) => FindUnsafeRepeat(body)
    case Branch(branches) => exists i | 0 <= i < |branches| :: FindUnsafeRepeat(branches[i])
    case Assert(_, _, body) => FindUnsafeRepeat(body)
    case _ => false
  }

  datatype Verdict = Accepted | TooLong | Invalid | Unsafe

  /** `parsed` is what the `re` parser made of the text, or None when it rejects it. */
  function AssertSafePattern(length: nat, parsed: Option<SubPattern>): Verdict {
    if length > MAX_PATTERN_LENGTH then TooLong
    else if parsed.None? then Invalid
    else if FindUnsafeRepeat(parsed.value) then Unsafe
    else Accepted
  }

  // ---------------------------------------------------------------------------
  // What the walk finds, said without the walk

  predicate Inside(n: Node, p: SubPattern) {
    exists i | 0 <= i < |p.data| :: n == p.data[i] || Below(n, p.data[i])
  }

  predicate Below(n: Node, m: Node) {
    match m
    case Group(_, body) => Inside(n, body)
    case Branch(branches) => exists i | 0 <= i < |branches| :: Inside(n, branches[i])
    case Repeat(_, _, _, body) => Inside(n, body)
    case Assert(_, _, body) => Inside(n, body)
    case _ => false
  }

  predicate Ambiguous(n: Node) {
    n.Repeat? || (n.Branch? && BranchesOverlap(n.branches))
  }

  lemma {:induction false} DangerousMeans(p: SubPattern)
    ensures DangerousBody(p) <==> exists n :: Inside(n, p) && Ambiguous(n)
  {
    forall i | 0 <= i < |p.data|
      ensures DangerousNode(p.data[i]) <==>
        Ambiguous(p.data[i]) || exists n :: Below(n, p.data[i]) && Ambiguous(n)
    {
      DangerousNodeMeans(p.data[i]);
    }
    if DangerousBody(p) {
      var i :| 0 <= i < |p.data| && DangerousNode(p.data[i]);
      if !Ambiguous(p.data[i]) {
        var n :| Below(n, p.data[i]) && Ambiguous(n);
        assert Inside(n, p);
      }
      else { assert Inside(p.data[i], p); }
    }
  }

  lemma {:induction false} DangerousNodeMeans(m: Node)
    ensures DangerousNode(m) <==> Ambiguous(m) || exists n :: Below(n, m) && Ambiguous(n)
  {
    match m
    case Group(_, body) => DangerousMeans(body);
    case Assert(_, _, body) => DangerousMeans(body);
    case Branch(branches) =>
      forall i | 0 <= i < |branches|
        ensures DangerousBody(branches[i]) <==> exists n :: Inside(n, branches[i]) && Ambiguous(n)
      {
        DangerousMeans(branches[i]);
      }
      if i, n :| 0 <= i < |branches| && Inside(n, branches[i]) && Ambiguous(n) {
        assert Below(n, m);
      }
    case _ =>
  }

  ghost predicate UnsafeWitness(r: Node, n: Node) {
    r.Repeat? && Inside(n, r.body) && Ambiguous(n)
  }

  /** The guard's recursion finds exactly a repeat with another repeat, or an alternation
      whose branches may start alike, anywhere inside it. */
  lemma {:induction false} UnsafeMeans(p: SubPattern)
    ensures FindUnsafeRepeat(p) <==> exists r, n :: Inside(r, p) && UnsafeWitness(r, n)
  {
    forall i | 0 <= i < |p.data|
      ensures UnsafeNode(p.data[i]) <==>
        exists r, n :: (r == p.data[i] || Below(r, p.data[i])) && UnsafeWitness(r, n)
    {
      UnsafeNodeMeans(p.data[i]);
    }
    if FindUnsafeRepeat(p) {
      var i :| 0 <= i < |p.data| && UnsafeNode(p.data[i]);
      var r, n :| (r == p.data[i] || Below(r, p.data[i])) && UnsafeWitness(r, n);
      assert Inside(r, p);
    }
  }

  lemma {:induction false} UnsafeNodeMeans(m: Node)
    ensures UnsafeNode(m) <==> exists r, n :: (r == m || Below(r, m)) && UnsafeWitness(r, n)
  {
    match m
    case Group(_, body) => UnsafeMeans(body);
    case Assert(_, _, body) => UnsafeMeans(body);
    case Repeat(_, _, _, body) =>
      DangerousMeans(body);
      UnsafeMeans(body);
      if DangerousBody(body) {
        var n :| Inside(n, body) && Ambiguous(n);
        assert UnsafeWitness(m, n);
      }
    case Branch(branches) =>
      forall i | 0 <= i < |branches|
        ensures FindUnsafeRepeat(branches[i]) <==>
          exists r, n :: Inside(r, branches[i]) && UnsafeWitness(r, n)
      {
        UnsafeMeans(branches[i]);
      }
      if i, r, n :| 0 <= i < |branches| && Inside(r, branches[i]) && UnsafeWitness(r, n) {
        assert Below(r, m);
      }
    case _ =>
  }
}
