/** What the guard accepts, said of the pattern itself: of the characters an alternative can
    start with, and of where repeats and alternations stand. */
module GuardVerdicts {
  import opened Options
  import opened RegexSyntax
  import opened Backtracking

  // ---------------------------------------------------------------------------
  // The characters a branch can start with

  /** A letter or a range of at most 65. */
  predicate Listed(item: Item) {
    item.Single? || (item.Range? && item.hi - item.lo <= 64)
  }

  /** The first element, through groups, is a letter or a class that only lists such items. */
  predicate StartsListed(p: SubPattern) {
    p.data != [] && StartsListedNode(p.data[0])
  }

  predicate StartsListedNode(n: Node) {
    match n
    case Literal(_) => true
    case In(items) => forall i | 0 <= i < |items| :: Listed(items[i])
    case Group(_, body) => StartsListed(body)
    case _ => false
  }

  /** The first element, through groups, consumes this character. */
  predicate StartsWith(p: SubPattern, c: nat) {
    p.data != [] && StartsWithNode(p.data[0], c)
  }

  predicate StartsWithNode(n: Node, c: nat) {
    match n
    case Group(_, body) => StartsWith(body, c)
    case _ => Consumer(n) && Consumes(n, c)
  }

  /** One listed item consumes the character. */
  predicate Lists(item: Item, c: nat) {
    match item
    case Single(d) => c == d
    case Range(lo, hi) => lo <= c <= hi
    case _ => false
  }

  lemma {:induction false} ListedClassConsumes(items: seq<Item>, c: nat)
    requires forall i | 0 <= i < |items| :: Listed(items[i])
    ensures ItemsAccept(items, c, true) <==> exists i | 0 <= i < |items| :: Lists(items[i], c)
  {
    if items != [] {
      ListedClassConsumes(items[1..], c);
      assert forall i | 0 < i < |items| :: items[i] == items[1..][i - 1];
      assert forall i | 0 <= i < |items| - 1 :: items[1..][i] == items[i + 1];
    }
  }

  lemma {:induction false} ItemCharsAreExact(items: seq<Item>)
    ensures ItemChars(items).Some? <==> forall i | 0 <= i < |items| :: Listed(items[i])
    ensures ItemChars(items).Some? ==>
      forall c: nat :: c in ItemChars(items).value <==> ItemsAccept(items, c, true)
  {
    if items != [] {
      ItemCharsAreExact(items[1..]);
      assert forall i | 0 < i < |items| :: items[i] == items[1..][i - 1];
      assert forall i | 0 <= i < |items| - 1 :: items[1..][i] == items[i + 1];
    }
  }

  /** There is a leading set exactly when the first element only lists, and it holds exactly the
      characters that the element consumes. */
  lemma {:induction false} LeadingCharsAreExact(p: SubPattern)
    ensures LeadingChars(p).Some? <==> StartsListed(p)
    ensures LeadingChars(p).Some? ==> forall c: nat :: c in LeadingChars(p).value <==> StartsWith(p, c)
  {
    if p.data != [] {
      match p.data[0]
      case In(items) => ItemCharsAreExact(items);
      case Group(_, body) => LeadingCharsAreExact(body);
      case _ =>
    }
  }

  /** Two branches that may start alike: one of them not listed, or a character that starts both. */
  ghost predicate MayStartAlike(p: SubPattern, q: SubPattern) {
    !StartsListed(p) || !StartsListed(q) || exists c: nat :: StartsWith(p, c) && StartsWith(q, c)
  }

  ghost predicate ToldApart(branches: seq<SubPattern>) {
    forall i, j | 0 <= i < j < |branches| :: !MayStartAlike(branches[i], branches[j])
  }

  lemma ClashesExactlyWhen(p: SubPattern, q: SubPattern)
    ensures Clash(LeadingChars(p), LeadingChars(q)) <==> MayStartAlike(p, q)
  {
    LeadingCharsAreExact(p);
    LeadingCharsAreExact(q);
    if LeadingChars(p).Some? && LeadingChars(q).Some? {
      var a, b := LeadingChars(p).value, LeadingChars(q).value;
      if a * b != {} {
        var c :| c in a * b;
        assert StartsWith(p, c) && StartsWith(q, c);
      }
      if c: nat :| StartsWith(p, c) && StartsWith(q, c) {
        assert c in a * b;
      }
    }
  }

  /** Branches overlap exactly when two of them may start alike. */
  lemma OverlapsExactlyWhen(branches: seq<SubPattern>)
    ensures BranchesOverlap(branches) <==> !ToldApart(branches)
  {
    forall i, j | 0 <= i < j < |branches|
      ensures Clash(LeadingChars(branches[i]), LeadingChars(branches[j])) <==> MayStartAlike(branches[i], branches[j])
    {
      ClashesExactlyWhen(branches[i], branches[j]);
    }
  }

  // ---------------------------------------------------------------------------
  // The verdict

  /** Inside no repeat is there another repeat, or an alternation not told apart by its starts. */
  ghost predicate RepeatsAreSafe(p: SubPattern) {
    forall r, n | Inside(r, p) && r.Repeat? && Inside(n, r.body) :: !n.Repeat? && (n.Branch? ==> ToldApart(n.branches))
  }

  lemma {:induction false} UnsafeExactlyWhen(p: SubPattern)
    ensures FindUnsafeRepeat(p) <==> !RepeatsAreSafe(p)
  {
    UnsafeMeans(p);
    forall n: Node | n.Branch? ensures BranchesOverlap(n.branches) <==> !ToldApart(n.branches) {
      OverlapsExactlyWhen(n.branches);
    }
    if FindUnsafeRepeat(p) {
      var r, n :| Inside(r, p) && UnsafeWitness(r, n);
    }
    if !RepeatsAreSafe(p) {
      var r, n :| Inside(r, p) && r.Repeat? && Inside(n, r.body) && !(!n.Repeat? && (n.Branch? ==> ToldApart(n.branches)));
      assert UnsafeWitness(r, n);
    }
  }

  /** A pattern is accepted exactly when it has at most 500 characters, can be parsed, and its
      repeats are safe; otherwise the first of the three that fails is the reason. */
  lemma {:induction false} AcceptedExactlyWhen(length: nat, parsed: Option<SubPattern>)
    ensures
      var verdict := AssertSafePattern(length, parsed);
      && (verdict == TooLong <==> length > 500)
      && (verdict == Invalid <==> length <= 500 && parsed.None?)
      && (verdict == Unsafe <==> length <= 500 && parsed.Some? && !RepeatsAreSafe(parsed.value))
      && (verdict == Accepted <==> length <= 500 && parsed.Some? && RepeatsAreSafe(parsed.value))
  {
    if parsed.Some? {
      UnsafeExactlyWhen(parsed.value);
    }
  }

  lemma {:induction false} InsideOnly(n: Node, only: Node)
    requires Inside(n, SubPattern([only])) && n != only && only.Repeat?
    ensures Inside(n, only.body)
  {
    assert SubPattern([only]).data[0] == only;
  }

  /** So a repeat over a body with no repeat in it, and only alternations told apart, is accepted. */
  lemma {:induction false} ToldApartRepeatIsAccepted(length: nat, repeat_: Node)
    requires length <= 500 && repeat_.Repeat?
    requires forall n | Inside(n, repeat_.body) :: !n.Repeat? && (n.Branch? ==> ToldApart(n.branches))
    ensures AssertSafePattern(length, Some(SubPattern([repeat_]))) == Accepted
  {
    var p := SubPattern([repeat_]);
    forall r | Inside(r, p) && r.Repeat? ensures r == repeat_ {
      if r != repeat_ {
        InsideOnly(r, repeat_);
      }
    }
    AcceptedExactlyWhen(length, Some(p));
  }
}
