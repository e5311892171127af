/** The matcher against the languages that patterns stand for. Without assertions, anchors and
    back-references there is a way through a pattern from one position to another exactly when the
    text between is in its language, the rule about empty iterations included. */
module Languages {
  import opened Options
  import opened RegexSyntax
  import opened Backtracking

  type Word = Input

  function Concat(words: seq<Word>): Word {
    if words == [] then [] else words[0] + Concat(words[1..])
  }

  // ---------------------------------------------------------------------------
  // Languages

  /** An item lists the character. */
  predicate Has(item: Item, c: nat) {
    match item
    case Single(d) => c == d
    case Range(lo, hi) => lo <= c <= hi
    case Category(members) => c in members
    case Negate => false
  }

  /** A class lists the character, or, when it starts with a negation, does not. */
  ghost predicate InClass(items: seq<Item>, c: nat) {
    if items != [] && items[0].Negate? then forall i | 0 < i < |items| :: !Has(items[i], c)
    else exists i | 0 <= i < |items| :: Has(items[i], c)
  }

  ghost predicate Speaks(data: seq<Node>, w: Word) {
    if data == [] then w == []
    else exists k | 0 <= k <= |w| :: SpeaksNode(data[0], w[..k]) && Speaks(data[1..], w[k..])
  }

  ghost predicate SpeaksNode(n: Node, w: Word)
    decreases n, 1
  {
    match n
    case Literal(c) => w == [c]
    case NotLiteral(c) => |w| == 1 && w[0] != c
    case Any => |w| == 1 && w[0] != 10
    case In(items) => |w| == 1 && InClass(items, w[0])
    case Group(_, body) => Speaks(body.data, w)
    case Branch(branches) => exists i | 0 <= i < |branches| :: Speaks(branches[i].data, w)
    case Repeat(_, min, max, body) =>
      exists words: seq<Word> ::
        && w == Concat(words) && min <= |words| && (max.Some? ==> |words| <= max.value)
        && forall i | 0 <= i < |words| :: Speaks(body.data, words[i])
    case _ => false
  }

  /** Only such nodes, negations only in front, and no repeat with a maximum below its minimum. */
  predicate Plain(data: seq<Node>) {
    forall i | 0 <= i < |data| :: PlainNode(data[i])
  }

  predicate PlainNode(n: Node) {
    match n
    case In(items) => forall i | 0 < i < |items| :: !items[i].Negate?
    case Group(_, body) => Plain(body.data)
    case Branch(branches) => forall i | 0 <= i < |branches| :: Plain(branches[i].data)
    case Repeat(_, min, max, body) => Plain(body.data) && (max.Some? ==> min <= max.value)
    case _ => Consumer(n)
  }

  // ---------------------------------------------------------------------------
  // Characters

  lemma {:induction false} ListAccepts(items: seq<Item>, c: nat, ok: bool)
    requires forall i | 0 <= i < |items| :: !items[i].Negate?
    ensures ItemsAccept(items, c, ok) <==> ok == exists i | 0 <= i < |items| :: Has(items[i], c)
  {
    if items != [] {
      ListAccepts(items[1..], c, ok);
      assert forall i | 0 < i < |items| :: items[i] == items[1..][i - 1];
      assert forall i | 0 <= i < |items| - 1 :: items[1..][i] == items[i + 1];
    }
  }

  lemma {:induction false} ClassAccepts(items: seq<Item>, c: nat)
    requires forall i | 0 < i < |items| :: !items[i].Negate?
    ensures ItemsAccept(items, c, true) <==> InClass(items, c)
  {
    if items != [] && items[0].Negate? {
      ListAccepts(items[1..], c, false);
      assert forall i | 0 < i < |items| :: items[i] == items[1..][i - 1];
      assert forall i | 0 <= i < |items| - 1 :: items[1..][i] == items[i + 1];
    } else {
      ListAccepts(items, c, true);
    }
  }

  // ---------------------------------------------------------------------------
  // Reaching a position

  ghost predicate Reaches(ends: seq<State>, j: nat) {
    exists e <- ends :: e.pos == j
  }

  lemma {:induction false} AllReach(data: seq<Node>, x: Input, from: nat, ss: seq<State>, j: nat)
    requires Forward(x, from, ss)
    ensures Reaches(EndsAll(data, x, from, ss), j) <==> exists e <- ss :: Reaches(Ends(data, x, e), j)
  {
    if ss != [] {
      AllReach(data, x, from, ss[1..], j);
      ReachesAppend(Ends(data, x, ss[0]), EndsAll(data, x, from, ss[1..]), j);
      assert forall e :: e in ss <==> e == ss[0] || e in ss[1..];
      assert ss[0] in ss;
    }
  }

  lemma {:induction false} ReachesAppend(a: seq<State>, b: seq<State>, j: nat)
    ensures Reaches(a + b, j) <==> Reaches(a, j) || Reaches(b, j)
  {
    if e :| e in a && e.pos == j {
      assert e in a + b;
    }
    if e :| e in b && e.pos == j {
      assert e in a + b;
    }
  }

  lemma {:induction false} DataReaches(data: seq<Node>, x: Input, s: State, j: nat)
    requires Plain(data) && s.pos <= j <= |x|
    ensures Reaches(Ends(data, x, s), j) <==> Speaks(data, x[s.pos..j])
    decreases data, 0, 0, 0
  {
    if data == [] {
      assert s in [s];
    } else {
      AllReach(data[1..], x, s.pos, Step(data[0], x, s), j);
      if Reaches(Ends(data, x, s), j) {
        var e :| e in Step(data[0], x, s) && Reaches(Ends(data[1..], x, e), j);
        var last :| last in Ends(data[1..], x, e) && last.pos == j;
        NodeReaches(data[0], x, s, e.pos);
        DataReaches(data[1..], x, e, j);
        assert Reaches(Step(data[0], x, s), e.pos);
        SplitSpeaks(data, x, s.pos, e.pos, j);
      }
      if Speaks(data, x[s.pos..j]) {
        var m := SpeaksSplit(data, x, s.pos, j);
        NodeReaches(data[0], x, s, m);
        var e :| e in Step(data[0], x, s) && e.pos == m;
        DataReaches(data[1..], x, e, j);
      }
    }
  }

  lemma {:induction false} SplitSpeaks(data: seq<Node>, x: Input, from: nat, mid: nat, j: nat)
    requires data != [] && from <= mid <= j <= |x|
    requires SpeaksNode(data[0], x[from..mid]) && Speaks(data[1..], x[mid..j])
    ensures Speaks(data, x[from..j])
  {
    var w, k := x[from..j], mid - from;
    assert w[..k] == x[from..mid] && w[k..] == x[mid..j];
  }

  lemma {:induction false} SpeaksSplit(data: seq<Node>, x: Input, from: nat, j: nat) returns (mid: nat)
    requires data != [] && from <= j <= |x| && Speaks(data, x[from..j])
    ensures from <= mid <= j && SpeaksNode(data[0], x[from..mid]) && Speaks(data[1..], x[mid..j])
  {
    var w := x[from..j];
    var k :| 0 <= k <= |w| && SpeaksNode(data[0], w[..k]) && Speaks(data[1..], w[k..]);
    mid := from + k;
    assert w[..k] == x[from..mid] && w[k..] == x[mid..j];
  }

  lemma {:induction false} NodeReaches(n: Node, x: Input, s: State, j: nat)
    requires PlainNode(n) && s.pos <= j <= |x|
    ensures Reaches(Step(n, x, s), j) <==> SpeaksNode(n, x[s.pos..j])
    decreases n, 1, 0, 0
  {
    if Consumer(n) {
      ConsumerReaches(n, x, s, j);
    } else if n.Group? {
      DataReaches(n.body.data, x, s, j);
      CaptureReaches(n.id, x, s.pos, Ends(n.body.data, x, s), j);
    } else if n.Branch? {
      BranchesReach(n, 0, x, s, j);
    } else {
      if Reaches(Step(n, x, s), j) {
        var words := LoopIsSound(n, x, s, 0, None, j);
      }
      if SpeaksNode(n, x[s.pos..j]) {
        var words: seq<Word> :| x[s.pos..j] == Concat(words) && n.min <= |words| && (n.max.Some? ==> |words| <= n.max.value)
          && forall i | 0 <= i < |words| :: Speaks(n.body.data, words[i]);
        var fewer := WithoutEmpty(n.body.data, words, n.min);
        LoopIsComplete(n, x, s, 0, None, j, fewer);
      }
    }
  }

  lemma {:induction false} ConsumerReaches(n: Node, x: Input, s: State, j: nat)
    requires Consumer(n) && PlainNode(n) && s.pos <= j <= |x|
    ensures Reaches(Step(n, x, s), j) <==> SpeaksNode(n, x[s.pos..j])
  {
    var w := x[s.pos..j];
    if s.pos < |x| && n.In? {
      ClassAccepts(n.items, x[s.pos]);
    }
    if |w| == 1 {
      assert w[0] == x[s.pos] && w == [x[s.pos]];
    }
    assert s.pos < |x| && Consumes(n, x[s.pos]) ==> Step(n, x, s) == [s.(pos := s.pos + 1)];
  }

  lemma {:induction false} CaptureReaches(id: Option<nat>, x: Input, from: nat, ss: seq<State>, j: nat)
    requires Forward(x, from, ss)
    ensures Reaches(Capture(id, x, from, ss), j) <==> Reaches(ss, j)
  {
    var r := Capture(id, x, from, ss);
    if e :| e in r && e.pos == j {
      var i :| 0 <= i < |r| && r[i] == e;
      assert ss[i] in ss;
    }
    if e :| e in ss && e.pos == j {
      var i :| 0 <= i < |ss| && ss[i] == e;
      assert r[i] in r;
    }
  }

  lemma {:induction false} BranchesReach(n: Node, i: nat, x: Input, s: State, j: nat)
    requires n.Branch? && PlainNode(n) && i <= |n.branches| && s.pos <= j <= |x|
    ensures Reaches(BranchEnds(n, i, x, s), j)
      <==> exists k | i <= k < |n.branches| :: Speaks(n.branches[k].data, x[s.pos..j])
    decreases n, 0, |n.branches| - i, 0
  {
    if i < |n.branches| {
      DataReaches(n.branches[i].data, x, s, j);
      BranchesReach(n, i + 1, x, s, j);
      ReachesAppend(Ends(n.branches[i].data, x, s), BranchEnds(n, i + 1, x, s), j);
    }
  }

  // ---------------------------------------------------------------------------
  // Loops

  lemma {:induction false} LoopAllReach(n: Node, x: Input, s: State, ss: seq<State>, count: nat, last: Option<nat>, j: nat)
    requires n.Repeat? && s.pos <= |x| && Forward(x, s.pos, ss) && Continues(n, s.pos, count, last)
    ensures Reaches(LoopAll(n, x, s, ss, count, last), j)
      <==> exists e <- ss :: Reaches(Loop(n, x, e, count + 1, Mark(n, s.pos, count, last)), j)
  {
    if ss != [] {
      LoopAllReach(n, x, s, ss[1..], count, last, j);
      ReachesAppend(Loop(n, x, ss[0], count + 1, Mark(n, s.pos, count, last)), LoopAll(n, x, s, ss[1..], count, last), j);
      assert forall e :: e in ss <==> e == ss[0] || e in ss[1..];
      assert ss[0] in ss;
    }
  }

  /** A loop goes on, or, once it has made its least number of iterations, stops where it is. */
  lemma {:induction false} LoopReaches(n: Node, x: Input, s: State, count: nat, last: Option<nat>, j: nat)
    requires n.Repeat? && s.pos <= |x|
    ensures
      var on := Continues(n, s.pos, count, last);
      Reaches(Loop(n, x, s, count, last), j) <==>
        || (count >= n.min && j == s.pos)
        || (on && exists e <- Ends(n.body.data, x, s) :: Reaches(Loop(n, x, e, count + 1, Mark(n, s.pos, count, last)), j))
  {
    assert Reaches([s], j) <==> j == s.pos by { assert s in [s]; }
    if Continues(n, s.pos, count, last) {
      var more := LoopAll(n, x, s, Ends(n.body.data, x, s), count, last);
      LoopAllReach(n, x, s, Ends(n.body.data, x, s), count, last, j);
      ReachesAppend(more, [s], j);
      ReachesAppend([s], more, j);
    }
  }

  ghost predicate Made(n: Node, w: Word, words: seq<Word>, count: nat)
    requires n.Repeat?
  {
    && w == Concat(words) && n.min <= count + |words| && (n.max.Some? ==> count + |words| <= n.max.value)
    && forall i | 0 <= i < |words| :: Speaks(n.body.data, words[i])
  }

  lemma {:induction false} LoopIsSound(n: Node, x: Input, s: State, count: nat, last: Option<nat>, j: nat) returns (words: seq<Word>)
    requires n.Repeat? && PlainNode(n) && s.pos <= j <= |x| && (n.max.Some? ==> count <= n.max.value)
    requires Reaches(Loop(n, x, s, count, last), j)
    ensures Made(n, x[s.pos..j], words, count)
    decreases n, 0, Room(n.min, x, s.pos, count, last) + 1, 0
  {
    LoopReaches(n, x, s, count, last, j);
    if count >= n.min && j == s.pos {
      words := [];
    } else {
      var e := LoopGoesOn(n, x, s, count, last, j);
      DataReaches(n.body.data, x, s, e.pos);
      var rest := LoopIsSound(n, x, e, count + 1, Mark(n, s.pos, count, last), j);
      words := [x[s.pos..e.pos]] + rest;
      OneWordMore(n, x, s.pos, e.pos, j, rest, count);
    }
  }

  lemma {:induction false} LoopGoesOn(n: Node, x: Input, s: State, count: nat, last: Option<nat>, j: nat) returns (e: State)
    requires n.Repeat? && s.pos <= |x| && Reaches(Loop(n, x, s, count, last), j) && !(count >= n.min && j == s.pos)
    ensures Continues(n, s.pos, count, last) && e in Ends(n.body.data, x, s) && s.pos <= e.pos <= j <= |x|
    ensures Reaches(Ends(n.body.data, x, s), e.pos)
    ensures Reaches(Loop(n, x, e, count + 1, Mark(n, s.pos, count, last)), j)
  {
    LoopReaches(n, x, s, count, last, j);
    var mark := Mark(n, s.pos, count, last);
    e :| e in Ends(n.body.data, x, s) && Reaches(Loop(n, x, e, count + 1, mark), j);
    var end :| end in Loop(n, x, e, count + 1, mark) && end.pos == j;
  }

  lemma {:induction false} OneWordMore(n: Node, x: Input, from: nat, mid: nat, j: nat, rest: seq<Word>, count: nat)
    requires n.Repeat? && from <= mid <= j <= |x| && Speaks(n.body.data, x[from..mid]) && Made(n, x[mid..j], rest, count + 1)
    ensures Made(n, x[from..j], [x[from..mid]] + rest, count)
  {
    assert ([x[from..mid]] + rest)[1..] == rest && x[from..j] == x[from..mid] + x[mid..j];
  }

  /** Empty iterations beyond the least number can be left out. */
  lemma {:induction false} WithoutEmpty(data: seq<Node>, words: seq<Word>, min: nat) returns (fewer: seq<Word>)
    requires min <= |words| && forall i | 0 <= i < |words| :: Speaks(data, words[i])
    ensures min <= |fewer| <= |words| && Concat(fewer) == Concat(words)
    ensures forall i | 0 <= i < |fewer| :: Speaks(data, fewer[i]) && (i >= min ==> fewer[i] != [])
    decreases |words|
  {
    if |words| <= min {
      fewer := words;
    } else {
      var before, last := words[..|words| - 1], words[|words| - 1];
      var rest := WithoutEmpty(data, before, min);
      assert words == before + [last];
      ConcatLast(before, last);
      if last == [] {
        fewer := rest;
      } else {
        fewer := rest + [last];
        ConcatLast(rest, last);
      }
    }
  }

  lemma {:induction false} ConcatLast(words: seq<Word>, last: Word)
    ensures Concat(words + [last]) == Concat(words) + last
  {
    if words == [] {
      assert [] + [last] == [last] && [last][1..] == [];
    } else {
      ConcatLast(words[1..], last);
      assert (words + [last])[1..] == words[1..] + [last];
    }
  }

  lemma {:induction false} FirstWord(x: Input, from: nat, j: nat, first: Word, rest: Word)
    requires from <= j <= |x| && x[from..j] == first + rest
    ensures from + |first| <= j && first == x[from..from + |first|] && rest == x[from + |first|..j]
  {
    var w, k := x[from..j], |first|;
    assert |w| == j - from && w[..k] == first && w[k..] == rest;
    assert w[..k] == x[from..from + k] && w[k..] == x[from + k..j];
  }

  lemma {:induction false} LoopIsComplete(n: Node, x: Input, s: State, count: nat, last: Option<nat>, j: nat, words: seq<Word>)
    requires n.Repeat? && PlainNode(n) && s.pos <= j <= |x| && Made(n, x[s.pos..j], words, count)
    requires forall i | 0 <= i < |words| && count + i >= n.min :: words[i] != []
    requires count <= n.min ==> last.None?
    requires last == Some(s.pos) ==> words == []
    ensures Reaches(Loop(n, x, s, count, last), j)
    decreases n, 0, |words| + 1, 0
  {
    LoopReaches(n, x, s, count, last, j);
    if words != [] {
      var m, mark := s.pos + |words[0]|, Mark(n, s.pos, count, last);
      FirstWord(x, s.pos, j, words[0], Concat(words[1..]));
      DataReaches(n.body.data, x, s, m);
      var e :| e in Ends(n.body.data, x, s) && e.pos == m;
      assert forall i | 0 <= i < |words| - 1 :: words[1..][i] == words[i + 1];
      LoopIsComplete(n, x, e, count + 1, mark, j, words[1..]);
    }
  }

  /** A way through a plain pattern leads from one position to another exactly when the text between
      is in the pattern's language. */
  lemma {:induction false} MatchesExactlyTheLanguage(p: SubPattern, x: Input, s: State, j: nat)
    requires Plain(p.data) && s.pos <= |x|
    ensures (exists e <- Ends(p.data, x, s) :: e.pos == j) <==> s.pos <= j <= |x| && Speaks(p.data, x[s.pos..j])
  {
    if s.pos <= j <= |x| {
      DataReaches(p.data, x, s, j);
    }
  }
}
