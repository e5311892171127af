/** The string operations the transcript code leans on, as Python defines them. */
module Texts {

  /** What `str.isspace` accepts. */
  predicate IsSpace(c: char) {
    var n := c as int;
    || 0x09 <= n <= 0x0d || 0x1c <= n <= 0x20 || n == 0x85 || n == 0xa0 || n == 0x1680
    || 0x2000 <= n <= 0x200a || n == 0x2028 || n == 0x2029 || n == 0x202f || n == 0x205f || n == 0x3000
  }

  const SPACES: set<int> := {9, 10, 11, 12, 13, 28, 29, 30, 31, 32, 133, 160, 5760, 8192, 8193, 8194, 8195, 8196, 8197,
    8198, 8199, 8200, 8201, 8202, 8232, 8233, 8239, 8287, 12288}

  lemma SpacesAre(c: char)
    ensures IsSpace(c) <==> c as int in SPACES
  {
  }

  function StripLeft(s: string): string {
    if s != "" && IsSpace(s[0]) then StripLeft(s[1..]) else s
  }

  function StripRight(s: string): string {
    if s != "" && IsSpace(s[|s| - 1]) then StripRight(s[..|s| - 1]) else s
  }

  function Strip(s: string): string {
    StripRight(StripLeft(s))
  }

  predicate AllSpace(s: string) {
    forall i | 0 <= i < |s| :: IsSpace(s[i])
  }

  predicate NoBlankEnds(s: string) {
    s != "" ==> !IsSpace(s[0]) && !IsSpace(s[|s| - 1])
  }

  /** Stripping takes the blanks at both ends, all of them, and nothing else. */
  lemma {:induction false} StripMeans(s: string) returns (left: string, right: string)
    ensures s == left + Strip(s) + right && AllSpace(left) && AllSpace(right) && NoBlankEnds(Strip(s))
  {
    left := StripLeftMeans(s);
    right := StripRightMeans(StripLeft(s));
    assert s == left + (Strip(s) + right);
  }

  lemma {:induction false} StripLeftMeans(s: string) returns (left: string)
    ensures s == left + StripLeft(s) && AllSpace(left) && (StripLeft(s) != "" ==> !IsSpace(StripLeft(s)[0]))
  {
    left := "";
    if s != "" && IsSpace(s[0]) {
      left := StripLeftMeans(s[1..]);
      left := [s[0]] + left;
      assert s == [s[0]] + s[1..];
    }
  }

  lemma {:induction false} StripRightMeans(s: string) returns (right: string)
    ensures s == StripRight(s) + right && AllSpace(right)
    ensures StripRight(s) != "" ==> !IsSpace(StripRight(s)[|StripRight(s)| - 1]) && StripRight(s)[0] == s[0]
  {
    right := "";
    if s != "" && IsSpace(s[|s| - 1]) {
      var before := s[..|s| - 1];
      right := StripRightMeans(before);
      assert s == StripRight(before) + (right + [s[|s| - 1]]);
      right := right + [s[|s| - 1]];
    }
  }

  /** Two texts with no blanks around them keep them away when they are put together. */
  lemma {:induction false} StripKeepsTidy(a: string, b: string)
    requires a != "" && b != "" && Strip(a) == a && Strip(b) == b
    ensures Strip(a + " " + b) == a + " " + b
  {
    var la, ra := StripMeans(a);
    var lb, rb := StripMeans(b);
    assert (a + " " + b)[0] == a[0] && (a + " " + b)[|a + " " + b| - 1] == b[|b| - 1];
  }

  function Join(sep: string, parts: seq<string>): string {
    if parts == [] then ""
    else if |parts| == 1 then parts[0]
    else parts[0] + sep + Join(sep, parts[1..])
  }

  function Flatten<T>(groups: seq<seq<T>>): seq<T> {
    if groups == [] then [] else groups[0] + Flatten(groups[1..])
  }

  /** A concatenation starts with the head of its first part. */
  lemma {:induction false} HeadFirst<T>(a: seq<T>, b: seq<T>)
    requires a != []
    ensures a + b == [a[0]] + (a[1..] + b) && (a + b)[1..] == a[1..] + b && (a + b)[0] == a[0]
  {
  }

  lemma {:induction false} JoinAppend(sep: string, a: seq<string>, b: seq<string>)
    requires a != [] && b != []
    ensures Join(sep, a + b) == Join(sep, a) + sep + Join(sep, b)
  {
    assert (a + b)[0] == a[0] && (a + b)[1..] == a[1..] + b;
    if |a| > 1 {
      JoinAppend(sep, a[1..], b);
    } else {
      assert a[1..] + b == b;
    }
  }

  function JoinEach(sep: string, groups: seq<seq<string>>): (r: seq<string>)
    ensures |r| == |groups| && forall i | 0 <= i < |r| :: r[i] == Join(sep, groups[i])
  {
    seq(|groups|, i requires 0 <= i < |groups| => Join(sep, groups[i]))
  }

  lemma {:induction false} JoinOfJoins(sep: string, groups: seq<seq<string>>)
    requires forall i | 0 <= i < |groups| :: groups[i] != []
    ensures Join(sep, JoinEach(sep, groups)) == Join(sep, Flatten(groups))
  {
    if |groups| == 1 {
      assert Flatten(groups[1..]) == [];
      assert Flatten(groups) == groups[0];
    } else if |groups| > 1 {
      JoinOfJoins(sep, groups[1..]);
      assert JoinEach(sep, groups)[1..] == JoinEach(sep, groups[1..]);
      assert Flatten(groups[1..]) == groups[1] + Flatten(groups[2..]) by {
        assert groups[1..][1..] == groups[2..];
      }
      JoinAppend(sep, groups[0], Flatten(groups[1..]));
    }
  }

  // ---------------------------------------------------------------------------
  // Words: `str.split()`

  /** The words of `word + s`, where `word` is the part of a word already read. */
  function WordsFrom(word: string, s: string): seq<string>
    decreases |s|
  {
    if s == "" then Spoken(word)
    else if IsSpace(s[0]) then Spoken(word) + WordsFrom("", s[1..])
    else WordsFrom(word + [s[0]], s[1..])
  }

  function Spoken(word: string): seq<string> {
    if word == "" then [] else [word]
  }

  function Words(s: string): seq<string> {
    WordsFrom("", s)
  }

  lemma {:induction false} WordsAroundSpace(word: string, a: string, space: char, b: string)
    requires IsSpace(space)
    ensures WordsFrom(word, a + [space] + b) == WordsFrom(word, a) + Words(b)
    decreases |a|
  {
    var s := a + [space] + b;
    if a == "" {
      assert s[0] == space && s[1..] == b;
    } else {
      assert s[0] == a[0] && s[1..] == a[1..] + [space] + b;
      if IsSpace(a[0]) {
        WordsAroundSpace("", a[1..], space, b);
        assert WordsFrom(word, s) == Spoken(word) + (WordsFrom("", a[1..]) + Words(b));
      } else {
        WordsAroundSpace(word + [a[0]], a[1..], space, b);
      }
    }
  }

  lemma {:induction false} StripLeftKeepsWords(s: string)
    ensures Words(StripLeft(s)) == Words(s)
  {
    if s != "" && IsSpace(s[0]) {
      StripLeftKeepsWords(s[1..]);
      assert [] + Words(s[1..]) == Words(s[1..]);
    }
  }

  lemma {:induction false} StripRightKeepsWords(s: string)
    ensures Words(StripRight(s)) == Words(s)
  {
    if s != "" && IsSpace(s[|s| - 1]) {
      var a := s[..|s| - 1];
      StripRightKeepsWords(a);
      WordsAroundSpace("", a, s[|s| - 1], "");
      assert a + [s[|s| - 1]] + "" == s;
    }
  }

  lemma StripKeepsWords(s: string)
    ensures Words(Strip(s)) == Words(s)
  {
    StripLeftKeepsWords(s);
    StripRightKeepsWords(StripLeft(s));
  }

  predicate Solid(word: string) {
    word != "" && forall i | 0 <= i < |word| :: !IsSpace(word[i])
  }

  lemma {:induction false} WordsAreSolid(word: string, s: string)
    requires word == "" || Solid(word)
    ensures forall w <- WordsFrom(word, s) :: Solid(w)
    decreases |s|
  {
    if s != "" {
      if IsSpace(s[0]) {
        WordsAreSolid("", s[1..]);
      } else {
        WordsAreSolid(word + [s[0]], s[1..]);
      }
    }
  }

  lemma {:induction false} WordsOfSolid(word: string, rest: string)
    requires rest == "" || Solid(rest)
    ensures WordsFrom(word, rest) == Spoken(word + rest)
    decreases |rest|
  {
    if rest == "" {
      assert word + rest == word;
    } else {
      WordsOfSolid(word + [rest[0]], rest[1..]);
      assert word + [rest[0]] + rest[1..] == word + rest;
    }
  }

  /** Splitting what was joined with single spaces gives the words back. */
  lemma {:induction false} WordsOfJoin(words: seq<string>)
    requires forall i | 0 <= i < |words| :: Solid(words[i])
    ensures Words(Join(" ", words)) == words
  {
    if words != [] {
      WordsOfSolid("", words[0]);
      assert "" + words[0] == words[0];
      if |words| > 1 {
        WordsOfJoin(words[1..]);
        WordsAroundSpace("", words[0], ' ', Join(" ", words[1..]));
      }
    }
  }

  lemma CollapseKeepsWords(s: string)
    ensures Words(Join(" ", Words(s))) == Words(s)
  {
    WordsAreSolid("", s);
    WordsOfJoin(Words(s));
  }

  // ---------------------------------------------------------------------------
  // Lines

  /** Where `str.splitlines` breaks. */
  predicate IsBreak(c: char) {
    var n := c as int;
    0x0a <= n <= 0x0d || 0x1c <= n <= 0x1e || n == 0x85 || n == 0x2028 || n == 0x2029
  }

  lemma BreaksAre(c: char)
    ensures IsBreak(c) <==> c as int in {10, 11, 12, 13, 28, 29, 30, 133, 8232, 8233}
  {
  }

  /** The length of the first line of `s`, without its break. */
  function LineLength(s: string): (n: nat)
    ensures n <= |s| && (forall i | 0 <= i < n :: !IsBreak(s[i])) && (n < |s| ==> IsBreak(s[n]))
  {
    if s == "" || IsBreak(s[0]) then 0 else 1 + LineLength(s[1..])
  }

  function SplitLines(s: string): seq<string>
    decreases |s|
  {
    if s == "" then []
    else
      var n := LineLength(s);
      if n == |s| then [s]
      else
        var after := if s[n] == '\r' && n + 1 < |s| && s[n + 1] == '\n' then n + 2 else n + 1;
        [s[..n]] + SplitLines(s[after..])
  }

  predicate OneLine(s: string) {
    forall i | 0 <= i < |s| :: !IsBreak(s[i])
  }

  predicate IsLineBreak(s: string) {
    s == "\r\n" || (|s| == 1 && IsBreak(s[0]))
  }

  /** The lines with what ended them: every line but the last has a break, the last one has a
      break or is not empty, and a `\r` right before a `\n` makes one break with it. */
  ghost predicate LinesOf(s: string, lines: seq<string>, breaks: seq<string>)
    decreases |lines|
  {
    && |breaks| == |lines|
    && if lines == [] then s == ""
       else
         && OneLine(lines[0])
         && lines[0] + breaks[0] <= s
         && (if breaks[0] == "" then lines[0] != "" && |lines| == 1 else IsLineBreak(breaks[0]))
         && LinesOf(s[|lines[0]| + |breaks[0]|..], lines[1..], breaks[1..])
         && (breaks[0] == "\r" ==> !("\n" <= s[|lines[0]| + 1..]))
  }

  /** The lines are the text without its breaks. */
  lemma {:induction false} SplitLinesMeans(s: string) returns (breaks: seq<string>)
    ensures LinesOf(s, SplitLines(s), breaks)
    decreases |s|
  {
    breaks := [];
    if s != "" {
      var n := LineLength(s);
      if n == |s| {
        breaks := [""];
        assert s[|s|..] == "";
      } else {
        var after := if s[n] == '\r' && n + 1 < |s| && s[n + 1] == '\n' then n + 2 else n + 1;
        var rest := SplitLinesMeans(s[after..]);
        breaks := [s[n..after]] + rest;
        OneLineMore(s, n, after, SplitLines(s[after..]), rest);
      }
    }
  }

  lemma {:induction false} OneLineMore(s: string, n: nat, after: nat, lines: seq<string>, breaks: seq<string>)
    requires n < after <= |s| && OneLine(s[..n]) && IsBreak(s[n])
    requires after == if s[n] == '\r' && n + 1 < |s| && s[n + 1] == '\n' then n + 2 else n + 1
    requires LinesOf(s[after..], lines, breaks)
    ensures LinesOf(s, [s[..n]] + lines, [s[n..after]] + breaks)
  {
    var line, end := s[..n], s[n..after];
    assert line + end == s[..after] && |end| == after - n;
    assert after == n + 2 ==> end == "\r\n";
    assert IsLineBreak(end);
    assert ([line] + lines)[1..] == lines && ([end] + breaks)[1..] == breaks;
    assert end[0] == s[n] && (n + 1 < |s| ==> s[n + 1..][0] == s[n + 1]);
  }
}
