/** The hash-pinned lock files: requirement blocks, their text, and reading the text back. */
module LockFiles {
  import opened Options
  import opened Texts

  type Blocks = map<string, seq<string>>

  const HASH := "--hash="
  const INDENT := "    "
  const CONTINUED := " \\"

  // ---------------------------------------------------------------------------
  // Lines

  /** Each line with its newline. */
  function Unsplit(lines: seq<string>): string {
    if lines == [] then "" else lines[0] + "\n" + Unsplit(lines[1..])
  }

  // ---------------------------------------------------------------------------
  // Requirements

  predicate IsAlnum(c: char) {
    'a' <= c <= 'z' || 'A' <= c <= 'Z' || '0' <= c <= '9'
  }

  predicate IsSeparator(c: char) {
    c == '-' || c == '_' || c == '.'
  }

  function NameLength(s: string): (n: nat)
    ensures n <= |s|
  {
    if s != "" && (IsAlnum(s[0]) || IsSeparator(s[0])) then 1 + NameLength(s[1..]) else 0
  }

  /** The name of a line that pins a version: `name==` and something not blank. */
  function PinName(line: string): Option<string> {
    var n := NameLength(line);
    if n > 0 && IsAlnum(line[0]) && n + 2 < |line| && line[n..n + 2] == "==" && !IsSpace(line[n + 2])
    then Some(line[..n])
    else None
  }

  function Lower(c: char): char {
    if 'A' <= c <= 'Z' then ((c as int) + 32) as char else c
  }

  function Normalize(name: string): string
    decreases |name|
  {
    if name == "" then ""
    else if !IsSeparator(name[0]) then [Lower(name[0])] + Normalize(name[1..])
    else if |name| > 1 && IsSeparator(name[1]) then Normalize(name[1..])
    else "-" + Normalize(name[1..])
  }

  /** `rstrip(" \\")` */
  function Chop(s: string): string {
    if s != "" && (s[|s| - 1] == ' ' || s[|s| - 1] == '\\') then Chop(s[..|s| - 1]) else s
  }

  predicate IsName(s: string) {
    s != "" && InName(s[0]) && s[0] !in {'-', '_', '.'} && forall i | 0 <= i < |s| :: InName(s[i])
  }

  predicate InName(c: char) {
    var n := c as int;
    48 <= n <= 57 || 65 <= n <= 90 || 97 <= n <= 122 || c in {'-', '_', '.'}
  }

  /** The line is this name, then `==`, then something that does not start with a blank. */
  predicate PinsVersion(line: string, name: string) {
    name + "==" <= line && |line| > |name| + 2 && !IsSpace(line[|name| + 2])
  }

  lemma {:induction false} PinNameMeans(line: string, name: string)
    ensures PinName(line) == Some(name) <==> IsName(name) && PinsVersion(line, name)
  {
    var n := NameLength(line);
    NameLengthMeans(line);
    if PinName(line) == Some(name) {
      assert line[..n] + line[n..n + 2] == line[..n + 2];
    }
    if IsName(name) && PinsVersion(line, name) {
      assert line[|name|] == (name + "==")[|name|] == '=';
      assert forall i | 0 <= i < |name| :: line[i] == (name + "==")[i] == name[i];
      assert n == |name|;
      assert line[n..n + 2] == (name + "==")[n..n + 2] == "==";
      assert line[..n] == name;
    }
  }

  lemma {:induction false} NameLengthMeans(s: string)
    ensures forall i | 0 <= i < NameLength(s) :: IsAlnum(s[i]) || IsSeparator(s[i])
    ensures NameLength(s) < |s| ==> !IsAlnum(s[NameLength(s)]) && !IsSeparator(s[NameLength(s)])
  {
    if NameLength(s) > 0 {
      NameLengthMeans(s[1..]);
    }
  }

  function Lowered(s: string): (r: string)
    ensures |r| == |s| && forall i | 0 <= i < |s| ::
      r[i] == if 'A' <= s[i] <= 'Z' then (s[i] as int - 'A' as int + 'a' as int) as char else s[i]
  {
    seq(|s|, i requires 0 <= i < |s| => Lower(s[i]))
  }

  predicate NoSeparator(s: string) {
    forall i | 0 <= i < |s| :: s[i] != '-' && s[i] != '_' && s[i] != '.'
  }

  predicate OnlySeparators(s: string) {
    forall i | 0 <= i < |s| :: s[i] == '-' || s[i] == '_' || s[i] == '.'
  }

  /** Between separators letters are only lowered; */
  lemma {:induction false} NormalizedWord(word: string)
    requires NoSeparator(word)
    ensures Normalize(word) == Lowered(word)
  {
    if word != "" {
      NormalizedWord(word[1..]);
      assert Lowered(word) == [Lower(word[0])] + Lowered(word[1..]);
    }
  }

  /** and separators that stand together, however many and whichever, become one dash. */
  lemma {:induction false} NormalizedAround(word: string, separators: string, rest: string)
    requires NoSeparator(word) && separators != "" && OnlySeparators(separators)
    requires rest != "" ==> NoSeparator(rest[..1])
    ensures Normalize(word + separators + rest) == Lowered(word) + "-" + Normalize(rest)
    decreases |word| + |separators|
  {
    var s := word + separators + rest;
    if word != "" {
      NormalizedAround(word[1..], separators, rest);
      assert s[1..] == word[1..] + separators + rest;
      assert Lowered(word) == [Lower(word[0])] + Lowered(word[1..]);
    } else if |separators| > 1 {
      NormalizedAround("", separators[1..], rest);
      assert s[1..] == "" + separators[1..] + rest && s[1] == separators[1];
    } else {
      assert s[1..] == rest;
      assert rest != "" ==> rest[..1][0] == rest[0];
    }
  }

  // ---------------------------------------------------------------------------
  // Parsing

  predicate IsHash(line: string) {
    HASH <= Strip(line)
  }

  function ParseFrom(lines: seq<string>, blocks: Blocks, current: Option<string>): Blocks
    requires current.Some? ==> current.value in blocks
  {
    if lines == [] then blocks
    else
      var line := lines[0];
      if PinName(line).Some? then
        var name := Normalize(PinName(line).value);
        ParseFrom(lines[1..], blocks[name := [Chop(line)]], Some(name))
      else if current.Some? && IsHash(line) then
        ParseFrom(lines[1..], blocks[current.value := blocks[current.value] + [Chop(Strip(line))]], current)
      else
        ParseFrom(lines[1..], blocks, None)
  }

  function Parse(text: string): Blocks {
    ParseFrom(SplitLines(text), map[], None)
  }

  method ParseBlocks(text: string) returns (blocks: Blocks)
    ensures blocks == Parse(text)
  {
    blocks := map[];
    var current: Option<string> := None;
    var lines := SplitLines(text);
    for i := 0 to |lines|
      invariant current.Some? ==> current.value in blocks
      invariant ParseFrom(lines[i..], blocks, current) == Parse(text)
    {
      var line := lines[i];
      assert lines[i..][0] == line && lines[i..][1..] == lines[i + 1..];
      var name := PinName(line);
      if name.Some? {
        current := Some(Normalize(name.value));
        blocks := blocks[current.value := [Chop(line)]];
      } else if current.Some? && IsHash(line) {
        blocks := blocks[current.value := blocks[current.value] + [Chop(Strip(line))]];
      } else {
        current := None;
      }
    }
  }

  // ---------------------------------------------------------------------------
  // Rendering, in the order of the names

  predicate AtMost(a: string, b: string) {
    a == "" || (b != "" && (a[0] < b[0] || (a[0] == b[0] && AtMost(a[1..], b[1..]))))
  }

  lemma {:induction false} AtMostIsTotal(a: string, b: string)
    ensures AtMost(a, b) || AtMost(b, a)
    ensures AtMost(a, b) && AtMost(b, a) ==> a == b
  {
    if a != "" && b != "" && a[0] == b[0] {
      AtMostIsTotal(a[1..], b[1..]);
      assert a == [a[0]] + a[1..] && b == [b[0]] + b[1..];
    }
  }

  lemma {:induction false} AtMostIsTransitive(a: string, b: string, c: string)
    requires AtMost(a, b) && AtMost(b, c)
    ensures AtMost(a, c)
  {
    if a != "" && b != "" && c != "" && a[0] == b[0] && b[0] == c[0] {
      AtMostIsTransitive(a[1..], b[1..], c[1..]);
    }
  }

  predicate IsLeast(names: set<string>, m: string) {
    m in names && forall n | n in names :: AtMost(m, n)
  }

  lemma {:induction false} OneLeast(names: set<string>)
    requires names != {}
    ensures exists m :: IsLeast(names, m)
    ensures forall a, b | IsLeast(names, a) && IsLeast(names, b) :: a == b
    decreases |names|
  {
    forall a, b | IsLeast(names, a) && IsLeast(names, b) ensures a == b {
      AtMostIsTotal(a, b);
    }
    var n :| n in names;
    AtMostIsTotal(n, n);
    if names == {n} {
      assert IsLeast(names, n);
    } else {
      OneLeast(names - {n});
      var l :| IsLeast(names - {n}, l);
      AtMostIsTotal(l, n);
      var m := if AtMost(l, n) then l else n;
      forall k <- names ensures AtMost(m, k) {
        if k != n && m == n {
          AtMostIsTransitive(n, l, k);
        }
      }
      assert IsLeast(names, m);
    }
  }

  function Sorted(names: set<string>): (r: seq<string>)
    ensures forall n :: n in r <==> n in names
    ensures forall i, j | 0 <= i < j < |r| :: r[i] != r[j] && AtMost(r[i], r[j])
    decreases |names|
  {
    if names == {} then []
    else
      OneLeast(names);
      var m :| IsLeast(names, m);
      [m] + Sorted(names - {m})
  }

  function Entry(block: seq<string>): string {
    Join(CONTINUED + "\n" + INDENT, block)
  }

  function Entries(names: seq<string>, blocks: Blocks): (r: seq<string>)
    requires forall i | 0 <= i < |names| :: names[i] in blocks
    ensures |r| == |names| && forall i | 0 <= i < |r| :: r[i] == Entry(blocks[names[i]])
  {
    seq(|names|, i requires 0 <= i < |names| && names[i] in blocks => Entry(blocks[names[i]]))
  }

  function InOrder(blocks: Blocks): (names: seq<string>)
    ensures forall i | 0 <= i < |names| :: names[i] in blocks
    ensures forall n :: n in names <==> n in blocks
    ensures forall i, j | 0 <= i < j < |names| :: names[i] != names[j] && AtMost(names[i], names[j])
  {
    var names := Sorted(blocks.Keys);
    assert forall i | 0 <= i < |names| :: names[i] in names;
    names
  }

  function Rendered(blocks: Blocks): string {
    Join("\n", Entries(InOrder(blocks), blocks)) + "\n"
  }

  method Render(blocks: Blocks) returns (text: string)
    ensures text == Rendered(blocks)
  {
    var rendered: seq<string>, names := [], InOrder(blocks);
    for i := 0 to |names|
      invariant |rendered| == i && forall k | 0 <= k < i :: rendered[k] == Entry(blocks[names[k]])
    {
      assert CONTINUED + "\n" + INDENT == " \\\n    ";
      rendered := rendered + [Join(" \\\n    ", blocks[names[i]])];
    }
    assert rendered == Entries(names, blocks);
    text := Join("\n", rendered) + "\n";
  }

  function Without(blocks: Blocks, provided: Blocks): Blocks {
    map n | n in blocks && n !in provided :: blocks[n]
  }

  // ---------------------------------------------------------------------------
  // Text and lines

  lemma {:induction false} LineLengthOf(line: string, rest: string)
    requires OneLine(line)
    ensures LineLength(line + "\n" + rest) == |line|
  {
    var s := line + "\n" + rest;
    if line != "" {
      LineLengthOf(line[1..], rest);
      assert s[1..] == line[1..] + "\n" + rest;
    }
  }

  lemma {:induction false} SplitUnsplit(lines: seq<string>)
    requires forall i | 0 <= i < |lines| :: OneLine(lines[i])
    ensures SplitLines(Unsplit(lines)) == lines
  {
    if lines != [] {
      var rest := Unsplit(lines[1..]);
      var s := lines[0] + "\n" + rest;
      LineLengthOf(lines[0], rest);
      SplitUnsplit(lines[1..]);
      assert s[..|lines[0]|] == lines[0] && s[|lines[0]| + 1..] == rest;
    }
  }

  lemma {:induction false} UnsplitAppend(a: seq<string>, b: seq<string>)
    ensures Unsplit(a + b) == Unsplit(a) + Unsplit(b)
  {
    if a == [] {
      assert a + b == b;
    } else {
      UnsplitAppend(a[1..], b);
      HeadFirst(a, b);
    }
  }

  /** The hash lines of an entry as they stand in the file. */
  function HashLines(hashes: seq<string>): seq<string> {
    if hashes == [] then []
    else if |hashes| == 1 then [INDENT + hashes[0]]
    else [INDENT + hashes[0] + CONTINUED] + HashLines(hashes[1..])
  }

  function EntryLines(block: seq<string>): seq<string>
    requires block != []
  {
    if |block| == 1 then [block[0]] else [block[0] + CONTINUED] + HashLines(block[1..])
  }

  lemma {:induction false} EntryIsItsLines(block: seq<string>)
    requires block != []
    ensures Entry(block) + "\n" == Unsplit(EntryLines(block))
  {
    if |block| > 1 {
      HashesAreTheirLines(block[1..]);
      assert [block[0] + CONTINUED] + HashLines(block[1..]) == EntryLines(block);
    }
  }

  lemma {:induction false} HashesAreTheirLines(hashes: seq<string>)
    requires hashes != []
    ensures INDENT + Entry(hashes) + "\n" == Unsplit(HashLines(hashes))
  {
    if |hashes| > 1 {
      HashesAreTheirLines(hashes[1..]);
    }
  }

  function FileLines(names: seq<string>, blocks: Blocks): seq<string>
    requires forall i | 0 <= i < |names| :: names[i] in blocks && blocks[names[i]] != []
  {
    if names == [] then [] else EntryLines(blocks[names[0]]) + FileLines(names[1..], blocks)
  }

  lemma {:induction false} FileIsItsLines(names: seq<string>, blocks: Blocks)
    requires names != [] && forall i | 0 <= i < |names| :: names[i] in blocks && blocks[names[i]] != []
    ensures Join("\n", Entries(names, blocks)) + "\n" == Unsplit(FileLines(names, blocks))
  {
    EntryIsItsLines(blocks[names[0]]);
    UnsplitAppend(EntryLines(blocks[names[0]]), FileLines(names[1..], blocks));
    if |names| > 1 {
      FileIsItsLines(names[1..], blocks);
      assert Entries(names, blocks)[1..] == Entries(names[1..], blocks);
    } else {
      assert FileLines(names[1..], blocks) == [];
    }
  }

  // ---------------------------------------------------------------------------
  // Reading back what was rendered

  /** A hash as `parse_blocks` leaves it. */
  predicate TidyHash(h: string) {
    OneLine(h) && HASH <= h && Chop(h) == h
  }

  /** A block as `parse_blocks` leaves it. The pin may have lost its version to the stripping. */
  predicate TidyBlock(name: string, block: seq<string>) {
    && block != []
    && OneLine(block[0]) && block[0] != "" && IsAlnum(block[0][0]) && Chop(block[0]) == block[0]
    && (PinName(block[0]).Some? ==> Normalize(PinName(block[0]).value) == name)
    && forall i | 0 < i < |block| :: TidyHash(block[i])
  }

  predicate Tidy(blocks: Blocks) {
    forall n | n in blocks :: TidyBlock(n, blocks[n])
  }

  /** Hashes read back: only the last, which nothing follows on its line, can lose blanks. */
  function Trimmed(hashes: seq<string>): seq<string> {
    if hashes == [] then []
    else if |hashes| == 1 then [Chop(StripRight(hashes[0]))]
    else [hashes[0]] + Trimmed(hashes[1..])
  }

  function TrimmedBlock(block: seq<string>): seq<string>
    requires block != []
  {
    [block[0]] + Trimmed(block[1..])
  }

  /** What reading a rendered file gives: blocks whose pin no longer pins are gone. */
  function Reread(blocks: Blocks): Blocks
    requires Tidy(blocks)
  {
    map n | n in blocks && PinName(blocks[n][0]).Some? :: TrimmedBlock(blocks[n])
  }

  lemma {:induction false} NameLengthPrefix(a: string, b: string)
    requires NameLength(a) < |a|
    ensures NameLength(a + b) == NameLength(a)
  {
    if IsAlnum(a[0]) || IsSeparator(a[0]) {
      NameLengthPrefix(a[1..], b);
      HeadFirst(a, b);
    }
  }

  lemma {:induction false} NameLengthWhole(a: string)
    requires NameLength(a) == |a|
    ensures NameLength(a + CONTINUED) == |a|
  {
    if a != "" {
      NameLengthWhole(a[1..]);
      assert (a + CONTINUED)[1..] == a[1..] + CONTINUED;
    }
  }

  lemma {:induction false} ChopContinued(s: string)
    requires Chop(s) == s
    ensures Chop(s + CONTINUED) == s
  {
    assert (s + CONTINUED)[..|s| + 1] == s + " ";
    assert (s + " ")[..|s|] == s;
  }

  lemma {:induction false} PinLine(pin: string)
    requires pin != "" && IsAlnum(pin[0]) && Chop(pin) == pin
    ensures PinName(pin + CONTINUED) == PinName(pin) && Chop(pin + CONTINUED) == pin
    ensures !IsHash(pin) && !IsHash(pin + CONTINUED)
  {
    ChopContinued(pin);
    var line, n := pin + CONTINUED, NameLength(pin);
    if n < |pin| {
      NameLengthPrefix(pin, CONTINUED);
      assert line[..n] == pin[..n];
      if n + 2 <= |pin| {
        assert line[n..n + 2] == pin[n..n + 2];
      } else {
        assert line[n..n + 2][1] == ' ';
      }
    } else {
      NameLengthWhole(pin);
      assert line[n..n + 2] == CONTINUED;
    }
    StripRightHead(pin);
    StripRightHead(line);
  }

  lemma {:induction false} StripRightHead(s: string)
    requires s != "" && !IsSpace(s[0])
    ensures StripRight(s) != "" && StripRight(s)[0] == s[0]
  {
    if IsSpace(s[|s| - 1]) {
      StripRightHead(s[..|s| - 1]);
    }
  }

  lemma {:induction false} StripRightKeepsHash(h: string)
    requires HASH <= h
    ensures HASH <= StripRight(h)
  {
    if IsSpace(h[|h| - 1]) {
      assert h[|HASH| - 1] == '=';
      StripRightKeepsHash(h[..|h| - 1]);
    }
  }

  lemma {:induction false} StripIndent(s: string)
    requires s != "" && !IsSpace(s[0])
    ensures Strip(INDENT + s) == StripRight(s) && PinName(INDENT + s) == None
  {
    SpaceBefore(s);
    SpaceBefore(" " + s);
    SpaceBefore(" " + (" " + s));
    SpaceBefore(" " + (" " + (" " + s)));
    assert INDENT + s == " " + (" " + (" " + (" " + s)));
  }

  lemma {:induction false} SpaceBefore(s: string)
    ensures StripLeft(" " + s) == StripLeft(s)
  {
    assert (" " + s)[1..] == s;
  }

  lemma {:induction false} HashLine(h: string)
    requires TidyHash(h)
    ensures PinName(INDENT + h) == None && IsHash(INDENT + h)
    ensures Strip(INDENT + h) == StripRight(h)
    ensures PinName(INDENT + h + CONTINUED) == None && IsHash(INDENT + h + CONTINUED)
    ensures Chop(Strip(INDENT + h + CONTINUED)) == h
  {
    StripIndent(h);
    StripIndent(h + CONTINUED);
    StripRightKeepsHash(h);
    ChopContinued(h);
    assert INDENT + h + CONTINUED == INDENT + (h + CONTINUED);
  }

  lemma {:induction false} HashReads(line: string, rest: seq<string>, blocks: Blocks, name: string)
    requires name in blocks && PinName(line).None? && IsHash(line)
    ensures ParseFrom([line] + rest, blocks, Some(name))
      == ParseFrom(rest, blocks[name := blocks[name] + [Chop(Strip(line))]], Some(name))
  {
    assert ([line] + rest)[1..] == rest;
  }

  lemma {:induction false} FirstHashLine(hashes: seq<string>, rest: seq<string>)
    requires hashes != []
    ensures HashLines(hashes) + rest
      == [INDENT + hashes[0] + if |hashes| == 1 then "" else CONTINUED] + (HashLines(hashes[1..]) + rest)
  {
    if |hashes| == 1 {
      assert INDENT + hashes[0] + "" == INDENT + hashes[0];
    }
  }

  /** A hash read after others is one more of them. */
  lemma OneMoreHash(blocks: Blocks, name: string, hash: string, more: seq<string>)
    requires name in blocks
    ensures
      var next := blocks[name := blocks[name] + [hash]];
      next[name := next[name] + more] == blocks[name := blocks[name] + ([hash] + more)]
  {
    assert blocks[name] + [hash] + more == blocks[name] + ([hash] + more);
  }

  lemma {:induction false} HashesParse(hashes: seq<string>, rest: seq<string>, blocks: Blocks, name: string)
    requires name in blocks && forall i | 0 <= i < |hashes| :: TidyHash(hashes[i])
    ensures ParseFrom(HashLines(hashes) + rest, blocks, Some(name))
      == ParseFrom(rest, blocks[name := blocks[name] + Trimmed(hashes)], Some(name))
  {
    if hashes == [] {
      assert HashLines(hashes) + rest == rest && blocks[name] + [] == blocks[name];
      assert blocks[name := blocks[name]] == blocks;
    } else {
      var h, more := hashes[0], hashes[1..];
      var line := INDENT + h + if |hashes| == 1 then "" else CONTINUED;
      var hash := if |hashes| == 1 then Chop(StripRight(h)) else h;
      assert INDENT + h + "" == INDENT + h;
      HashLine(h);
      FirstHashLine(hashes, rest);
      HashReads(line, HashLines(more) + rest, blocks, name);
      HashesParse(more, rest, blocks[name := blocks[name] + [hash]], name);
      OneMoreHash(blocks, name, hash, Trimmed(more));
      assert Trimmed(hashes) == [hash] + Trimmed(more);
    }
  }

  lemma {:induction false} StrayLineSkips(line: string, rest: seq<string>, blocks: Blocks)
    requires PinName(line).None?
    ensures ParseFrom([line] + rest, blocks, None) == ParseFrom(rest, blocks, None)
  {
    assert ([line] + rest)[1..] == rest;
  }

  lemma {:induction false} StrayHashesSkip(hashes: seq<string>, rest: seq<string>, blocks: Blocks)
    requires forall i | 0 <= i < |hashes| :: TidyHash(hashes[i])
    ensures ParseFrom(HashLines(hashes) + rest, blocks, None) == ParseFrom(rest, blocks, None)
  {
    if hashes == [] {
      assert HashLines(hashes) + rest == rest;
    } else {
      assert INDENT + hashes[0] + "" == INDENT + hashes[0];
      HashLine(hashes[0]);
      FirstHashLine(hashes, rest);
      StrayLineSkips(INDENT + hashes[0] + if |hashes| == 1 then "" else CONTINUED, HashLines(hashes[1..]) + rest, blocks);
      StrayHashesSkip(hashes[1..], rest, blocks);
    }
  }

  lemma {:induction false} PinReads(line: string, rest: seq<string>, blocks: Blocks, current: Option<string>)
    requires (current.Some? ==> current.value in blocks) && !IsHash(line)
    ensures ParseFrom([line] + rest, blocks, current) ==
      if PinName(line).Some? then
        var name := Normalize(PinName(line).value);
        ParseFrom(rest, blocks[name := [Chop(line)]], Some(name))
      else ParseFrom(rest, blocks, None)
  {
    assert ([line] + rest)[1..] == rest;
  }

  lemma {:induction false} FirstEntryLine(block: seq<string>, rest: seq<string>, blocks: Blocks, current: Option<string>)
    requires block != [] && (current.Some? ==> current.value in blocks)
    requires block[0] != "" && IsAlnum(block[0][0]) && Chop(block[0]) == block[0]
    ensures ParseFrom(EntryLines(block) + rest, blocks, current) ==
      if PinName(block[0]).Some? then
        var name := Normalize(PinName(block[0]).value);
        ParseFrom(HashLines(block[1..]) + rest, blocks[name := [block[0]]], Some(name))
      else ParseFrom(HashLines(block[1..]) + rest, blocks, None)
  {
    var pin := block[0];
    var line := if |block| == 1 then pin else pin + CONTINUED;
    PinLine(pin);
    assert EntryLines(block) == [line] + HashLines(block[1..]);
    HeadFirst(EntryLines(block), rest);
    PinReads(line, HashLines(block[1..]) + rest, blocks, current);
  }

  lemma {:induction false} EntryParses(name: string, block: seq<string>, rest: seq<string>, blocks: Blocks, current: Option<string>)
    requires TidyBlock(name, block) && (current.Some? ==> current.value in blocks)
    ensures ParseFrom(EntryLines(block) + rest, blocks, current) ==
      if PinName(block[0]).Some? then ParseFrom(rest, blocks[name := TrimmedBlock(block)], Some(name))
      else ParseFrom(rest, blocks, None)
  {
    var pin, hashes := block[0], block[1..];
    FirstEntryLine(block, rest, blocks, current);
    if PinName(pin).Some? {
      HashesParse(hashes, rest, blocks[name := [pin]], name);
      assert blocks[name := [pin]][name := [pin] + Trimmed(hashes)] == blocks[name := TrimmedBlock(block)];
    } else {
      StrayHashesSkip(hashes, rest, blocks);
    }
  }

  /** The blocks of `names` that survive reading, on top of those read so far. */
  function Collected(names: seq<string>, blocks: Blocks, soFar: Blocks): Blocks
    requires Tidy(blocks) && forall i | 0 <= i < |names| :: names[i] in blocks
    decreases |names|
  {
    if names == [] then soFar
    else
      Collected(names[1..], blocks,
        if PinName(blocks[names[0]][0]).Some? then soFar[names[0] := TrimmedBlock(blocks[names[0]])] else soFar)
  }

  lemma {:induction false} FileParses(names: seq<string>, blocks: Blocks, soFar: Blocks, current: Option<string>)
    requires Tidy(blocks) && forall i | 0 <= i < |names| :: names[i] in blocks
    requires current.Some? ==> current.value in soFar
    ensures ParseFrom(FileLines(names, blocks), soFar, current) == Collected(names, blocks, soFar)
    decreases |names|
  {
    if names != [] {
      var block := blocks[names[0]];
      EntryParses(names[0], block, FileLines(names[1..], blocks), soFar, current);
      if PinName(block[0]).Some? {
        FileParses(names[1..], blocks, soFar[names[0] := TrimmedBlock(block)], Some(names[0]));
      } else {
        FileParses(names[1..], blocks, soFar, None);
      }
    }
  }

  lemma {:induction false} CollectedAt(names: seq<string>, blocks: Blocks, soFar: Blocks, n: string)
    requires Tidy(blocks) && forall i | 0 <= i < |names| :: names[i] in blocks
    ensures
      var all := Collected(names, blocks, soFar);
      var read := n in names && PinName(blocks[n][0]).Some?;
      && (n in all <==> read || n in soFar)
      && (n in all ==> all[n] == if read then TrimmedBlock(blocks[n]) else soFar[n])
    decreases |names|
  {
    if names != [] {
      var block := blocks[names[0]];
      var next := if PinName(block[0]).Some? then soFar[names[0] := TrimmedBlock(block)] else soFar;
      CollectedAt(names[1..], blocks, next, n);
      assert n in names <==> n == names[0] || n in names[1..];
    }
  }

  predicate AllLines(lines: seq<string>) {
    forall i | 0 <= i < |lines| :: OneLine(lines[i])
  }

  lemma {:induction false} OneLineAppend(a: string, b: string)
    requires OneLine(a) && OneLine(b)
    ensures OneLine(a + b)
  {
  }

  lemma {:induction false} HashLinesAreLines(hashes: seq<string>)
    requires AllLines(hashes)
    ensures AllLines(HashLines(hashes))
  {
    if hashes != [] {
      OneLineAppend(INDENT, hashes[0]);
      OneLineAppend(INDENT + hashes[0], CONTINUED);
      HashLinesAreLines(hashes[1..]);
    }
  }

  lemma {:induction false} FileLinesAreLines(names: seq<string>, blocks: Blocks)
    requires Tidy(blocks) && forall i | 0 <= i < |names| :: names[i] in blocks
    ensures AllLines(FileLines(names, blocks))
  {
    if names != [] {
      var block := blocks[names[0]];
      OneLineAppend(block[0], CONTINUED);
      HashLinesAreLines(block[1..]);
      assert AllLines(EntryLines(block));
      FileLinesAreLines(names[1..], blocks);
    }
  }

  lemma {:induction false} FileReads(names: seq<string>, blocks: Blocks)
    requires Tidy(blocks) && names != [] && forall i | 0 <= i < |names| :: names[i] in blocks
    ensures Parse(Join("\n", Entries(names, blocks)) + "\n") == Collected(names, blocks, map[])
  {
    FileIsItsLines(names, blocks);
    FileLinesAreLines(names, blocks);
    SplitUnsplit(FileLines(names, blocks));
    FileParses(names, blocks, map[], None);
  }

  lemma {:induction false} CollectedIsReread(names: seq<string>, blocks: Blocks)
    requires Tidy(blocks) && forall n :: n in names <==> n in blocks
    requires forall i | 0 <= i < |names| :: names[i] in blocks
    requires forall i, j | 0 <= i < j < |names| :: names[i] != names[j]
    ensures Collected(names, blocks, map[]) == Reread(blocks)
  {
    var all := Collected(names, blocks, map[]);
    forall n ensures (n in all <==> n in Reread(blocks)) && (n in all ==> all[n] == Reread(blocks)[n]) {
      CollectedAt(names, blocks, map[], n);
    }
  }

  lemma {:induction false} EmptyFileReads()
    ensures Parse("\n") == map[]
  {
    SplitUnsplit([""]);
    assert Unsplit([""]) == "\n";
  }

  /** Reading a rendered lock file, for any blocks `parse_blocks` can have produced. */
  lemma {:induction false} RenderedReads(blocks: Blocks)
    requires Tidy(blocks)
    ensures Parse(Rendered(blocks)) == Reread(blocks)
  {
    var names := InOrder(blocks);
    if names == [] {
      assert Rendered(blocks) == "\n";
      EmptyFileReads();
      forall n ensures n !in blocks {
        assert n !in names;
      }
    } else {
      FileReads(names, blocks);
      CollectedIsReread(names, blocks);
    }
  }

  // ---------------------------------------------------------------------------
  // The round trip

  /** Every pin still pins a version, and no block's last line ends in blanks. */
  predicate Reads(blocks: Blocks)
    requires Tidy(blocks)
  {
    forall n | n in blocks :: PinName(blocks[n][0]).Some? && TrimmedBlock(blocks[n]) == blocks[n]
  }

  /** Blocks come back from their text exactly when that holds of them. */
  lemma {:induction false} RoundTripsExactlyWhenItReads(blocks: Blocks)
    requires Tidy(blocks)
    ensures Parse(Rendered(blocks)) == blocks <==> Reads(blocks)
  {
    RenderedReads(blocks);
    if Parse(Rendered(blocks)) == blocks {
      forall n | n in blocks ensures PinName(blocks[n][0]).Some? && TrimmedBlock(blocks[n]) == blocks[n] {
        assert n in Reread(blocks);
      }
    }
  }

  /** Whatever the text, what `parse_blocks` makes of it is tidy. */
  lemma {:induction false} ParseFromIsTidy(lines: seq<string>, blocks: Blocks, current: Option<string>)
    requires current.Some? ==> current.value in blocks
    requires Tidy(blocks) && forall i | 0 <= i < |lines| :: OneLine(lines[i])
    ensures Tidy(ParseFrom(lines, blocks, current))
  {
    if lines != [] {
      var line := lines[0];
      if PinName(line).Some? {
        var name := Normalize(PinName(line).value);
        ChoppedPin(line);
        ParseFromIsTidy(lines[1..], blocks[name := [Chop(line)]], Some(name));
      } else if current.Some? && IsHash(line) {
        ChoppedHash(line);
        var name := current.value;
        ParseFromIsTidy(lines[1..], blocks[name := blocks[name] + [Chop(Strip(line))]], current);
      } else {
        ParseFromIsTidy(lines[1..], blocks, None);
      }
    }
  }

  lemma {:induction false} ChopIsPrefix(s: string)
    ensures |Chop(s)| <= |s| && Chop(s) == s[..|Chop(s)|] && Chop(Chop(s)) == Chop(s)
    ensures forall i | |Chop(s)| <= i < |s| :: s[i] == ' ' || s[i] == '\\'
  {
    if Chop(s) != s {
      ChopIsPrefix(s[..|s| - 1]);
    }
  }

  lemma {:induction false} StripIsInfix(s: string)
    ensures OneLine(s) ==> OneLine(Strip(s))
  {
    StripLeftIsInfix(s);
    StripRightIsInfix(StripLeft(s));
  }

  lemma {:induction false} StripLeftIsInfix(s: string)
    ensures OneLine(s) ==> OneLine(StripLeft(s))
  {
    if s != "" && IsSpace(s[0]) {
      StripLeftIsInfix(s[1..]);
    }
  }

  lemma {:induction false} StripRightIsInfix(s: string)
    ensures OneLine(s) ==> OneLine(StripRight(s))
  {
    if s != "" && IsSpace(s[|s| - 1]) {
      StripRightIsInfix(s[..|s| - 1]);
    }
  }

  lemma {:induction false} ChoppedHash(line: string)
    requires OneLine(line) && IsHash(line)
    ensures TidyHash(Chop(Strip(line)))
  {
    var h := Strip(line);
    StripIsInfix(line);
    ChopIsPrefix(h);
    assert h[|HASH| - 1] == '=';
    assert |Chop(h)| >= |HASH|;
  }

  /** Chopping a pin's line leaves its name, and its version or nothing of it. */
  lemma {:induction false} ChoppedPin(line: string)
    requires OneLine(line) && PinName(line).Some?
    ensures TidyBlock(Normalize(PinName(line).value), [Chop(line)])
  {
    ChopIsPrefix(line);
    var pin, n := Chop(line), NameLength(line);
    NameIsName(line);
    assert line[n..n + 2][0] == '=' && line[n..n + 2][1] == '=';
    assert line[n] == '=' && line[n + 1] == '=';
    assert |pin| >= n + 2;
    NameLengthOfPrefix(line, |pin|);
    assert line[..|pin|] == pin && pin[..n] == line[..n];
  }

  lemma {:induction false} NameIsName(s: string)
    ensures forall i | 0 <= i < NameLength(s) :: IsAlnum(s[i]) || IsSeparator(s[i])
  {
    if NameLength(s) > 0 {
      NameIsName(s[1..]);
    }
  }

  lemma {:induction false} NameLengthOfPrefix(s: string, k: nat)
    requires NameLength(s) < k <= |s|
    ensures NameLength(s[..k]) == NameLength(s)
  {
    if NameLength(s) > 0 {
      NameLengthOfPrefix(s[1..], k - 1);
      assert s[..k][1..] == s[1..][..k - 1];
    }
  }

  lemma {:induction false} SplitGivesLines(s: string)
    ensures forall i | 0 <= i < |SplitLines(s)| :: OneLine(SplitLines(s)[i])
    decreases |s|
  {
    if s != "" && LineLength(s) < |s| {
      var n := LineLength(s);
      var after := if s[n] == '\r' && n + 1 < |s| && s[n + 1] == '\n' then n + 2 else n + 1;
      SplitGivesLines(s[after..]);
    }
  }

  /** So for every text: rendering what was read and reading it again gives the same blocks
      exactly when every pin kept its version and no block ends in blanks. */
  lemma {:induction false} ReadTextRoundTrips(text: string)
    ensures Tidy(Parse(text))
    ensures Parse(Rendered(Parse(text))) == Parse(text) <==> Reads(Parse(text))
  {
    SplitGivesLines(text);
    ParseFromIsTidy(SplitLines(text), map[], None);
    RoundTripsExactlyWhenItReads(Parse(text));
  }

  /** It can fail: a version of nothing but backslashes is stripped away with them. */
  lemma {:induction false} AVersionCanBeLost()
    ensures Parse("a==\\") == map["a" := ["a=="]] && !Reads(map["a" := ["a=="]])
  {
    var line := "a==\\";
    LineIsWhole(line);
    assert SplitLines(line) == [line];
    assert NameLength("==\\") == 0;
    assert NameLength(line) == 1 && line[1..3] == "==" && line[..1] == "a";
    assert PinName(line) == Some("a") && Normalize("a") == "a";
    assert line[..3] == "a==" && Chop(line) == "a==";
    assert NameLength("a==") == 1 by { assert "a=="[1..] == "=="; }
    assert PinName("a==") == None;
    var lost: Blocks := map["a" := ["a=="]];
    assert "a" in lost && lost["a"][0] == "a==";
  }

  lemma {:induction false} LineIsWhole(s: string)
    requires OneLine(s)
    ensures LineLength(s) == |s|
  {
    if s != "" {
      LineIsWhole(s[1..]);
    }
  }
}
