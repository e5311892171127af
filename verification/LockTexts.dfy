/** What reading a lock file gives, said of its lines, and when a file comes back unchanged. */
module LockTexts {
  import opened Options
  import opened Texts
  import opened LockFiles

  // ---------------------------------------------------------------------------
  // The block of a name is the last one in the file

  predicate Pins(line: string, name: string) {
    PinName(line).Some? && Normalize(PinName(line).value) == name
  }

  /** This line pins a name, and no later line pins it again. */
  predicate IsLastPin(lines: seq<string>, i: nat)
    requires i < |lines|
  {
    && PinName(lines[i]).Some?
    && forall j | i < j < |lines| :: !Pins(lines[j], Normalize(PinName(lines[i]).value))
  }

  predicate LastPinOf(lines: seq<string>, i: nat, name: string)
    requires i < |lines|
  {
    Pins(lines[i], name) && IsLastPin(lines, i)
  }

  /** The hashes on the hash lines at the start. */
  function HashRun(lines: seq<string>): seq<string> {
    if lines == [] || PinName(lines[0]).Some? || !("--hash=" <= Strip(lines[0])) then []
    else [Chop(Strip(lines[0]))] + HashRun(lines[1..])
  }

  function BlockAt(lines: seq<string>, i: nat): seq<string>
    requires i < |lines|
  {
    [Chop(lines[i])] + HashRun(lines[i + 1..])
  }

  predicate Unpinned(lines: seq<string>, name: string) {
    forall i | 0 <= i < |lines| :: !Pins(lines[i], name)
  }

  /** What was read of a name before, when no line pins it any more. */
  function Extended(lines: seq<string>, blocks: Blocks, current: Option<string>, name: string): Option<seq<string>> {
    if name !in blocks then None
    else Some(blocks[name] + if current == Some(name) then HashRun(lines) else [])
  }

  function BlockOf(blocks: Blocks, name: string): Option<seq<string>> {
    if name in blocks then Some(blocks[name]) else None
  }

  lemma {:induction false} UnpinnedBlock(lines: seq<string>, blocks: Blocks, current: Option<string>, name: string)
    requires (current.Some? ==> current.value in blocks) && Unpinned(lines, name)
    ensures BlockOf(ParseFrom(lines, blocks, current), name) == Extended(lines, blocks, current, name)
    decreases |lines|
  {
    if name in blocks {
      assert blocks[name] + [] == blocks[name];
    }
    if lines != [] {
      var line, rest := lines[0], lines[1..];
      assert Unpinned(rest, name) && !Pins(line, name);
      if PinName(line).Some? {
        var other := Normalize(PinName(line).value);
        UnpinnedBlock(rest, blocks[other := [Chop(line)]], Some(other), name);
      } else if current.Some? && IsHash(line) {
        var longer := blocks[current.value := blocks[current.value] + [Chop(Strip(line))]];
        UnpinnedBlock(rest, longer, current, name);
        if current.value == name {
          assert longer[name] + HashRun(rest) == blocks[name] + HashRun(lines);
        }
      } else {
        UnpinnedBlock(rest, blocks, None, name);
      }
    }
  }

  lemma {:induction false} PinnedBlock(lines: seq<string>, i: nat, blocks: Blocks, current: Option<string>, name: string)
    requires (current.Some? ==> current.value in blocks) && i < |lines| && LastPinOf(lines, i, name)
    ensures BlockOf(ParseFrom(lines, blocks, current), name) == Some(BlockAt(lines, i))
    decreases |lines|
  {
    var line, rest := lines[0], lines[1..];
    if i == 0 {
      forall j | 0 <= j < |rest| ensures !Pins(rest[j], name) {
        assert rest[j] == lines[j + 1];
      }
      UnpinnedBlock(rest, blocks[name := [Chop(line)]], Some(name), name);
    } else {
      LastPinOfRest(lines, i, name);
      assert BlockAt(lines, i) == BlockAt(rest, i - 1) by { assert lines[i + 1..] == rest[i..]; }
      if PinName(line).Some? {
        var other := Normalize(PinName(line).value);
        PinnedBlock(rest, i - 1, blocks[other := [Chop(line)]], Some(other), name);
      } else if current.Some? && IsHash(line) {
        PinnedBlock(rest, i - 1, blocks[current.value := blocks[current.value] + [Chop(Strip(line))]], current, name);
      } else {
        PinnedBlock(rest, i - 1, blocks, None, name);
      }
    }
  }

  lemma {:induction false} LastPinOfRest(lines: seq<string>, i: nat, name: string)
    requires 0 < i < |lines| && LastPinOf(lines, i, name)
    ensures LastPinOf(lines[1..], i - 1, name)
  {
    forall j | i - 1 < j < |lines[1..]| ensures !Pins(lines[1..][j], name) {
      assert lines[1..][j] == lines[j + 1];
    }
  }

  lemma {:induction false} LastPinExists(lines: seq<string>, name: string) returns (i: nat)
    requires !Unpinned(lines, name)
    ensures i < |lines| && LastPinOf(lines, i, name)
    decreases |lines|
  {
    var n := |lines| - 1;
    if Pins(lines[n], name) {
      i := n;
    } else {
      var before := lines[..n];
      assert exists k | 0 <= k < |before| :: Pins(before[k], name) by {
        var k :| 0 <= k < |lines| && Pins(lines[k], name);
        assert before[k] == lines[k];
      }
      i := LastPinExists(before, name);
      assert lines[i] == before[i];
      forall j | i < j < |lines| ensures !Pins(lines[j], name) {
        if j < n {
          assert before[j] == lines[j];
        }
      }
    }
  }

  /** A name is read exactly when some line pins it, and its block is the last such line with
      the hash lines that directly follow it. */
  lemma {:induction false} ParseKeepsLastPins(text: string, name: string)
    ensures
      var lines := SplitLines(text);
      && (name in Parse(text) <==> !Unpinned(lines, name))
      && forall i | 0 <= i < |lines| && LastPinOf(lines, i, name) :: name in Parse(text) && Parse(text)[name] == BlockAt(lines, i)
  {
    var lines := SplitLines(text);
    if Unpinned(lines, name) {
      UnpinnedBlock(lines, map[], None, name);
    } else {
      var last := LastPinExists(lines, name);
      PinnedBlock(lines, last, map[], None, name);
    }
    forall i | 0 <= i < |lines| && LastPinOf(lines, i, name) ensures BlockOf(Parse(text), name) == Some(BlockAt(lines, i)) {
      PinnedBlock(lines, i, map[], None, name);
    }
  }

  // ---------------------------------------------------------------------------
  // When a text survives being read and written

  /** Of what follows `==`, not all is blanks and backslashes. */
  predicate VersionStays(line: string) {
    exists k | NameLength(line) + 2 <= k < |line| :: line[k] != ' ' && line[k] != '\\'
  }

  predicate EndsBlank(s: string) {
    s != "" && IsSpace(s[|s| - 1])
  }

  /** The last hash, without the blanks and the backslash after it, ends in no other blank. */
  predicate LastHashStays(hashes: seq<string>) {
    hashes != [] ==> !EndsBlank(hashes[|hashes| - 1])
  }

  lemma {:induction false} PinStaysExactlyWhenVersionDoes(line: string)
    requires PinName(line).Some?
    ensures PinName(Chop(line)).Some? <==> VersionStays(line)
  {
    var pin, n := Chop(line), NameLength(line);
    ChopIsPrefix(line);
    NameIsName(line);
    assert line[n..n + 2] == "==";
    assert line[n..n + 2][0] == '=' && line[n..n + 2][1] == '=';
    assert line[n] == '=' && line[n + 1] == '=' && |pin| >= n + 2;
    NameLengthOfPrefix(line, |pin|);
    assert pin == line[..|pin|] && pin[0] == line[0] && pin[n..n + 2] == line[n..n + 2];
    if |pin| > n + 2 {
      ChopEndsSolid(line);
      assert pin[n + 2] == line[n + 2] && line[|pin| - 1] == pin[|pin| - 1];
      assert PinName(pin).Some?;
    }
  }

  lemma {:induction false} ChopEndsSolid(s: string)
    requires Chop(s) != ""
    ensures Chop(s)[|Chop(s)| - 1] != ' ' && Chop(s)[|Chop(s)| - 1] != '\\'
  {
    if s[|s| - 1] == ' ' || s[|s| - 1] == '\\' {
      ChopEndsSolid(s[..|s| - 1]);
    }
  }

  lemma {:induction false} TrimmedExactlyWhen(hashes: seq<string>)
    requires forall i | 0 <= i < |hashes| :: Chop(hashes[i]) == hashes[i]
    ensures Trimmed(hashes) == hashes <==> LastHashStays(hashes)
  {
    if |hashes| == 1 {
      var h := hashes[0];
      if EndsBlank(h) {
        StripRightShortens(h);
        ChopIsPrefix(StripRight(h));
      }
      assert Trimmed(hashes) == [Chop(StripRight(h))];
    } else if |hashes| > 1 {
      TrimmedExactlyWhen(hashes[1..]);
      assert hashes == [hashes[0]] + hashes[1..];
      assert Trimmed(hashes)[1..] == Trimmed(hashes[1..]);
    }
  }

  lemma {:induction false} StripRightShortens(s: string)
    ensures |StripRight(s)| <= |s| && (EndsBlank(s) ==> |StripRight(s)| < |s|)
  {
    if EndsBlank(s) {
      StripRightShortens(s[..|s| - 1]);
    }
  }

  lemma {:induction false} HashRunIsChopped(lines: seq<string>)
    ensures forall i | 0 <= i < |HashRun(lines)| :: Chop(HashRun(lines)[i]) == HashRun(lines)[i]
  {
    if HashRun(lines) != [] {
      HashRunIsChopped(lines[1..]);
      ChopIsPrefix(Strip(lines[0]));
    }
  }

  predicate BlockStays(lines: seq<string>, i: nat)
    requires i < |lines|
  {
    VersionStays(lines[i]) && LastHashStays(HashRun(lines[i + 1..]))
  }

  lemma {:induction false} BlockReadsExactlyWhen(lines: seq<string>, i: nat)
    requires i < |lines| && PinName(lines[i]).Some?
    ensures
      var block := BlockAt(lines, i);
      PinName(block[0]).Some? && TrimmedBlock(block) == block <==> BlockStays(lines, i)
  {
    var hashes := HashRun(lines[i + 1..]);
    var block := BlockAt(lines, i);
    PinStaysExactlyWhenVersionDoes(lines[i]);
    HashRunIsChopped(lines[i + 1..]);
    TrimmedExactlyWhen(hashes);
    assert block[1..] == hashes;
    assert TrimmedBlock(block)[1..] == Trimmed(hashes);
  }

  predicate NameReads(blocks: Blocks, name: string) {
    name in blocks && blocks[name] != [] && PinName(blocks[name][0]).Some? && TrimmedBlock(blocks[name]) == blocks[name]
  }

  lemma {:induction false} NameReadsExactlyWhen(text: string, i: nat)
    requires i < |SplitLines(text)| && IsLastPin(SplitLines(text), i)
    ensures
      var name := Normalize(PinName(SplitLines(text)[i]).value);
      name in Parse(text) && (NameReads(Parse(text), name) <==> BlockStays(SplitLines(text), i))
  {
    var lines := SplitLines(text);
    var name := Normalize(PinName(lines[i]).value);
    ParseKeepsLastPins(text, name);
    assert LastPinOf(lines, i, name);
    BlockReadsExactlyWhen(lines, i);
  }

  lemma {:induction false} ReadNameHasLastPin(text: string, name: string) returns (i: nat)
    requires name in Parse(text)
    ensures i < |SplitLines(text)| && LastPinOf(SplitLines(text), i, name)
  {
    ParseKeepsLastPins(text, name);
    i := LastPinExists(SplitLines(text), name);
  }

  predicate TextStays(text: string) {
    forall i | 0 <= i < |SplitLines(text)| && IsLastPin(SplitLines(text), i) :: BlockStays(SplitLines(text), i)
  }

  /** A text's blocks survive being written and read again exactly when, for each name it pins,
      the last line that does has something of a version left without the blanks and
      backslashes at its end, and the last hash under it ends in no other blank. */
  lemma {:induction false} TextRoundTripsExactlyWhen(text: string)
    ensures Parse(Rendered(Parse(text))) == Parse(text) <==> TextStays(text)
  {
    var lines, blocks := SplitLines(text), Parse(text);
    ReadTextRoundTrips(text);
    if Reads(blocks) {
      forall i | 0 <= i < |lines| && IsLastPin(lines, i) ensures BlockStays(lines, i) {
        NameReadsExactlyWhen(text, i);
        assert NameReads(blocks, Normalize(PinName(lines[i]).value));
      }
    }
    if TextStays(text) {
      forall name | name in blocks ensures NameReads(blocks, name) {
        var i := ReadNameHasLastPin(text, name);
        NameReadsExactlyWhen(text, i);
      }
    }
  }

  // ---------------------------------------------------------------------------
  // A component's lock beside the base

  /** A component's lock beside the base: no requirement in both, and none lost. */
  lemma {:induction false} ComponentAndBaseShareNothing(component: Blocks, base: Blocks)
    ensures
      var own := Without(component, base);
      && own.Keys !! base.Keys
      && own.Keys + base.Keys == component.Keys + base.Keys
      && (forall n | n in own :: own[n] == component[n])
  {
  }

  /** The last pin of a name that the base does not pin. */
  predicate OwnLastPin(component: string, base: string, i: nat) {
    var lines := SplitLines(component);
    i < |lines| && IsLastPin(lines, i) && Normalize(PinName(lines[i]).value) !in Parse(base)
  }

  predicate OwnTextStays(component: string, base: string) {
    forall i | 0 <= i < |SplitLines(component)| && OwnLastPin(component, base, i) :: BlockStays(SplitLines(component), i)
  }

  function Own(component: string, base: string): Blocks {
    Without(Parse(component), Parse(base))
  }

  lemma {:induction false} OwnNameReads(component: string, base: string, i: nat)
    requires i < |SplitLines(component)| && OwnLastPin(component, base, i)
    ensures
      var name := Normalize(PinName(SplitLines(component)[i]).value);
      name in Own(component, base) && (NameReads(Own(component, base), name) <==> BlockStays(SplitLines(component), i))
  {
    NameReadsExactlyWhen(component, i);
  }

  lemma {:induction false} OwnIsTidy(component: string, base: string)
    ensures Tidy(Own(component, base))
  {
    ReadTextRoundTrips(component);
    forall name | name in Own(component, base) ensures TidyBlock(name, Own(component, base)[name]) {
      assert name in Parse(component);
    }
  }

  lemma {:induction false} OwnReadsExactlyWhen(component: string, base: string)
    requires Tidy(Own(component, base))
    ensures Reads(Own(component, base)) <==> OwnTextStays(component, base)
  {
    var own, lines := Own(component, base), SplitLines(component);
    if Reads(own) {
      forall i | 0 <= i < |lines| && OwnLastPin(component, base, i) ensures BlockStays(lines, i) {
        OwnNameReads(component, base, i);
        assert NameReads(own, Normalize(PinName(lines[i]).value));
      }
    }
    if OwnTextStays(component, base) {
      forall name | name in own ensures NameReads(own, name) {
        var i := ReadNameHasLastPin(component, name);
        OwnNameReads(component, base, i);
      }
    }
  }

  /** As files: the lock written for a component, read again, has no requirement of the base,
      and it is just what the base lacks exactly when the text of each of those stays. */
  lemma {:induction false} WrittenComponentSharesNothing(component: string, base: string)
    ensures
      var own := Own(component, base);
      var written := Parse(Rendered(own));
      && written.Keys !! Parse(base).Keys
      && (written == own <==> OwnTextStays(component, base))
  {
    OwnIsTidy(component, base);
    RenderedReads(Own(component, base));
    RoundTripsExactlyWhenItReads(Own(component, base));
    OwnReadsExactlyWhen(component, base);
  }
}
