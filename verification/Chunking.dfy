/** Cutting a transcript into requests that fit the model's window. */
module Chunking {
  import opened Options
  import opened Texts
  import opened Transcripts

  const CHARACTERS_PER_TOKEN := 4
  const MARGIN := 256

  function Turn(line: TranscriptLine): string {
    var speaker := if line.speakerName.None? || line.speakerName.value == "" then "Unknown" else line.speakerName.value;
    speaker + ": " + Strip(line.text)
  }

  function Turns(lines: seq<TranscriptLine>): seq<string> {
    if lines == [] then []
    else (if Strip(lines[0].text) == "" then [] else [Turn(lines[0])]) + Turns(lines[1..])
  }

  function TranscriptText(lines: seq<TranscriptLine>): string {
    Join("\n", Turns(lines))
  }

  // ---------------------------------------------------------------------------
  // Which groups of turns may share a chunk

  /** The characters a group takes, each turn with its line break. */
  function Cost(turns: seq<string>): nat {
    if turns == [] then 0 else |turns[0]| + 1 + Cost(turns[1..])
  }

  predicate Fits(group: seq<string>, max: int) {
    group != [] && (|group| == 1 || Cost(group) <= max)
  }

  predicate AllFit(groups: seq<seq<string>>, max: int) {
    forall i | 0 <= i < |groups| :: Fits(groups[i], max)
  }

  /** The length of the longest prefix of `turns`, from `n` on, that still fits. */
  function Reach(turns: seq<string>, n: nat, max: int): (k: nat)
    requires 0 < n <= |turns|
    ensures n <= k <= |turns|
    decreases |turns| - n
  {
    if n < |turns| && Cost(turns[..n + 1]) <= max then Reach(turns, n + 1, max) else n
  }

  /** Each group as long as it can be. */
  function Greedy(turns: seq<string>, max: int): seq<seq<string>> {
    if turns == [] then []
    else
      var k := Reach(turns, 1, max);
      [turns[..k]] + Greedy(turns[k..], max)
  }

  lemma {:induction false} CostAppend(a: seq<string>, b: seq<string>)
    ensures Cost(a + b) == Cost(a) + Cost(b)
  {
    if a == [] {
      assert a + b == b;
    } else {
      CostAppend(a[1..], b);
      assert (a + b)[1..] == a[1..] + b;
    }
  }

  lemma PrefixCost(turns: seq<string>, j: nat, k: nat)
    requires j <= k <= |turns|
    ensures Cost(turns[..j]) <= Cost(turns[..k])
  {
    CostAppend(turns[..j], turns[j..k]);
    assert turns[..j] + turns[j..k] == turns[..k];
  }

  lemma {:induction false} ReachIsLongest(turns: seq<string>, n: nat, max: int, k: nat)
    requires 0 < n <= k <= |turns| && Fits(turns[..k], max)
    ensures k <= Reach(turns, n, max)
    decreases |turns| - n
  {
    if n < k {
      PrefixCost(turns, n + 1, k);
      ReachIsLongest(turns, n + 1, max, k);
    }
  }

  lemma {:induction false} ReachFits(turns: seq<string>, n: nat, max: int)
    requires 0 < n <= |turns| && Fits(turns[..n], max)
    ensures Fits(turns[..Reach(turns, n, max)], max)
    decreases |turns| - n
  {
    if n < |turns| && Cost(turns[..n + 1]) <= max {
      ReachFits(turns, n + 1, max);
    }
  }

  lemma {:induction false} GreedySplits(turns: seq<string>, max: int)
    ensures Flatten(Greedy(turns, max)) == turns && AllFit(Greedy(turns, max), max)
  {
    if turns != [] {
      var k := Reach(turns, 1, max);
      ReachFits(turns, 1, max);
      GreedySplits(turns[k..], max);
      assert turns == turns[..k] + turns[k..];
    }
  }

  /** A group of which a part is already taken leaves less than one chunk: the greedy split's
      next chunk reaches at least its end. */
  lemma GreedyReachesEnd(g: seq<string>, k: nat, rest: seq<string>, max: int) returns (r: nat)
    requires k < |g| && Fits(g, max)
    ensures
      var left := g[k..] + rest;
      && |g| - k <= r <= |left|
      && Greedy(left, max) == [left[..r]] + Greedy(left[r..], max)
      && left[r..] == rest[r - (|g| - k)..]
  {
    var left := g[k..] + rest;
    assert left[..|g| - k] == g[k..];
    CostAppend(g[..k], g[k..]);
    assert g[..k] + g[k..] == g;
    ReachIsLongest(left, 1, max, |g| - k);
    r := Reach(left, 1, max);
  }

  lemma DropPast<T>(g: seq<T>, rest: seq<T>, k: nat)
    requires k <= |g| + |rest|
    ensures (g + rest)[k..] == if k < |g| then g[k..] + rest else rest[k - |g|..]
  {
  }

  /** From any point on, the greedy split needs no more groups than a split of the whole. */
  lemma {:induction false} GreedyFromIsOptimal(turns: seq<string>, k: nat, split: seq<seq<string>>, max: int)
    requires Flatten(split) == turns && AllFit(split, max) && k <= |turns|
    ensures |Greedy(turns[k..], max)| <= |split|
    decreases |split|
  {
    if split != [] && k < |turns| {
      var g, rest := split[0], Flatten(split[1..]);
      assert AllFit(split[1..], max) && Fits(g, max);
      DropPast(g, rest, k);
      if k >= |g| {
        GreedyFromIsOptimal(rest, k - |g|, split[1..], max);
      } else {
        var r := GreedyReachesEnd(g, k, rest, max);
        GreedyFromIsOptimal(rest, r - (|g| - k), split[1..], max);
      }
    }
  }

  /** No split of the turns into groups that may share a chunk has fewer groups. */
  lemma GreedyIsOptimal(turns: seq<string>, split: seq<seq<string>>, max: int)
    requires Flatten(split) == turns && AllFit(split, max)
    ensures |Greedy(turns, max)| <= |split|
  {
    GreedyFromIsOptimal(turns, 0, split, max);
    assert turns[0..] == turns;
  }

  lemma {:induction false} JoinedLength(group: seq<string>)
    requires group != []
    ensures |Join("\n", group)| + 1 == Cost(group)
  {
    if |group| > 1 {
      JoinedLength(group[1..]);
    }
  }

  // ---------------------------------------------------------------------------
  // The loop

  /** A group that the next turn would overflow is the greedy split's first group. */
  lemma ClosedGroup(current: seq<string>, rest: seq<string>, max: int)
    requires Fits(current, max) && rest != [] && Cost(current) + |rest[0]| + 1 > max
    ensures Greedy(current + rest, max) == [current] + Greedy(rest, max)
  {
    var all, n := current + rest, |current|;
    assert all[..n] == current && all[n..] == rest;
    ReachIsLongest(all, 1, max, n);
    var k := Reach(all, 1, max);
    if k > n {
      ReachFits(all, 1, max);
      PrefixCost(all, n + 1, k);
      assert all[..n + 1] == current + [rest[0]];
      CostAppend(current, [rest[0]]);
    }
  }

  lemma LastGroup(current: seq<string>, max: int)
    requires Fits(current, max)
    ensures Greedy(current, max) == [current]
  {
    assert current[..|current|] == current;
    ReachIsLongest(current, 1, max, |current|);
  }

  lemma NextTurn(lines: seq<TranscriptLine>, i: nat)
    requires i < |lines|
    ensures Turns(lines[i..]) ==
      if Strip(lines[i].text) == "" then Turns(lines[i + 1..]) else [Turn(lines[i])] + Turns(lines[i + 1..])
  {
    assert lines[i..][1..] == lines[i + 1..];
  }

  /** One more turn, in the open group if it still fits there and in a new one if not. */
  lemma PushTurn(current: seq<string>, turn: string, rest: seq<string>, max: int)
    requires current == [] || Fits(current, max)
    ensures
      var all := Greedy(current + ([turn] + rest), max);
      if current != [] && Cost(current) + |turn| + 1 > max
      then Fits([turn], max) && all == [current] + Greedy([turn] + rest, max)
      else
        && Fits(current + [turn], max) && Cost(current + [turn]) == Cost(current) + |turn| + 1
        && all == Greedy((current + [turn]) + rest, max)
  {
    CostAppend(current, [turn]);
    assert current + ([turn] + rest) == (current + [turn]) + rest;
    if current != [] && Cost(current) + |turn| + 1 > max {
      ClosedGroup(current, [turn] + rest, max);
    }
  }

  lemma CloseChunk(groups: seq<seq<string>>, current: seq<string>, more: seq<seq<string>>)
    ensures JoinEach("\n", groups + [current]) == JoinEach("\n", groups) + [Join("\n", current)]
    ensures groups + ([current] + more) == (groups + [current]) + more
  {
  }

  method ChunkTranscript(lines: seq<TranscriptLine>, max: int) returns (chunks: seq<string>)
    ensures chunks == JoinEach("\n", Greedy(Turns(lines), max))
  {
    chunks := [];
    var current: seq<string>, length := [], 0;
    ghost var groups: seq<seq<string>>, rest := [], Turns(lines);
    assert lines[0..] == lines && [] + rest == rest;
    for i := 0 to |lines|
      invariant rest == Turns(lines[i..])
      invariant chunks == JoinEach("\n", groups)
      invariant length == Cost(current) && (current == [] || Fits(current, max))
      invariant Greedy(Turns(lines), max) == groups + Greedy(current + rest, max)
    {
      NextTurn(lines, i);
      var text := Strip(lines[i].text);
      rest := Turns(lines[i + 1..]);
      if text == "" {
        continue;
      }
      var speaker := "Unknown";
      if lines[i].speakerName.Some? && lines[i].speakerName.value != "" {
        speaker := lines[i].speakerName.value;
      }
      var turn := speaker + ": " + text;
      PushTurn(current, turn, rest, max);
      if current != [] && length + |turn| + 1 > max {
        CloseChunk(groups, current, Greedy([turn] + rest, max));
        chunks := chunks + [Join("\n", current)];
        groups := groups + [current];
        current, length := [], 0;
        assert current + [turn] == [turn];
      }
      current, length := current + [turn], length + |turn| + 1;
    }
    assert current + rest == current;
    if current != [] {
      LastGroup(current, max);
      CloseChunk(groups, current, []);
      chunks := chunks + [Join("\n", current)];
    }
  }

  /** The chunks lose nothing, keep the limit except where one turn alone breaks it, and are
      as few as any way of cutting between turns under the same rule. */
  lemma ChunksAreBest(lines: seq<TranscriptLine>, max: int, chunks: seq<string>, split: seq<seq<string>>)
    requires chunks == JoinEach("\n", Greedy(Turns(lines), max))
    requires Flatten(split) == Turns(lines) && AllFit(split, max)
    ensures Join("\n", chunks) == TranscriptText(lines)
    ensures forall i | 0 <= i < |chunks| :: |chunks[i]| < max || chunks[i] in Turns(lines)
    ensures |chunks| <= |split|
  {
    var groups := Greedy(Turns(lines), max);
    GreedySplits(Turns(lines), max);
    JoinOfJoins("\n", groups);
    GreedyIsOptimal(Turns(lines), split, max);
    forall i | 0 <= i < |chunks| ensures |chunks[i]| < max || chunks[i] in Turns(lines) {
      JoinedLength(groups[i]);
      if |groups[i]| == 1 {
        InFlatten(groups, i);
      }
    }
  }

  lemma {:induction false} InFlatten(groups: seq<seq<string>>, i: nat)
    requires i < |groups| && |groups[i]| == 1
    ensures groups[i][0] in Flatten(groups)
  {
    if i > 0 {
      InFlatten(groups[1..], i - 1);
    }
  }

  // ---------------------------------------------------------------------------
  // What the chunks say

  /** `turn` is the line's speaker, or Unknown, and its text. */
  predicate Speaks(turn: string, line: TranscriptLine) {
    turn == (if line.speakerName.Some? && line.speakerName.value != "" then line.speakerName.value else "Unknown")
              + ": " + Strip(line.text)
  }

  /** `at` are the places of the lines that are not blank, in order, and `turns` speak them. */
  ghost predicate SpeakLines(lines: seq<TranscriptLine>, turns: seq<string>, at: seq<nat>) {
    && |at| == |turns|
    && (forall i, j | 0 <= i < j < |at| :: at[i] < at[j])
    && (forall k | 0 <= k < |at| :: at[k] < |lines| && Speaks(turns[k], lines[at[k]]))
    && (forall i: nat :: i in at <==> i < |lines| && Strip(lines[i].text) != "")
  }

  /** There is one turn for each line that is not blank, in order, and for no other. */
  lemma {:induction false} TurnsAreSpokenLines(lines: seq<TranscriptLine>) returns (at: seq<nat>)
    ensures SpeakLines(lines, Turns(lines), at)
  {
    if lines == [] {
      at := [];
    } else {
      var n := |lines| - 1;
      var before := TurnsAreSpokenLines(lines[..n]);
      TurnsOfLast(lines);
      at := SpokenLast(lines, Turns(lines[..n]), before);
    }
  }

  lemma {:induction false} SpokenLast(lines: seq<TranscriptLine>, turns: seq<string>, before: seq<nat>) returns (at: seq<nat>)
    requires lines != [] && SpeakLines(lines[..|lines| - 1], turns, before)
    ensures
      var last := lines[|lines| - 1];
      SpeakLines(lines, turns + if Strip(last.text) == "" then [] else [Turn(last)], at)
  {
    var n := |lines| - 1;
    assert forall i | 0 <= i < n :: lines[..n][i] == lines[i];
    at := before;
    if Strip(lines[n].text) == "" {
      assert turns + [] == turns;
    } else {
      assert n !in before;
      at := before + [n];
    }
  }

  lemma {:induction false} TurnsOfLast(lines: seq<TranscriptLine>)
    requires lines != []
    ensures
      var n := |lines| - 1;
      Turns(lines) == Turns(lines[..n]) + if Strip(lines[n].text) == "" then [] else [Turn(lines[n])]
  {
    var n := |lines| - 1;
    if n == 0 {
      assert lines[1..] == [] && lines[..0] == [];
    } else {
      TurnsOfLast(lines[1..]);
      assert lines[1..][..n - 1] == lines[..n][1..];
    }
  }

  /** The words of the transcript: for each line with text its speaker and then its words. */
  function SpokenWords(lines: seq<TranscriptLine>): seq<string> {
    if lines == [] then []
    else
      var name := if lines[0].speakerName.Some? && lines[0].speakerName.value != "" then lines[0].speakerName.value else "Unknown";
      (if Strip(lines[0].text) == "" then [] else Words(name + ":") + Words(lines[0].text)) + SpokenWords(lines[1..])
  }

  lemma {:induction false} TurnWords(line: TranscriptLine, name: string)
    requires name == if line.speakerName.Some? && line.speakerName.value != "" then line.speakerName.value else "Unknown"
    ensures Words(Turn(line)) == Words(name + ":") + Words(line.text)
  {
    WordsAroundSpace("", name + ":", ' ', Strip(line.text));
    StripKeepsWords(line.text);
    assert Turn(line) == (name + ":") + [' '] + Strip(line.text);
  }

  lemma {:induction false} TranscriptWords(lines: seq<TranscriptLine>)
    ensures Words(TranscriptText(lines)) == SpokenWords(lines)
  {
    if lines != [] {
      TranscriptWords(lines[1..]);
      var name := if lines[0].speakerName.Some? && lines[0].speakerName.value != "" then lines[0].speakerName.value else "Unknown";
      var rest := Turns(lines[1..]);
      if Strip(lines[0].text) == "" {
        assert Turns(lines) == rest;
      } else {
        TurnWords(lines[0], name);
        assert Turns(lines) == [Turn(lines[0])] + rest && ([Turn(lines[0])] + rest)[1..] == rest;
        if rest != [] {
          WordsAroundSpace("", Turn(lines[0]), '\n', Join("\n", rest));
        } else {
          assert Words("") == [];
        }
      }
    }
  }

  /** The chunks, one after another, say every word of every line, in order, under its speaker. */
  lemma {:induction false} ChunksSayEverything(lines: seq<TranscriptLine>, max: int, chunks: seq<string>)
    requires chunks == JoinEach("\n", Greedy(Turns(lines), max))
    ensures Words(Join("\n", chunks)) == SpokenWords(lines)
  {
    GreedySplits(Turns(lines), max);
    ChunksAreBest(lines, max, chunks, Greedy(Turns(lines), max));
    TranscriptWords(lines);
  }

  // ---------------------------------------------------------------------------
  // The budget

  function Reserved(chunkTokenBudget: nat, promptLength: nat): nat {
    chunkTokenBudget + promptLength / CHARACTERS_PER_TOKEN + MARGIN
  }

  function BudgetCharacters(chunkTokenBudget: nat, promptLength: nat, window: int): int {
    var left := window - Reserved(chunkTokenBudget, promptLength);
    (if left > MARGIN then left else MARGIN) * CHARACTERS_PER_TOKEN
  }

  /** Every chunk within the budget fits the window beside the prompt, the answer and the margin,
      exactly when what is reserved leaves at least 256 tokens of it. */
  lemma BudgetFitsExactlyWhenRoomIsLeft(chunkTokenBudget: nat, promptLength: nat, window: int)
    ensures
      (forall length: nat | length <= BudgetCharacters(chunkTokenBudget, promptLength, window) ::
         length / 4 + chunkTokenBudget + promptLength / 4 + 256 <= window)
      <==> window - (chunkTokenBudget + promptLength / 4 + 256) >= 256
    ensures BudgetCharacters(chunkTokenBudget, promptLength, window) ==
      4 * if window - (chunkTokenBudget + promptLength / 4 + 256) > 256 then window - (chunkTokenBudget + promptLength / 4 + 256) else 256
  {
    var full: nat := BudgetCharacters(chunkTokenBudget, promptLength, window);
    assert full / CHARACTERS_PER_TOKEN >= MARGIN;
  }
}
