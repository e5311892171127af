/** Joining one speaker's consecutive lines, the last rule of the cleaning pipeline. */
module Merging {
  import opened Options
  import opened Texts
  import opened Transcripts
  import opened Cleaning

  predicate SameTurn(a: TranscriptLine, b: TranscriptLine) {
    a.speakerId == b.speakerId && a.speakerName == b.speakerName && a.sourceId == b.sourceId
  }

  function Joined(a: TranscriptLine, b: TranscriptLine): TranscriptLine {
    a.(text := Strip(a.text + " " + b.text), endTime := b.endTime)
  }

  /** The merge of `rest` with `current` still open. */
  function MergeFrom(current: TranscriptLine, rest: seq<TranscriptLine>): (merged: seq<TranscriptLine>)
    ensures merged != []
    decreases |rest|
  {
    if rest == [] then [current]
    else if SameTurn(current, rest[0]) then MergeFrom(Joined(current, rest[0]), rest[1..])
    else [current] + MergeFrom(rest[0], rest[1..])
  }

  function Merged(lines: seq<TranscriptLine>): seq<TranscriptLine> {
    if lines == [] then [] else MergeFrom(lines[0], lines[1..])
  }

  function MergeWith(current: Option<TranscriptLine>, rest: seq<TranscriptLine>): seq<TranscriptLine> {
    if current.None? then Merged(rest) else MergeFrom(current.value, rest)
  }

  method MergeSameSpeaker(lines: seq<TranscriptLine>) returns (merged: seq<TranscriptLine>)
    ensures merged == Merged(lines)
  {
    merged := [];
    var current: Option<TranscriptLine> := None;
    for i := 0 to |lines|
      invariant Merged(lines) == merged + MergeWith(current, lines[i..])
    {
      var line := lines[i];
      assert lines[i..][0] == line && lines[i..][1..] == lines[i + 1..];
      var sameTurn := current.Some? && current.value.speakerId == line.speakerId
        && current.value.speakerName == line.speakerName && current.value.sourceId == line.sourceId;
      if sameTurn {
        current := Some(current.value.(text := Strip(current.value.text + " " + line.text), endTime := line.endTime));
      } else {
        if current.Some? {
          merged := merged + [current.value];
        }
        current := Some(line);
      }
    }
    if current.Some? {
      merged := merged + [current.value];
    }
  }

  // ---------------------------------------------------------------------------
  // Nothing said is lost, moved or credited to someone else

  /** A word with the speaker and the track it is credited to. */
  datatype Credit = Credit(word: string, speakerId: Option<SpeakerId>, speakerName: Option<string>, sourceId: Option<SourceId>)

  function Credited(line: TranscriptLine, words: seq<string>): seq<Credit> {
    if words == [] then []
    else [Credit(words[0], line.speakerId, line.speakerName, line.sourceId)] + Credited(line, words[1..])
  }

  function Credits(lines: seq<TranscriptLine>): seq<Credit> {
    if lines == [] then [] else Credited(lines[0], Words(lines[0].text)) + Credits(lines[1..])
  }

  lemma {:induction false} CreditedAppend(line: TranscriptLine, a: seq<string>, b: seq<string>)
    ensures Credited(line, a + b) == Credited(line, a) + Credited(line, b)
  {
    if a == [] {
      assert a + b == b;
    } else {
      CreditedAppend(line, a[1..], b);
      HeadFirst(a, b);
    }
  }

  lemma {:induction false} CreditedAlike(a: TranscriptLine, b: TranscriptLine, words: seq<string>)
    requires SameTurn(a, b)
    ensures Credited(a, words) == Credited(b, words)
  {
    if words != [] {
      CreditedAlike(a, b, words[1..]);
    }
  }

  lemma {:induction false} JoinedCredits(a: TranscriptLine, b: TranscriptLine)
    requires SameTurn(a, b)
    ensures Credited(Joined(a, b), Words(Joined(a, b).text)) == Credited(a, Words(a.text)) + Credited(b, Words(b.text))
  {
    StripKeepsWords(a.text + " " + b.text);
    WordsAroundSpace("", a.text, ' ', b.text);
    CreditedAppend(a, Words(a.text), Words(b.text));
    CreditedAlike(a, b, Words(b.text));
    CreditedAlike(Joined(a, b), a, Words(a.text) + Words(b.text));
  }

  lemma {:induction false} MergeFromKeepsCredits(current: TranscriptLine, rest: seq<TranscriptLine>)
    ensures Credits(MergeFrom(current, rest)) == Credits([current] + rest)
    decreases |rest|
  {
    if rest == [] {
      assert [current] + rest == [current];
    } else {
      assert ([current] + rest)[1..] == rest;
      if SameTurn(current, rest[0]) {
        var joined := Joined(current, rest[0]);
        MergeFromKeepsCredits(joined, rest[1..]);
        JoinedCredits(current, rest[0]);
        assert ([joined] + rest[1..])[1..] == rest[1..];
      } else {
        var more := MergeFrom(rest[0], rest[1..]);
        MergeFromKeepsCredits(rest[0], rest[1..]);
        assert [rest[0]] + rest[1..] == rest;
        assert ([current] + more)[1..] == more;
      }
    }
  }

  /** Merging keeps every word, in order, credited to the same speaker on the same track. */
  lemma {:induction false} MergeKeepsCredits(lines: seq<TranscriptLine>)
    ensures Credits(Merged(lines)) == Credits(lines)
  {
    if lines != [] {
      MergeFromKeepsCredits(lines[0], lines[1..]);
      assert [lines[0]] + lines[1..] == lines;
    }
  }

  // ---------------------------------------------------------------------------
  // The shape of the result

  predicate Separate(lines: seq<TranscriptLine>) {
    forall i | 0 <= i < |lines| - 1 ::
      || lines[i].speakerId != lines[i + 1].speakerId
      || lines[i].speakerName != lines[i + 1].speakerName
      || lines[i].sourceId != lines[i + 1].sourceId
  }

  lemma {:induction false} MergeFromSeparates(current: TranscriptLine, rest: seq<TranscriptLine>)
    ensures Separate(MergeFrom(current, rest))
    ensures MergeFrom(current, rest) != [] && SameTurn(MergeFrom(current, rest)[0], current)
    decreases |rest|
  {
    if rest != [] {
      if SameTurn(current, rest[0]) {
        MergeFromSeparates(Joined(current, rest[0]), rest[1..]);
      } else {
        MergeFromSeparates(rest[0], rest[1..]);
      }
    }
  }

  lemma {:induction false} SeparateStays(current: TranscriptLine, rest: seq<TranscriptLine>)
    requires Separate([current] + rest)
    ensures MergeFrom(current, rest) == [current] + rest
    decreases |rest|
  {
    var all := [current] + rest;
    if rest != [] {
      assert !SameTurn(all[0], all[1]);
      assert [rest[0]] + rest[1..] == rest;
      forall i | 0 <= i < |rest| - 1 ensures !SameTurn(rest[i], rest[i + 1]) {
        assert !SameTurn(all[i + 1], all[i + 2]);
      }
      SeparateStays(rest[0], rest[1..]);
    }
  }

  lemma {:induction false} SeparateIsMerged(lines: seq<TranscriptLine>)
    requires Separate(lines)
    ensures Merged(lines) == lines
  {
    if lines != [] {
      assert [lines[0]] + lines[1..] == lines;
      SeparateStays(lines[0], lines[1..]);
    }
  }

  /** No two neighbours are left to merge, so merging again changes nothing. */
  lemma {:induction false} MergeIsIdempotent(lines: seq<TranscriptLine>)
    ensures Separate(Merged(lines)) && Merged(Merged(lines)) == Merged(lines)
  {
    if lines != [] {
      MergeFromSeparates(lines[0], lines[1..]);
      SeparateIsMerged(Merged(lines));
    }
  }

  lemma {:induction false} MergeFromIsNotLonger(current: TranscriptLine, rest: seq<TranscriptLine>)
    ensures |MergeFrom(current, rest)| <= 1 + |rest|
    decreases |rest|
  {
    if rest != [] {
      MergeFromIsNotLonger(if SameTurn(current, rest[0]) then Joined(current, rest[0]) else rest[0], rest[1..]);
    }
  }

  lemma {:induction false} MergeIsNotLonger(lines: seq<TranscriptLine>)
    ensures |Merged(lines)| <= |lines|
  {
    if lines != [] {
      MergeFromIsNotLonger(lines[0], lines[1..]);
    }
  }

  function AllWords(lines: seq<TranscriptLine>): seq<string> {
    if lines == [] then [] else AllWords(lines[..|lines| - 1]) + Words(lines[|lines| - 1].text)
  }

  /** The texts of the run, each after a blank, without the blanks around the whole. */
  function RunText(run: seq<TranscriptLine>): string
    requires run != []
  {
    if |run| == 1 then run[0].text else Strip(RunText(run[..|run| - 1]) + " " + run[|run| - 1].text)
  }

  /** `line` stands for the run: it has the first line's identity and start, the words of all,
      and the last line's end, whether or not another line of the run ends later. */
  predicate StandsFor(line: TranscriptLine, run: seq<TranscriptLine>) {
    && run != []
    && line.id == run[0].id && line.syntheticTiming == run[0].syntheticTiming
    && line.startTime == run[0].startTime && line.endTime == run[|run| - 1].endTime
    && Words(line.text) == AllWords(run) && line.text == RunText(run)
    && forall i | 0 <= i < |run| ::
         run[i].speakerId == line.speakerId && run[i].speakerName == line.speakerName && run[i].sourceId == line.sourceId
  }

  function LineTexts(run: seq<TranscriptLine>): (r: seq<string>)
    ensures |r| == |run| && forall i | 0 <= i < |r| :: r[i] == run[i].text
  {
    seq(|run|, i requires 0 <= i < |run| => run[i].text)
  }

  /** Texts without blanks around them are joined by single blanks, and nothing else is changed. */
  lemma {:induction false} TidyRunsAreJoined(run: seq<TranscriptLine>)
    requires run != [] && forall i | 0 <= i < |run| :: run[i].text != "" && Strip(run[i].text) == run[i].text
    ensures RunText(run) == Join(" ", LineTexts(run)) && RunText(run) != "" && Strip(RunText(run)) == RunText(run)
  {
    if |run| > 1 {
      var before, last := run[..|run| - 1], run[|run| - 1];
      TidyRunsAreJoined(before);
      StripKeepsTidy(RunText(before), last.text);
      assert LineTexts(run) == LineTexts(before) + [last.text];
      JoinAppend(" ", LineTexts(before), [last.text]);
    }
  }

  ghost predicate RunsOf(merged: seq<TranscriptLine>, runs: seq<seq<TranscriptLine>>) {
    |runs| == |merged| && forall i | 0 <= i < |runs| :: StandsFor(merged[i], runs[i])
  }

  lemma {:induction false} SingleRun(line: TranscriptLine)
    ensures StandsFor(line, [line])
  {
    assert [line][..0] == [];
  }

  lemma {:induction false} ExtendRun(line: TranscriptLine, run: seq<TranscriptLine>, next: TranscriptLine)
    requires StandsFor(line, run) && SameTurn(line, next)
    ensures StandsFor(Joined(line, next), run + [next])
  {
    StripKeepsWords(line.text + " " + next.text);
    WordsAroundSpace("", line.text, ' ', next.text);
    assert (run + [next])[..|run|] == run;
  }

  lemma {:induction false} MergeFromRuns(current: TranscriptLine, open: seq<TranscriptLine>, rest: seq<TranscriptLine>)
    returns (runs: seq<seq<TranscriptLine>>)
    requires StandsFor(current, open)
    ensures Flatten(runs) == open + rest && RunsOf(MergeFrom(current, rest), runs)
    decreases |rest|
  {
    if rest == [] {
      runs := [open];
      assert Flatten(runs[1..]) == [];
      assert open + rest == open + [];
    } else if SameTurn(current, rest[0]) {
      ExtendRun(current, open, rest[0]);
      runs := MergeFromRuns(Joined(current, rest[0]), open + [rest[0]], rest[1..]);
      assert open + [rest[0]] + rest[1..] == open + rest;
    } else {
      SingleRun(rest[0]);
      var more := MergeFromRuns(rest[0], [rest[0]], rest[1..]);
      runs := [open] + more;
      assert runs[1..] == more && [rest[0]] + rest[1..] == rest;
    }
  }

  /** Each merged line stands for one run of the input, and the runs in order are the input. */
  lemma {:induction false} MergeStandsForRuns(lines: seq<TranscriptLine>)
    ensures exists runs :: Flatten(runs) == lines && RunsOf(Merged(lines), runs)
  {
    if lines == [] {
      assert Flatten<TranscriptLine>([]) == [];
      assert RunsOf([], []);
    } else {
      SingleRun(lines[0]);
      var runs := MergeFromRuns(lines[0], [lines[0]], lines[1..]);
      assert [lines[0]] + lines[1..] == lines;
    }
  }

  /** The last line of the stretch of one speaker on one track that line `i` is in. */
  function StretchEnd(lines: seq<TranscriptLine>, i: nat): (last: nat)
    requires i < |lines|
    ensures i <= last < |lines|
    decreases |lines| - i
  {
    if i + 1 < |lines| && SameTurn(lines[i], lines[i + 1]) then StretchEnd(lines, i + 1) else i
  }

  predicate EndsInStretch(lines: seq<TranscriptLine>, i: nat)
    requires i < |lines|
  {
    lines[i].endTime <= lines[StretchEnd(lines, i)].endTime
  }

  predicate LastEndsLast(lines: seq<TranscriptLine>) {
    forall i | 0 <= i < |lines| :: EndsInStretch(lines, i)
  }

  predicate Spans(line: TranscriptLine, run: seq<TranscriptLine>) {
    forall i | 0 <= i < |run| :: line.startTime <= run[i].startTime && run[i].endTime <= line.endTime
  }

  ghost predicate AllSpan(merged: seq<TranscriptLine>, runs: seq<seq<TranscriptLine>>)
    requires |runs| == |merged|
  {
    forall i | 0 <= i < |runs| :: Spans(merged[i], runs[i])
  }

  lemma {:induction false} StretchOfFirst(line: TranscriptLine, first: seq<TranscriptLine>, rest: seq<TranscriptLine>, i: nat)
    requires StandsFor(line, first) && i < |first| && (rest != [] ==> !SameTurn(line, rest[0]))
    ensures StretchEnd(first + rest, i) == |first| - 1
    decreases |first| - i
  {
    if i + 1 < |first| {
      assert SameTurn(first[i], first[i + 1]);
      StretchOfFirst(line, first, rest, i + 1);
    } else {
      assert SameTurn(first[i], line);
    }
  }

  lemma {:induction false} StretchOfRest(first: seq<TranscriptLine>, rest: seq<TranscriptLine>, i: nat)
    requires i < |rest|
    ensures StretchEnd(first + rest, |first| + i) == |first| + StretchEnd(rest, i)
    decreases |rest| - i
  {
    if i + 1 < |rest| && SameTurn(rest[i], rest[i + 1]) {
      StretchOfRest(first, rest, i + 1);
    }
  }

  lemma {:induction false} FirstSpansExactlyWhen(line: TranscriptLine, first: seq<TranscriptLine>, rest: seq<TranscriptLine>)
    requires StandsFor(line, first) && StartOrdered(first + rest) && (rest != [] ==> !SameTurn(line, rest[0]))
    ensures LastEndsLast(first + rest) <==> Spans(line, first) && LastEndsLast(rest)
  {
    var lines := first + rest;
    assert forall i | 0 <= i < |first| :: lines[i] == first[i];
    forall i: nat | i < |first| ensures EndsInStretch(lines, i) <==> first[i].endTime <= line.endTime {
      StretchOfFirst(line, first, rest, i);
    }
    forall i | 0 <= i < |first| ensures line.startTime <= first[i].startTime {
      assert lines[0].startTime <= lines[i].startTime;
    }
    RestEndsInStretch(first, rest);
  }

  lemma {:induction false} RestEndsInStretch(first: seq<TranscriptLine>, rest: seq<TranscriptLine>)
    ensures LastEndsLast(rest) <==> forall i | |first| <= i < |first + rest| :: EndsInStretch(first + rest, i)
  {
    var lines := first + rest;
    forall i: nat | |first| <= i < |lines| ensures EndsInStretch(lines, i) <==> EndsInStretch(rest, i - |first|) {
      StretchOfRest(first, rest, i - |first|);
    }
    if forall i | |first| <= i < |lines| :: EndsInStretch(lines, i) {
      forall k: nat | k < |rest| ensures EndsInStretch(rest, k) {
        assert EndsInStretch(lines, |first| + k);
      }
    }
  }

  lemma {:induction false} RunsSpanExactlyWhen(merged: seq<TranscriptLine>, runs: seq<seq<TranscriptLine>>)
    requires RunsOf(merged, runs) && Separate(merged) && StartOrdered(Flatten(runs))
    ensures AllSpan(merged, runs) <==> LastEndsLast(Flatten(runs))
    decreases |runs|
  {
    if runs != [] {
      var rest := Flatten(runs[1..]);
      assert StandsFor(merged[0], runs[0]);
      if |runs| > 1 {
        assert StandsFor(merged[1], runs[1]) && SameTurn(runs[1][0], merged[1]);
        assert runs[1..][0] == runs[1] && rest[0] == runs[1][0];
        assert !SameTurn(merged[0], merged[1]);
      }
      FirstSpansExactlyWhen(merged[0], runs[0], rest);
      forall i | 0 <= i < |merged| - 1 ensures StandsFor(merged[1..][i], runs[1..][i]) {
        assert StandsFor(merged[i + 1], runs[i + 1]);
      }
      forall i, j | 0 <= i < j < |rest| ensures rest[i].startTime <= rest[j].startTime {
        var all := runs[0] + rest;
        assert all[|runs[0]| + i] == rest[i] && all[|runs[0]| + j] == rest[j];
      }
      RunsSpanExactlyWhen(merged[1..], runs[1..]);
      assert AllSpan(merged, runs) <==> Spans(merged[0], runs[0]) && AllSpan(merged[1..], runs[1..]) by {
        forall i | 0 < i < |runs| ensures runs[i] == runs[1..][i - 1] && merged[i] == merged[1..][i - 1] {
        }
      }
    }
  }

  /** Each merged line spans all the lines it was merged from exactly when no line of the input
      ends after the last line of its stretch. */
  lemma {:induction false} MergedLinesSpanExactlyWhenTheLastEndsLast(lines: seq<TranscriptLine>)
    returns (runs: seq<seq<TranscriptLine>>)
    requires StartOrdered(lines)
    ensures Flatten(runs) == lines && RunsOf(Merged(lines), runs)
    ensures AllSpan(Merged(lines), runs) <==> LastEndsLast(lines)
  {
    MergeStandsForRuns(lines);
    runs :| Flatten(runs) == lines && RunsOf(Merged(lines), runs);
    MergeIsIdempotent(lines);
    RunsSpanExactlyWhen(Merged(lines), runs);
  }

  /** And it need not: the end of the merged line is the last line's, not the latest. */
  lemma {:induction false} MergeCanEndEarly(a: TranscriptLine, b: TranscriptLine)
    requires SameTurn(a, b) && a.startTime <= b.startTime && b.endTime < a.endTime
    ensures StartOrdered([a, b]) && |Merged([a, b])| == 1 && Merged([a, b])[0].endTime < a.endTime
  {
    assert [a, b][1..] == [b] && [b][1..] == [];
    assert MergeFrom(a, [b]) == MergeFrom(Joined(a, b), []);
  }

  predicate DistinctIds(lines: seq<TranscriptLine>) {
    forall i, j | 0 <= i < j < |lines| :: lines[i].id != lines[j].id
  }

  /** `line` is stored under the identity, on the track and at the start of one of `lines`. */
  ghost predicate TakenFrom(line: TranscriptLine, lines: seq<TranscriptLine>) {
    exists k | 0 <= k < |lines| :: Heads(line, lines[k])
  }

  predicate Heads(line: TranscriptLine, first: TranscriptLine) {
    line.id == first.id && line.startTime == first.startTime && SameTurn(line, first)
  }

  lemma {:induction false} MergeFromTakes(current: TranscriptLine, rest: seq<TranscriptLine>)
    ensures var m := MergeFrom(current, rest);
      Heads(m[0], current) && forall i | 0 < i < |m| :: TakenFrom(m[i], rest)
    decreases |rest|
  {
    if rest != [] {
      var inner := if SameTurn(current, rest[0]) then Joined(current, rest[0]) else rest[0];
      MergeFromTakes(inner, rest[1..]);
      var m := MergeFrom(inner, rest[1..]);
      forall i | 0 < i < |m| ensures TakenFrom(m[i], rest) {
        var k :| 0 <= k < |rest[1..]| && Heads(m[i], rest[1..][k]);
        assert Heads(m[i], rest[k + 1]);
      }
      assert Heads(rest[0], rest[0]);
    }
  }

  /** Putting a line before lines taken from `rest` keeps what held of it before `rest`. */
  lemma {:induction false} PrependKeepsOrder(current: TranscriptLine, rest: seq<TranscriptLine>, m: seq<TranscriptLine>)
    requires forall i | 0 <= i < |m| :: TakenFrom(m[i], rest)
    ensures StartOrdered([current] + rest) && StartOrdered(m) ==> StartOrdered([current] + m)
    ensures DistinctIds([current] + rest) && DistinctIds(m) ==> DistinctIds([current] + m)
  {
    var lines, all := [current] + rest, [current] + m;
    forall i, j | 0 <= i < j < |all|
      ensures StartOrdered(lines) && StartOrdered(m) ==> all[i].startTime <= all[j].startTime
      ensures DistinctIds(lines) && DistinctIds(m) ==> all[i].id != all[j].id
    {
      if i == 0 {
        assert TakenFrom(m[j - 1], rest);
        var k :| 0 <= k < |rest| && Heads(m[j - 1], rest[k]);
        assert lines[0] == current && lines[k + 1] == rest[k];
      } else {
        assert all[i] == m[i - 1] && all[j] == m[j - 1];
      }
    }
  }

  lemma {:induction false} MergeFromTakesAll(current: TranscriptLine, rest: seq<TranscriptLine>)
    ensures forall i | 0 <= i < |MergeFrom(current, rest)| :: TakenFrom(MergeFrom(current, rest)[i], [current] + rest)
  {
    var lines, m := [current] + rest, MergeFrom(current, rest);
    MergeFromTakes(current, rest);
    forall i | 0 <= i < |m| ensures TakenFrom(m[i], lines) {
      if i == 0 {
        assert Heads(m[0], lines[0]);
      } else {
        var k :| 0 <= k < |rest| && Heads(m[i], rest[k]);
        assert Heads(m[i], lines[k + 1]);
      }
    }
  }

  lemma {:induction false} DroppingSecondKeepsOrder(lines: seq<TranscriptLine>, next: seq<TranscriptLine>)
    requires |lines| >= 2 && |next| == |lines| - 1 && Heads(next[0], lines[0])
    requires forall k | 0 < k < |next| :: next[k] == lines[k + 1]
    ensures StartOrdered(lines) ==> StartOrdered(next)
    ensures DistinctIds(lines) ==> DistinctIds(next)
  {
  }

  lemma {:induction false} TailKeepsOrder(line: TranscriptLine, rest: seq<TranscriptLine>)
    ensures StartOrdered([line] + rest) ==> StartOrdered(rest)
    ensures DistinctIds([line] + rest) ==> DistinctIds(rest)
  {
    var lines := [line] + rest;
    assert forall k | 0 <= k < |rest| :: rest[k] == lines[k + 1];
  }

  lemma {:induction false} MergeFromKeepsOrder(current: TranscriptLine, rest: seq<TranscriptLine>)
    ensures StartOrdered([current] + rest) ==> StartOrdered(MergeFrom(current, rest))
    ensures DistinctIds([current] + rest) ==> DistinctIds(MergeFrom(current, rest))
    decreases |rest|
  {
    var lines := [current] + rest;
    if rest != [] {
      if SameTurn(current, rest[0]) {
        var next := [Joined(current, rest[0])] + rest[1..];
        MergeFromKeepsOrder(Joined(current, rest[0]), rest[1..]);
        DroppingSecondKeepsOrder(lines, next);
      } else {
        assert [rest[0]] + rest[1..] == rest;
        TailKeepsOrder(current, rest);
        MergeFromKeepsOrder(rest[0], rest[1..]);
        MergeFromTakesAll(rest[0], rest[1..]);
        PrependKeepsOrder(current, rest, MergeFrom(rest[0], rest[1..]));
      }
    }
  }

  /** Merging keeps lines in order of their starts, under ids of the input, still distinct. */
  lemma {:induction false} MergeKeepsOrder(lines: seq<TranscriptLine>)
    ensures StartOrdered(lines) ==> StartOrdered(Merged(lines))
    ensures DistinctIds(lines) ==> DistinctIds(Merged(lines))
    ensures forall i | 0 <= i < |Merged(lines)| :: TakenFrom(Merged(lines)[i], lines)
  {
    if lines != [] {
      MergeFromTakesAll(lines[0], lines[1..]);
      MergeFromKeepsOrder(lines[0], lines[1..]);
      assert [lines[0]] + lines[1..] == lines;
    }
  }
}
