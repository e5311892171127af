/** Turning a text file into speaker turns, and adding them to a transcript. The line pattern
    is a parameter. */
module Importers {
  import opened Options
  import opened Texts
  import opened Transcripts
  import opened Cleaning
  import opened TranscriptStore

  /** Hours, minutes and seconds are read from digits, so there is no sign. */
  type Timestamp = t: real | t >= 0.0 witness 0.0

  /** What the pattern makes of a line. `at` is the parsed timestamp, None when it is malformed. */
  datatype Matched =
    | NoMatch
    | Starts(speaker: string, text: string, at: Option<Timestamp>)

  /** A line pattern, and whether it has a timestamp group. */
  datatype Pattern = Pattern(match_: string -> Matched, timed: bool)

  // ---------------------------------------------------------------------------
  // Which lines belong to which turn

  function NonBlank(lines: seq<string>): seq<string> {
    if lines == [] then []
    else (if Strip(lines[0]) == "" then [] else [lines[0]]) + NonBlank(lines[1..])
  }

  /** The lines that continue a turn: up to the next line that starts one. */
  function Continuation(p: Pattern, lines: seq<string>): (n: nat)
    ensures n <= |lines|
    ensures forall i | 0 <= i < n :: p.match_(lines[i]).NoMatch?
    ensures n < |lines| ==> p.match_(lines[n]).Starts?
  {
    if lines == [] || p.match_(lines[0]).Starts? then 0 else 1 + Continuation(p, lines[1..])
  }

  /** One group of lines per turn, from the first line that starts one. */
  function Groups(p: Pattern, lines: seq<string>): seq<seq<string>>
    decreases |lines|
  {
    if lines == [] then []
    else if p.match_(lines[0]).NoMatch? then Groups(p, lines[1..])
    else
      var n := Continuation(p, lines[1..]) + 1;
      [lines[..n]] + Groups(p, lines[n..])
  }

  predicate IsGroup(p: Pattern, group: seq<string>) {
    group != [] && p.match_(group[0]).Starts? && forall i | 0 < i < |group| :: p.match_(group[i]).NoMatch?
  }

  lemma {:induction false} FirstGroup(p: Pattern, lines: seq<string>, n: nat)
    requires lines != [] && p.match_(lines[0]).Starts? && n == Continuation(p, lines[1..]) + 1
    ensures IsGroup(p, lines[..n]) && Continuation(p, lines[n..]) == 0 && lines[..n] + lines[n..] == lines
  {
    forall i | 0 < i < n ensures p.match_(lines[..n][i]).NoMatch? {
      assert lines[i] == lines[1..][i - 1];
    }
    if n < |lines| {
      assert lines[n..][0] == lines[1..][n - 1];
    }
  }

  /** Each line from the first speaker on is in exactly one group, in order; each group is one
      starting line and the lines that continue it. */
  lemma {:induction false} GroupsPartition(p: Pattern, lines: seq<string>)
    ensures Flatten(Groups(p, lines)) == lines[Continuation(p, lines)..]
    ensures forall i | 0 <= i < |Groups(p, lines)| :: IsGroup(p, Groups(p, lines)[i])
    decreases |lines|
  {
    if lines != [] {
      if p.match_(lines[0]).NoMatch? {
        GroupsPartition(p, lines[1..]);
        assert lines[Continuation(p, lines)..] == lines[1..][Continuation(p, lines[1..])..];
      } else {
        var n := Continuation(p, lines[1..]) + 1;
        GroupsPartition(p, lines[n..]);
        FirstGroup(p, lines, n);
      }
    }
  }

  function Stripped(lines: seq<string>): seq<string> {
    if lines == [] then [] else [Strip(lines[0])] + Stripped(lines[1..])
  }

  function GroupText(p: Pattern, group: seq<string>): string
    requires IsGroup(p, group)
  {
    Strip(Join("\n", [Strip(p.match_(group[0]).text)] + Stripped(group[1..])))
  }

  function GroupStart(p: Pattern, group: seq<string>, offset: real): real
    requires IsGroup(p, group)
  {
    var at := p.match_(group[0]).at;
    if p.timed && at.Some? then offset + at.value else offset
  }

  function Started(p: Pattern, group: seq<string>, offset: real): Draft
    requires IsGroup(p, group)
  {
    var start := GroupStart(p, group, offset);
    Draft(Strip(p.match_(group[0]).speaker), GroupText(p, group), start, start, false)
  }

  /** No line starts a turn for a blank speaker. */
  predicate SpeakersNamed(p: Pattern, lines: seq<string>) {
    forall i | 0 <= i < |lines| && p.match_(lines[i]).Starts? :: Strip(p.match_(lines[i]).speaker) != ""
  }

  predicate TimesRead(p: Pattern, lines: seq<string>) {
    forall i | 0 <= i < |lines| && p.match_(lines[i]).Starts? :: p.timed ==> p.match_(lines[i]).at.Some?
  }

  // ---------------------------------------------------------------------------
  // The loop

  /** The turn that is open; a blank speaker is none. */
  datatype Open = Open(speaker: string, text: seq<string>, start: real)

  function Flushed(o: Open): seq<Draft> {
    if o.speaker == "" then [] else [Draft(o.speaker, Strip(Join("\n", o.text)), o.start, o.start, false)]
  }

  function Continued(o: Open, line: string): Open {
    if o.speaker == "" then o else o.(text := o.text + [Strip(line)])
  }

  predicate Malformed(p: Pattern, line: string) {
    p.timed && p.match_(line).Starts? && p.match_(line).at.None?
  }

  /** The turn a line starts, when the one before it started at `was`. */
  function Opening(p: Pattern, line: string, was: real, offset: real): Open
    requires p.match_(line).Starts? && !Malformed(p, line)
  {
    var m := p.match_(line);
    Open(Strip(m.speaker), [Strip(m.text)], if p.timed then offset + m.at.value else was)
  }

  /** The turns from here on, the open one included; None when a timestamp is malformed. */
  function CollectFrom(p: Pattern, lines: seq<string>, o: Open, offset: real): Option<seq<Draft>>
    decreases |lines|
  {
    if lines == [] then Some(Flushed(o))
    else if Strip(lines[0]) == "" then CollectFrom(p, lines[1..], o, offset)
    else if p.match_(lines[0]).NoMatch? then CollectFrom(p, lines[1..], Continued(o, lines[0]), offset)
    else if Malformed(p, lines[0]) then None
    else After(Flushed(o), CollectFrom(p, lines[1..], Opening(p, lines[0], o.start, offset), offset))
  }

  function After(first: seq<Draft>, more: Option<seq<Draft>>): Option<seq<Draft>> {
    if more.None? then None else Some(first + more.value)
  }

  lemma {:induction false} AfterTwice(a: seq<Draft>, b: seq<Draft>, more: Option<seq<Draft>>)
    ensures After(a, After(b, more)) == After(a + b, more) && After([], more) == more
  {
    if more.Some? {
      assert a + (b + more.value) == (a + b) + more.value && [] + more.value == more.value;
    }
  }

  lemma {:induction false} CollectNext(p: Pattern, lines: seq<string>, i: nat, o: Open, offset: real)
    requires i < |lines|
    ensures
      var line, more := lines[i], lines[i + 1..];
      CollectFrom(p, lines[i..], o, offset) ==
        if Strip(line) == "" then CollectFrom(p, more, o, offset)
        else if p.match_(line).NoMatch? then CollectFrom(p, more, Continued(o, line), offset)
        else if Malformed(p, line) then None
        else After(Flushed(o), CollectFrom(p, more, Opening(p, line, o.start, offset), offset))
  {
    assert lines[i..][0] == lines[i] && lines[i..][1..] == lines[i + 1..];
  }

  method CollectTurns(p: Pattern, content: string, offset: real) returns (turns: Option<seq<Draft>>)
    ensures turns == CollectFrom(p, SplitLines(content), Open("", [], offset), offset)
  {
    var lines := SplitLines(content);
    var drafts: seq<Draft> := [];
    var speaker: string, text: seq<string>, start := "", [], offset;
    assert lines[0..] == lines;
    AfterTwice([], [], CollectFrom(p, lines, Open("", [], offset), offset));
    for i := 0 to |lines|
      invariant After(drafts, CollectFrom(p, lines[i..], Open(speaker, text, start), offset))
        == CollectFrom(p, lines, Open("", [], offset), offset)
    {
      var line := lines[i];
      CollectNext(p, lines, i, Open(speaker, text, start), offset);
      if Strip(line) == "" {
        continue;
      }
      match p.match_(line) {
        case NoMatch =>
          if speaker != "" {
            text := text + [Strip(line)];
          }
        case Starts(who, said, at) =>
          if !Malformed(p, line) {
            AfterTwice(drafts, Flushed(Open(speaker, text, start)),
              CollectFrom(p, lines[i + 1..], Opening(p, line, start, offset), offset));
          }
          drafts := drafts + Flushed(Open(speaker, text, start));
          speaker, text := Strip(who), [Strip(said)];
          if p.timed {
            if at.None? {
              return None;
            }
            start := offset + at.value;
          }
      }
    }
    drafts := drafts + Flushed(Open(speaker, text, start));
    return Some(drafts);
  }

  function StartedAll(p: Pattern, groups: seq<seq<string>>, offset: real): (r: seq<Draft>)
    requires forall i | 0 <= i < |groups| :: IsGroup(p, groups[i])
    ensures |r| == |groups| && forall i | 0 <= i < |r| :: r[i] == Started(p, groups[i], offset)
  {
    seq(|groups|, i requires 0 <= i < |groups| && IsGroup(p, groups[i]) => Started(p, groups[i], offset))
  }

  /** Groups with a turn already open. */
  function GroupsWith(p: Pattern, open: seq<string>, rest: seq<string>): seq<seq<string>> {
    if open == [] then Groups(p, rest)
    else
      var n := Continuation(p, rest);
      [open + rest[..n]] + Groups(p, rest[n..])
  }

  lemma {:induction false} ContinueTurn(p: Pattern, open: seq<string>, line: string, rest: seq<string>)
    requires p.match_(line).NoMatch?
    ensures GroupsWith(p, open, [line] + rest) == GroupsWith(p, if open == [] then [] else open + [line], rest)
  {
    var lines := [line] + rest;
    assert lines[1..] == rest;
    if open != [] {
      var n := Continuation(p, rest);
      assert Continuation(p, lines) == n + 1;
      assert open + lines[..n + 1] == open + [line] + rest[..n];
      assert lines[n + 1..] == rest[n..];
    }
  }

  lemma {:induction false} NextTurn(p: Pattern, open: seq<string>, line: string, rest: seq<string>)
    requires p.match_(line).Starts?
    ensures GroupsWith(p, open, [line] + rest) == (if open == [] then [] else [open]) + GroupsWith(p, [line], rest)
  {
    var lines := [line] + rest;
    var n := Continuation(p, rest);
    assert lines[1..] == rest && lines[..n + 1] == [line] + rest[..n] && lines[n + 1..] == rest[n..];
    assert Groups(p, lines) == GroupsWith(p, [line], rest);
    if open != [] {
      assert Continuation(p, lines) == 0;
      assert open + lines[..0] == open && lines[0..] == lines;
    }
  }

  lemma {:induction false} StrippedAppend(a: seq<string>, b: seq<string>)
    ensures Stripped(a + b) == Stripped(a) + Stripped(b)
  {
    if a == [] {
      assert a + b == b;
    } else {
      StrippedAppend(a[1..], b);
      HeadFirst(a, b);
    }
  }

  lemma {:induction false} StrippedOne(open: seq<string>, line: string)
    requires open != []
    ensures Stripped((open + [line])[1..]) == Stripped(open[1..]) + [Strip(line)]
  {
    assert (open + [line])[1..] == open[1..] + [line];
    StrippedAppend(open[1..], [line]);
    assert Stripped([line]) == [Strip(line)];
  }

  /** `o` is the turn open after the lines `open`. */
  ghost predicate Stands(p: Pattern, open: seq<string>, o: Open, offset: real) {
    if open == [] then o.speaker == "" && (p.timed || o.start == offset)
    else
      && IsGroup(p, open) && o.speaker == Strip(p.match_(open[0]).speaker) && o.speaker != ""
      && o.text == [Strip(p.match_(open[0]).text)] + Stripped(open[1..])
      && o.start == GroupStart(p, open, offset)
      && (p.timed || o.start == offset)
  }

  lemma {:induction false} GroupsWithAreGroups(p: Pattern, open: seq<string>, rest: seq<string>)
    requires open == [] || IsGroup(p, open)
    ensures var r := GroupsWith(p, open, rest); forall i | 0 <= i < |r| :: IsGroup(p, r[i])
  {
    GroupsPartition(p, rest);
    if open != [] {
      GroupsPartition(p, rest[Continuation(p, rest)..]);
    }
  }

  lemma {:induction false} HeadAndRest(p: Pattern, line: string, rest: seq<string>)
    ensures SpeakersNamed(p, [line] + rest) ==> SpeakersNamed(p, [line]) && SpeakersNamed(p, rest)
    ensures TimesRead(p, [line] + rest) <==> TimesRead(p, [line]) && TimesRead(p, rest)
  {
    var all := [line] + rest;
    assert all[0] == line && forall i | 0 <= i < |rest| :: rest[i] == all[i + 1];
  }

  /** What collecting must give for the lines of `groups`. */
  ghost predicate Collected(p: Pattern, r: Option<seq<Draft>>, groups: seq<seq<string>>, read: bool, offset: real) {
    && (forall i | 0 <= i < |groups| :: IsGroup(p, groups[i]))
    && (r.Some? <==> read)
    && (r.Some? ==> r.value == StartedAll(p, groups, offset))
  }

  lemma {:induction false} CollectsGroups(p: Pattern, lines: seq<string>, open: seq<string>, o: Open, offset: real)
    requires SpeakersNamed(p, NonBlank(lines)) && Stands(p, open, o, offset)
    ensures Collected(p, CollectFrom(p, lines, o, offset), GroupsWith(p, open, NonBlank(lines)),
              TimesRead(p, NonBlank(lines)), offset)
    decreases |lines|, 1
  {
    if lines == [] {
      if open != [] {
        assert GroupsWith(p, open, []) == [open] by { assert open + [] == open; }
      }
    } else {
      var line, rest := lines[0], NonBlank(lines[1..]);
      if Strip(line) == "" {
        assert NonBlank(lines) == rest;
        CollectsGroups(p, lines[1..], open, o, offset);
      } else {
        assert NonBlank(lines) == [line] + rest;
        HeadAndRest(p, line, rest);
        if p.match_(line).NoMatch? {
          ContinueTurn(p, open, line, rest);
          CollectsContinuation(p, lines, open, o, offset);
        } else {
          NextTurn(p, open, line, rest);
          CollectsStart(p, lines, open, o, offset);
        }
      }
    }
  }

  lemma {:induction false} CollectsContinuation(p: Pattern, lines: seq<string>, open: seq<string>, o: Open, offset: real)
    requires lines != [] && Strip(lines[0]) != "" && p.match_(lines[0]).NoMatch?
    requires SpeakersNamed(p, NonBlank(lines[1..])) && Stands(p, open, o, offset)
    ensures Collected(p, CollectFrom(p, lines, o, offset),
              GroupsWith(p, if open == [] then [] else open + [lines[0]], NonBlank(lines[1..])),
              TimesRead(p, NonBlank(lines[1..])), offset)
    decreases |lines|, 0
  {
    if open == [] {
      CollectsGroups(p, lines[1..], open, o, offset);
    } else {
      StrippedOne(open, lines[0]);
      var longer := Continued(o, lines[0]);
      assert Stands(p, open + [lines[0]], longer, offset);
      CollectsGroups(p, lines[1..], open + [lines[0]], longer, offset);
    }
  }

  /** The open turn is flushed as the turn of its lines. */
  lemma {:induction false} FlushStarts(p: Pattern, open: seq<string>, o: Open, offset: real)
    requires Stands(p, open, o, offset)
    ensures Collected(p, Some(Flushed(o)), if open == [] then [] else [open], true, offset)
  {
    if open != [] {
      assert Flushed(o) == [Started(p, open, offset)];
    }
  }

  /** A starting line opens a turn of its own. */
  lemma {:induction false} StartOpens(p: Pattern, line: string, was: real, offset: real)
    requires p.match_(line).Starts? && SpeakersNamed(p, [line]) && !Malformed(p, line) && (p.timed || was == offset)
    ensures Stands(p, [line], Opening(p, line, was, offset), offset)
  {
    assert [line][0] == line && [line][1..] == [];
    assert [Strip(p.match_(line).text)] + [] == [Strip(p.match_(line).text)];
  }

  lemma {:induction false} CollectsStart(p: Pattern, lines: seq<string>, open: seq<string>, o: Open, offset: real)
    requires lines != [] && Strip(lines[0]) != "" && p.match_(lines[0]).Starts?
    requires SpeakersNamed(p, [lines[0]]) && SpeakersNamed(p, NonBlank(lines[1..])) && Stands(p, open, o, offset)
    ensures Collected(p, CollectFrom(p, lines, o, offset),
              (if open == [] then [] else [open]) + GroupsWith(p, [lines[0]], NonBlank(lines[1..])),
              TimesRead(p, [lines[0]]) && TimesRead(p, NonBlank(lines[1..])), offset)
    decreases |lines|, 0
  {
    var line, rest := lines[0], NonBlank(lines[1..]);
    var first, later := if open == [] then [] else [open], GroupsWith(p, [line], rest);
    assert TimesRead(p, [line]) <==> !Malformed(p, line) by { assert [line][0] == line; }
    FlushStarts(p, open, o, offset);
    if Malformed(p, line) {
      GroupsWithAreGroups(p, [line], rest);
      FailedAppend(p, first, later, offset);
    } else {
      StartOpens(p, line, o.start, offset);
      var next := Opening(p, line, o.start, offset);
      CollectsGroups(p, lines[1..], [line], next, offset);
      CollectedAppend(p, first, Flushed(o), later, CollectFrom(p, lines[1..], next, offset), TimesRead(p, rest), offset);
    }
  }

  lemma {:induction false} FailedAppend(p: Pattern, first: seq<seq<string>>, later: seq<seq<string>>, offset: real)
    requires forall i | 0 <= i < |first| :: IsGroup(p, first[i])
    requires forall i | 0 <= i < |later| :: IsGroup(p, later[i])
    ensures Collected(p, None, first + later, false, offset)
  {
  }

  lemma {:induction false} CollectedAppend(p: Pattern, first: seq<seq<string>>, drafts: seq<Draft>,
      later: seq<seq<string>>, more: Option<seq<Draft>>, read: bool, offset: real)
    requires Collected(p, Some(drafts), first, true, offset) && Collected(p, more, later, read, offset)
    ensures Collected(p, After(drafts, more), first + later, read, offset)
  {
  }

  /** When every matched speaker is named, each non-blank line from the first speaker on is in
      exactly one turn, in order, and nothing else is in any; a malformed timestamp fails the
      whole file, and only that does. */
  lemma {:induction false} EveryLineIsInOneTurn(p: Pattern, content: string, offset: real)
    requires SpeakersNamed(p, NonBlank(SplitLines(content)))
    ensures
      var lines := NonBlank(SplitLines(content));
      var turns := CollectFrom(p, SplitLines(content), Open("", [], offset), offset);
      var groups := Groups(p, lines);
      && Flatten(groups) == lines[Continuation(p, lines)..]
      && Collected(p, turns, groups, TimesRead(p, lines), offset)
  {
    CollectsGroups(p, SplitLines(content), [], Open("", [], offset), offset);
    GroupsPartition(p, NonBlank(SplitLines(content)));
  }

  function Starters(p: Pattern, lines: seq<string>): nat {
    if lines == [] then 0 else (if p.match_(lines[0]).Starts? then 1 else 0) + Starters(p, lines[1..])
  }

  predicate Named(p: Pattern, line: string) {
    p.match_(line).Starts? && Strip(p.match_(line).speaker) != ""
  }

  function NamedStarters(p: Pattern, lines: seq<string>): nat {
    if lines == [] then 0 else (if Named(p, lines[0]) then 1 else 0) + NamedStarters(p, lines[1..])
  }

  lemma {:induction false} GroupPerStarter(p: Pattern, lines: seq<string>)
    ensures |Groups(p, lines)| == Starters(p, lines)
    decreases |lines|
  {
    if lines != [] {
      if p.match_(lines[0]).NoMatch? {
        GroupPerStarter(p, lines[1..]);
      } else {
        var n := Continuation(p, lines[1..]);
        ContinuationHasNoStarter(p, lines[1..]);
        assert lines[n + 1..] == lines[1..][n..];
        GroupPerStarter(p, lines[n + 1..]);
      }
    }
  }

  lemma {:induction false} ContinuationHasNoStarter(p: Pattern, lines: seq<string>)
    ensures Starters(p, lines) == Starters(p, lines[Continuation(p, lines)..])
  {
    if lines != [] && p.match_(lines[0]).NoMatch? {
      ContinuationHasNoStarter(p, lines[1..]);
      assert lines[Continuation(p, lines)..] == lines[1..][Continuation(p, lines[1..])..];
    }
  }

  lemma {:induction false} NamedStartersCount(p: Pattern, lines: seq<string>)
    ensures NamedStarters(p, lines) <= Starters(p, lines)
    ensures NamedStarters(p, lines) == Starters(p, lines) <==> SpeakersNamed(p, lines)
  {
    if lines != [] {
      NamedStartersCount(p, lines[1..]);
      assert lines == [lines[0]] + lines[1..];
      HeadAndRest(p, lines[0], lines[1..]);
      assert [lines[0]][0] == lines[0];
    }
  }

  lemma {:induction false} TurnPerNamedStarter(p: Pattern, lines: seq<string>, o: Open, offset: real)
    ensures
      var turns := CollectFrom(p, lines, o, offset);
      && (turns.Some? <==> TimesRead(p, NonBlank(lines)))
      && (turns.Some? ==> |turns.value| == |Flushed(o)| + NamedStarters(p, NonBlank(lines)))
    decreases |lines|
  {
    if lines != [] {
      var line, rest := lines[0], NonBlank(lines[1..]);
      if Strip(line) == "" {
        assert NonBlank(lines) == rest;
        TurnPerNamedStarter(p, lines[1..], o, offset);
      } else {
        assert NonBlank(lines) == [line] + rest && ([line] + rest)[1..] == rest;
        HeadAndRest(p, line, rest);
        assert TimesRead(p, [line]) <==> !Malformed(p, line) by { assert [line][0] == line; }
        if p.match_(line).NoMatch? {
          TurnPerNamedStarter(p, lines[1..], Continued(o, line), offset);
        } else if !Malformed(p, line) {
          TurnPerNamedStarter(p, lines[1..], Opening(p, line, o.start, offset), offset);
        }
      }
    }
  }

  /** A file is refused exactly when a line that starts a turn has a malformed timestamp, and
      the turns are those of all its lines exactly when each of them names a speaker. */
  lemma {:induction false} LinesAreKeptExactlyWhenSpeakersAreNamed(p: Pattern, content: string, offset: real)
    ensures
      var lines := NonBlank(SplitLines(content));
      var turns := CollectFrom(p, SplitLines(content), Open("", [], offset), offset);
      var groups := Groups(p, lines);
      && (turns.Some? <==> TimesRead(p, lines))
      && (turns.Some? ==> |turns.value| <= |groups| && (|turns.value| == |groups| <==> SpeakersNamed(p, lines)))
      && (turns.Some? ==> (Collected(p, turns, groups, true, offset) <==> SpeakersNamed(p, lines)))
  {
    var lines := NonBlank(SplitLines(content));
    TurnPerNamedStarter(p, SplitLines(content), Open("", [], offset), offset);
    GroupPerStarter(p, lines);
    NamedStartersCount(p, lines);
    if SpeakersNamed(p, lines) {
      EveryLineIsInOneTurn(p, content, offset);
    }
  }

  // ---------------------------------------------------------------------------
  // Times

  /** A turn runs until the next one starts; without timestamps, for one made-up second. */
  function Timed(p: Pattern, turns: seq<Draft>, offset: real): (r: seq<Draft>)
    ensures |r| == |turns|
    ensures forall i | 0 <= i < |r| :: r[i] == TimedTurn(p, turns, offset, i)
  {
    seq(|turns|, i requires 0 <= i < |turns| => TimedTurn(p, turns, offset, i))
  }

  function TimedTurn(p: Pattern, turns: seq<Draft>, offset: real, i: nat): Draft
    requires i < |turns|
  {
    if !p.timed then turns[i].(start := offset + i as real, end := offset + i as real + 1.0, synthetic := true)
    else if i + 1 < |turns| then turns[i].(end := turns[i + 1].start, synthetic := false)
    else turns[i].(synthetic := false)
  }

  method AssignTimes(p: Pattern, collected: seq<Draft>, offset: real) returns (turns: seq<Draft>)
    ensures turns == Timed(p, collected, offset)
  {
    turns := collected;
    if p.timed {
      var i := 0;
      while i + 1 < |turns|
        invariant |turns| == |collected| && i <= |turns| && (turns == [] || i < |turns|)
        invariant forall k | 0 <= k < i :: turns[k] == TimedTurn(p, collected, offset, k).(synthetic := collected[k].synthetic)
        invariant forall k | i <= k < |turns| :: turns[k] == collected[k]
      {
        turns := turns[i := turns[i].(end := turns[i + 1].start)];
        i := i + 1;
      }
    }
    ghost var placed := turns;
    for i := 0 to |turns|
      invariant |turns| == |collected|
      invariant forall k | 0 <= k < i :: turns[k] == Timed(p, collected, offset)[k]
      invariant forall k | i <= k < |turns| :: turns[k] == placed[k]
    {
      if !p.timed {
        turns := turns[i := turns[i].(start := offset + i as real, end := offset + i as real + 1.0)];
      }
      turns := turns[i := turns[i].(synthetic := !p.timed)];
    }
  }

  ghost predicate StartFrom(turns: seq<Draft>, offset: real) {
    forall i | 0 <= i < |turns| :: turns[i].start >= offset && turns[i].end == turns[i].start
  }

  lemma {:induction false} StartFromAppend(a: seq<Draft>, b: seq<Draft>, offset: real)
    requires StartFrom(a, offset) && StartFrom(b, offset)
    ensures StartFrom(a + b, offset)
  {
  }

  lemma {:induction false} TurnsStartLater(p: Pattern, lines: seq<string>, o: Open, offset: real)
    requires o.start >= offset
    ensures
      var turns := CollectFrom(p, lines, o, offset);
      turns.Some? ==> StartFrom(turns.value, offset)
    decreases |lines|
  {
    if lines != [] {
      var line := lines[0];
      if Strip(line) == "" {
        TurnsStartLater(p, lines[1..], o, offset);
      } else if p.match_(line).NoMatch? {
        TurnsStartLater(p, lines[1..], Continued(o, line), offset);
      } else if !Malformed(p, line) {
        var next := Opening(p, line, o.start, offset);
        TurnsStartLater(p, lines[1..], next, offset);
        var more := CollectFrom(p, lines[1..], next, offset);
        if more.Some? {
          StartFromAppend(Flushed(o), more.value, offset);
        }
      }
    }
  }

  function ParseFrom(p: Pattern, content: string, offset: real): Option<seq<Draft>> {
    var turns := CollectFrom(p, SplitLines(content), Open("", [], offset), offset);
    if turns.None? then None else Some(Timed(p, turns.value, offset))
  }

  method Parse(p: Pattern, content: string, offset: real) returns (turns: Option<seq<Draft>>)
    ensures turns == ParseFrom(p, content, offset)
  {
    turns := CollectTurns(p, content, offset);
    if turns.Some? {
      var timed := AssignTimes(p, turns.value, offset);
      turns := Some(timed);
    }
  }

  /** Each turn ends where the next one begins and none begins before the offset. Made-up times
      tile unit intervals from there; with real ones the last turn has no length. */
  ghost predicate Tiled(p: Pattern, turns: seq<Draft>, offset: real) {
    && (forall i | 0 <= i < |turns| :: turns[i].start >= offset && turns[i].synthetic == !p.timed)
    && (forall i, j | 0 <= i < |turns| && j == i + 1 && j < |turns| :: turns[i].end == turns[j].start)
    && (turns != [] ==> turns[|turns| - 1].end - turns[|turns| - 1].start == if p.timed then 0.0 else 1.0)
    && (!p.timed ==> forall i | 0 <= i < |turns| :: turns[i].start == offset + i as real)
  }

  lemma {:induction false} TimedTile(p: Pattern, turns: seq<Draft>, offset: real)
    requires StartFrom(turns, offset)
    ensures Tiled(p, Timed(p, turns, offset), offset)
  {
    var r := Timed(p, turns, offset);
    forall i | 0 <= i < |r| ensures r[i].start >= offset && r[i].synthetic == !p.timed {
      assert r[i] == TimedTurn(p, turns, offset, i);
    }
    forall i, j | 0 <= i < |r| && j == i + 1 && j < |r| ensures r[i].end == r[j].start {
      assert r[i] == TimedTurn(p, turns, offset, i) && r[j] == TimedTurn(p, turns, offset, j);
    }
  }

  /** So are the turns of every file that can be read. */
  lemma {:induction false} TurnsTile(p: Pattern, content: string, offset: real)
    ensures
      var turns := ParseFrom(p, content, offset);
      turns.Some? ==> Tiled(p, turns.value, offset)
  {
    TurnsStartLater(p, SplitLines(content), Open("", [], offset), offset);
    var collected := CollectFrom(p, SplitLines(content), Open("", [], offset), offset);
    if collected.Some? {
      TimedTile(p, collected.value, offset);
    }
  }

  /** `parts` are the texts of a turn's lines: what the pattern made of the first, and the others
      as they are, each without the blanks around it. */
  ghost predicate PartsOf(p: Pattern, group: seq<string>, parts: seq<string>)
    requires IsGroup(p, group)
  {
    && |parts| == |group| && parts[0] == Strip(p.match_(group[0]).text)
    && forall j | 0 < j < |parts| :: parts[j] == Strip(group[j])
  }

  lemma {:induction false} StrippedAt(lines: seq<string>)
    ensures |Stripped(lines)| == |lines| && forall i | 0 <= i < |lines| :: Stripped(lines)[i] == Strip(lines[i])
  {
    if lines != [] {
      StrippedAt(lines[1..]);
    }
  }

  lemma {:induction false} GroupTextMeans(p: Pattern, group: seq<string>) returns (parts: seq<string>)
    requires IsGroup(p, group)
    ensures PartsOf(p, group, parts) && GroupText(p, group) == Strip(Join("\n", parts))
  {
    StrippedAt(group[1..]);
    parts := [Strip(p.match_(group[0]).text)] + Stripped(group[1..]);
  }

  ghost predicate TextOf(p: Pattern, group: seq<string>, text: string)
    requires IsGroup(p, group)
  {
    exists parts :: PartsOf(p, group, parts) && text == Strip(Join("\n", parts))
  }

  /** The turn made of a group of lines: who speaks, what, and from when. */
  ghost predicate TurnOf(p: Pattern, group: seq<string>, turn: Draft, i: nat, offset: real)
    requires IsGroup(p, group)
  {
    var m := p.match_(group[0]);
    && turn.speaker == Strip(m.speaker) && TextOf(p, group, turn.text) && turn.synthetic == !p.timed
    && turn.start == if p.timed then if m.at.Some? then offset + m.at.value else offset else offset + i as real
  }

  /** When every matched speaker is named, the turns of a file are its groups of lines, with the
      speaker, the text and the time that the pattern found. */
  lemma {:induction false} TurnsAreGroups(p: Pattern, content: string, offset: real)
    requires SpeakersNamed(p, NonBlank(SplitLines(content))) && TimesRead(p, NonBlank(SplitLines(content)))
    ensures
      var groups, turns := Groups(p, NonBlank(SplitLines(content))), ParseFrom(p, content, offset);
      && turns.Some? && |turns.value| == |groups|
      && forall i: nat | i < |groups| :: IsGroup(p, groups[i]) && TurnOf(p, groups[i], turns.value[i], i, offset)
  {
    var groups := Groups(p, NonBlank(SplitLines(content)));
    EveryLineIsInOneTurn(p, content, offset);
    var collected := CollectFrom(p, SplitLines(content), Open("", [], offset), offset).value;
    var turns := ParseFrom(p, content, offset).value;
    forall i: nat | i < |groups| ensures TurnOf(p, groups[i], turns[i], i, offset) {
      assert turns[i] == TimedTurn(p, collected, offset, i) && collected[i] == Started(p, groups[i], offset);
      var parts := GroupTextMeans(p, groups[i]);
      assert TextOf(p, groups[i], turns[i].text);
    }
  }

  /** `at` are the places of the lines that are not blank, in order, and `part` are those lines. */
  ghost predicate AreNonBlank(lines: seq<string>, part: seq<string>, at: seq<nat>) {
    && |at| == |part|
    && (forall k | 0 <= k < |at| :: at[k] < |lines| && part[k] == lines[at[k]])
    && (forall i, j | 0 <= i < j < |at| :: at[i] < at[j])
    && (forall i: nat :: i in at <==> i < |lines| && Strip(lines[i]) != "")
  }

  /** The lines looked at are exactly those that are not blank. */
  lemma {:induction false} NonBlankMeans(lines: seq<string>) returns (at: seq<nat>)
    ensures AreNonBlank(lines, NonBlank(lines), at)
  {
    if lines == [] {
      at := [];
    } else {
      var before := NonBlankMeans(lines[..|lines| - 1]);
      NonBlankOfLast(lines);
      at := OneLineLater(lines, NonBlank(lines[..|lines| - 1]), before);
    }
  }

  lemma {:induction false} OneLineLater(lines: seq<string>, part: seq<string>, before: seq<nat>) returns (at: seq<nat>)
    requires lines != [] && AreNonBlank(lines[..|lines| - 1], part, before)
    ensures
      var last := lines[|lines| - 1];
      AreNonBlank(lines, part + if Strip(last) == "" then [] else [last], at)
  {
    var n := |lines| - 1;
    assert forall i | 0 <= i < n :: lines[..n][i] == lines[i];
    at := before;
    if Strip(lines[n]) == "" {
      assert part + [] == part;
    } else {
      assert n !in before;
      at := before + [n];
    }
  }

  lemma {:induction false} NonBlankOfLast(lines: seq<string>)
    requires lines != []
    ensures
      var n := |lines| - 1;
      NonBlank(lines) == NonBlank(lines[..n]) + if Strip(lines[n]) == "" then [] else [lines[n]]
  {
    var n := |lines| - 1;
    if n == 0 {
      assert lines[1..] == [] && lines[..0] == [];
    } else {
      NonBlankOfLast(lines[1..]);
      assert lines[1..][..n - 1] == lines[..n][1..];
    }
  }

  // ---------------------------------------------------------------------------
  // Adding a file to the transcript

  function LatestEnd(lines: seq<TranscriptLine>): (r: real)
    ensures forall i | 0 <= i < |lines| :: lines[i].endTime <= r
    ensures if lines == [] then r == 0.0 else exists i | 0 <= i < |lines| :: lines[i].endTime == r
  {
    if lines == [] then 0.0
    else if |lines| == 1 then lines[0].endTime
    else
      var later := LatestEnd(lines[1..]);
      assert forall i | 0 < i < |lines| :: lines[i] == lines[1..][i - 1];
      assert forall i | 0 <= i < |lines| - 1 :: lines[1..][i] == lines[i + 1];
      if lines[0].endTime >= later then lines[0].endTime else later
  }

  /** Where an imported file begins: at the latest end there is, or at zero. */
  ghost predicate Begins(rows: seq<TranscriptLine>, append: bool, offset: real) {
    if !append || rows == [] then offset == 0.0
    else
      && (forall i | 0 <= i < |rows| :: rows[i].endTime <= offset)
      && exists i | 0 <= i < |rows| :: rows[i].endTime == offset
  }

  lemma {:induction false} OrderingKeepsEnds(rows: seq<TranscriptLine>, speakers: Speakers, lines: seq<TranscriptLine>)
    requires Ordering(Read(rows, speakers), lines)
    ensures Begins(rows, true, LatestEnd(lines))
  {
    var shown := Read(rows, speakers);
    assert |lines| == |multiset(shown)| == |rows|;
    forall i | 0 <= i < |rows| ensures rows[i].endTime <= LatestEnd(lines) {
      assert shown[i] in multiset(lines);
      assert shown[i] in lines;
    }
    if lines != [] {
      var i :| 0 <= i < |lines| && lines[i].endTime == LatestEnd(lines);
      assert lines[i] in multiset(shown);
      assert lines[i] in shown;
    }
  }

  /** The file is added whole, from where it begins. */
  ghost predicate Imports(before: seq<TranscriptLine>, after: seq<TranscriptLine>, speakers: Speakers,
      p: Pattern, content: string, append: bool, newId: nat -> LineId)
  {
    exists offset: real :: Begins(before, append, offset) && ImportsAt(before, after, speakers, p, content, append, newId, offset)
  }

  ghost predicate ImportsAt(before: seq<TranscriptLine>, after: seq<TranscriptLine>, speakers: Speakers,
      p: Pattern, content: string, append: bool, newId: nat -> LineId, offset: real)
  {
    var turns := ParseFrom(p, content, offset);
    turns.Some? && HoldsAfter(after, speakers, if append then before else [], turns.value, newId, None, 0.0)
  }

  /** Imported lines that are appended start no earlier than any line there was ends. */
  lemma {:induction false} AppendedLinesStartAfter(before: seq<TranscriptLine>, after: seq<TranscriptLine>, speakers: Speakers,
      p: Pattern, content: string, newId: nat -> LineId)
    requires Imports(before, after, speakers, p, content, true, newId)
    ensures before <= after
    ensures forall i, j | 0 <= i < |before| <= j < |after| :: before[i].endTime <= after[j].startTime
    ensures forall j | |before| <= j < |after| :: after[j].sourceId == None
  {
    var offset: real :| Begins(before, true, offset) && ImportsAt(before, after, speakers, p, content, true, newId, offset);
    forall j: nat | |before| <= j < |after| ensures after[j].startTime >= offset && after[j].sourceId == None {
      AppendedLineStartsLater(before, after, speakers, p, content, newId, offset, j);
    }
  }

  lemma {:induction false} AppendedLineStartsLater(before: seq<TranscriptLine>, after: seq<TranscriptLine>, speakers: Speakers,
      p: Pattern, content: string, newId: nat -> LineId, offset: real, j: nat)
    requires ImportsAt(before, after, speakers, p, content, true, newId, offset) && |before| <= j < |after|
    ensures after[j].startTime >= offset && after[j].sourceId == None
  {
    var turns, k := ParseFrom(p, content, offset).value, j - |before|;
    TurnsTile(p, content, offset);
    assert Holds(after[|before| + k], speakers, turns[k], newId(k), None, 0.0);
  }

  lemma {:induction false} ReadsExactlyWhenTimesRead(p: Pattern, content: string, offset: real)
    ensures ParseFrom(p, content, offset).Some? <==> TimesRead(p, NonBlank(SplitLines(content)))
  {
    LinesAreKeptExactlyWhenSpeakersAreNamed(p, content, offset);
  }

  /** A file with a malformed timestamp changes nothing. Any other is added whole: in place of
      all there was, from zero, or after it. */
  method HandleImport(repo: TranscriptRepository, p: Pattern, content: string, append: bool, newId: nat -> LineId)
    returns (ok: bool)
    modifies repo
    ensures ok <==> TimesRead(p, NonBlank(SplitLines(content)))
    ensures !ok ==> repo.rows == old(repo.rows) && repo.speakers == old(repo.speakers)
    ensures ok ==> Imports(old(repo.rows), repo.rows, repo.speakers, p, content, append, newId)
    ensures old(repo.speakers) <= repo.speakers
  {
    var committed := repo.rows;
    var offset: real := 0.0;
    if append {
      var existing := repo.GetLines();
      offset := LatestEnd(existing);
      OrderingKeepsEnds(repo.rows, repo.speakers, existing);
    } else {
      repo.DeleteAllLines();
    }
    assert Begins(committed, append, offset);
    var turns := Parse(p, content, offset);
    ReadsExactlyWhenTimesRead(p, content, offset);
    if turns.None? {
      repo.rows := committed;
      return false;
    }
    StoreDrafts(repo, turns.value, newId, None, 0.0);
    assert ImportsAt(committed, repo.rows, repo.speakers, p, content, append, newId, offset);
    return true;
  }
}
