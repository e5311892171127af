/** Every operation of the transcript repository is a step of the runs over stored lines, so what
    holds over those runs holds of the repository. */
module StoreSteps {
  import opened Options
  import opened Transcripts
  import opened Cleaning
  import opened Merging
  import opened Pipeline
  import opened TranscriptStore

  /** The store holds the lines that are read from the rows. */
  ghost predicate Shows(names: Speakers, s: Store, rows: seq<TranscriptLine>) {
    Lines(s.entries) == Read(rows, names)
  }

  // ---------------------------------------------------------------------------
  // Writes

  lemma {:induction false} OthersAreRead(names: Speakers, rows: seq<TranscriptLine>, source: SourceId)
    ensures Read(Others(rows, source), names) == Others(Read(rows, names), source)
  {
    SameChoice(|rows|, OffTrack(rows, source), OffTrack(Read(rows, names), source));
  }

  lemma {:induction false} OtherLines(entries: seq<Entry>, source: SourceId)
    ensures Lines(OtherEntries(entries, source)) == Others(Lines(entries), source)
  {
  }

  lemma {:induction false} ReadAppend(names: Speakers, a: seq<TranscriptLine>, b: seq<TranscriptLine>)
    ensures Read(a + b, names) == Read(a, names) + Read(b, names)
  {
  }

  lemma {:induction false} LinesAppend(a: seq<Entry>, b: seq<Entry>)
    ensures Lines(a + b) == Lines(a) + Lines(b)
  {
  }

  /** The drafts as they are read once stored. */
  lemma {:induction false} StoredDrafts(names: Speakers, speakers: Speakers, rows: seq<TranscriptLine>, kept: seq<TranscriptLine>,
      drafts: seq<Draft>, newId: nat -> LineId, source: Option<SourceId>, offset: real) returns (new_: seq<TranscriptLine>)
    requires speakers <= names && HoldsAfter(rows, speakers, kept, drafts, newId, source, offset)
    ensures |new_| == |drafts| && OfSource(new_, source) && Named(new_, names)
    ensures Read(rows, names) == Read(kept, names) + new_
  {
    new_ := Read(rows[|kept|..], names);
    assert rows == kept + rows[|kept|..];
    ReadAppend(names, kept, rows[|kept|..]);
    forall i | 0 <= i < |new_| ensures new_[i].sourceId == source {
      assert Holds(rows[|kept| + i], speakers, drafts[i], newId(i), source, offset);
    }
  }

  lemma {:induction false} TranscribeIsAStep(names: Speakers, s: Store, rows: seq<TranscriptLine>, after: seq<TranscriptLine>,
      speakers: Speakers, segments: seq<Draft>, newId: nat -> LineId, source: SourceId, offset: real)
      returns (new_: seq<TranscriptLine>, t: Store)
    requires Shows(names, s, rows) && speakers <= names
    requires HoldsAfter(after, speakers, Others(rows, source), segments, newId, Some(source), offset)
    ensures |new_| == |segments| && Next(names, s, Transcribe(source, new_), t) && Shows(names, t, after)
  {
    new_ := StoredDrafts(names, speakers, after, Others(rows, source), segments, newId, Some(source), offset);
    t := Store(OtherEntries(s.entries, source) + Written(new_, |s.writes|), s.writes + [Write(Some(source), new_)]);
    OthersAreRead(names, rows, source);
    OtherLines(s.entries, source);
    LinesAppend(OtherEntries(s.entries, source), Written(new_, |s.writes|));
    assert Lines(Written(new_, |s.writes|)) == new_;
  }

  lemma {:induction false} ImportIsAStep(names: Speakers, s: Store, rows: seq<TranscriptLine>, after: seq<TranscriptLine>,
      speakers: Speakers, turns: seq<Draft>, newId: nat -> LineId, append: bool) returns (new_: seq<TranscriptLine>, t: Store)
    requires Shows(names, s, rows) && speakers <= names
    requires HoldsAfter(after, speakers, if append then rows else [], turns, newId, None, 0.0)
    ensures |new_| == |turns| && Next(names, s, Import(append, new_), t) && Shows(names, t, after)
  {
    var kept := if append then s.entries else [];
    new_ := StoredDrafts(names, speakers, after, if append then rows else [], turns, newId, None, 0.0);
    t := Store(kept + Written(new_, |s.writes|), s.writes + [Write(None, new_)]);
    LinesAppend(kept, Written(new_, |s.writes|));
    assert Lines(Written(new_, |s.writes|)) == new_;
  }

  // ---------------------------------------------------------------------------
  // Edits

  lemma {:induction false} EditIsAStep(names: Speakers, s: Store, rows: seq<TranscriptLine>, after: seq<TranscriptLine>,
      at: nat, text: Option<string>, speakerId: Option<SpeakerId>) returns (t: Store)
    requires Shows(names, s, rows) && at < |rows| == |after|
    requires forall i | 0 <= i < |rows| ::
      after[i] == if i != at then rows[i]
        else rows[i].(text := if text.Some? then text.value else rows[i].text,
                      speakerId := if speakerId.Some? then speakerId else rows[i].speakerId)
    ensures Next(names, s, Edit(at, text, speakerId), t) && Shows(names, t, after)
  {
    var e := s.entries[at];
    assert e.line == Read(rows, names)[at];
    t := s.(entries := s.entries[at := Entry(EditedLine(e.line, names, text, speakerId), e.from, e.edited || text.Some?)]);
    forall i | 0 <= i < |after| ensures Lines(t.entries)[i] == Read(after, names)[i] {
      assert Lines(s.entries)[i] == Read(rows, names)[i];
    }
  }

  lemma {:induction false} DeleteIsAStep(names: Speakers, s: Store, rows: seq<TranscriptLine>, at: nat) returns (t: Store)
    requires Shows(names, s, rows) && at < |rows|
    ensures Next(names, s, Delete(at), t) && Shows(names, t, rows[..at] + rows[at + 1..])
  {
    t := s.(entries := s.entries[..at] + s.entries[at + 1..]);
    var after := rows[..at] + rows[at + 1..];
    assert |Lines(s.entries)| == |Read(rows, names)|;
    forall i | 0 <= i < |after| ensures Lines(t.entries)[i] == Read(after, names)[i] {
      var k := if i < at then i else i + 1;
      assert Lines(s.entries)[k] == Read(rows, names)[k];
    }
  }

  // ---------------------------------------------------------------------------
  // Cleans

  /** An ordering of the lines is one of the entries. */
  lemma {:induction false} OrderEntries(entries: seq<Entry>, order: seq<TranscriptLine>) returns (ordered: seq<Entry>)
    requires multiset(order) == multiset(Lines(entries))
    ensures multiset(ordered) == multiset(entries) && Lines(ordered) == order
    decreases |order|
  {
    if order == [] {
      assert |multiset(order)| == |multiset(Lines(entries))|;
      ordered := [];
    } else {
      var i := FindFirst(entries, order);
      var rest := OrderEntries(entries[..i] + entries[i + 1..], order[1..]);
      RemoveAt(entries, i);
      ordered := [entries[i]] + rest;
      LinesAppend([entries[i]], rest);
      assert Lines([entries[i]]) == [order[0]] && order == [order[0]] + order[1..];
    }
  }

  lemma {:induction false} FindFirst(entries: seq<Entry>, order: seq<TranscriptLine>) returns (i: nat)
    requires order != [] && multiset(order) == multiset(Lines(entries))
    ensures i < |entries| && entries[i].line == order[0]
    ensures multiset(order[1..]) == multiset(Lines(entries[..i] + entries[i + 1..]))
  {
    var lines := Lines(entries);
    assert order[0] in multiset(lines);
    assert order[0] in lines;
    i :| 0 <= i < |lines| && lines[i] == order[0];
    RemoveAt(lines, i);
    RemoveFirst(order);
    Cancel(order[0], multiset(order[1..]), multiset(lines[..i] + lines[i + 1..]));
    assert Lines(entries[..i] + entries[i + 1..]) == lines[..i] + lines[i + 1..];
  }

  lemma {:induction false} RemoveFirst<T>(s: seq<T>)
    requires s != []
    ensures multiset(s) == multiset{s[0]} + multiset(s[1..])
  {
    assert s == [s[0]] + s[1..];
  }

  lemma {:induction false} Cancel(x: TranscriptLine, a: multiset<TranscriptLine>, b: multiset<TranscriptLine>)
    requires multiset{x} + a == multiset{x} + b
    ensures a == b
  {
    forall y ensures a[y] == b[y] {
      assert (multiset{x} + a)[y] == (multiset{x} + b)[y];
    }
  }

  lemma {:induction false} RemoveAt<T>(s: seq<T>, i: nat)
    requires i < |s|
    ensures multiset(s) == multiset{s[i]} + multiset(s[..i] + s[i + 1..])
  {
    assert s == s[..i] + ([s[i]] + s[i + 1..]);
  }

  lemma {:induction false} CleanIsAStep(names: Speakers, s: Store, rows: seq<TranscriptLine>, after: seq<TranscriptLine>,
      settings: CleaningSettings, order: seq<TranscriptLine>) returns (ordered: seq<Entry>, t: Store)
    requires Shows(names, s, rows) && Ordering(Read(rows, names), order)
    requires Read(after, names) == RunAll(BuildPipeline(settings), order)
    ensures Next(names, s, CleanAll(settings, ordered), t) && Shows(names, t, after)
  {
    ordered := OrderEntries(s.entries, order);
    t := EveryCleanIsAStep(names, s, settings, ordered);
    CleanStepIsClean(names, s, settings, ordered, t);
  }
}
