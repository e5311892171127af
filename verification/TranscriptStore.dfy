/** A chronicle's stored lines, and the runs of transcriptions, imports, edits and cleans
    over them. */
module TranscriptStore {
  import opened Options
  import opened Texts
  import opened Transcripts
  import opened Cleaning
  import opened Merging
  import opened Pipeline

  // ---------------------------------------------------------------------------
  // The repository

  function SortIn(line: TranscriptLine, sorted: seq<TranscriptLine>): seq<TranscriptLine> {
    if sorted == [] || line.startTime < sorted[0].startTime then [line] + sorted
    else [sorted[0]] + SortIn(line, sorted[1..])
  }

  /** The rows ordered by start time. */
  function ByStart(rows: seq<TranscriptLine>): seq<TranscriptLine> {
    if rows == [] then [] else SortIn(rows[|rows| - 1], ByStart(rows[..|rows| - 1]))
  }

  lemma {:induction false} OrderedFront(first: TranscriptLine, more: seq<TranscriptLine>)
    requires StartOrdered(more) && (more != [] ==> first.startTime <= more[0].startTime)
    ensures StartOrdered([first] + more)
  {
  }

  lemma {:induction false} SortInKeeps(line: TranscriptLine, sorted: seq<TranscriptLine>)
    requires StartOrdered(sorted)
    ensures StartOrdered(SortIn(line, sorted)) && multiset(SortIn(line, sorted)) == multiset{line} + multiset(sorted)
    ensures SortIn(line, sorted)[0].startTime == line.startTime
      || (sorted != [] && SortIn(line, sorted)[0] == sorted[0])
  {
    if !(sorted == [] || line.startTime < sorted[0].startTime) {
      SortInKeeps(line, sorted[1..]);
      var more := SortIn(line, sorted[1..]);
      assert sorted == [sorted[0]] + sorted[1..];
      OrderedFront(sorted[0], more);
    }
  }

  lemma LastCounts(before: seq<TranscriptLine>, last: TranscriptLine, rows: seq<TranscriptLine>)
    requires rows == before + [last]
    ensures multiset(rows) == multiset{last} + multiset(before)
  {
  }

  lemma {:induction false} ByStartKeeps(rows: seq<TranscriptLine>)
    ensures StartOrdered(ByStart(rows)) && multiset(ByStart(rows)) == multiset(rows)
  {
    if rows != [] {
      var before, last := rows[..|rows| - 1], rows[|rows| - 1];
      ByStartKeeps(before);
      SortInKeeps(last, ByStart(before));
      LastCounts(before, last, rows);
    }
  }

  function OffTrack(rows: seq<TranscriptLine>, source: SourceId): Choice {
    (i: nat) => i < |rows| && rows[i].sourceId != Some(source)
  }

  /** The lines that are not of this track: those of the others, and the imported ones. */
  function Others(rows: seq<TranscriptLine>, source: SourceId): seq<TranscriptLine> {
    Keep(rows, OffTrack(rows, source))
  }

  type Speakers = seq<string>

  /** The name a stored speaker id stands for. */
  function NameOf(speakers: Speakers, id: Option<SpeakerId>): Option<string> {
    if id.Some? && id.value < |speakers| then Some(speakers[id.value]) else None
  }

  predicate NoneTwice(speakers: Speakers) {
    forall i, j | 0 <= i < j < |speakers| :: speakers[i] != speakers[j]
  }

  /** The lines as they are read: a row has no name, only its speaker's id. */
  function Read(rows: seq<TranscriptLine>, speakers: Speakers): (r: seq<TranscriptLine>)
    ensures |r| == |rows|
    ensures forall i | 0 <= i < |r| :: r[i] == rows[i].(speakerName := NameOf(speakers, rows[i].speakerId))
  {
    seq(|rows|, i requires 0 <= i < |rows| => rows[i].(speakerName := NameOf(speakers, rows[i].speakerId)))
  }

  function Stored(lines: seq<TranscriptLine>): (r: seq<TranscriptLine>)
    ensures |r| == |lines| && forall i | 0 <= i < |r| :: r[i] == lines[i].(speakerName := None)
  {
    seq(|lines|, i requires 0 <= i < |lines| => lines[i].(speakerName := None))
  }

  class TranscriptRepository {
    var rows: seq<TranscriptLine>
    var speakers: Speakers

    constructor ()
      ensures rows == [] && speakers == []
    {
      rows, speakers := [], [];
    }

    method GetOrCreateSpeaker(name: string) returns (id: SpeakerId)
      modifies this`speakers
      ensures id < |speakers| && speakers[id] == name
      ensures speakers == if name in old(speakers) then old(speakers) else old(speakers) + [name]
    {
      for i := 0 to |speakers|
        invariant forall k | 0 <= k < i :: speakers[k] != name
      {
        if speakers[i] == name {
          return i;
        }
      }
      id := |speakers|;
      speakers := speakers + [name];
    }

    method GetLines() returns (lines: seq<TranscriptLine>)
      ensures Ordering(Read(rows, speakers), lines)
    {
      ByStartKeeps(Read(rows, speakers));
      lines := ByStart(Read(rows, speakers));
    }

    method AddLines(lines: seq<TranscriptLine>)
      modifies this`rows
      ensures rows == old(rows) + Stored(lines)
    {
      rows := rows + Stored(lines);
    }

    method DeleteAllLines()
      modifies this`rows
      ensures rows == []
    {
      rows := [];
    }

    method DeleteTrackLines(source: SourceId)
      modifies this`rows
      ensures rows == Others(old(rows), source)
    {
      rows := Others(rows, source);
    }

    method Find(id: LineId) returns (at: Option<nat>)
      ensures at.Some? ==> at.value < |rows| && rows[at.value].id == id
      ensures at.None? ==> forall i | 0 <= i < |rows| :: rows[i].id != id
    {
      for i := 0 to |rows|
        invariant forall k | 0 <= k < i :: rows[k].id != id
      {
        if rows[i].id == id {
          return Some(i);
        }
      }
      return None;
    }

    /** Edits the text or the speaker of one line; nothing else of it, and no other line. */
    method UpdateLine(id: LineId, text: Option<string>, speakerId: Option<SpeakerId>) returns (found: bool)
      requires DistinctIds(rows)
      modifies this`rows
      ensures found <==> exists i | 0 <= i < |old(rows)| :: old(rows)[i].id == id
      ensures |rows| == |old(rows)| && forall i | 0 <= i < |rows| ::
        var was := old(rows)[i];
        rows[i] == if was.id != id then was
          else was.(text := if text.Some? then text.value else was.text,
                    speakerId := if speakerId.Some? then speakerId else was.speakerId)
    {
      var at := Find(id);
      found := at.Some?;
      if found {
        var line := rows[at.value];
        if text.Some? {
          line := line.(text := text.value);
        }
        if speakerId.Some? {
          line := line.(speakerId := speakerId);
        }
        rows := rows[at.value := line];
      }
    }

    method DeleteLine(id: LineId) returns (found: bool)
      requires DistinctIds(rows)
      modifies this`rows
      ensures found <==> exists i | 0 <= i < |old(rows)| :: old(rows)[i].id == id
      ensures !found ==> rows == old(rows)
      ensures found ==> exists i | 0 <= i < |old(rows)| ::
        old(rows)[i].id == id && rows == old(rows)[..i] + old(rows)[i + 1..]
    {
      var at := Find(id);
      found := at.Some?;
      if found {
        rows := rows[..at.value] + rows[at.value + 1..];
      }
    }
  }

  // ---------------------------------------------------------------------------
  // The handlers' write stages

  /** HandlerBase.attach_speakers: one speaker for each name, created where it is new. */
  method AttachSpeakers(repo: TranscriptRepository, drafts: seq<Draft>) returns (ids: seq<SpeakerId>)
    modifies repo`speakers
    ensures |ids| == |drafts| && old(repo.speakers) <= repo.speakers
    ensures forall i | 0 <= i < |ids| :: NameOf(repo.speakers, Some(ids[i])) == Some(drafts[i].speaker)
    ensures NoneTwice(old(repo.speakers)) ==> NoneTwice(repo.speakers)
  {
    ids := [];
    var speakerMap: map<string, SpeakerId> := map[];
    for i := 0 to |drafts|
      invariant |ids| == i && old(repo.speakers) <= repo.speakers
      invariant forall name | name in speakerMap :: NameOf(repo.speakers, Some(speakerMap[name])) == Some(name)
      invariant forall k | 0 <= k < i :: NameOf(repo.speakers, Some(ids[k])) == Some(drafts[k].speaker)
      invariant NoneTwice(old(repo.speakers)) ==> NoneTwice(repo.speakers)
    {
      var name := drafts[i].speaker;
      if name !in speakerMap {
        var id := repo.GetOrCreateSpeaker(name);
        speakerMap := speakerMap[name := id];
      }
      ids := ids + [speakerMap[name]];
    }
  }

  /** `row` holds the draft on the track, shifted to where the track begins, and is read under
      the draft's speaker. */
  predicate Holds(row: TranscriptLine, speakers: Speakers, draft: Draft, id: LineId, source: Option<SourceId>, offset: real) {
    && row.id == id && row.sourceId == source && row.syntheticTiming == Some(draft.synthetic)
    && row.text == draft.text
    && row.startTime == draft.start + offset && row.endTime == draft.end + offset
    && row.speakerName.None? && NameOf(speakers, row.speakerId) == Some(draft.speaker)
  }

  /** `rows` are the ones kept, then the drafts. */
  ghost predicate HoldsAfter(rows: seq<TranscriptLine>, speakers: Speakers, kept: seq<TranscriptLine>, drafts: seq<Draft>,
      newId: nat -> LineId, source: Option<SourceId>, offset: real)
  {
    && |rows| == |kept| + |drafts| && kept <= rows
    && forall i | 0 <= i < |drafts| :: Holds(rows[|kept| + i], speakers, drafts[i], newId(i), source, offset)
  }

  method StoreDrafts(repo: TranscriptRepository, drafts: seq<Draft>, newId: nat -> LineId, source: Option<SourceId>, offset: real)
    modifies repo
    ensures HoldsAfter(repo.rows, repo.speakers, old(repo.rows), drafts, newId, source, offset)
    ensures old(repo.speakers) <= repo.speakers
  {
    var ids := AttachSpeakers(repo, drafts);
    var lines: seq<TranscriptLine> := [];
    for i := 0 to |drafts|
      invariant |lines| == i
      invariant forall k | 0 <= k < i :: Holds(lines[k], repo.speakers, drafts[k], newId(k), source, offset)
    {
      var line := TranscriptLine(newId(i), Some(ids[i]), None, None, Some(drafts[i].synthetic), drafts[i].start, drafts[i].end, drafts[i].text);
      line := line.(sourceId := source);
      line := line.(startTime := line.startTime + offset);
      line := line.(endTime := line.endTime + offset);
      lines := lines + [line];
    }
    assert Stored(lines) == lines;
    repo.AddLines(lines);
  }

  /** The track's lines become the new segments, at the track's offset; no other line changes,
      nor the name any other line is read under. */
  method HandleTranscribe(repo: TranscriptRepository, segments: seq<Draft>, newId: nat -> LineId, source: SourceId, offset: real)
    modifies repo
    ensures HoldsAfter(repo.rows, repo.speakers, Others(old(repo.rows), source), segments, newId, Some(source), offset)
    ensures old(repo.speakers) <= repo.speakers
  {
    repo.DeleteTrackLines(source);
    StoreDrafts(repo, segments, newId, Some(source), offset);
  }

  method HandleClean(repo: TranscriptRepository, settings: CleaningSettings)
    modifies repo`rows
    ensures exists order ::
      && Ordering(Read(old(repo.rows), repo.speakers), order)
      && Read(repo.rows, repo.speakers) == RunAll(BuildPipeline(settings), order)
  {
    var lines := repo.GetLines();
    assert Ordering(Read(repo.rows, repo.speakers), lines);
    var cleaned := Clean(settings, lines);
    CleanReadsBack(repo.rows, repo.speakers, settings, lines);
    repo.DeleteAllLines();
    repo.AddLines(cleaned);
    assert repo.rows == Stored(cleaned);
  }

  /** What get_lines may return: the rows by start time, rows of one start in any order. */
  ghost predicate Ordering(rows: seq<TranscriptLine>, order: seq<TranscriptLine>) {
    StartOrdered(order) && multiset(order) == multiset(rows)
  }

  /** Cleaned lines are read under the names they were cleaned under. */
  lemma {:induction false} CleanReadsBack(rows: seq<TranscriptLine>, speakers: Speakers, settings: CleaningSettings, order: seq<TranscriptLine>)
    requires Ordering(Read(rows, speakers), order)
    ensures
      var r := RunAll(BuildPipeline(settings), order);
      Read(Stored(r), speakers) == r
  {
    var r := RunAll(BuildPipeline(settings), order);
    CleanKeepsIdentities(settings, order);
    forall i | 0 <= i < |order| ensures order[i].speakerName == NameOf(speakers, order[i].speakerId) {
      assert order[i] in multiset(order);
      assert order[i] in Read(rows, speakers);
    }
    forall i | 0 <= i < |r| ensures r[i].speakerName == NameOf(speakers, r[i].speakerId) {
      assert TakenFrom(r[i], order);
    }
  }

  // ---------------------------------------------------------------------------
  // Whole runs, with the writes each line's words came from

  type WriteId = nat

  /** A line as it is read, the transcriptions or imports its words come from, and whether
      its text was ever edited by hand. */
  datatype Entry = Entry(line: TranscriptLine, from: set<WriteId>, edited: bool)

  /** A transcription of a track, or, without one, an import. */
  datatype Write = Write(source: Option<SourceId>, lines: seq<TranscriptLine>)

  datatype Store = Store(entries: seq<Entry>, writes: seq<Write>)

  datatype Step =
    | Transcribe(source: SourceId, lines: seq<TranscriptLine>)
    | Import(append: bool, lines: seq<TranscriptLine>)
    | Edit(at: nat, text: Option<string>, speakerId: Option<SpeakerId>)
    | Delete(at: nat)
    | CleanAll(settings: CleaningSettings, order: seq<Entry>)

  function Lines(entries: seq<Entry>): (r: seq<TranscriptLine>)
    ensures |r| == |entries| && forall i | 0 <= i < |r| :: r[i] == entries[i].line
  {
    seq(|entries|, i requires 0 <= i < |entries| => entries[i].line)
  }

  function Written(lines: seq<TranscriptLine>, w: WriteId): (r: seq<Entry>)
    ensures |r| == |lines| && forall i | 0 <= i < |r| :: r[i] == Entry(lines[i], {w}, false)
  {
    seq(|lines|, i requires 0 <= i < |lines| => Entry(lines[i], {w}, false))
  }

  function OtherEntries(entries: seq<Entry>, source: SourceId): seq<Entry> {
    Pick(entries, Chosen(|entries|, OffTrack(Lines(entries), source)))
  }

  function JoinedEntry(a: Entry, b: Entry): Entry {
    Entry(Joined(a.line, b.line), a.from + b.from, a.edited || b.edited)
  }

  /** Merging, with each merged line taking on the writes of all it was merged from. */
  function MergeEntriesFrom(current: Entry, rest: seq<Entry>): seq<Entry>
    decreases |rest|
  {
    if rest == [] then [current]
    else if SameTurn(current.line, rest[0].line) then
      MergeEntriesFrom(JoinedEntry(current, rest[0]), rest[1..])
    else [current] + MergeEntriesFrom(rest[0], rest[1..])
  }

  function MergeEntries(entries: seq<Entry>): seq<Entry> {
    if entries == [] then [] else MergeEntriesFrom(entries[0], entries[1..])
  }

  /** Thinned lines take over the writes of the lines they were. */
  function Retag(lines: seq<TranscriptLine>, before: seq<Entry>, at: seq<nat>): (r: seq<Entry>)
    requires |at| == |lines| && forall i | 0 <= i < |at| :: at[i] < |before|
    ensures |r| == |lines| && forall i | 0 <= i < |r| :: r[i] == before[at[i]].(line := lines[i])
  {
    seq(|lines|, i requires 0 <= i < |lines| && |at| == |lines| && at[i] < |before| => before[at[i]].(line := lines[i]))
  }

  /** All lines are read with the names of their speakers. */
  predicate Named(lines: seq<TranscriptLine>, names: Speakers) {
    forall i | 0 <= i < |lines| :: lines[i].speakerName == NameOf(names, lines[i].speakerId)
  }

  predicate OfSource(lines: seq<TranscriptLine>, source: Option<SourceId>) {
    forall i | 0 <= i < |lines| :: lines[i].sourceId == source
  }

  function EditedLine(line: TranscriptLine, names: Speakers, text: Option<string>, speakerId: Option<SpeakerId>): TranscriptLine {
    var id := if speakerId.Some? then speakerId else line.speakerId;
    line.(text := if text.Some? then text.value else line.text, speakerId := id, speakerName := NameOf(names, id))
  }

  /** One transaction. `names` are the speakers by the end of the run: none is ever removed. */
  ghost predicate Next(names: Speakers, s: Store, a: Step, t: Store) {
    match a
    case Transcribe(source, lines) =>
      && OfSource(lines, Some(source)) && Named(lines, names)
      && t == Store(OtherEntries(s.entries, source) + Written(lines, |s.writes|), s.writes + [Write(Some(source), lines)])
    case Import(append, lines) =>
      && OfSource(lines, None) && Named(lines, names)
      && t == Store((if append then s.entries else []) + Written(lines, |s.writes|), s.writes + [Write(None, lines)])
    case Edit(at, text, speakerId) =>
      && at < |s.entries|
      && var e := s.entries[at];
         t == s.(entries := s.entries[at := Entry(EditedLine(e.line, names, text, speakerId), e.from, e.edited || text.Some?)])
    case Delete(at) =>
      at < |s.entries| && t == s.(entries := s.entries[..at] + s.entries[at + 1..])
    case CleanAll(settings, order) =>
      && multiset(order) == multiset(s.entries) && StartOrdered(Lines(order))
      && t.writes == s.writes
      && exists thinned, at :: CleanedTo(settings, order, thinned, at, t.entries)
  }

  ghost predicate CleanedTo(settings: CleaningSettings, order: seq<Entry>,
      thinned: seq<TranscriptLine>, at: seq<nat>, after: seq<Entry>)
  {
    && Thins(Lines(order), thinned, at)
    && (forall i | 0 <= i < |at| :: thinned[i].text == Rewrite(settings, Lines(order)[at[i]].text))
    && thinned == RunAll(ThinningRules(settings), Lines(order))
    && after == if settings.mergeSameSpeaker then MergeEntries(Retag(thinned, order, at)) else Retag(thinned, order, at)
  }

  /** Every transcript can be cleaned, read in any order its starts allow. */
  lemma {:induction false} EveryCleanIsAStep(names: Speakers, s: Store, settings: CleaningSettings, order: seq<Entry>) returns (t: Store)
    requires multiset(order) == multiset(s.entries) && StartOrdered(Lines(order))
    ensures Next(names, s, CleanAll(settings, order), t)
  {
    var at := ThinningKeeps(settings, Lines(order));
    var thinned := RunAll(ThinningRules(settings), Lines(order));
    var tagged := Retag(thinned, order, at);
    t := s.(entries := if settings.mergeSameSpeaker then MergeEntries(tagged) else tagged);
    assert CleanedTo(settings, order, thinned, at, t.entries);
  }

  lemma {:induction false} MergeEntriesIsMerge(current: Entry, rest: seq<Entry>)
    ensures Lines(MergeEntriesFrom(current, rest)) == MergeFrom(current.line, Lines(rest))
    decreases |rest|
  {
    if rest != [] {
      assert Lines(rest)[1..] == Lines(rest[1..]);
      if SameTurn(current.line, rest[0].line) {
        MergeEntriesIsMerge(JoinedEntry(current, rest[0]), rest[1..]);
      } else {
        MergeEntriesIsMerge(rest[0], rest[1..]);
      }
    }
  }

  lemma {:induction false} MergeEntriesLines(entries: seq<Entry>)
    ensures Lines(MergeEntries(entries)) == Merged(Lines(entries))
  {
    if entries != [] {
      MergeEntriesIsMerge(entries[0], entries[1..]);
      assert Lines(entries[1..]) == Lines(entries)[1..];
    }
  }

  /** The clean of the histories is the clean of the lines. */
  lemma {:induction false} CleanStepIsClean(names: Speakers, s: Store, settings: CleaningSettings, order: seq<Entry>, t: Store)
    requires Next(names, s, CleanAll(settings, order), t)
    ensures Lines(t.entries) == RunAll(BuildPipeline(settings), Lines(order))
  {
    var thinned: seq<TranscriptLine>, at: seq<nat> :| CleanedTo(settings, order, thinned, at, t.entries);
    assert Lines(Retag(thinned, order, at)) == thinned;
    MergeEntriesLines(Retag(thinned, order, at));
    MergeRunsLast(settings, Lines(order));
  }

  // ---------------------------------------------------------------------------
  // No line mixes tracks, and no transcription outlives the next one

  /** A write whose words a line of this source may hold: an import for an imported line, and
      for a line of a track the latest transcription of that track. */
  ghost predicate Current(writes: seq<Write>, w: WriteId, source: Option<SourceId>) {
    && w < |writes| && writes[w].source == source
    && (source.Some? ==> forall later | w < later < |writes| :: writes[later].source != source)
  }

  ghost predicate EntryGood(writes: seq<Write>, e: Entry) {
    e.from != {} && forall w <- e.from :: Current(writes, w, e.line.sourceId)
  }

  ghost predicate AllGood(writes: seq<Write>, entries: seq<Entry>) {
    forall i | 0 <= i < |entries| :: EntryGood(writes, entries[i])
  }

  ghost predicate Inv(s: Store) {
    AllGood(s.writes, s.entries)
  }

  lemma {:induction false} GoodAppend(writes: seq<Write>, a: seq<Entry>, b: seq<Entry>)
    requires AllGood(writes, a) && AllGood(writes, b)
    ensures AllGood(writes, a + b)
  {
  }

  lemma {:induction false} NewWriteKeepsGood(e: Entry, writes: seq<Write>, new_: Write)
    requires EntryGood(writes, e) && (new_.source.None? || e.line.sourceId != new_.source)
    ensures EntryGood(writes + [new_], e)
  {
    forall w <- e.from ensures Current(writes + [new_], w, e.line.sourceId) {
      assert Current(writes, w, e.line.sourceId);
    }
  }

  lemma {:induction false} OthersStayGood(entries: seq<Entry>, source: SourceId, writes: seq<Write>, lines: seq<TranscriptLine>)
    requires AllGood(writes, entries)
    ensures AllGood(writes + [Write(Some(source), lines)], OtherEntries(entries, source))
  {
    var new_ := Write(Some(source), lines);
    var at, r := Chosen(|entries|, OffTrack(Lines(entries), source)), OtherEntries(entries, source);
    forall i | 0 <= i < |r| ensures EntryGood(writes + [new_], r[i]) {
      assert at[i] in at;
      NewWriteKeepsGood(entries[at[i]], writes, new_);
    }
  }

  lemma {:induction false} MergeKeepsGood(current: Entry, rest: seq<Entry>, writes: seq<Write>)
    requires EntryGood(writes, current) && AllGood(writes, rest)
    ensures AllGood(writes, MergeEntriesFrom(current, rest))
    decreases |rest|
  {
    if rest != [] {
      assert EntryGood(writes, rest[0]);
      if SameTurn(current.line, rest[0].line) {
        MergeKeepsGood(JoinedEntry(current, rest[0]), rest[1..], writes);
      } else {
        MergeKeepsGood(rest[0], rest[1..], writes);
        GoodAppend(writes, [current], MergeEntriesFrom(rest[0], rest[1..]));
      }
    }
  }

  lemma {:induction false} ReorderKeepsGood(writes: seq<Write>, entries: seq<Entry>, order: seq<Entry>)
    requires AllGood(writes, entries) && multiset(order) == multiset(entries)
    ensures AllGood(writes, order)
  {
    forall i | 0 <= i < |order| ensures EntryGood(writes, order[i]) {
      assert order[i] in multiset(order);
      assert order[i] in entries;
    }
  }

  lemma {:induction false} RetagKeepsGood(writes: seq<Write>, order: seq<Entry>, thinned: seq<TranscriptLine>, at: seq<nat>)
    requires AllGood(writes, order) && Thins(Lines(order), thinned, at)
    ensures AllGood(writes, Retag(thinned, order, at))
  {
    var tagged := Retag(thinned, order, at);
    forall i | 0 <= i < |tagged| ensures EntryGood(writes, tagged[i]) {
      assert EntryGood(writes, order[at[i]]);
      assert tagged[i].line.sourceId == Lines(order)[at[i]].sourceId;
    }
  }

  lemma {:induction false} CleanKeepsGood(names: Speakers, s: Store, settings: CleaningSettings, order: seq<Entry>, t: Store)
    requires Inv(s) && Next(names, s, CleanAll(settings, order), t)
    ensures Inv(t)
  {
    var thinned: seq<TranscriptLine>, at: seq<nat> :| CleanedTo(settings, order, thinned, at, t.entries);
    var tagged := Retag(thinned, order, at);
    ReorderKeepsGood(s.writes, s.entries, order);
    RetagKeepsGood(s.writes, order, thinned, at);
    if settings.mergeSameSpeaker && tagged != [] {
      MergeKeepsGood(tagged[0], tagged[1..], s.writes);
    }
  }

  lemma {:induction false} StepKeepsInv(names: Speakers, s: Store, a: Step, t: Store)
    requires Inv(s) && Next(names, s, a, t)
    ensures Inv(t)
  {
    if a.Transcribe? {
      OthersStayGood(s.entries, a.source, s.writes, a.lines);
      GoodAppend(t.writes, OtherEntries(s.entries, a.source), Written(a.lines, |s.writes|));
    } else if a.Import? {
      forall i | 0 <= i < |s.entries| ensures EntryGood(t.writes, s.entries[i]) {
        NewWriteKeepsGood(s.entries[i], s.writes, Write(None, a.lines));
      }
      GoodAppend(t.writes, if a.append then s.entries else [], Written(a.lines, |s.writes|));
    } else if a.CleanAll? {
      CleanKeepsGood(names, s, a.settings, a.order, t);
    } else if a.Delete? {
      GoodAppend(t.writes, s.entries[..a.at], s.entries[a.at + 1..]);
    }
  }

  ghost predicate IsRun(names: Speakers, states: seq<Store>, steps: seq<Step>) {
    && |states| == |steps| + 1 && states[0] == Store([], [])
    && forall i | 0 <= i < |steps| :: Next(names, states[i], steps[i], states[i + 1])
  }

  /** Over any run of transcriptions, imports, edits, deletions and cleans, a line of a track
      goes back to that track's latest transcription alone, and an imported line to imports
      alone. */
  lemma {:induction false} NoLineMixesTracks(names: Speakers, states: seq<Store>, steps: seq<Step>, n: nat)
    requires IsRun(names, states, steps) && n < |states|
    ensures Inv(states[n])
    ensures forall i, j | 0 <= i < |states[n].entries| && 0 <= j < |states[n].entries| ::
      var a, b := states[n].entries[i], states[n].entries[j];
      a.line.sourceId.Some? && a.line.sourceId == b.line.sourceId ==> a.from == b.from && |a.from| == 1
  {
    if n > 0 {
      NoLineMixesTracks(names, states, steps, n - 1);
      StepKeepsInv(names, states[n - 1], steps[n - 1], states[n]);
    }
    var s := states[n];
    forall i, j | 0 <= i < |s.entries| && 0 <= j < |s.entries|
      && s.entries[i].line.sourceId.Some? && s.entries[i].line.sourceId == s.entries[j].line.sourceId
      ensures s.entries[i].from == s.entries[j].from && |s.entries[i].from| == 1
    {
      OneLatest(s, s.entries[i], s.entries[j]);
    }
  }

  lemma {:induction false} OneLatest(s: Store, a: Entry, b: Entry)
    requires EntryGood(s.writes, a) && EntryGood(s.writes, b)
    requires a.line.sourceId.Some? && a.line.sourceId == b.line.sourceId
    ensures a.from == b.from && |a.from| == 1
  {
    var w :| w in a.from;
    forall v <- a.from + b.from ensures v == w {
      assert Current(s.writes, v, a.line.sourceId) && Current(s.writes, w, a.line.sourceId);
    }
    var u :| u in b.from;
    assert u == w;
    assert a.from == {w} && b.from == {w};
  }

  // ---------------------------------------------------------------------------
  // The words of a line come from those writes

  ghost predicate HasWord(write: Write, word: string) {
    exists i | 0 <= i < |write.lines| :: word in Words(write.lines[i].text)
  }

  /** Unless it was edited, each of the line's words is a word of a write it goes back to. */
  ghost predicate WordsGood(writes: seq<Write>, e: Entry) {
    e.edited || forall word <- Words(e.line.text) :: Said(writes, e.from, word)
  }

  ghost predicate Said(writes: seq<Write>, from: set<WriteId>, word: string) {
    exists w :: w in from && w < |writes| && HasWord(writes[w], word)
  }

  ghost predicate AllWordsGood(writes: seq<Write>, entries: seq<Entry>) {
    forall i | 0 <= i < |entries| :: WordsGood(writes, entries[i])
  }

  /** The strip patterns take away whole words only. */
  ghost predicate KeepsWords(s: CleaningSettings) {
    forall text, word | word in Words(Rewrite(s, text)) :: word in Words(text)
  }

  ghost predicate StepKeepsWords(a: Step) {
    a.CleanAll? ==> KeepsWords(a.settings)
  }

  lemma {:induction false} MoreWritesSayMore(writes: seq<Write>, new_: Write, e: Entry)
    requires WordsGood(writes, e)
    ensures WordsGood(writes + [new_], e)
  {
    forall word <- Words(e.line.text) | !e.edited ensures Said(writes + [new_], e.from, word) {
      var w :| w in e.from && w < |writes| && HasWord(writes[w], word);
      assert HasWord((writes + [new_])[w], word);
    }
  }

  lemma {:induction false} NewLinesAreSaid(writes: seq<Write>, new_: Write)
    ensures AllWordsGood(writes + [new_], Written(new_.lines, |writes|))
  {
    var entries := Written(new_.lines, |writes|);
    forall i | 0 <= i < |entries| ensures WordsGood(writes + [new_], entries[i]) {
      forall word <- Words(entries[i].line.text) ensures Said(writes + [new_], {|writes|}, word) {
        assert HasWord((writes + [new_])[|writes|], word);
      }
    }
  }

  lemma {:induction false} JoinedSaysBoth(writes: seq<Write>, a: Entry, b: Entry)
    requires WordsGood(writes, a) && WordsGood(writes, b)
    ensures WordsGood(writes, JoinedEntry(a, b))
  {
    StripKeepsWords(a.line.text + " " + b.line.text);
    WordsAroundSpace("", a.line.text, ' ', b.line.text);
    forall word <- Words(a.line.text) + Words(b.line.text) | !a.edited && !b.edited
      ensures Said(writes, a.from + b.from, word)
    {
      if word in Words(a.line.text) {
        assert Said(writes, a.from, word);
      } else {
        assert Said(writes, b.from, word);
      }
    }
  }

  lemma {:induction false} MergeKeepsWords(current: Entry, rest: seq<Entry>, writes: seq<Write>)
    requires WordsGood(writes, current) && AllWordsGood(writes, rest)
    ensures AllWordsGood(writes, MergeEntriesFrom(current, rest))
    decreases |rest|
  {
    if rest != [] {
      assert WordsGood(writes, rest[0]);
      if SameTurn(current.line, rest[0].line) {
        JoinedSaysBoth(writes, current, rest[0]);
        MergeKeepsWords(JoinedEntry(current, rest[0]), rest[1..], writes);
      } else {
        MergeKeepsWords(rest[0], rest[1..], writes);
      }
    }
  }

  lemma {:induction false} CleanKeepsWords(names: Speakers, s: Store, settings: CleaningSettings, order: seq<Entry>, t: Store)
    requires AllWordsGood(s.writes, s.entries) && Next(names, s, CleanAll(settings, order), t) && KeepsWords(settings)
    ensures AllWordsGood(t.writes, t.entries)
  {
    var thinned: seq<TranscriptLine>, at: seq<nat> :| CleanedTo(settings, order, thinned, at, t.entries);
    var tagged := Retag(thinned, order, at);
    forall i | 0 <= i < |tagged| ensures WordsGood(s.writes, tagged[i]) {
      var e: Entry := order[at[i]];
      assert e in multiset(order);
      assert e in s.entries;
      assert WordsGood(s.writes, e);
      assert tagged[i] == e.(line := thinned[i]) && thinned[i].text == Rewrite(settings, e.line.text);
    }
    if settings.mergeSameSpeaker && tagged != [] {
      MergeKeepsWords(tagged[0], tagged[1..], s.writes);
    }
  }

  lemma {:induction false} StepKeepsWordsGood(names: Speakers, s: Store, a: Step, t: Store)
    requires AllWordsGood(s.writes, s.entries) && Next(names, s, a, t) && StepKeepsWords(a)
    ensures AllWordsGood(t.writes, t.entries)
  {
    if a.Transcribe? || a.Import? {
      var new_ := Write(if a.Transcribe? then Some(a.source) else None, a.lines);
      NewLinesAreSaid(s.writes, new_);
      forall i | 0 <= i < |s.entries| ensures WordsGood(t.writes, s.entries[i]) {
        MoreWritesSayMore(s.writes, new_, s.entries[i]);
      }
    } else if a.CleanAll? {
      CleanKeepsWords(names, s, a.settings, a.order, t);
    }
  }

  /** Over any run whose cleans strip whole words only, a line that nobody edited has no word
      that is not in the latest transcription of its track, or, imported, in some import. */
  lemma {:induction false} UneditedLinesSayWhatWasWritten(names: Speakers, states: seq<Store>, steps: seq<Step>, n: nat, i: nat, word: string)
    requires IsRun(names, states, steps) && n < |states| && forall k | 0 <= k < |steps| :: StepKeepsWords(steps[k])
    requires i < |states[n].entries| && !states[n].entries[i].edited && word in Words(states[n].entries[i].line.text)
    ensures exists w: WriteId | w < |states[n].writes| ::
      HasWord(states[n].writes[w], word) && Current(states[n].writes, w, states[n].entries[i].line.sourceId)
  {
    NoLineMixesTracks(names, states, steps, n);
    RunKeepsWords(names, states, steps, n);
    var s, e := states[n], states[n].entries[i];
    assert WordsGood(s.writes, e) && EntryGood(s.writes, e);
    assert Said(s.writes, e.from, word);
    var w :| w in e.from && w < |s.writes| && HasWord(s.writes[w], word);
    assert Current(s.writes, w, e.line.sourceId);
  }

  lemma {:induction false} RunKeepsWords(names: Speakers, states: seq<Store>, steps: seq<Step>, n: nat)
    requires IsRun(names, states, steps) && n < |states| && forall k | 0 <= k < |steps| :: StepKeepsWords(steps[k])
    ensures AllWordsGood(states[n].writes, states[n].entries)
  {
    if n > 0 {
      RunKeepsWords(names, states, steps, n - 1);
      StepKeepsWordsGood(names, states[n - 1], steps[n - 1], states[n]);
    }
  }

  /** Settings without strip patterns take no word away and add none. */
  lemma {:induction false} WithoutPatternsWordsStay(s: CleaningSettings)
    requires s.patterns == []
    ensures KeepsWords(s)
  {
    forall text, word | word in Words(Rewrite(s, text)) ensures word in Words(text) {
      CollapseKeepsWords(text);
    }
  }

  /** Transcribing a track again keeps every line of the others, in order, and none of its own. */
  lemma {:induction false} OthersKeepsTheRest(rows: seq<TranscriptLine>, source: SourceId) returns (at: seq<nat>)
    ensures
      var r := Others(rows, source);
      && |at| == |r|
      && (forall i | 0 <= i < |at| :: at[i] < |rows| && r[i] == rows[at[i]])
      && (forall i, j | 0 <= i < j < |at| :: at[i] < at[j])
      && (forall i: nat :: i in at <==> i < |rows| && rows[i].sourceId != Some(source))
  {
    at := Chosen(|rows|, OffTrack(rows, source));
  }
}
