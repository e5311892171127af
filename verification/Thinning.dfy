/** Which lines of a transcript a clean keeps, said of the transcript itself. */
module Thinning {
  import opened Texts
  import opened Transcripts
  import opened Cleaning
  import opened Merging
  import opened Pipeline

  // ---------------------------------------------------------------------------
  // What is kept

  /** The text is not blank, not an invented phrase, and long enough. */
  predicate TextWanted(s: CleaningSettings, text: string) {
    && Strip(text) != ""
    && (s.dropHallucinations ==> !s.isHallucination(text))
    && (s.minCharacters <= 0 || |Strip(text)| >= s.minCharacters)
  }

  predicate SameSegment(s: CleaningSettings, a: TranscriptLine, b: TranscriptLine) {
    && a.speakerName == b.speakerName && s.norm(a.text) == s.norm(b.text)
    && s.round(a.startTime) == s.round(b.startTime) && s.round(a.endTime) == s.round(b.endTime)
  }

  /** Of the lines whose text is wanted, the first with its speaker, words and rounded times. */
  predicate FirstWanted(s: CleaningSettings, lines: seq<TranscriptLine>, i: nat) {
    && i < |lines| && TextWanted(s, lines[i].text)
    && (s.dropDuplicateSegments ==>
          forall j | 0 <= j < i :: !(TextWanted(s, lines[j].text) && SameSegment(s, lines[j], lines[i])))
  }

  predicate SaysAgain(s: CleaningSettings, earlier: TranscriptLine, line: TranscriptLine) {
    && earlier.speakerName == line.speakerName && s.norm(earlier.text) == s.norm(line.text)
    && line.startTime - earlier.startTime <= s.window
  }

  /** And it does not repeat, within the window, an earlier line that is kept. */
  predicate Kept(s: CleaningSettings, lines: seq<TranscriptLine>, i: nat)
    decreases i
  {
    && FirstWanted(s, lines, i)
    && (s.dropRepeats && s.window > 0.0 ==>
          !exists k: nat :: k < i && Kept(s, lines, k) && SaysAgain(s, lines[k], lines[i]))
  }

  // ---------------------------------------------------------------------------
  // Choosing among chosen lines

  function Both(a: Choice, b: Choice): Choice {
    (i: nat) => a(i) && b(i)
  }

  /** Choosing among the lines chosen is choosing by both. `here` and `there` say the same of a
      line by its place among the chosen ones and in the whole. */
  lemma {:induction false} ChooseAgain<T>(lines: seq<T>, n: nat, first: Choice, here: Choice, there: Choice)
    requires n <= |lines|
    requires forall k: nat | k < |Chosen(n, first)| :: here(k) <==> there(Chosen(n, first)[k])
    ensures
      var at := Chosen(n, first);
      Pick(Pick(lines, at), Chosen(|at|, here)) == Pick(lines, Chosen(n, Both(first, there)))
  {
    if n > 0 {
      ChooseAgain(lines, n - 1, first, here, there);
      if first(n - 1) {
        ChooseOneMore(lines, n, first, here, there);
      } else {
        assert Chosen(n, first) == Chosen(n - 1, first);
      }
    }
  }

  lemma {:induction false} ChooseOneMore<T>(lines: seq<T>, n: nat, first: Choice, here: Choice, there: Choice)
    requires 0 < n <= |lines| && first(n - 1) && (here(|Chosen(n - 1, first)|) <==> there(n - 1))
    requires Pick(Pick(lines, Chosen(n - 1, first)), Chosen(|Chosen(n - 1, first)|, here)) == Pick(lines, Chosen(n - 1, Both(first, there)))
    ensures Pick(Pick(lines, Chosen(n, first)), Chosen(|Chosen(n, first)|, here)) == Pick(lines, Chosen(n, Both(first, there)))
  {
    var before := Chosen(n - 1, first);
    PickOneMore(lines, before, n - 1);
    ChooseLast(Pick(lines, before), Pick(lines, before + [n - 1]), here);
    if there(n - 1) {
      PickOneMore(lines, Chosen(n - 1, Both(first, there)), n - 1);
    }
  }

  /** One line more: it is chosen or not, and the others as before. */
  lemma {:induction false} ChooseLast<T>(lines: seq<T>, more: seq<T>, here: Choice)
    requires |more| == |lines| + 1 && lines <= more
    ensures Pick(more, Chosen(|more|, here)) ==
      Pick(lines, Chosen(|lines|, here)) + if here(|lines|) then [more[|lines|]] else []
  {
    var inner := Chosen(|lines|, here);
    PickIgnoresRest(lines, more, inner);
    if here(|lines|) {
      PickOneMore(more, inner, |lines|);
    }
  }

  lemma {:induction false} PickOneMore<T>(lines: seq<T>, at: seq<nat>, i: nat)
    requires i < |lines| && forall k | 0 <= k < |at| :: at[k] < |lines|
    ensures Pick(lines, at + [i]) == Pick(lines, at) + [lines[i]]
  {
  }

  lemma {:induction false} PickIgnoresRest<T>(lines: seq<T>, more: seq<T>, at: seq<nat>)
    requires lines <= more && forall i | 0 <= i < |at| :: at[i] < |lines|
    ensures Pick(more, at) == Pick(lines, at)
  {
  }

  /** `part` is the lines of the choice. */
  ghost predicate ChosenPart(lines: seq<TranscriptLine>, part: seq<TranscriptLine>, choice: Choice) {
    part == Pick(lines, Chosen(|lines|, choice))
  }

  /** Each line chosen is found among them, at a place after those of the earlier ones. */
  lemma {:induction false} PlaceOf(n: nat, choice: Choice, i: nat) returns (k: nat)
    requires i < n && choice(i)
    ensures k < |Chosen(n, choice)| && Chosen(n, choice)[k] == i
  {
    assert i in Chosen(n, choice);
    k :| 0 <= k < |Chosen(n, choice)| && Chosen(n, choice)[k] == i;
  }

  // ---------------------------------------------------------------------------
  // Rules that look at one line's text

  lemma {:induction false} TextRuleKeeps(lines: seq<TranscriptLine>, part: seq<TranscriptLine>, choice: Choice, want: string -> bool, next: Choice)
    requires ChosenPart(lines, part, choice)
    requires forall i: nat | i < |lines| :: next(i) <==> choice(i) && want(lines[i].text)
    ensures ChosenPart(lines, Keep(part, Wanted(part, want)), next)
  {
    var there := Wanted(lines, want);
    ChooseAgain(lines, |lines|, choice, Wanted(part, want), there);
    SameChoice(|lines|, Both(choice, there), next);
  }

  /** What each of the three rules asks of a line's text. */
  predicate Lets(rule: Rule, text: string) {
    match rule
    case DropEmpty => Strip(text) != ""
    case DropHallucinations(isHallucination) => !isHallucination(text)
    case DropShortLines(min) => min <= 0 || |Strip(text)| >= min
    case _ => true
  }

  ghost predicate AreExactly(at: seq<nat>, n: nat, choice: Choice) {
    && (forall i, j | 0 <= i < j < |at| :: at[i] < at[j])
    && forall i: nat :: i in at <==> i < n && choice(i)
  }

  function Letting(rule: Rule, lines: seq<TranscriptLine>): Choice {
    (i: nat) => i < |lines| && Lets(rule, lines[i].text)
  }

  /** The lines that each of them keeps are exactly those whose own text passes. */
  lemma {:induction false} TextRulesKeepExactly(rule: Rule, lines: seq<TranscriptLine>) returns (at: seq<nat>)
    requires rule.DropEmpty? || rule.DropHallucinations? || rule.DropShortLines?
    ensures AreExactly(at, |lines|, Letting(rule, lines))
    ensures (forall i | 0 <= i < |at| :: at[i] < |lines|) && Effect(rule, lines) == Pick(lines, at)
  {
    at := Chosen(|lines|, Letting(rule, lines));
    if rule.DropEmpty? {
      WantedIsLetting(rule, lines, NotBlank);
    } else if rule.DropHallucinations? {
      WantedIsLetting(rule, lines, Not(rule.isHallucination));
    } else if rule.minCharacters > 0 {
      WantedIsLetting(rule, lines, AtLeast(rule.minCharacters));
    } else {
      ChosenAll(|lines|, Letting(rule, lines));
    }
  }

  lemma {:induction false} WantedIsLetting(rule: Rule, lines: seq<TranscriptLine>, want: string -> bool)
    requires forall text: string :: want(text) <==> Lets(rule, text)
    ensures Chosen(|lines|, Wanted(lines, want)) == Chosen(|lines|, Letting(rule, lines))
  {
    SameChoice(|lines|, Wanted(lines, want), Letting(rule, lines));
  }

  // ---------------------------------------------------------------------------
  // Rules that look at the lines before

  function FirstWantedChoice(s: CleaningSettings, lines: seq<TranscriptLine>): Choice {
    (i: nat) => FirstWanted(s, lines, i)
  }

  function WantedChoice(s: CleaningSettings, lines: seq<TranscriptLine>): Choice {
    (i: nat) => i < |lines| && TextWanted(s, lines[i].text)
  }

  function KeptChoice(s: CleaningSettings, lines: seq<TranscriptLine>): Choice {
    (i: nat) => Kept(s, lines, i)
  }

  lemma {:induction false} FirstOfItsKeyMeans(s: CleaningSettings, lines: seq<TranscriptLine>, part: seq<TranscriptLine>, k: nat)
    requires s.dropDuplicateSegments && ChosenPart(lines, part, WantedChoice(s, lines)) && k < |part|
    ensures FirstOfItsKey(part, k, s.norm, s.round) <==> FirstWanted(s, lines, Chosen(|lines|, WantedChoice(s, lines))[k])
  {
    var at := Chosen(|lines|, WantedChoice(s, lines));
    assert at[k] in at;
    if FirstOfItsKey(part, k, s.norm, s.round) {
      FirstInPartIsFirst(s, lines, part, k);
    }
    if FirstWanted(s, lines, at[k]) {
      forall m: nat | m < k ensures SegmentOf(part[m], s.norm, s.round) != SegmentOf(part[k], s.norm, s.round) {
        assert at[m] in at && at[m] < at[k];
        assert !SameSegment(s, lines[at[m]], lines[at[k]]);
      }
    }
  }

  lemma {:induction false} FirstInPartIsFirst(s: CleaningSettings, lines: seq<TranscriptLine>, part: seq<TranscriptLine>, k: nat)
    requires ChosenPart(lines, part, WantedChoice(s, lines)) && k < |part| && FirstOfItsKey(part, k, s.norm, s.round)
    ensures FirstWanted(s, lines, Chosen(|lines|, WantedChoice(s, lines))[k])
  {
    var at := Chosen(|lines|, WantedChoice(s, lines));
    var i := at[k];
    assert i in at;
    forall j | 0 <= j < i && TextWanted(s, lines[j].text) ensures !SameSegment(s, lines[j], lines[i]) {
      var m := PlaceOf(|lines|, WantedChoice(s, lines), j);
      assert m < k;
      assert SegmentOf(part[m], s.norm, s.round) != SegmentOf(part[k], s.norm, s.round);
    }
  }

  lemma {:induction false} DuplicatesKeep(s: CleaningSettings, lines: seq<TranscriptLine>, part: seq<TranscriptLine>)
    requires ChosenPart(lines, part, WantedChoice(s, lines))
    ensures ChosenPart(lines, Deduplicated(s, part), FirstWantedChoice(s, lines))
  {
    if s.dropDuplicateSegments {
      var choice, there := WantedChoice(s, lines), FirstWantedChoice(s, lines);
      forall k: nat | k < |part| ensures Firsts(part, s.norm, s.round)(k) <==> there(Chosen(|lines|, choice)[k]) {
        FirstOfItsKeyMeans(s, lines, part, k);
      }
      ChooseAgain(lines, |lines|, choice, Firsts(part, s.norm, s.round), there);
      SameChoice(|lines|, Both(choice, there), there);
    } else {
      SameChoice(|lines|, WantedChoice(s, lines), FirstWantedChoice(s, lines));
    }
  }

  lemma {:induction false} SurvivesMeans(s: CleaningSettings, lines: seq<TranscriptLine>, part: seq<TranscriptLine>, k: nat)
    requires s.dropRepeats && s.window > 0.0 && ChosenPart(lines, part, FirstWantedChoice(s, lines)) && k < |part|
    ensures Survives(part, k, s.window, s.norm) <==> Kept(s, lines, Chosen(|lines|, FirstWantedChoice(s, lines))[k])
    decreases k
  {
    forall m: nat | m < k
      ensures Survives(part, m, s.window, s.norm) <==> Kept(s, lines, Chosen(|lines|, FirstWantedChoice(s, lines))[m])
    {
      SurvivesMeans(s, lines, part, m);
    }
    if Survives(part, k, s.window, s.norm) {
      SurvivorIsKept(s, lines, part, k);
    } else {
      EchoIsNotKept(s, lines, part, k);
    }
  }

  ghost predicate EarlierAgree(s: CleaningSettings, lines: seq<TranscriptLine>, part: seq<TranscriptLine>, k: nat) {
    var at := Chosen(|lines|, FirstWantedChoice(s, lines));
    && k < |part| == |at|
    && forall m: nat | m < k :: Survives(part, m, s.window, s.norm) <==> Kept(s, lines, at[m])
  }

  lemma {:induction false} SurvivorIsKept(s: CleaningSettings, lines: seq<TranscriptLine>, part: seq<TranscriptLine>, k: nat)
    requires s.dropRepeats && s.window > 0.0 && ChosenPart(lines, part, FirstWantedChoice(s, lines))
    requires EarlierAgree(s, lines, part, k) && Survives(part, k, s.window, s.norm)
    ensures Kept(s, lines, Chosen(|lines|, FirstWantedChoice(s, lines))[k])
  {
    var at := Chosen(|lines|, FirstWantedChoice(s, lines));
    assert at[k] in at;
    forall j: nat | j < at[k] && Kept(s, lines, j) ensures !SaysAgain(s, lines[j], lines[at[k]]) {
      EarlierKeptDiffers(s, lines, part, k, j);
    }
  }

  lemma {:induction false} EarlierKeptDiffers(s: CleaningSettings, lines: seq<TranscriptLine>, part: seq<TranscriptLine>, k: nat, j: nat)
    requires ChosenPart(lines, part, FirstWantedChoice(s, lines)) && EarlierAgree(s, lines, part, k)
    requires Survives(part, k, s.window, s.norm) && Kept(s, lines, j)
    requires j < Chosen(|lines|, FirstWantedChoice(s, lines))[k]
    ensures !SaysAgain(s, lines[j], part[k])
  {
    var m := PlaceOf(|lines|, FirstWantedChoice(s, lines), j);
    assert m < k && Survives(part, m, s.window, s.norm);
    assert !Echoes(part, k, m, s.window, s.norm);
  }

  lemma {:induction false} EchoIsNotKept(s: CleaningSettings, lines: seq<TranscriptLine>, part: seq<TranscriptLine>, k: nat)
    requires s.dropRepeats && s.window > 0.0 && ChosenPart(lines, part, FirstWantedChoice(s, lines))
    requires EarlierAgree(s, lines, part, k) && !Survives(part, k, s.window, s.norm)
    ensures !Kept(s, lines, Chosen(|lines|, FirstWantedChoice(s, lines))[k])
  {
    var at := Chosen(|lines|, FirstWantedChoice(s, lines));
    var m: nat :| m < k && Survives(part, m, s.window, s.norm) && Echoes(part, k, m, s.window, s.norm);
    assert Kept(s, lines, at[m]) && SaysAgain(s, lines[at[m]], lines[at[k]]);
  }

  lemma {:induction false} RepeatsKeep(s: CleaningSettings, lines: seq<TranscriptLine>, part: seq<TranscriptLine>)
    requires ChosenPart(lines, part, FirstWantedChoice(s, lines))
    ensures ChosenPart(lines, Unrepeated(s, part), KeptChoice(s, lines))
  {
    if s.dropRepeats && s.window > 0.0 {
      var choice, there := FirstWantedChoice(s, lines), KeptChoice(s, lines);
      forall k: nat | k < |part| ensures Survivors(part, s.window, s.norm)(k) <==> there(Chosen(|lines|, choice)[k]) {
        SurvivesMeans(s, lines, part, k);
      }
      ChooseAgain(lines, |lines|, choice, Survivors(part, s.window, s.norm), there);
      SameChoice(|lines|, Both(choice, there), there);
    } else {
      SameChoice(|lines|, FirstWantedChoice(s, lines), KeptChoice(s, lines));
    }
  }

  // ---------------------------------------------------------------------------
  // The thinning as a whole

  function WithoutBlank(lines: seq<TranscriptLine>): seq<TranscriptLine> {
    Keep(lines, Wanted(lines, NotBlank))
  }

  function WithoutPhrases(s: CleaningSettings, lines: seq<TranscriptLine>): seq<TranscriptLine> {
    if s.dropHallucinations then Keep(lines, Wanted(lines, Not(s.isHallucination))) else lines
  }

  function WithoutShort(s: CleaningSettings, lines: seq<TranscriptLine>): seq<TranscriptLine> {
    if s.minCharacters <= 0 then lines else Keep(lines, Wanted(lines, AtLeast(s.minCharacters)))
  }

  function Deduplicated(s: CleaningSettings, lines: seq<TranscriptLine>): seq<TranscriptLine> {
    if s.dropDuplicateSegments then WithoutDuplicates(lines, s.norm, s.round) else lines
  }

  function Unrepeated(s: CleaningSettings, lines: seq<TranscriptLine>): seq<TranscriptLine> {
    if s.dropRepeats then WithoutRepeats(lines, s.window, s.norm) else lines
  }

  function NotBlankChoice(lines: seq<TranscriptLine>): Choice {
    (i: nat) => i < |lines| && Strip(lines[i].text) != ""
  }

  function NoPhraseChoice(s: CleaningSettings, lines: seq<TranscriptLine>): Choice {
    (i: nat) => i < |lines| && Strip(lines[i].text) != "" && (s.dropHallucinations ==> !s.isHallucination(lines[i].text))
  }

  lemma {:induction false} BlankGo(lines: seq<TranscriptLine>)
    ensures ChosenPart(lines, WithoutBlank(lines), NotBlankChoice(lines))
  {
    SameChoice(|lines|, Wanted(lines, NotBlank), NotBlankChoice(lines));
  }

  lemma {:induction false} PhrasesGo(s: CleaningSettings, lines: seq<TranscriptLine>, part: seq<TranscriptLine>)
    requires ChosenPart(lines, part, NotBlankChoice(lines))
    ensures ChosenPart(lines, WithoutPhrases(s, part), NoPhraseChoice(s, lines))
  {
    if s.dropHallucinations {
      TextRuleKeeps(lines, part, NotBlankChoice(lines), Not(s.isHallucination), NoPhraseChoice(s, lines));
    } else {
      SameChoice(|lines|, NotBlankChoice(lines), NoPhraseChoice(s, lines));
    }
  }

  lemma {:induction false} ShortGo(s: CleaningSettings, lines: seq<TranscriptLine>, part: seq<TranscriptLine>)
    requires ChosenPart(lines, part, NoPhraseChoice(s, lines))
    ensures ChosenPart(lines, WithoutShort(s, part), WantedChoice(s, lines))
  {
    if s.minCharacters <= 0 {
      SameChoice(|lines|, NoPhraseChoice(s, lines), WantedChoice(s, lines));
    } else {
      TextRuleKeeps(lines, part, NoPhraseChoice(s, lines), AtLeast(s.minCharacters), WantedChoice(s, lines));
    }
  }

  lemma {:induction false} RunIf(enabled: bool, rule: Rule, rest: seq<Rule>, lines: seq<TranscriptLine>)
    ensures RunAll((if enabled then [rule] else []) + rest, lines) == RunAll(rest, if enabled then Effect(rule, lines) else lines)
  {
    if enabled {
      RunFirst(rule, rest, lines);
    } else {
      assert [] + rest == rest;
    }
  }

  function RepeatRules(s: CleaningSettings): seq<Rule> {
    if s.dropRepeats then [DropRepeated(s.window, s.norm)] else []
  }

  function FromDuplicates(s: CleaningSettings): seq<Rule> {
    (if s.dropDuplicateSegments then [DropDuplicates(s.norm, s.round)] else []) + RepeatRules(s)
  }

  function FromShort(s: CleaningSettings): seq<Rule> {
    [DropShortLines(s.minCharacters)] + FromDuplicates(s)
  }

  function FromPhrases(s: CleaningSettings): seq<Rule> {
    (if s.dropHallucinations then [DropHallucinations(s.isHallucination)] else []) + FromShort(s)
  }

  lemma {:induction false} DropsAreNested(s: CleaningSettings)
    ensures DroppingRules(s) == [DropEmpty] + FromPhrases(s)
  {
  }

  lemma {:induction false} DuplicatesEffect(s: CleaningSettings, lines: seq<TranscriptLine>)
    ensures Deduplicated(s, lines) == if s.dropDuplicateSegments then Effect(DropDuplicates(s.norm, s.round), lines) else lines
  {
  }

  lemma {:induction false} RepeatsEffect(s: CleaningSettings, lines: seq<TranscriptLine>)
    ensures Unrepeated(s, lines) == if s.dropRepeats then Effect(DropRepeated(s.window, s.norm), lines) else lines
  {
  }

  lemma {:induction false} ShortEffect(s: CleaningSettings, lines: seq<TranscriptLine>)
    ensures WithoutShort(s, lines) == Effect(DropShortLines(s.minCharacters), lines)
  {
  }

  lemma {:induction false} PhrasesEffect(s: CleaningSettings, lines: seq<TranscriptLine>)
    ensures WithoutPhrases(s, lines) == if s.dropHallucinations then Effect(DropHallucinations(s.isHallucination), lines) else lines
  {
  }

  lemma {:induction false} RunNothing(lines: seq<TranscriptLine>)
    ensures RunAll([], lines) == lines
  {
  }

  lemma {:induction false} RunFromDuplicates(s: CleaningSettings, lines: seq<TranscriptLine>)
    ensures RunAll(FromDuplicates(s), lines) == Unrepeated(s, Deduplicated(s, lines))
  {
    var firsts := Deduplicated(s, lines);
    RunIf(s.dropDuplicateSegments, DropDuplicates(s.norm, s.round), RepeatRules(s), lines);
    DuplicatesEffect(s, lines);
    RunIf(s.dropRepeats, DropRepeated(s.window, s.norm), [], firsts);
    assert RepeatRules(s) + [] == RepeatRules(s);
    RepeatsEffect(s, firsts);
    RunNothing(Unrepeated(s, firsts));
  }

  lemma {:induction false} RunFromShort(s: CleaningSettings, lines: seq<TranscriptLine>)
    ensures RunAll(FromShort(s), lines) == Unrepeated(s, Deduplicated(s, WithoutShort(s, lines)))
  {
    RunFirst(DropShortLines(s.minCharacters), FromDuplicates(s), lines);
    ShortEffect(s, lines);
    RunFromDuplicates(s, WithoutShort(s, lines));
  }

  lemma {:induction false} RunFromPhrases(s: CleaningSettings, lines: seq<TranscriptLine>)
    ensures RunAll(FromPhrases(s), lines) == Unrepeated(s, Deduplicated(s, WithoutShort(s, WithoutPhrases(s, lines))))
  {
    RunIf(s.dropHallucinations, DropHallucinations(s.isHallucination), FromShort(s), lines);
    PhrasesEffect(s, lines);
    RunFromShort(s, WithoutPhrases(s, lines));
  }

  lemma {:induction false} DroppingKeeps(s: CleaningSettings, lines: seq<TranscriptLine>)
    ensures ChosenPart(lines, RunAll(DroppingRules(s), lines), KeptChoice(s, lines))
  {
    DropsAreNested(s);
    RunFirst(DropEmpty, FromPhrases(s), lines);
    RunFromPhrases(s, WithoutBlank(lines));
    var phrases := WithoutPhrases(s, WithoutBlank(lines));
    var wanted := WithoutShort(s, phrases);
    BlankGo(lines);
    PhrasesGo(s, lines, WithoutBlank(lines));
    ShortGo(s, lines, phrases);
    DuplicatesKeep(s, lines, wanted);
    RepeatsKeep(s, lines, Deduplicated(s, wanted));
  }

  /** The rules before merging keep exactly the lines that, with their texts rewritten, are to be
      kept: every other line goes, and these keep all but their text. */
  lemma {:induction false} ThinningKeepsExactly(s: CleaningSettings, lines: seq<TranscriptLine>) returns (at: seq<nat>)
    ensures Thins(lines, RunAll(ThinningRules(s), lines), at)
    ensures forall k | 0 <= k < |at| :: RunAll(ThinningRules(s), lines)[k].text == Rewrite(s, lines[at[k]].text)
    ensures forall i: nat :: i in at <==> i < |lines| && Kept(s, Rewritten(lines, Rewriting(s)), i)
  {
    ThinningRewritesThenDrops(s, lines);
    DroppingKeeps(s, Rewritten(lines, Rewriting(s)));
    at := Chosen(|lines|, KeptChoice(s, Rewritten(lines, Rewriting(s))));
    ChosenThins(s, lines, RunAll(ThinningRules(s), lines), KeptChoice(s, Rewritten(lines, Rewriting(s))));
  }

  lemma {:induction false} ChosenThins(s: CleaningSettings, lines: seq<TranscriptLine>, part: seq<TranscriptLine>, choice: Choice)
    requires ChosenPart(Rewritten(lines, Rewriting(s)), part, choice)
    ensures Thins(lines, part, Chosen(|lines|, choice))
    ensures forall k | 0 <= k < |part| :: part[k].text == Rewrite(s, lines[Chosen(|lines|, choice)[k]].text)
  {
  }

  /** So a clean of one blank line among others drops that line, and a clean as a whole is the
      merge of exactly the lines to be kept. */
  lemma {:induction false} CleanKeepsExactly(s: CleaningSettings, lines: seq<TranscriptLine>) returns (thinned: seq<TranscriptLine>, at: seq<nat>)
    ensures Thins(lines, thinned, at)
    ensures forall k | 0 <= k < |at| :: thinned[k] == lines[at[k]].(text := Rewrite(s, lines[at[k]].text))
    ensures forall i: nat :: i in at <==> i < |lines| && Kept(s, Rewritten(lines, Rewriting(s)), i)
    ensures RunAll(BuildPipeline(s), lines) == if s.mergeSameSpeaker then Merged(thinned) else thinned
  {
    at := ThinningKeepsExactly(s, lines);
    thinned := RunAll(ThinningRules(s), lines);
    MergeRunsLast(s, lines);
  }
}
