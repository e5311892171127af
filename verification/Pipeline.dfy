/** The enabled rules, in the order they must run, and what a whole clean does. */
module Pipeline {
  import opened Options
  import opened Texts
  import opened Transcripts
  import opened Cleaning
  import opened Merging

  /** A strip pattern is given by what substituting the empty string for its matches makes of
      a text. */
  datatype Rule =
    | CollapseWhitespace
    | StripPatterns(patterns: seq<string -> string>)
    | DropEmpty
    | DropHallucinations(isHallucination: string -> bool)
    | DropShortLines(minCharacters: int)
    | DropDuplicates(norm: string -> string, round: real -> int)
    | DropRepeated(window: real, norm: string -> string)
    | MergeSpeaker

  datatype CleaningSettings = CleaningSettings(
    collapseWhitespace: bool,
    patterns: seq<string -> string>,
    dropHallucinations: bool,
    isHallucination: string -> bool,
    minCharacters: int,
    dropDuplicateSegments: bool,
    norm: string -> string,
    round: real -> int,
    dropRepeats: bool,
    window: real,
    mergeSameSpeaker: bool)

  function Rewritten(lines: seq<TranscriptLine>, f: string -> string): (r: seq<TranscriptLine>)
    ensures |r| == |lines| && forall i | 0 <= i < |r| :: r[i] == lines[i].(text := f(lines[i].text))
  {
    seq(|lines|, i requires 0 <= i < |lines| => lines[i].(text := f(lines[i].text)))
  }

  function Collapse(text: string): string {
    Join(" ", Words(text))
  }

  function Substituted(patterns: seq<string -> string>, text: string): string
    decreases |patterns|
  {
    if patterns == [] then text else Substituted(patterns[1..], patterns[0](text))
  }

  function Stripping(patterns: seq<string -> string>): string -> string {
    text => Substituted(patterns, text)
  }

  predicate NotBlank(text: string) {
    Strip(text) != ""
  }

  function Not(p: string -> bool): string -> bool {
    text => !p(text)
  }

  function AtLeast(min: int): string -> bool {
    text => |Strip(text)| >= min
  }

  function Wanted(lines: seq<TranscriptLine>, want: string -> bool): Choice {
    (i: nat) => i < |lines| && want(lines[i].text)
  }

  function Effect(rule: Rule, lines: seq<TranscriptLine>): seq<TranscriptLine> {
    match rule
    case CollapseWhitespace => Rewritten(lines, Collapse)
    case StripPatterns(patterns) => Rewritten(lines, Stripping(patterns))
    case DropEmpty => Keep(lines, Wanted(lines, NotBlank))
    case DropHallucinations(isHallucination) => Keep(lines, Wanted(lines, Not(isHallucination)))
    case DropShortLines(min) =>
      if min <= 0 then lines else Keep(lines, Wanted(lines, AtLeast(min)))
    case DropDuplicates(norm, round) => WithoutDuplicates(lines, norm, round)
    case DropRepeated(window, norm) => WithoutRepeats(lines, window, norm)
    case MergeSpeaker => Merged(lines)
  }

  function RewritingRules(s: CleaningSettings): seq<Rule> {
    (if s.collapseWhitespace then [CollapseWhitespace] else []) + [StripPatterns(s.patterns)]
  }

  function DroppingRules(s: CleaningSettings): (rules: seq<Rule>)
    ensures forall i | 0 <= i < |rules| :: Drops(rules[i])
  {
    [DropEmpty]
    + (if s.dropHallucinations then [DropHallucinations(s.isHallucination)] else [])
    + [DropShortLines(s.minCharacters)]
    + (if s.dropDuplicateSegments then [DropDuplicates(s.norm, s.round)] else [])
    + (if s.dropRepeats then [DropRepeated(s.window, s.norm)] else [])
  }

  predicate Drops(rule: Rule) {
    !rule.CollapseWhitespace? && !rule.StripPatterns? && !rule.MergeSpeaker?
  }

  function ThinningRules(s: CleaningSettings): (rules: seq<Rule>)
    ensures forall i | 0 <= i < |rules| :: !rules[i].MergeSpeaker?
  {
    RewritingRules(s) + DroppingRules(s)
  }

  function BuildPipeline(s: CleaningSettings): seq<Rule> {
    ThinningRules(s) + (if s.mergeSameSpeaker then [MergeSpeaker] else [])
  }

  function RunAll(rules: seq<Rule>, lines: seq<TranscriptLine>): seq<TranscriptLine>
    decreases |rules|
  {
    if rules == [] then lines else RunAll(rules[1..], Effect(rules[0], lines))
  }

  method BuildRules(s: CleaningSettings) returns (rules: seq<Rule>)
    ensures rules == BuildPipeline(s)
  {
    rules := [];
    if s.collapseWhitespace {
      rules := rules + [CollapseWhitespace];
    }
    rules := rules + [StripPatterns(s.patterns)];
    ghost var first, drops := rules, [DropEmpty];
    assert first == RewritingRules(s);
    rules := rules + [DropEmpty];
    if s.dropHallucinations {
      rules := rules + [DropHallucinations(s.isHallucination)];
      OneRuleMore(first, drops, DropHallucinations(s.isHallucination));
      drops := drops + [DropHallucinations(s.isHallucination)];
    }
    rules := rules + [DropShortLines(s.minCharacters)];
    OneRuleMore(first, drops, DropShortLines(s.minCharacters));
    drops := drops + [DropShortLines(s.minCharacters)];
    if s.dropDuplicateSegments {
      rules := rules + [DropDuplicates(s.norm, s.round)];
      OneRuleMore(first, drops, DropDuplicates(s.norm, s.round));
      drops := drops + [DropDuplicates(s.norm, s.round)];
    }
    if s.dropRepeats {
      rules := rules + [DropRepeated(s.window, s.norm)];
      OneRuleMore(first, drops, DropRepeated(s.window, s.norm));
      drops := drops + [DropRepeated(s.window, s.norm)];
    }
    assert drops == DroppingRules(s);
    if s.mergeSameSpeaker {
      rules := rules + [MergeSpeaker];
    }
  }

  lemma {:induction false} OneRuleMore(first: seq<Rule>, drops: seq<Rule>, rule: Rule)
    ensures first + (drops + [rule]) == (first + drops) + [rule]
  {
  }

  method CollapseLines(lines: seq<TranscriptLine>) returns (result: seq<TranscriptLine>)
    ensures result == Rewritten(lines, Collapse)
  {
    result := [];
    for i := 0 to |lines|
      invariant result == Rewritten(lines, Collapse)[..i]
    {
      result := result + [lines[i].(text := Join(" ", Words(lines[i].text)))];
    }
  }

  method StripLines(lines: seq<TranscriptLine>, patterns: seq<string -> string>) returns (result: seq<TranscriptLine>)
    ensures result == Rewritten(lines, Stripping(patterns))
  {
    if patterns == [] {
      return lines;
    }
    result := [];
    for i := 0 to |lines|
      invariant result == Rewritten(lines, Stripping(patterns))[..i]
    {
      var text := lines[i].text;
      assert patterns[0..] == patterns;
      for k := 0 to |patterns|
        invariant Substituted(patterns[k..], text) == Substituted(patterns, lines[i].text)
      {
        assert patterns[k..][0] == patterns[k] && patterns[k..][1..] == patterns[k + 1..];
        text := patterns[k](text);
      }
      result := result + [lines[i].(text := text)];
    }
  }

  /** One rule: a loop over the lines, or, for those that only drop some by their text, a
      comprehension. */
  method Apply(rule: Rule, lines: seq<TranscriptLine>) returns (result: seq<TranscriptLine>)
    ensures result == Effect(rule, lines)
  {
    match rule {
      case CollapseWhitespace => result := CollapseLines(lines);
      case StripPatterns(patterns) => result := StripLines(lines, patterns);
      case DropEmpty => result := Keep(lines, Wanted(lines, NotBlank));
      case DropHallucinations(isHallucination) => result := Keep(lines, Wanted(lines, Not(isHallucination)));
      case DropShortLines(min) => result := if min <= 0 then lines else Keep(lines, Wanted(lines, AtLeast(min)));
      case DropDuplicates(norm, round) => result := DropDuplicateSegments(lines, norm, round);
      case DropRepeated(window, norm) => result := DropRepeats(lines, window, norm);
      case MergeSpeaker => result := MergeSameSpeaker(lines);
    }
  }

  method Clean(settings: CleaningSettings, lines: seq<TranscriptLine>) returns (result: seq<TranscriptLine>)
    ensures result == RunAll(BuildPipeline(settings), lines)
  {
    var rules := BuildRules(settings);
    result := lines;
    for i := 0 to |rules|
      invariant RunAll(rules[i..], result) == RunAll(rules, lines)
    {
      NextRule(rules, i, result);
      result := Apply(rules[i], result);
    }
  }

  lemma {:induction false} NextRule(rules: seq<Rule>, i: nat, lines: seq<TranscriptLine>)
    requires i < |rules|
    ensures RunAll(rules[i..], lines) == RunAll(rules[i + 1..], Effect(rules[i], lines))
  {
    assert rules[i..][0] == rules[i] && rules[i..][1..] == rules[i + 1..];
  }

  // ---------------------------------------------------------------------------
  // What cleaning may do to a transcript

  /** `after` is some of the lines of `before`, in order, with nothing changed but text. */
  ghost predicate Thins(before: seq<TranscriptLine>, after: seq<TranscriptLine>, at: seq<nat>) {
    && |at| == |after|
    && (forall i | 0 <= i < |at| :: at[i] < |before|)
    && (forall i, j | 0 <= i < j < |at| :: at[i] < at[j])
    && (forall i | 0 <= i < |at| :: after[i] == before[at[i]].(text := after[i].text))
  }

  lemma {:induction false} ThinsTwice(a: seq<TranscriptLine>, b: seq<TranscriptLine>, c: seq<TranscriptLine>, ab: seq<nat>, bc: seq<nat>)
    returns (ac: seq<nat>)
    requires Thins(a, b, ab) && Thins(b, c, bc)
    ensures Thins(a, c, ac)
  {
    ac := seq(|bc|, i requires 0 <= i < |bc| && bc[i] < |ab| => ab[bc[i]]);
  }

  /** `part` is some of the lines, in order. */
  ghost predicate IsPart(lines: seq<TranscriptLine>, part: seq<TranscriptLine>, at: seq<nat>) {
    && |at| == |part|
    && (forall i | 0 <= i < |at| :: at[i] < |lines| && part[i] == lines[at[i]])
    && (forall i, j | 0 <= i < j < |at| :: at[i] < at[j])
  }

  lemma {:induction false} KeepIsPart(lines: seq<TranscriptLine>, keep: Choice)
    ensures IsPart(lines, Keep(lines, keep), Chosen(|lines|, keep))
  {
  }

  function ChoiceOf(rule: Rule, lines: seq<TranscriptLine>): Choice
    requires Drops(rule)
  {
    match rule
    case DropEmpty => Wanted(lines, NotBlank)
    case DropHallucinations(isHallucination) => Wanted(lines, Not(isHallucination))
    case DropShortLines(min) => Wanted(lines, AtLeast(min))
    case DropDuplicates(norm, round) => Firsts(lines, norm, round)
    case DropRepeated(window, norm) => Survivors(lines, window, norm)
  }

  predicate Idle(rule: Rule) {
    || (rule.DropShortLines? && rule.minCharacters <= 0)
    || (rule.DropRepeated? && rule.window <= 0.0)
  }

  lemma {:induction false} DropIsKeep(rule: Rule, lines: seq<TranscriptLine>)
    requires Drops(rule)
    ensures Effect(rule, lines) == if Idle(rule) then lines else Keep(lines, ChoiceOf(rule, lines))
  {
  }

  lemma {:induction false} DropIsPart(rule: Rule, lines: seq<TranscriptLine>) returns (at: seq<nat>)
    requires Drops(rule)
    ensures IsPart(lines, Effect(rule, lines), at)
  {
    DropIsKeep(rule, lines);
    if Idle(rule) {
      at := FirstOnes(|lines|);
    } else {
      at := Chosen(|lines|, ChoiceOf(rule, lines));
      KeepIsPart(lines, ChoiceOf(rule, lines));
    }
  }

  lemma {:induction false} RuleThins(rule: Rule, lines: seq<TranscriptLine>) returns (at: seq<nat>)
    requires !rule.MergeSpeaker?
    ensures Thins(lines, Effect(rule, lines), at)
  {
    if Drops(rule) {
      at := DropIsPart(rule, lines);
    } else {
      at := FirstOnes(|lines|);
    }
  }

  lemma {:induction false} RulesThin(rules: seq<Rule>, lines: seq<TranscriptLine>) returns (at: seq<nat>)
    requires forall i | 0 <= i < |rules| :: !rules[i].MergeSpeaker?
    ensures Thins(lines, RunAll(rules, lines), at)
    decreases |rules|
  {
    if rules == [] {
      at := FirstOnes(|lines|);
    } else {
      var first := RuleThins(rules[0], lines);
      var later := RulesThin(rules[1..], Effect(rules[0], lines));
      at := ThinsTwice(lines, Effect(rules[0], lines), RunAll(rules, lines), first, later);
    }
  }

  lemma {:induction false} RunFirst(rule: Rule, rules: seq<Rule>, lines: seq<TranscriptLine>)
    ensures RunAll([rule] + rules, lines) == RunAll(rules, Effect(rule, lines))
  {
    assert ([rule] + rules)[1..] == rules;
  }

  lemma {:induction false} RunOne(rule: Rule, lines: seq<TranscriptLine>)
    ensures RunAll([rule], lines) == Effect(rule, lines)
  {
    assert [rule][1..] == [];
  }

  lemma {:induction false} RunAllAppend(a: seq<Rule>, b: seq<Rule>, lines: seq<TranscriptLine>)
    ensures RunAll(a + b, lines) == RunAll(b, RunAll(a, lines))
    decreases |a|
  {
    if a == [] {
      assert a + b == b;
    } else {
      var rest, on := a[1..], Effect(a[0], lines);
      RunAllAppend(rest, b, on);
      HeadFirst(a, b);
      RunFirst(a[0], rest + b, lines);
    }
  }

  lemma {:induction false} MergeRunsLast(s: CleaningSettings, lines: seq<TranscriptLine>)
    ensures
      var thinned := RunAll(ThinningRules(s), lines);
      RunAll(BuildPipeline(s), lines) == if s.mergeSameSpeaker then Merged(thinned) else thinned
  {
    if s.mergeSameSpeaker {
      RunAllAppend(ThinningRules(s), [MergeSpeaker], lines);
      RunOne(MergeSpeaker, RunAll(ThinningRules(s), lines));
    } else {
      assert BuildPipeline(s) == ThinningRules(s);
    }
  }

  /** A clean is a thinning of the transcript, merged if the settings say so. */
  lemma {:induction false} CleanThinsThenMerges(s: CleaningSettings, lines: seq<TranscriptLine>)
    returns (thinned: seq<TranscriptLine>, at: seq<nat>)
    ensures Thins(lines, thinned, at)
    ensures RunAll(BuildPipeline(s), lines) == if s.mergeSameSpeaker then Merged(thinned) else thinned
  {
    thinned := RunAll(ThinningRules(s), lines);
    at := RulesThin(ThinningRules(s), lines);
    MergeRunsLast(s, lines);
  }

  lemma {:induction false} ThinningKeepsIdentities(lines: seq<TranscriptLine>, thinned: seq<TranscriptLine>, at: seq<nat>)
    requires Thins(lines, thinned, at)
    ensures DistinctIds(lines) ==> DistinctIds(thinned)
    ensures StartOrdered(lines) ==> StartOrdered(thinned)
    ensures forall i | 0 <= i < |thinned| :: TakenFrom(thinned[i], lines)
  {
    forall i | 0 <= i < |thinned| ensures TakenFrom(thinned[i], lines) {
      assert Heads(thinned[i], lines[at[i]]);
    }
  }

  lemma {:induction false} TakenTwice(line: TranscriptLine, via: seq<TranscriptLine>, lines: seq<TranscriptLine>)
    requires TakenFrom(line, via) && forall i | 0 <= i < |via| :: TakenFrom(via[i], lines)
    ensures TakenFrom(line, lines)
  {
    var k :| 0 <= k < |via| && Heads(line, via[k]);
    var j :| 0 <= j < |lines| && Heads(via[k], lines[j]);
    assert Heads(line, lines[j]);
  }

  /** So the cleaned lines can be stored in place of the old ones: each keeps the id, start,
      speaker and track of one of them, ids stay distinct, and starts stay in order. */
  lemma {:induction false} CleanKeepsIdentities(s: CleaningSettings, lines: seq<TranscriptLine>)
    ensures
      var r := RunAll(BuildPipeline(s), lines);
      && (DistinctIds(lines) ==> DistinctIds(r))
      && (StartOrdered(lines) ==> StartOrdered(r))
      && forall i | 0 <= i < |r| :: TakenFrom(r[i], lines)
  {
    var thinned, at := CleanThinsThenMerges(s, lines);
    ThinningKeepsIdentities(lines, thinned, at);
    MergeKeepsOrder(thinned);
    if s.mergeSameSpeaker {
      forall i | 0 <= i < |Merged(thinned)| ensures TakenFrom(Merged(thinned)[i], lines) {
        TakenTwice(Merged(thinned)[i], thinned, lines);
      }
    }
  }

  // ---------------------------------------------------------------------------
  // What a thinning does to each line it keeps

  function Rewrite(s: CleaningSettings, text: string): string {
    Substituted(s.patterns, if s.collapseWhitespace then Collapse(text) else text)
  }

  function Rewriting(s: CleaningSettings): string -> string {
    text => Rewrite(s, text)
  }

  lemma {:induction false} ThinningRewritesThenDrops(s: CleaningSettings, lines: seq<TranscriptLine>)
    ensures RunAll(ThinningRules(s), lines) == RunAll(DroppingRules(s), Rewritten(lines, Rewriting(s)))
  {
    RunAllAppend(RewritingRules(s), DroppingRules(s), lines);
    var rules := RewritingRules(s);
    assert [StripPatterns(s.patterns)][1..] == [];
    if s.collapseWhitespace {
      assert rules[1..] == [StripPatterns(s.patterns)];
      assert Rewritten(Rewritten(lines, Collapse), Stripping(s.patterns)) == Rewritten(lines, Rewriting(s));
    } else {
      assert rules == [StripPatterns(s.patterns)];
      assert Rewritten(lines, Stripping(s.patterns)) == Rewritten(lines, Rewriting(s));
    }
  }

  /** What a dropping rule asks of the lines it lets through. */
  predicate Passes(rule: Rule, lines: seq<TranscriptLine>) {
    match rule
    case DropEmpty => forall i | 0 <= i < |lines| :: NotBlank(lines[i].text)
    case DropHallucinations(isHallucination) => forall i | 0 <= i < |lines| :: !isHallucination(lines[i].text)
    case DropShortLines(min) => min <= 0 || forall i | 0 <= i < |lines| :: |Strip(lines[i].text)| >= min
    case DropDuplicates(norm, round) => DistinctSegments(lines, norm, round)
    case DropRepeated(window, norm) => window <= 0.0 || RepeatsApart(lines, window, norm)
    case _ => true
  }

  predicate DistinctSegments(lines: seq<TranscriptLine>, norm: string -> string, round: real -> int) {
    forall i, j | 0 <= i < j < |lines| :: SegmentOf(lines[i], norm, round) != SegmentOf(lines[j], norm, round)
  }

  predicate RepeatsApart(lines: seq<TranscriptLine>, window: real, norm: string -> string) {
    forall i, j | 0 <= i < j < |lines| && KeyOf(lines[i], norm) == KeyOf(lines[j], norm) ::
      lines[j].startTime - lines[i].startTime > window
  }

  lemma {:induction false} PartsNest(a: seq<TranscriptLine>, b: seq<TranscriptLine>, c: seq<TranscriptLine>, ab: seq<nat>, bc: seq<nat>)
    returns (ac: seq<nat>)
    requires IsPart(a, b, ab) && IsPart(b, c, bc)
    ensures IsPart(a, c, ac)
  {
    ac := seq(|bc|, i requires 0 <= i < |bc| && bc[i] < |ab| => ab[bc[i]]);
  }

  lemma {:induction false} IncreasingIsAtLeast(at: seq<nat>, i: nat)
    requires i < |at| && forall j, k | 0 <= j < k < |at| :: at[j] < at[k]
    ensures at[i] >= i
  {
    if i > 0 {
      IncreasingIsAtLeast(at, i - 1);
    }
  }

  /** Positions below `n` are at most `n`, and then they are all there are. */
  lemma {:induction false} AllPositions(at: seq<nat>, n: nat)
    requires forall i | 0 <= i < |at| :: at[i] < n
    requires forall i, j | 0 <= i < j < |at| :: at[i] < at[j]
    ensures |at| <= n
    ensures |at| == n ==> forall i | 0 <= i < n :: at[i] == i
  {
    if at != [] {
      IncreasingIsAtLeast(at, |at| - 1);
    }
    if |at| == n {
      forall i | 0 <= i < n ensures at[i] == i {
        IncreasingIsAtLeast(at, i);
        RestIsAbove(at, i);
      }
    }
  }

  lemma {:induction false} RestIsAbove(at: seq<nat>, i: nat)
    requires i < |at| && forall j, k | 0 <= j < k < |at| :: at[j] < at[k]
    ensures at[|at| - 1] >= at[i] + (|at| - 1 - i)
    decreases |at| - i
  {
    if i + 1 < |at| {
      RestIsAbove(at, i + 1);
    }
  }

  lemma {:induction false} PassesOnPart(rule: Rule, lines: seq<TranscriptLine>, part: seq<TranscriptLine>, at: seq<nat>)
    requires Passes(rule, lines) && IsPart(lines, part, at)
    ensures Passes(rule, part)
  {
  }

  lemma {:induction false} WantedOnly(lines: seq<TranscriptLine>, want: string -> bool)
    ensures forall i | 0 <= i < |Keep(lines, Wanted(lines, want))| :: want(Keep(lines, Wanted(lines, want))[i].text)
  {
    var at, r := Chosen(|lines|, Wanted(lines, want)), Keep(lines, Wanted(lines, want));
    forall i | 0 <= i < |r| ensures want(r[i].text) {
      assert at[i] in at;
    }
  }

  lemma {:induction false} EffectPasses(rule: Rule, lines: seq<TranscriptLine>)
    requires Drops(rule)
    ensures Passes(rule, Effect(rule, lines))
  {
    if Idle(rule) {
    } else if rule.DropDuplicates? {
      if lines != [] {
        DuplicatesLeaveOneOfEach(lines, rule.norm, rule.round, 0);
      }
    } else if rule.DropRepeated? {
      RepeatsAreApart(lines, rule.window, rule.norm);
    } else if rule.DropEmpty? {
      WantedOnly(lines, NotBlank);
    } else if rule.DropHallucinations? {
      WantedOnly(lines, Not(rule.isHallucination));
    } else {
      WantedOnly(lines, AtLeast(rule.minCharacters));
    }
  }

  lemma {:induction false} PassingIsChosen(rule: Rule, lines: seq<TranscriptLine>, i: nat)
    requires Drops(rule) && !Idle(rule) && Passes(rule, lines) && i < |lines|
    ensures ChoiceOf(rule, lines)(i)
  {
    if rule.DropDuplicates? {
      assert FirstOfItsKey(lines, i, rule.norm, rule.round);
    } else if rule.DropRepeated? {
      forall k: nat | k < i ensures !Echoes(lines, i, k, rule.window, rule.norm) {
      }
    }
  }

  lemma {:induction false} PassingIsKept(rule: Rule, lines: seq<TranscriptLine>)
    requires Drops(rule) && Passes(rule, lines)
    ensures Effect(rule, lines) == lines
  {
    DropIsKeep(rule, lines);
    if !Idle(rule) {
      forall i: nat | i < |lines| ensures ChoiceOf(rule, lines)(i) {
        PassingIsChosen(rule, lines, i);
      }
      KeepAll(lines, ChoiceOf(rule, lines));
    }
  }

  /** What several dropping rules leave passes every one of them. */
  lemma {:induction false} DropsPass(rules: seq<Rule>, lines: seq<TranscriptLine>) returns (at: seq<nat>)
    requires forall i | 0 <= i < |rules| :: Drops(rules[i])
    ensures IsPart(lines, RunAll(rules, lines), at)
    ensures forall i | 0 <= i < |rules| :: Passes(rules[i], RunAll(rules, lines))
    decreases |rules|
  {
    if rules == [] {
      at := FirstOnes(|lines|);
    } else {
      var next, r := Effect(rules[0], lines), RunAll(rules, lines);
      var first := DropIsPart(rules[0], lines);
      var later := DropsPass(rules[1..], next);
      at := PartsNest(lines, next, r, first, later);
      EffectPasses(rules[0], lines);
      PassesOnPart(rules[0], next, r, later);
      assert forall i | 0 < i < |rules| :: rules[i] == rules[1..][i - 1];
    }
  }

  lemma {:induction false} PassingAllIsKept(rules: seq<Rule>, lines: seq<TranscriptLine>)
    requires forall i | 0 <= i < |rules| :: Drops(rules[i]) && Passes(rules[i], lines)
    ensures RunAll(rules, lines) == lines
    decreases |rules|
  {
    if rules != [] {
      PassingIsKept(rules[0], lines);
      PassingAllIsKept(rules[1..], lines);
    }
  }

  // ---------------------------------------------------------------------------
  // When a second clean changes nothing

  /** The settings have nothing left to do to this text. */
  predicate TextSettled(s: CleaningSettings, text: string) {
    && Rewrite(s, text) == text
    && NotBlank(text)
    && (s.dropHallucinations ==> !s.isHallucination(text))
    && (s.minCharacters <= 0 || |Strip(text)| >= s.minCharacters)
  }

  predicate Settled(s: CleaningSettings, lines: seq<TranscriptLine>) {
    && (forall i | 0 <= i < |lines| :: TextSettled(s, lines[i].text))
    && (s.dropDuplicateSegments ==> DistinctSegments(lines, s.norm, s.round))
    && (s.dropRepeats && s.window > 0.0 ==> RepeatsApart(lines, s.window, s.norm))
  }

  predicate TextsStay(s: CleaningSettings, lines: seq<TranscriptLine>) {
    forall i | 0 <= i < |lines| :: Rewrite(s, lines[i].text) == lines[i].text
  }

  ghost predicate AllPass(rules: seq<Rule>, lines: seq<TranscriptLine>) {
    forall i | 0 <= i < |rules| :: Passes(rules[i], lines)
  }

  lemma {:induction false} PassAppend(a: seq<Rule>, b: seq<Rule>, lines: seq<TranscriptLine>)
    ensures AllPass(a + b, lines) <==> AllPass(a, lines) && AllPass(b, lines)
  {
    forall i | 0 <= i < |a| ensures (a + b)[i] == a[i] {
    }
    forall i | 0 <= i < |b| ensures (a + b)[|a| + i] == b[i] {
    }
    if AllPass(a + b, lines) {
      forall i | 0 <= i < |b| ensures Passes(b[i], lines) {
        assert Passes((a + b)[|a| + i], lines);
      }
    }
  }

  lemma {:induction false} SettledMeansPassing(s: CleaningSettings, lines: seq<TranscriptLine>)
    ensures Settled(s, lines) <==> TextsStay(s, lines) && AllPass(DroppingRules(s), lines)
  {
    DroppingRulesPass(s, lines);
  }

  /** Each rule that drops lines has its own switch, all but two. */
  lemma {:induction false} DroppingRulesPass(s: CleaningSettings, lines: seq<TranscriptLine>)
    ensures AllPass(DroppingRules(s), lines) <==>
      && Passes(DropEmpty, lines)
      && (s.dropHallucinations ==> Passes(DropHallucinations(s.isHallucination), lines))
      && Passes(DropShortLines(s.minCharacters), lines)
      && (s.dropDuplicateSegments ==> Passes(DropDuplicates(s.norm, s.round), lines))
      && (s.dropRepeats ==> Passes(DropRepeated(s.window, s.norm), lines))
  {
    var phrases := if s.dropHallucinations then [DropHallucinations(s.isHallucination)] else [];
    var short := [DropShortLines(s.minCharacters)];
    var duplicates := if s.dropDuplicateSegments then [DropDuplicates(s.norm, s.round)] else [];
    var repeats := if s.dropRepeats then [DropRepeated(s.window, s.norm)] else [];
    PassAppend([DropEmpty], phrases, lines);
    PassAppend([DropEmpty] + phrases, short, lines);
    PassAppend([DropEmpty] + phrases + short, duplicates, lines);
    PassAppend([DropEmpty] + phrases + short + duplicates, repeats, lines);
    PassOne(DropEmpty, lines);
    PassOne(DropHallucinations(s.isHallucination), lines);
    PassOne(DropShortLines(s.minCharacters), lines);
    PassOne(DropDuplicates(s.norm, s.round), lines);
    PassOne(DropRepeated(s.window, s.norm), lines);
  }

  lemma {:induction false} PassOne(rule: Rule, lines: seq<TranscriptLine>)
    ensures AllPass([rule], lines) <==> Passes(rule, lines)
  {
    if AllPass([rule], lines) {
      assert Passes([rule][0], lines);
    }
  }

  lemma {:induction false} WholePartFixesTexts(s: CleaningSettings, lines: seq<TranscriptLine>, at: seq<nat>)
    requires IsPart(Rewritten(lines, Rewriting(s)), lines, at)
    ensures TextsStay(s, lines)
  {
    AllPositions(at, |lines|);
    forall i | 0 <= i < |lines| ensures Rewrite(s, lines[i].text) == lines[i].text {
      assert lines[i] == Rewritten(lines, Rewriting(s))[at[i]] && at[i] == i;
    }
  }

  lemma {:induction false} ThinningStaysExactlyWhenSettled(s: CleaningSettings, lines: seq<TranscriptLine>)
    ensures RunAll(ThinningRules(s), lines) == lines <==> Settled(s, lines)
  {
    ThinningRewritesThenDrops(s, lines);
    SettledMeansPassing(s, lines);
    var rewritten := Rewritten(lines, Rewriting(s));
    if RunAll(ThinningRules(s), lines) == lines {
      var at := DropsPass(DroppingRules(s), rewritten);
      WholePartFixesTexts(s, lines, at);
    } else if TextsStay(s, lines) {
      assert rewritten == lines;
      if AllPass(DroppingRules(s), lines) {
        PassingAllIsKept(DroppingRules(s), lines);
      }
    }
  }

  lemma {:induction false} MergingAThinningStays(t: seq<TranscriptLine>, thinned: seq<TranscriptLine>, at: seq<nat>)
    requires Thins(Merged(t), thinned, at)
    ensures Merged(thinned) == Merged(t) <==> thinned == Merged(t)
  {
    var r := Merged(t);
    MergeIsIdempotent(t);
    if Merged(thinned) == r {
      MergeIsNotLonger(thinned);
      AllPositions(at, |r|);
      forall i | 0 <= i < |thinned| - 1 ensures !SameTurn(thinned[i], thinned[i + 1]) {
        assert !SameTurn(r[i], r[i + 1]);
      }
      SeparateIsMerged(thinned);
    }
  }

  /** For any settings and any transcript: cleaning the cleaned lines again changes nothing
      exactly when they are settled. */
  lemma {:induction false} CleaningAgainChangesNothingExactlyWhenSettled(s: CleaningSettings, lines: seq<TranscriptLine>)
    ensures
      var r := RunAll(BuildPipeline(s), lines);
      RunAll(BuildPipeline(s), r) == r <==> Settled(s, r)
  {
    var r := RunAll(BuildPipeline(s), lines);
    MergeRunsLast(s, lines);
    MergeRunsLast(s, r);
    ThinningStaysExactlyWhenSettled(s, r);
    if s.mergeSameSpeaker {
      var at := RulesThin(ThinningRules(s), r);
      MergingAThinningStays(RunAll(ThinningRules(s), lines), RunAll(ThinningRules(s), r), at);
    }
  }

  /** The kept lines are lines of the input with their texts rewritten, and pass every rule
      that drops lines. */
  lemma {:induction false} ThinningKeeps(s: CleaningSettings, lines: seq<TranscriptLine>) returns (at: seq<nat>)
    ensures
      var r := RunAll(ThinningRules(s), lines);
      && Thins(lines, r, at) && AllPass(DroppingRules(s), r)
      && forall i | 0 <= i < |r| :: r[i].text == Rewrite(s, lines[at[i]].text)
  {
    ThinningRewritesThenDrops(s, lines);
    at := DropsPass(DroppingRules(s), Rewritten(lines, Rewriting(s)));
  }

  /** Without merging that is a matter of the input: each line kept has a text that rewriting
      twice changes no further than rewriting once. */
  lemma {:induction false} WithoutMergingTextsDecide(s: CleaningSettings, lines: seq<TranscriptLine>) returns (at: seq<nat>)
    requires !s.mergeSameSpeaker
    ensures
      var r := RunAll(BuildPipeline(s), lines);
      && Thins(lines, r, at)
      && (RunAll(BuildPipeline(s), r) == r <==>
            forall i | 0 <= i < |at| ::
              Rewrite(s, Rewrite(s, lines[at[i]].text)) == Rewrite(s, lines[at[i]].text))
  {
    var r := RunAll(BuildPipeline(s), lines);
    MergeRunsLast(s, lines);
    at := ThinningKeeps(s, lines);
    assert Settled(s, r) <==> TextsStay(s, r) by {
      SettledMeansPassing(s, r);
    }
    assert RunAll(BuildPipeline(s), r) == r <==> TextsStay(s, r) by {
      CleaningAgainChangesNothingExactlyWhenSettled(s, lines);
    }
    TextsStayByLine(s, lines, r, at);
  }

  lemma {:induction false} TextsStayByLine(s: CleaningSettings, lines: seq<TranscriptLine>, r: seq<TranscriptLine>, at: seq<nat>)
    requires Thins(lines, r, at)
    requires forall i | 0 <= i < |r| :: r[i].text == Rewrite(s, lines[at[i]].text)
    ensures TextsStay(s, r) <==>
      forall i | 0 <= i < |at| ::
        Rewrite(s, Rewrite(s, lines[at[i]].text)) == Rewrite(s, lines[at[i]].text)
  {
    forall i | 0 <= i < |at|
      ensures Rewrite(s, r[i].text) == r[i].text <==>
        Rewrite(s, Rewrite(s, lines[at[i]].text)) == Rewrite(s, lines[at[i]].text)
    {
    }
    if TextsStay(s, r) {
      forall i | 0 <= i < |at|
        ensures Rewrite(s, Rewrite(s, lines[at[i]].text)) == Rewrite(s, lines[at[i]].text)
      {
        assert Rewrite(s, r[i].text) == r[i].text;
      }
    }
  }

  lemma {:induction false} CollapseIsIdempotent(text: string)
    ensures Collapse(Collapse(text)) == Collapse(text)
  {
    CollapseKeepsWords(text);
  }

  /** So without merging and strip patterns a clean is idempotent, on every transcript. */
  lemma {:induction false} WithoutMergingAndPatternsCleaningIsIdempotent(s: CleaningSettings, lines: seq<TranscriptLine>)
    requires !s.mergeSameSpeaker && s.patterns == []
    ensures
      var r := RunAll(BuildPipeline(s), lines);
      RunAll(BuildPipeline(s), r) == r
  {
    var at := WithoutMergingTextsDecide(s, lines);
    forall i | 0 <= i < |at|
      ensures Rewrite(s, Rewrite(s, lines[at[i]].text)) == Rewrite(s, lines[at[i]].text)
    {
      CollapseIsIdempotent(lines[at[i]].text);
    }
  }

  // ---------------------------------------------------------------------------
  // The words a clean leaves

  lemma {:induction false} CreditsByLine(a: seq<TranscriptLine>, b: seq<TranscriptLine>)
    requires |a| == |b|
    requires forall i | 0 <= i < |a| :: SameTurn(a[i], b[i]) && Words(a[i].text) == Words(b[i].text)
    ensures Credits(a) == Credits(b)
  {
    if a != [] {
      CreditedAlike(a[0], b[0], Words(a[0].text));
      CreditsByLine(a[1..], b[1..]);
    }
  }

  /** Without strip patterns a clean drops whole lines and nothing else: the words it leaves are
      those of the lines kept, in order, each credited as before. */
  lemma {:induction false} WithoutPatternsOnlyWholeLinesGo(s: CleaningSettings, lines: seq<TranscriptLine>) returns (at: seq<nat>)
    requires s.patterns == []
    ensures forall i | 0 <= i < |at| :: at[i] < |lines|
    ensures forall i, j | 0 <= i < j < |at| :: at[i] < at[j]
    ensures Credits(RunAll(BuildPipeline(s), lines)) == Credits(Pick(lines, at))
  {
    at := ThinningKeeps(s, lines);
    var thinned := RunAll(ThinningRules(s), lines);
    MergeRunsLast(s, lines);
    MergeKeepsCredits(thinned);
    forall i | 0 <= i < |thinned|
      ensures SameTurn(thinned[i], Pick(lines, at)[i]) && Words(thinned[i].text) == Words(Pick(lines, at)[i].text)
    {
      CollapseKeepsWords(lines[at[i]].text);
    }
    CreditsByLine(thinned, Pick(lines, at));
  }

  // ---------------------------------------------------------------------------
  // A clean that is not settled

  lemma {:induction false} ChosenNone(n: nat, keep: Choice)
    requires forall i: nat | i < n :: !keep(i)
    ensures Chosen(n, keep) == []
  {
    if n > 0 {
      ChosenNone(n - 1, keep);
    }
  }

  function OnlyPhraseAndMerge(phrase: string -> bool): CleaningSettings {
    CleaningSettings(false, [], true, phrase, 0, false, Same, Zero, false, 0.0, true)
  }

  function Same(text: string): string {
    text
  }

  function Zero(x: real): int {
    0
  }

  lemma {:induction false} PhraseThenMerge(phrase: string -> bool, lines: seq<TranscriptLine>)
    requires forall i | 0 <= i < |lines| :: NotBlank(lines[i].text)
    ensures RunAll(BuildPipeline(OnlyPhraseAndMerge(phrase)), lines) == Merged(Keep(lines, Wanted(lines, Not(phrase))))
  {
    FiveRules(phrase);
    TextRulesPass(lines);
    MergeRulesRun(phrase, lines);
    var r := [DropHallucinations(phrase)] + ([DropShortLines(0)] + [MergeSpeaker]);
    RunFirst(StripPatterns([]), [DropEmpty] + r, lines);
    RunFirst(DropEmpty, r, lines);
  }

  lemma {:induction false} TextRulesPass(lines: seq<TranscriptLine>)
    requires forall i | 0 <= i < |lines| :: NotBlank(lines[i].text)
    ensures Effect(StripPatterns([]), lines) == lines && Effect(DropEmpty, lines) == lines
  {
    assert Rewritten(lines, Stripping([])) == lines;
    KeepAll(lines, Wanted(lines, NotBlank));
  }

  lemma {:induction false} MergeRulesRun(phrase: string -> bool, lines: seq<TranscriptLine>)
    ensures RunAll([DropHallucinations(phrase)] + ([DropShortLines(0)] + [MergeSpeaker]), lines)
      == Merged(Keep(lines, Wanted(lines, Not(phrase))))
  {
    var kept := Keep(lines, Wanted(lines, Not(phrase)));
    RunFirst(DropHallucinations(phrase), [DropShortLines(0)] + [MergeSpeaker], lines);
    RunFirst(DropShortLines(0), [MergeSpeaker], kept);
    RunFirst(MergeSpeaker, [], kept);
    assert [MergeSpeaker] + [] == [MergeSpeaker];
  }

  lemma {:induction false} FiveRules(phrase: string -> bool)
    ensures BuildPipeline(OnlyPhraseAndMerge(phrase)) ==
      [StripPatterns([])] + ([DropEmpty] + ([DropHallucinations(phrase)] + ([DropShortLines(0)] + [MergeSpeaker])))
  {
  }

  lemma {:induction false} MergeOfTwo(a: TranscriptLine, b: TranscriptLine)
    requires SameTurn(a, b)
    ensures Merged([a, b]) == [Joined(a, b)]
  {
    assert [a, b][1..] == [b] && [b][1..] == [];
    assert MergeFrom(a, [b]) == MergeFrom(Joined(a, b), []);
  }

  lemma {:induction false} BothStay(phrase: string -> bool, a: TranscriptLine, b: TranscriptLine)
    requires !phrase(a.text) && !phrase(b.text)
    ensures Keep([a, b], Wanted([a, b], Not(phrase))) == [a, b]
  {
    KeepAll([a, b], Wanted([a, b], Not(phrase)));
  }

  lemma {:induction false} FirstClean(phrase: string -> bool, a: TranscriptLine, b: TranscriptLine)
    requires SameTurn(a, b) && NotBlank(a.text) && NotBlank(b.text) && !phrase(a.text) && !phrase(b.text)
    ensures RunAll(BuildPipeline(OnlyPhraseAndMerge(phrase)), [a, b]) == [Joined(a, b)]
  {
    PhraseThenMerge(phrase, [a, b]);
    BothStay(phrase, a, b);
    MergeOfTwo(a, b);
  }

  lemma {:induction false} PhraseGoes(phrase: string -> bool, ab: TranscriptLine)
    requires phrase(ab.text)
    ensures Keep([ab], Wanted([ab], Not(phrase))) == []
  {
    ChosenNone(1, Wanted([ab], Not(phrase)));
  }

  lemma {:induction false} SecondClean(phrase: string -> bool, ab: TranscriptLine)
    requires NotBlank(ab.text) && phrase(ab.text)
    ensures RunAll(BuildPipeline(OnlyPhraseAndMerge(phrase)), [ab]) == []
  {
    PhraseThenMerge(phrase, [ab]);
    PhraseGoes(phrase, ab);
  }

  /** A second clean can drop more: merging makes a phrase the first clean did not see. */
  lemma {:induction false} CleaningTwiceCanDropMore()
    ensures exists s: CleaningSettings, lines: seq<TranscriptLine> ::
      RunAll(BuildPipeline(s), lines) != [] && RunAll(BuildPipeline(s), RunAll(BuildPipeline(s), lines)) == []
  {
    var phrase := (text: string) => text == "a b";
    var a := TranscriptLine(0, None, None, None, None, 0.0, 1.0, "a");
    var b := TranscriptLine(1, None, None, None, None, 1.0, 2.0, "b");
    assert Strip("a b") == "a b" && "a" + " " + "b" == "a b";
    FirstClean(phrase, a, b);
    SecondClean(phrase, Joined(a, b));
    var s, lines := OnlyPhraseAndMerge(phrase), [a, b];
    assert RunAll(BuildPipeline(s), RunAll(BuildPipeline(s), lines)) == [];
  }
}
