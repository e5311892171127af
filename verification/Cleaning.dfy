/** The cleaning pipeline over a transcript's lines. Text comparison, rounding and pattern
    substitution are parameters. */
module Cleaning {
  import opened Options
  import opened Transcripts

  // ---------------------------------------------------------------------------
  // Rules that keep some lines of a list

  type Choice = nat -> bool

  /** The chosen positions below `n`, in order. */
  function Chosen(n: nat, keep: Choice): (r: seq<nat>)
    ensures forall i: nat :: i in r <==> i < n && keep(i)
    ensures forall i, j | 0 <= i < j < |r| :: r[i] < r[j]
    ensures forall i | 0 <= i < |r| :: r[i] < n
  {
    if n == 0 then [] else Chosen(n - 1, keep) + if keep(n - 1) then [n - 1] else []
  }

  function Pick<T>(lines: seq<T>, at: seq<nat>): (r: seq<T>)
    requires forall i | 0 <= i < |at| :: at[i] < |lines|
    ensures |r| == |at| && forall i | 0 <= i < |r| :: r[i] == lines[at[i]]
  {
    seq(|at|, i requires 0 <= i < |at| && at[i] < |lines| => lines[at[i]])
  }

  function Keep(lines: seq<TranscriptLine>, keep: Choice): seq<TranscriptLine> {
    Pick(lines, Chosen(|lines|, keep))
  }

  lemma {:induction false} KeepGrows(lines: seq<TranscriptLine>, n: nat, keep: Choice)
    requires n < |lines|
    ensures Pick(lines, Chosen(n + 1, keep)) ==
      Pick(lines, Chosen(n, keep)) + if keep(n) then [lines[n]] else []
  {
  }

  lemma {:induction false} SameChoice(n: nat, a: Choice, b: Choice)
    requires forall i: nat | i < n :: a(i) <==> b(i)
    ensures Chosen(n, a) == Chosen(n, b)
  {
    if n > 0 {
      SameChoice(n - 1, a, b);
    }
  }

  // ---------------------------------------------------------------------------
  // Repeats

  datatype Key = Key(speaker: Option<string>, text: string)

  function KeyOf(line: TranscriptLine, norm: string -> string): Key {
    Key(line.speakerName, norm(line.text))
  }

  /** A line goes when an earlier line that stays says the same within the window before it. */
  predicate Echoes(lines: seq<TranscriptLine>, i: nat, k: nat, window: real, norm: string -> string)
    requires i < |lines| && k < |lines|
  {
    KeyOf(lines[k], norm) == KeyOf(lines[i], norm) && lines[i].startTime - lines[k].startTime <= window
  }

  predicate Survives(lines: seq<TranscriptLine>, i: nat, window: real, norm: string -> string)
    decreases i
  {
    i < |lines| ==>
      !exists k: nat :: k < i && Survives(lines, k, window, norm) && Echoes(lines, i, k, window, norm)
  }

  function Survivors(lines: seq<TranscriptLine>, window: real, norm: string -> string): Choice {
    (i: nat) => Survives(lines, i, window, norm)
  }

  function WithoutRepeats(lines: seq<TranscriptLine>, window: real, norm: string -> string): seq<TranscriptLine> {
    if window <= 0.0 then lines else Keep(lines, Survivors(lines, window, norm))
  }

  /** `last` holds, for each key met before `i`, the start of its latest survivor, which no
      other survivor of the key starts after. */
  ghost predicate LatestKept(lines: seq<TranscriptLine>, i: nat, last: map<Key, real>,
      window: real, norm: string -> string)
    requires i <= |lines|
  {
    && (forall k | 0 <= k < i && Survives(lines, k, window, norm) ::
          KeyOf(lines[k], norm) in last && lines[k].startTime <= last[KeyOf(lines[k], norm)])
    && (forall key | key in last :: exists k | 0 <= k < i :: KeptAt(lines, k, key, last[key], window, norm))
  }

  ghost predicate KeptAt(lines: seq<TranscriptLine>, k: nat, key: Key, start: real, window: real, norm: string -> string)
    requires k < |lines|
  {
    Survives(lines, k, window, norm) && KeyOf(lines[k], norm) == key && lines[k].startTime == start
  }

  lemma {:induction false} LatestDecides(lines: seq<TranscriptLine>, i: nat, last: map<Key, real>, window: real, norm: string -> string)
    requires window > 0.0 && i < |lines| && LatestKept(lines, i, last, window, norm)
    ensures
      var key := KeyOf(lines[i], norm);
      Survives(lines, i, window, norm) <==> !(key in last && lines[i].startTime - last[key] <= window)
  {
    var key := KeyOf(lines[i], norm);
    if key in last && lines[i].startTime - last[key] <= window {
      var k :| 0 <= k < i && KeptAt(lines, k, key, last[key], window, norm);
      assert Echoes(lines, i, k, window, norm);
    }
  }

  lemma {:induction false} LatestMoves(lines: seq<TranscriptLine>, i: nat, last: map<Key, real>, window: real, norm: string -> string)
    requires window > 0.0 && i < |lines| && LatestKept(lines, i, last, window, norm)
    ensures
      var key := KeyOf(lines[i], norm);
      LatestKept(lines, i + 1,
        if Survives(lines, i, window, norm) then last[key := lines[i].startTime] else last, window, norm)
  {
    var key := KeyOf(lines[i], norm);
    if Survives(lines, i, window, norm) {
      var after := last[key := lines[i].startTime];
      LatestDecides(lines, i, last, window, norm);
      assert KeptAt(lines, i, key, after[key], window, norm);
      forall other | other in after
        ensures exists k | 0 <= k < i + 1 :: KeptAt(lines, k, other, after[other], window, norm)
      {
        if other != key {
          var k :| 0 <= k < i && KeptAt(lines, k, other, last[other], window, norm);
        }
      }
    }
  }

  method DropRepeats(lines: seq<TranscriptLine>, window: real, norm: string -> string)
    returns (result: seq<TranscriptLine>)
    ensures result == WithoutRepeats(lines, window, norm)
  {
    if window <= 0.0 {
      return lines;
    }
    ghost var keep := Survivors(lines, window, norm);
    var lastKept: map<Key, real> := map[];
    result := [];
    for i := 0 to |lines|
      invariant result == Pick(lines, Chosen(i, keep))
      invariant LatestKept(lines, i, lastKept, window, norm)
    {
      KeepGrows(lines, i, keep);
      LatestDecides(lines, i, lastKept, window, norm);
      LatestMoves(lines, i, lastKept, window, norm);
      var key := Key(lines[i].speakerName, norm(lines[i].text));
      if key in lastKept && lines[i].startTime - lastKept[key] <= window {
        continue;
      }
      lastKept := lastKept[key := lines[i].startTime];
      result := result + [lines[i]];
    }
  }

  predicate StartOrdered(lines: seq<TranscriptLine>) {
    forall i, j | 0 <= i < j < |lines| :: lines[i].startTime <= lines[j].startTime
  }

  predicate SaysTheSame(a: TranscriptLine, b: TranscriptLine, norm: string -> string) {
    a.speakerName == b.speakerName && norm(a.text) == norm(b.text)
  }

  /** What the one-pass filter means: survivors with the same speaker and words are more than the
      window apart, and on ordered lines each dropped line follows such a survivor within it. */
  lemma {:induction false} RepeatsAreApart(lines: seq<TranscriptLine>, window: real, norm: string -> string)
    requires window > 0.0
    ensures
      var r := WithoutRepeats(lines, window, norm);
      forall i, j | 0 <= i < j < |r| && SaysTheSame(r[i], r[j], norm) :: r[j].startTime - r[i].startTime > window
    ensures StartOrdered(lines) ==>
      forall i | 0 <= i < |lines| && !Survives(lines, i, window, norm) ::
        exists k: nat :: k < i && Survives(lines, k, window, norm) && SaysTheSame(lines[k], lines[i], norm)
          && 0.0 <= lines[i].startTime - lines[k].startTime <= window
  {
    var at := Chosen(|lines|, Survivors(lines, window, norm));
    var r := WithoutRepeats(lines, window, norm);
    forall i, j | 0 <= i < j < |r| && SaysTheSame(r[i], r[j], norm) ensures r[j].startTime - r[i].startTime > window {
      assert at[i] in at && at[j] in at;
      assert !Echoes(lines, at[j], at[i], window, norm);
    }
  }

  /** Dropping repeats again drops nothing more. */
  lemma {:induction false} RepeatsAreIdempotent(lines: seq<TranscriptLine>, window: real, norm: string -> string)
    ensures
      var r := WithoutRepeats(lines, window, norm);
      WithoutRepeats(r, window, norm) == r
  {
    if window > 0.0 {
      var r := WithoutRepeats(lines, window, norm);
      RepeatsAreApart(lines, window, norm);
      forall i: nat | i < |r| ensures Survives(r, i, window, norm) {
        forall k: nat | k < i ensures !Echoes(r, i, k, window, norm) {
        }
      }
      KeepAll(r, Survivors(r, window, norm));
    }
  }

  lemma {:induction false} KeepAll(lines: seq<TranscriptLine>, keep: Choice)
    requires forall i: nat | i < |lines| :: keep(i)
    ensures Keep(lines, keep) == lines
  {
    ChosenAll(|lines|, keep);
  }

  function FirstOnes(n: nat): (at: seq<nat>)
    ensures |at| == n && forall i | 0 <= i < n :: at[i] == i
  {
    seq(n, (i: nat) => i)
  }

  lemma {:induction false} ChosenAll(n: nat, keep: Choice)
    requires forall i: nat | i < n :: keep(i)
    ensures Chosen(n, keep) == FirstOnes(n)
  {
    if n > 0 {
      ChosenAll(n - 1, keep);
      assert FirstOnes(n) == FirstOnes(n - 1) + [n - 1];
    }
  }

  // ---------------------------------------------------------------------------
  // Duplicate segments

  datatype SegmentKey = SegmentKey(speaker: Option<string>, text: string, start: int, end: int)

  function SegmentOf(line: TranscriptLine, norm: string -> string, round: real -> int): SegmentKey {
    SegmentKey(line.speakerName, norm(line.text), round(line.startTime), round(line.endTime))
  }

  predicate FirstOfItsKey(lines: seq<TranscriptLine>, i: nat, norm: string -> string, round: real -> int) {
    i < |lines| ==>
      forall k: nat | k < i :: SegmentOf(lines[k], norm, round) != SegmentOf(lines[i], norm, round)
  }

  function Firsts(lines: seq<TranscriptLine>, norm: string -> string, round: real -> int): Choice {
    (i: nat) => FirstOfItsKey(lines, i, norm, round)
  }

  function WithoutDuplicates(lines: seq<TranscriptLine>, norm: string -> string, round: real -> int)
    : seq<TranscriptLine>
  {
    Keep(lines, Firsts(lines, norm, round))
  }

  /** `seen` holds the keys of the first `n` lines. */
  ghost predicate Seen(seen: set<SegmentKey>, lines: seq<TranscriptLine>, n: nat, norm: string -> string, round: real -> int)
    requires n <= |lines|
  {
    && (forall k | 0 <= k < n :: SegmentOf(lines[k], norm, round) in seen)
    && forall key <- seen :: exists k: nat :: k < n && SegmentOf(lines[k], norm, round) == key
  }

  lemma {:induction false} SeenDecides(seen: set<SegmentKey>, lines: seq<TranscriptLine>, n: nat, norm: string -> string, round: real -> int)
    requires n < |lines| && Seen(seen, lines, n, norm, round)
    ensures SegmentOf(lines[n], norm, round) !in seen <==> FirstOfItsKey(lines, n, norm, round)
    ensures Seen(seen + {SegmentOf(lines[n], norm, round)}, lines, n + 1, norm, round)
  {
  }

  method DropDuplicateSegments(lines: seq<TranscriptLine>, norm: string -> string, round: real -> int)
    returns (result: seq<TranscriptLine>)
    ensures result == WithoutDuplicates(lines, norm, round)
  {
    ghost var keep := Firsts(lines, norm, round);
    var seen: set<SegmentKey> := {};
    result := [];
    for i := 0 to |lines|
      invariant result == Pick(lines, Chosen(i, keep))
      invariant Seen(seen, lines, i, norm, round)
    {
      KeepGrows(lines, i, keep);
      SeenDecides(seen, lines, i, norm, round);
      var key := SegmentKey(lines[i].speakerName, norm(lines[i].text), round(lines[i].startTime), round(lines[i].endTime));
      assert key in seen ==> seen + {key} == seen;
      if key in seen {
        continue;
      }
      seen := seen + {key};
      result := result + [lines[i]];
    }
  }

  /** Every key of the input is in the result exactly once, on the first line that had it. */
  lemma {:induction false} DuplicatesLeaveOneOfEach(lines: seq<TranscriptLine>, norm: string -> string, round: real -> int, i: nat)
    requires i < |lines|
    ensures
      var r := WithoutDuplicates(lines, norm, round);
      && (exists j :: 0 <= j < |r| && SegmentOf(r[j], norm, round) == SegmentOf(lines[i], norm, round))
      && (forall j, k | 0 <= j < k < |r| :: SegmentOf(r[j], norm, round) != SegmentOf(r[k], norm, round))
  {
    var keep := Firsts(lines, norm, round);
    var at, r := Chosen(|lines|, keep), WithoutDuplicates(lines, norm, round);
    var first := FirstWithKey(lines, i, norm, round);
    assert first in at;
    var j :| 0 <= j < |at| && at[j] == first;
    assert r[j] == lines[first];
    forall j, k | 0 <= j < k < |r| ensures SegmentOf(r[j], norm, round) != SegmentOf(r[k], norm, round) {
      assert at[k] in at;
    }
  }

  lemma {:induction false} FirstWithKey(lines: seq<TranscriptLine>, i: nat, norm: string -> string, round: real -> int)
    returns (first: nat)
    requires i < |lines|
    ensures first <= i && FirstOfItsKey(lines, first, norm, round)
    ensures SegmentOf(lines[first], norm, round) == SegmentOf(lines[i], norm, round)
  {
    if FirstOfItsKey(lines, i, norm, round) {
      first := i;
    } else {
      var k: nat :| k < i && SegmentOf(lines[k], norm, round) == SegmentOf(lines[i], norm, round);
      first := FirstWithKey(lines, k, norm, round);
    }
  }
}
