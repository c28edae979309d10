/** Redaction of known secrets (k2do/agent/tools/mcp.py, 769-798). */
module ExactRedaction {
  import opened Prelude
  import opened TextRanges

  const MARKER := "[REDACTED]"

  predicate CoversAt(value: string, secret: string, i: nat, p: int) {
    OccursAt(value, secret, i) && i <= p < i + |secret|
  }

  /** Position `p` belongs to some occurrence of some secret; occurrences may overlap. */
  predicate Covered(value: string, secrets: seq<string>, p: int) {
    exists k, i | 0 <= k < |secrets| && 0 <= i <= |value| :: CoversAt(value, secrets[k], i, p)
  }

  predicate IsCover(value: string, secrets: seq<string>, mask: seq<bool>) {
    |mask| == |value| && forall p | 0 <= p < |value| :: mask[p] <==> Covered(value, secrets, p)
  }

  /** The covered positions of `value`. */
  ghost function Cover(value: string, secrets: seq<string>): (mask: seq<bool>)
    ensures IsCover(value, secrets, mask)
  {
    seq(|value|, p requires 0 <= p < |value| => Covered(value, secrets, p))
  }

  // ---------- what redaction means, position by position ----------

  /** Uncovered characters stay; each maximal covered run becomes one marker. */
  function Masked(value: string, mask: seq<bool>, k: nat): string
    requires k <= |value| == |mask|
  {
    if k == 0 then ""
    else if !mask[k - 1] then Masked(value, mask, k - 1) + [value[k - 1]]
    else if k == 1 || !mask[k - 2] then Masked(value, mask, k - 1) + MARKER
    else Masked(value, mask, k - 1)
  }

  /** The text with every known secret redacted. */
  ghost function Redacted(value: string, secrets: seq<string>): string {
    Masked(value, Cover(value, secrets), |value|)
  }

  /** A maximal run of covered positions. */
  predicate IsRun(mask: seq<bool>, range: Range) {
    && range.start < range.end <= |mask| && range.text == MARKER
    && (forall p | range.start <= p < range.end :: mask[p])
    && (range.start == 0 || !mask[range.start - 1])
    && (range.end == |mask| || !mask[range.end])
  }

  predicate NoneCovered(mask: seq<bool>, from: nat, to: nat) {
    forall p | from <= p < to && p < |mask| :: !mask[p]
  }

  /** The ranges are the maximal covered runs up to the end of the last one, in order. */
  predicate RunsSoFar(mask: seq<bool>, ranges: seq<Range>) {
    ranges != [] ==>
      var front, last := ranges[..|ranges| - 1], ranges[|ranges| - 1];
      && RunsSoFar(mask, front)
      && IsRun(mask, last)
      && End(front) <= last.start && NoneCovered(mask, End(front), last.start)
  }

  predicate AreRuns(mask: seq<bool>, ranges: seq<Range>) {
    RunsSoFar(mask, ranges) && End(ranges) <= |mask| && NoneCovered(mask, End(ranges), |mask|)
  }

  lemma {:induction false} RunsCover(mask: seq<bool>, ranges: seq<Range>, p: nat)
    requires RunsSoFar(mask, ranges) && p < End(ranges) && p < |mask|
    ensures mask[p] <==> InSome(ranges, p)
  {
    var front, last := ranges[..|ranges| - 1], ranges[|ranges| - 1];
    if p < End(front) {
      RunsCover(mask, front, p);
      if InSome(front, p) {
        var k :| 0 <= k < |front| && InRange(front[k], p);
        assert InRange(ranges[k], p);
      }
      if InSome(ranges, p) {
        var k :| 0 <= k < |ranges| && InRange(ranges[k], p);
        assert InRange(front[k], p);
      }
    } else if p < last.start {
      RunsEndBy(mask, front);
      forall k | 0 <= k < |ranges| ensures !InRange(ranges[k], p) {
        assert k < |front| ==> ranges[k] == front[k];
      }
    } else {
      assert InRange(ranges[|ranges| - 1], p);
    }
  }

  lemma {:induction false} RunsEndBy(mask: seq<bool>, ranges: seq<Range>)
    requires RunsSoFar(mask, ranges)
    ensures forall k | 0 <= k < |ranges| :: ranges[k].end <= End(ranges)
  {
    if ranges != [] {
      RunsEndBy(mask, ranges[..|ranges| - 1]);
    }
  }

  lemma {:induction false} RunsAreOrdered(mask: seq<bool>, ranges: seq<Range>)
    requires RunsSoFar(mask, ranges)
    ensures Ordered(ranges, |mask|)
    ensures forall range | range in ranges :: IsRun(mask, range)
  {
    if ranges != [] {
      RunsAreOrdered(mask, ranges[..|ranges| - 1]);
    }
  }

  /** The runs found are ordered and maximal, and a position is covered exactly when it lies in one. */
  lemma {:induction false} AllTheRuns(mask: seq<bool>, ranges: seq<Range>)
    requires AreRuns(mask, ranges)
    ensures Ordered(ranges, |mask|)
    ensures forall range | range in ranges :: IsRun(mask, range)
    ensures forall p | 0 <= p < |mask| :: mask[p] <==> InSome(ranges, p)
  {
    RunsAreOrdered(mask, ranges);
    RunsEndBy(mask, ranges);
    forall p | 0 <= p < |mask| ensures mask[p] <==> InSome(ranges, p) {
      if p < End(ranges) {
        RunsCover(mask, ranges, p);
      }
    }
  }

  lemma {:induction false} PlainStretch(value: string, mask: seq<bool>, from: nat, to: nat)
    requires from <= to <= |value| == |mask|
    requires forall p | from <= p < to :: !mask[p]
    ensures Masked(value, mask, to) == Masked(value, mask, from) + value[from..to]
  {
    if from < to {
      PlainStretch(value, mask, from, to - 1);
      assert value[from..to] == value[from..to - 1] + [value[to - 1]];
    }
  }

  lemma {:induction false} RunStretch(value: string, mask: seq<bool>, start: nat, to: nat)
    requires start < to <= |value| == |mask|
    requires forall p | start <= p < to :: mask[p]
    requires start == 0 || !mask[start - 1]
    ensures Masked(value, mask, to) == Masked(value, mask, start) + MARKER
  {
    if start + 1 < to {
      RunStretch(value, mask, start, to - 1);
      assert mask[to - 2];
    }
  }

  lemma {:induction false} RunsGivePieces(value: string, mask: seq<bool>, ranges: seq<Range>)
    requires RunsSoFar(mask, ranges) && |value| == |mask|
    ensures End(ranges) <= |value| && Pieces(value, ranges) == Masked(value, mask, End(ranges))
  {
    if ranges != [] {
      var front, last := ranges[..|ranges| - 1], ranges[|ranges| - 1];
      RunsGivePieces(value, mask, front);
      PlainStretch(value, mask, End(front), last.start);
      RunStretch(value, mask, last.start, last.end);
    }
  }

  /** Replacing the maximal runs is redaction position by position. */
  lemma {:induction false} RunsGiveMasked(value: string, mask: seq<bool>, ranges: seq<Range>)
    requires AreRuns(mask, ranges) && |value| == |mask|
    ensures Interleaved(value, ranges) == Masked(value, mask, |value|)
  {
    RunsGivePieces(value, mask, ranges);
    PlainStretch(value, mask, End(ranges), |value|);
  }

  // ---------- the two loops ----------

  /** Position `p` is covered by an occurrence of `secret` that starts before `n`. */
  predicate CoveredBefore(value: string, secret: string, n: nat, p: int) {
    n > 0 && (CoveredBefore(value, secret, n - 1, p) || CoversAt(value, secret, n - 1, p))
  }

  /** Position `p` is covered by one of the first `k` secrets. */
  predicate CoveredByFirst(value: string, secrets: seq<string>, k: nat, p: int)
    requires k <= |secrets|
  {
    k > 0 && (CoveredByFirst(value, secrets, k - 1, p) || CoveredBefore(value, secrets[k - 1], |value| + 1, p))
  }

  lemma {:induction false} CoveredBeforeIff(value: string, secret: string, n: nat, p: int)
    ensures CoveredBefore(value, secret, n, p) <==> exists i | 0 <= i < n :: CoversAt(value, secret, i, p)
  {
    if n > 0 {
      CoveredBeforeIff(value, secret, n - 1, p);
    }
  }

  lemma {:induction false} CoveredByFirstIff(value: string, secrets: seq<string>, k: nat, p: int)
    requires k <= |secrets|
    ensures CoveredByFirst(value, secrets, k, p) <==>
            exists j, i | 0 <= j < k && 0 <= i <= |value| :: CoversAt(value, secrets[j], i, p)
  {
    if k > 0 {
      CoveredByFirstIff(value, secrets, k - 1, p);
      CoveredBeforeIff(value, secrets[k - 1], |value| + 1, p);
    }
  }

  lemma {:induction false} NothingBetween(value: string, secret: string, from: nat, to: nat, p: int)
    requires from <= to && forall i | from <= i < to :: !OccursAt(value, secret, i)
    ensures CoveredBefore(value, secret, to, p) <==> CoveredBefore(value, secret, from, p)
  {
    if from < to {
      NothingBetween(value, secret, from, to - 1, p);
    }
  }

  /** `str.find` with a start position. */
  method Find(value: string, secret: string, from: nat) returns (found: Option<nat>)
    ensures found.Some? ==> from <= found.value && OccursAt(value, secret, found.value)
    ensures forall i | from <= i < (if found.Some? then found.value else |value| + 1) :: !OccursAt(value, secret, i)
  {
    var i := from;
    while i + |secret| <= |value|
      invariant from <= i
      invariant forall j | from <= j < i :: !OccursAt(value, secret, j)
    {
      if value[i..i + |secret|] == secret {
        return Some(i);
      }
      i := i + 1;
    }
    return None;
  }

  /** Mark every position of every occurrence of one secret. */
  method MarkOccurrences(value: string, secret: string, covered: array<bool>)
    requires covered.Length == |value|
    modifies covered
    ensures forall p | 0 <= p < |value| ::
              covered[p] == (old(covered[p]) || CoveredBefore(value, secret, |value| + 1, p))
  {
    var cursor := 0;
    var start := Find(value, secret, cursor);
    while start.Some?
      invariant cursor <= |value| + 1
      invariant start.Some? ==> cursor <= start.value && OccursAt(value, secret, start.value)
      invariant forall i | cursor <= i < (if start.Some? then start.value else |value| + 1) :: !OccursAt(value, secret, i)
      invariant forall p | 0 <= p < |value| :: covered[p] == (old(covered[p]) || CoveredBefore(value, secret, cursor, p))
      decreases |value| + 1 - cursor
    {
      var at := start.value;
      forall p | 0 <= p < |value|
        ensures CoveredBefore(value, secret, at + 1, p) <==> CoveredBefore(value, secret, cursor, p) || CoversAt(value, secret, at, p)
      {
        NothingBetween(value, secret, cursor, at, p);
      }
      forall p | at <= p < at + |secret| {
        covered[p] := true;
      }
      cursor := at + 1;
      start := Find(value, secret, cursor);
    }
    forall p | 0 <= p < |value|
      ensures CoveredBefore(value, secret, |value| + 1, p) <==> CoveredBefore(value, secret, cursor, p)
    {
      NothingBetween(value, secret, cursor, |value| + 1, p);
    }
  }

  lemma {:induction false} OneMoreRun(mask: seq<bool>, ranges: seq<Range>, range: Range)
    requires RunsSoFar(mask, ranges) && IsRun(mask, range)
    requires End(ranges) <= range.start && NoneCovered(mask, End(ranges), range.start)
    ensures RunsSoFar(mask, ranges + [range]) && End(ranges + [range]) == range.end
  {
    assert (ranges + [range])[..|ranges|] == ranges;
  }

  /** Collect the maximal runs of marked positions. */
  method CollectRuns(covered: array<bool>) returns (ranges: seq<Range>)
    ensures AreRuns(covered[..], ranges)
  {
    ghost var mask := covered[..];
    ranges := [];
    var cursor := 0;
    while cursor < covered.Length
      invariant cursor <= covered.Length && RunsSoFar(mask, ranges)
      invariant End(ranges) <= cursor && NoneCovered(mask, End(ranges), cursor)
      invariant End(ranges) == 0 || End(ranges) == |mask| || !mask[End(ranges)]
    {
      if !covered[cursor] {
        cursor := cursor + 1;
      } else {
        var end := cursor + 1;
        while end < covered.Length && covered[end]
          invariant cursor < end <= covered.Length
          invariant forall p | cursor <= p < end :: mask[p]
        {
          end := end + 1;
        }
        OneMoreRun(mask, ranges, Range(cursor, end, MARKER));
        ranges := ranges + [Range(cursor, end, MARKER)];
        cursor := end;
      }
    }
  }

  /** The ranges of a text that hold known secrets. */
  method ExactValueRanges(value: string, secrets: seq<string>) returns (ranges: seq<Range>)
    ensures AreRuns(Cover(value, secrets), ranges)
  {
    if secrets == [] || value == "" {
      return [];
    }
    var covered := new bool[|value|](_ => false);
    var k := 0;
    while k < |secrets|
      invariant 0 <= k <= |secrets|
      invariant forall p | 0 <= p < |value| :: covered[p] == CoveredByFirst(value, secrets, k, p)
    {
      MarkOccurrences(value, secrets[k], covered);
      k := k + 1;
    }
    forall p | 0 <= p < |value| ensures covered[p] <==> Covered(value, secrets, p) {
      CoveredByFirstIff(value, secrets, |secrets|, p);
    }
    ranges := CollectRuns(covered);
    assert covered[..] == Cover(value, secrets);
  }

  /** Every known secret is replaced: what stays is exactly the uncovered text, in order. */
  method RedactExactValues(value: string, secrets: seq<string>) returns (out: string)
    ensures out == Redacted(value, secrets)
  {
    var ranges := ExactValueRanges(value, secrets);
    out := ReplaceRanges(value, ranges);
    AllTheRuns(Cover(value, secrets), ranges);
    OrderedIsApplied(ranges, |value|);
    RunsGiveMasked(value, Cover(value, secrets), ranges);
  }
}
