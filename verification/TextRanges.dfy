/** Texts, ranges of a text, and their replacement (k2do/agent/tools/mcp.py, 728-740). */
module TextRanges {
  datatype Range = Range(start: nat, end: nat, text: string)

  /** `part` stands at position `i`. */
  predicate OccursAt(text: string, part: string, i: nat) {
    i + |part| <= |text| && text[i..i + |part|] == part
  }

  predicate Contains(text: string, part: string) {
    exists i | 0 <= i <= |text| :: OccursAt(text, part, i)
  }

  predicate InRange(range: Range, p: int) {
    range.start <= p < range.end
  }

  predicate InSome(ranges: seq<Range>, p: int) {
    exists k | 0 <= k < |ranges| :: InRange(ranges[k], p)
  }

  /** Non-empty, in bounds, in order, not overlapping. */
  predicate Ordered(ranges: seq<Range>, size: nat) {
    ranges != [] ==>
      var last := ranges[|ranges| - 1];
      && Ordered(ranges[..|ranges| - 1], size)
      && End(ranges[..|ranges| - 1]) <= last.start < last.end <= size
  }

  function End(ranges: seq<Range>): nat {
    if ranges == [] then 0 else ranges[|ranges| - 1].end
  }

  /** A slice clamps its bounds to the text. */
  function Slice(value: string, from: nat, to: nat): string {
    var upper := if to <= |value| then to else |value|;
    if from <= upper then value[from..upper] else ""
  }

  /** The text up to the end of the last range: kept pieces and replacements in turn. */
  function Pieces(value: string, ranges: seq<Range>): string {
    if ranges == [] then ""
    else
      var front, last := ranges[..|ranges| - 1], ranges[|ranges| - 1];
      Pieces(value, front) + Slice(value, End(front), last.start) + last.text
  }

  function Interleaved(value: string, ranges: seq<Range>): string {
    Pieces(value, ranges) + Slice(value, End(ranges), |value|)
  }

  /** The ranges that are applied: a range that starts too early, or is empty, is skipped. */
  function Applied(ranges: seq<Range>): seq<Range> {
    if ranges == [] then []
    else
      var front, last := Applied(ranges[..|ranges| - 1]), ranges[|ranges| - 1];
      if last.start < End(front) || last.end <= last.start then front else front + [last]
  }

  lemma {:induction false} AppliedIsOrdered(ranges: seq<Range>, size: nat)
    requires forall range | range in ranges :: range.end <= size
    ensures Ordered(Applied(ranges), size)
  {
    if ranges != [] {
      var front, last := Applied(ranges[..|ranges| - 1]), ranges[|ranges| - 1];
      AppliedIsOrdered(ranges[..|ranges| - 1], size);
      assert (front + [last])[..|front|] == front;
    }
  }

  /** Nothing is skipped exactly when the ranges are ordered. */
  lemma {:induction false} OrderedIsApplied(ranges: seq<Range>, size: nat)
    requires forall range | range in ranges :: range.end <= size
    ensures Ordered(ranges, size) <==> Applied(ranges) == ranges
  {
    if ranges != [] {
      var front, last := ranges[..|ranges| - 1], ranges[|ranges| - 1];
      OrderedIsApplied(front, size);
      AppliedIsShorter(front);
      assert front + [last] == ranges;
      if Applied(ranges) == ranges {
        assert Applied(ranges)[..|ranges| - 1] == front;
      }
    }
  }

  lemma {:induction false} AppliedIsShorter(ranges: seq<Range>)
    ensures |Applied(ranges)| <= |ranges|
  {
    if ranges != [] {
      AppliedIsShorter(ranges[..|ranges| - 1]);
    }
  }

  lemma {:induction false} OneMoreRange(value: string, ranges: seq<Range>, range: Range)
    ensures Pieces(value, ranges + [range]) == Pieces(value, ranges) + Slice(value, End(ranges), range.start) + range.text
    ensures End(ranges + [range]) == range.end
  {
    assert (ranges + [range])[..|ranges|] == ranges;
  }

  lemma {:induction false} AppliedStep(ranges: seq<Range>, k: nat)
    requires k < |ranges|
    ensures Applied(ranges[..k + 1]) ==
            var front := Applied(ranges[..k]);
            if ranges[k].start < End(front) || ranges[k].end <= ranges[k].start then front else front + [ranges[k]]
  {
    assert ranges[..k + 1][..k] == ranges[..k];
  }

  method ReplaceRanges(value: string, ranges: seq<Range>) returns (out: string)
    ensures out == Interleaved(value, Applied(ranges))
  {
    if ranges == [] {
      return value;
    }
    var pieces := "";
    var cursor := 0;
    var k := 0;
    while k < |ranges|
      invariant 0 <= k <= |ranges|
      invariant cursor == End(Applied(ranges[..k])) && pieces == Pieces(value, Applied(ranges[..k]))
    {
      AppliedStep(ranges, k);
      var range := ranges[k];
      if !(range.start < cursor || range.end <= range.start) {
        OneMoreRange(value, Applied(ranges[..k]), range);
        pieces := pieces + Slice(value, cursor, range.start) + range.text;
        cursor := range.end;
      }
      k := k + 1;
    }
    assert ranges[..k] == ranges;
    out := pieces + Slice(value, cursor, |value|);
  }

  /** One replacement, on its own. */
  function Replaced(value: string, range: Range): string
    requires range.start <= range.end <= |value|
  {
    value[..range.start] + range.text + value[range.end..]
  }

  lemma {:induction false} PiecesOnly(value: string, other: string, ranges: seq<Range>, size: nat)
    requires Ordered(ranges, |value|) && End(ranges) <= size <= |value| && size <= |other| && value[..size] == other[..size]
    ensures Pieces(value, ranges) == Pieces(other, ranges)
  {
    if ranges != [] {
      var front, last := ranges[..|ranges| - 1], ranges[|ranges| - 1];
      PiecesOnly(value, other, front, size);
      assert value[End(front)..last.start] == value[..size][End(front)..last.start];
      assert other[End(front)..last.start] == other[..size][End(front)..last.start];
    }
  }

  lemma {:induction false} LastReplaced(value: string, ranges: seq<Range>)
    requires Ordered(ranges, |value|) && ranges != []
    ensures var front, last := ranges[..|ranges| - 1], ranges[|ranges| - 1];
            && End(front) <= last.start <= last.end <= |value|
            && Interleaved(value, ranges) == Pieces(value, front) + value[End(front)..last.start] + last.text + value[last.end..]
  {
  }

  lemma {:induction false} RestKept(value: string, ranges: seq<Range>)
    requires End(ranges) <= |value|
    ensures Interleaved(value, ranges) == Pieces(value, ranges) + value[End(ranges)..]
  {
  }

  /** Ordered ranges are replaced as if one by one, from the last to the first. */
  lemma {:induction false} OneByOne(value: string, ranges: seq<Range>)
    requires Ordered(ranges, |value|) && ranges != []
    ensures var front, last := ranges[..|ranges| - 1], ranges[|ranges| - 1];
            last.start <= last.end <= |value| && Interleaved(value, ranges) == Interleaved(Replaced(value, last), front)
  {
    var front, last := ranges[..|ranges| - 1], ranges[|ranges| - 1];
    LastReplaced(value, ranges);
    ReplacedSlices(value, last, End(front));
    PiecesOnly(value, Replaced(value, last), front, last.start);
    RestKept(Replaced(value, last), front);
    Regroup(Pieces(value, front), Replaced(value, last)[End(front)..], value[End(front)..last.start], last.text, value[last.end..]);
  }

  /** And where there is nothing to replace, nothing changes. */
  lemma {:induction false} NothingReplaced(value: string)
    ensures Interleaved(value, []) == value
  {
  }

  lemma {:induction false} ReplacedSlices(value: string, range: Range, from: nat)
    requires from <= range.start <= range.end <= |value|
    ensures |Replaced(value, range)| >= range.start && Replaced(value, range)[..range.start] == value[..range.start]
    ensures Replaced(value, range)[from..] == value[from..range.start] + range.text + value[range.end..]
  {
  }

  lemma {:induction false} Regroup(a: string, rest: string, b: string, c: string, d: string)
    requires rest == b + c + d
    ensures a + b + c + d == a + rest
  {
  }
}
