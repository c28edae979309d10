/** The scanner for tokens with a known prefix (k2do/agent/tools/mcp.py, 72-81, 982-1008).
    `alnum` stands for `str.isalnum` of one character. */
module TokenScanner {
  import opened Prelude
  import opened ScannerBasics
  import opened TextRanges

  const PREFIX_COUNT := 8

  function Prefix(k: nat): string
    requires k < PREFIX_COUNT
  {
    if k == 0 then "github_pat_" else if k == 1 then "ghp_" else if k == 2 then "gho_"
    else if k == 3 then "ghu_" else if k == 4 then "ghs_" else if k == 5 then "ghr_"
    else if k == 6 then "akia" else "sk-"
  }

  function MinimumTail(k: nat): nat
    requires k < PREFIX_COUNT
  {
    if k == 6 then 16 else 12
  }

  lemma {:induction false} PrefixShape(k: nat)
    requires k < PREFIX_COUNT
    ensures 3 <= |Prefix(k)| <= 11
    ensures forall o | 0 <= o < |Prefix(k)| - 1 :: 'a' <= Prefix(k)[o] <= 'z' || Prefix(k)[o] == '_'
    ensures 'a' <= Prefix(k)[|Prefix(k)| - 1] <= 'z' || Prefix(k)[|Prefix(k)| - 1] in "_-"
    ensures k == 6 ==> Prefix(k)[|Prefix(k)| - 1] == 'a'
  {
  }

  lemma {:induction false} PrefixesDiffer(value: string, j: nat, k: nat, p: int)
    requires j < PREFIX_COUNT && k < PREFIX_COUNT && Matches(value, Prefix(j), p) && Matches(value, Prefix(k), p)
    ensures j == k
  {
    PrefixShape(j);
    PrefixShape(k);
    assert Lower(value[p + 0]) == Prefix(j)[0] == Prefix(k)[0];
    assert Lower(value[p + 1]) == Prefix(j)[1] == Prefix(k)[1];
    assert Lower(value[p + 2]) == Prefix(j)[2] == Prefix(k)[2];
  }

  predicate WordBefore(value: string, alnum: char -> bool, p: nat)
    requires p <= |value|
  {
    p > 0 && (alnum(value[p - 1]) || value[p - 1] == '_')
  }

  /** A recognizable token with prefix number `k` starts at `p`. */
  predicate TokenAt(value: string, alnum: char -> bool, p: nat, k: nat) {
    && k < PREFIX_COUNT && Matches(value, Prefix(k), p) && !WordBefore(value, alnum, p)
    && RunEnd(value, p + |Prefix(k)|) - p - |Prefix(k)| >= MinimumTail(k)
  }

  /** Every token that starts before `n` is covered. */
  predicate TokensCovered(value: string, alnum: char -> bool, ranges: seq<Range>, n: nat) {
    forall p, k | 0 <= p < n && 0 <= k < PREFIX_COUNT && TokenAt(value, alnum, p, k) :: InSome(ranges, p)
  }

  /** No token starts inside a prefix. */
  lemma {:induction false} NotInsidePrefix(value: string, alnum: char -> bool, start: nat, k: nat, p: nat, j: nat)
    requires KnowsAscii(alnum) && k < PREFIX_COUNT && Matches(value, Prefix(k), start)
    requires start < p < start + |Prefix(k)|
    ensures !TokenAt(value, alnum, p, j)
  {
    PrefixShape(k);
    LowerShape(value[p - 1]);
    assert Lower(value[start + (p - 1 - start)]) == Prefix(k)[p - 1 - start];
  }

  lemma {:induction false} PrefixIsRun(value: string, k: nat, p: nat)
    requires k < PREFIX_COUNT && Matches(value, Prefix(k), p)
    ensures p + |Prefix(k)| <= |value| && RunEnd(value, p + |Prefix(k)|) == RunEnd(value, p)
  {
    PrefixShape(k);
    forall x | p <= x < p + |Prefix(k)| ensures TokenCharacter(value[x]) {
      LowerShape(value[x]);
      assert Lower(value[p + (x - p)]) == Prefix(k)[x - p];
    }
    RunEndIs(value, p, p + |Prefix(k)|);
  }

  /** A tail that is too short holds no token either. */
  lemma {:induction false} NotInsideShortTail(value: string, alnum: char -> bool, start: nat, k: nat, p: nat, j: nat)
    requires KnowsAscii(alnum) && k < PREFIX_COUNT && j < PREFIX_COUNT && Matches(value, Prefix(k), start)
    requires RunEnd(value, start + |Prefix(k)|) - start - |Prefix(k)| < MinimumTail(k)
    requires start + |Prefix(k)| <= p < RunEnd(value, start + |Prefix(k)|)
    ensures !TokenAt(value, alnum, p, j)
  {
    RunIsToken(value, start + |Prefix(k)|, p);
    PrefixShape(j);
    PrefixShape(k);
    if k == 6 && p == start + 4 {
      LowerShape(value[start + 3]);
      assert Lower(value[start + 3]) == Prefix(k)[3];
      assert WordBefore(value, alnum, p);
    } else if Matches(value, Prefix(j), p) {
      PrefixIsRun(value, j, p);
    }
  }

  /** What one match adds: after it, every token up to the end of its run is covered. */
  lemma {:induction false} MatchSettled(value: string, alnum: char -> bool, ranges: seq<Range>, more: seq<Range>, start: nat, k: nat)
    requires KnowsAscii(alnum) && k < PREFIX_COUNT && Matches(value, Prefix(k), start) && !WordBefore(value, alnum, start)
    requires TokensCovered(value, alnum, ranges, start) && (forall p | InSome(ranges, p) :: InSome(more, p))
    requires TokenAt(value, alnum, start, k) ==>
               forall p | start <= p < RunEnd(value, start + |Prefix(k)|) :: InSome(more, p)
    ensures TokensCovered(value, alnum, more, RunEnd(value, start + |Prefix(k)|))
  {
    var end := RunEnd(value, start + |Prefix(k)|);
    forall p, j | 0 <= p < end && 0 <= j < PREFIX_COUNT && TokenAt(value, alnum, p, j) ensures InSome(more, p) {
      if p < start {
        assert InSome(ranges, p);
      } else if p == start {
        PrefixesDiffer(value, j, k, p);
      } else if p < start + |Prefix(k)| {
        NotInsidePrefix(value, alnum, start, k, p, j);
      } else if !TokenAt(value, alnum, start, k) {
        NotInsideShortTail(value, alnum, start, k, p, j);
      }
    }
  }

  method FirstPrefix(value: string, cursor: nat) returns (matched: Option<nat>)
    ensures matched.Some? ==> matched.value < PREFIX_COUNT && Matches(value, Prefix(matched.value), cursor)
    ensures matched.None? ==> forall k | 0 <= k < PREFIX_COUNT :: !Matches(value, Prefix(k), cursor)
  {
    var k := 0;
    while k < PREFIX_COUNT
      invariant 0 <= k <= PREFIX_COUNT
      invariant forall j | 0 <= j < k :: !Matches(value, Prefix(j), cursor)
    {
      var found := AsciiStartsWith(value, Prefix(k), cursor);
      if found {
        return Some(k);
      }
      k := k + 1;
    }
    return None;
  }

  /** The range is a whole token. */
  predicate IsToken(value: string, alnum: char -> bool, range: Range) {
    range.text == "[REDACTED TOKEN]" && exists k | 0 <= k < PREFIX_COUNT ::
      TokenAt(value, alnum, range.start, k) && range.end == RunEnd(value, range.start + |Prefix(k)|)
  }

  /** The text before `cursor` has been scanned for tokens. */
  predicate TokensScanned(value: string, alnum: char -> bool, ranges: seq<Range>, cursor: nat) {
    && cursor <= |value| && Ordered(ranges, |value|) && End(ranges) <= cursor
    && TokensCovered(value, alnum, ranges, cursor)
    && forall range | range in ranges :: IsToken(value, alnum, range)
  }

  lemma {:induction false} NoTokenHere(value: string, alnum: char -> bool, ranges: seq<Range>, cursor: nat)
    requires TokensScanned(value, alnum, ranges, cursor) && cursor < |value|
    requires forall k | 0 <= k < PREFIX_COUNT :: !TokenAt(value, alnum, cursor, k)
    ensures TokensScanned(value, alnum, ranges, cursor + 1)
  {
  }

  /** One match of a prefix at the cursor. */
  method ScanToken(value: string, alnum: char -> bool, ranges: seq<Range>, start: nat, k: nat)
    returns (ranges': seq<Range>, cursor: nat)
    requires KnowsAscii(alnum) && TokensScanned(value, alnum, ranges, start) && start < |value|
    requires k < PREFIX_COUNT && Matches(value, Prefix(k), start)
    ensures TokensScanned(value, alnum, ranges', cursor) && cursor > start
  {
    PrefixShape(k);
    ranges' := ranges;
    if start > 0 && (alnum(value[start - 1]) || value[start - 1] == '_') {
      NoTokenHere(value, alnum, ranges, start);
      return ranges, start + 1;
    }
    cursor := SkipTokens(value, start + |Prefix(k)|);
    if cursor - start - |Prefix(k)| >= MinimumTail(k) {
      var token := Range(start, cursor, "[REDACTED TOKEN]");
      OneMore(ranges, token, |value|);
      assert TokenAt(value, alnum, start, k);
      ranges' := ranges' + [token];
    }
    MatchSettled(value, alnum, ranges, ranges', start, k);
  }

  /** Every prefixed token of the text is replaced, whole, and nothing else is. */
  method RedactPrefixedTokens(value: string, alnum: char -> bool) returns (out: string, ranges: seq<Range>)
    requires KnowsAscii(alnum)
    ensures Ordered(ranges, |value|) && out == Interleaved(value, ranges)
    ensures TokensCovered(value, alnum, ranges, |value|)
    ensures forall range | range in ranges :: IsToken(value, alnum, range)
  {
    ranges := [];
    var cursor := 0;
    while cursor < |value|
      invariant TokensScanned(value, alnum, ranges, cursor)
    {
      var matched := FirstPrefix(value, cursor);
      if matched.None? {
        NoTokenHere(value, alnum, ranges, cursor);
        cursor := cursor + 1;
      } else {
        ranges, cursor := ScanToken(value, alnum, ranges, cursor, matched.value);
      }
    }
    AllApplied(ranges, |value|);
    out := ReplaceRanges(value, ranges);
  }
}
