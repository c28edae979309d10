/** The scanner for assignments to secret fields (k2do/agent/tools/mcp.py, 52-70, 884-945).
    `alnum` stands for `str.isalnum` of one character. */
module AssignmentScanner {
  import opened Prelude
  import opened ScannerBasics
  import opened TextRanges

  // ---------- what an assignment is ----------

  const FIELD_COUNT := 11

  /** The secret fields, longest first. */
  function Field(k: nat): string
    requires k < FIELD_COUNT
  {
    if k == 0 then "refresh_token" else if k == 1 then "refresh-token"
    else if k == 2 then "client_secret" else if k == 3 then "client-secret"
    else if k == 4 then "access_token" else if k == 5 then "access-token"
    else if k == 6 then "password" else if k == 7 then "api_key" else if k == 8 then "api-key"
    else if k == 9 then "secret" else "token"
  }

  predicate FieldLetter(c: char) {
    'a' <= c <= 'z' || c in "_-"
  }

  lemma {:induction false} FieldShape(k: nat, o: nat)
    requires k < FIELD_COUNT && o < |Field(k)|
    ensures FieldLetter(Field(k)[o])
  {
  }

  lemma {:induction false} FieldSize(k: nat)
    requires k < FIELD_COUNT
    ensures |Field(k)| > 0
  {
  }

  /** The first field from `k` on that stands at `p`. */
  function FirstFrom(value: string, p: nat, k: nat): (found: Option<nat>)
    requires k <= FIELD_COUNT
    ensures found.Some? ==> found.value < FIELD_COUNT && Matches(value, Field(found.value), p)
    decreases FIELD_COUNT - k
  {
    if k == FIELD_COUNT then None
    else if Matches(value, Field(k), p) then Some(k)
    else FirstFrom(value, p, k + 1)
  }

  /** Where the field name that stands at `p` ends. */
  function FieldEnd(value: string, p: nat): (end: Option<nat>)
    ensures end.Some? ==> p <= end.value <= |value|
  {
    match FirstFrom(value, p, 0)
    case None => None
    case Some(k) => Some(p + |Field(k)|)
  }

  predicate Quote(c: char) {
    c in "\"'"
  }

  predicate Sign(c: char) {
    c in ":="
  }

  predicate Delimiter(c: char) {
    c in " \t\r\n,;[]{}\"'"
  }

  predicate NameAt(value: string, alnum: char -> bool, i: nat)
    requires i <= |value|
  {
    i < |value| && !Quote(value[i]) && (alnum(value[i]) || value[i] in "_-")
  }

  /** No name goes on in front of `p` or from `i` on. */
  predicate WholeName(value: string, alnum: char -> bool, p: nat, i: nat)
    requires p <= i <= |value|
  {
    !NameBefore(value, alnum, p) && !NameAt(value, alnum, i)
  }

  /** From the end of a name, over a closing quote and blanks. */
  function SignPosition(value: string, i: nat): (at: nat)
    requires i <= |value|
    ensures i <= at <= |value|
  {
    BlankEnd(value, if i < |value| && Quote(value[i]) then i + 1 else i)
  }

  predicate HasSign(value: string, i: nat)
    requires i <= |value|
  {
    SignPosition(value, i) < |value| && Sign(value[SignPosition(value, i)])
  }

  /** From the end of a name to what is assigned to it. */
  function BehindSign(value: string, i: nat): (at: nat)
    requires i <= |value| && HasSign(value, i)
    ensures i < at <= |value|
  {
    BlankEnd(value, SignPosition(value, i) + 1)
  }

  /** A secret field stands at `p`, and is a whole name. */
  predicate NamedAt(value: string, alnum: char -> bool, p: nat) {
    FieldEnd(value, p).Some? && WholeName(value, alnum, p, FieldEnd(value, p).value)
  }

  /** The name at `p` has a sign behind it. */
  predicate SignedAt(value: string, alnum: char -> bool, p: nat) {
    NamedAt(value, alnum, p) && HasSign(value, FieldEnd(value, p).value)
  }

  function ValuePosition(value: string, alnum: char -> bool, p: nat): (at: nat)
    requires SignedAt(value, alnum, p)
    ensures p < at <= |value|
  {
    BehindSign(value, FieldEnd(value, p).value)
  }

  /** Where a value in `quote` marks ends: at the first mark that is not escaped, or with the text. */
  function QuoteEnd(value: string, quote: char, i: nat): (end: nat)
    requires i <= |value|
    ensures i <= end <= |value| && (end < |value| ==> value[end] == quote)
    decreases |value| - i
  {
    if i == |value| then i
    else if value[i] == '\\' && i + 1 < |value| then QuoteEnd(value, quote, i + 2)
    else if value[i] == quote then i
    else QuoteEnd(value, quote, i + 1)
  }

  function PlainEnd(value: string, i: nat): (end: nat)
    requires i <= |value|
    ensures i <= end <= |value|
    decreases |value| - i
  {
    if i < |value| && !Delimiter(value[i]) then PlainEnd(value, i + 1) else i
  }

  /** The value that stands at `at`, without its quotes. */
  function ValueAt(value: string, at: nat): (range: Range)
    requires at < |value|
    ensures at <= range.start <= range.end <= |value|
  {
    if Quote(value[at]) then Range(at + 1, QuoteEnd(value, value[at], at + 1), "[REDACTED]")
    else Range(at, PlainEnd(value, at), "[REDACTED]")
  }

  predicate Assigns(value: string, alnum: char -> bool, p: nat) {
    SignedAt(value, alnum, p) && ValuePosition(value, alnum, p) < |value|
  }

  function ValueOf(value: string, alnum: char -> bool, p: nat): (range: Range)
    requires Assigns(value, alnum, p)
    ensures p < range.start <= range.end <= |value|
  {
    ValueAt(value, ValuePosition(value, alnum, p))
  }

  /** A whole field name at `p`, a sign, and a value that is not empty. */
  predicate AssignmentAt(value: string, alnum: char -> bool, p: nat) {
    Assigns(value, alnum, p) && ValueOf(value, alnum, p).start < ValueOf(value, alnum, p).end
  }

  // ---------- what the scan keeps ----------

  /** The value of an assignment is replaced exactly when its name is not itself replaced. */
  predicate Settled(value: string, alnum: char -> bool, ranges: seq<Range>, p: nat) {
    AssignmentAt(value, alnum, p) ==> (ValueOf(value, alnum, p) in ranges <==> !InSome(ranges, p))
  }

  predicate IsAssigned(value: string, alnum: char -> bool, range: Range, n: nat) {
    exists p | 0 <= p < n :: AssignmentAt(value, alnum, p) && range == ValueOf(value, alnum, p)
  }

  predicate AssignmentsScanned(value: string, alnum: char -> bool, ranges: seq<Range>, cursor: nat) {
    && cursor <= |value| && Ordered(ranges, |value|) && End(ranges) <= cursor
    && (forall p | 0 <= p < cursor :: Settled(value, alnum, ranges, p))
    && (forall range | range in ranges :: IsAssigned(value, alnum, range, cursor))
  }

  /** Only characters of names stand in [p, i). */
  predicate NameText(value: string, p: nat, i: nat)
    requires i <= |value|
  {
    forall x | p <= x < i :: AsciiLetterOrDigit(value[x]) || value[x] in "_-"
  }

  lemma {:induction false} FieldIsName(value: string, p: nat)
    requires FieldEnd(value, p).Some?
    ensures p < FieldEnd(value, p).value && NameText(value, p, FieldEnd(value, p).value)
  {
    var k := FirstFrom(value, p, 0).value;
    FieldSize(k);
    forall x | p <= x < p + |Field(k)| ensures AsciiLetterOrDigit(value[x]) || value[x] in "_-" {
      FieldShape(k, x - p);
      LowerShape(value[x]);
      assert Lower(value[p + (x - p)]) == Field(k)[x - p];
    }
  }

  /** What stands at `q`, or in front of it, keeps a whole field name from starting there. */
  predicate NoStart(value: string, alnum: char -> bool, q: nat)
    requires q < |value|
  {
    NameBefore(value, alnum, q) || Quote(value[q]) || Blank(value[q]) || Sign(value[q])
  }

  lemma {:induction false} NotNamed(value: string, alnum: char -> bool, q: nat)
    requires q < |value| && NoStart(value, alnum, q)
    ensures !NamedAt(value, alnum, q)
  {
    if FieldEnd(value, q).Some? {
      FieldIsName(value, q);
      assert !(Quote(value[q]) || Blank(value[q]) || Sign(value[q]));
    }
  }

  lemma {:induction false} NoStartBeforeSign(value: string, alnum: char -> bool, i: nat, q: nat)
    requires i <= q < |value| && q < SignPosition(value, i)
    ensures NoStart(value, alnum, q)
  {
    if !(q == i && Quote(value[i])) {
      BlankRun(value, if Quote(value[i]) then i + 1 else i, q);
    }
  }

  /** No whole name starts between a name and its value. */
  lemma {:induction false} NoStartBetween(value: string, alnum: char -> bool, p: nat, i: nat, q: nat)
    requires KnowsAscii(alnum) && p < i <= |value| && NameText(value, p, i)
    requires HasSign(value, i) && p < q < BehindSign(value, i)
    ensures NoStart(value, alnum, q)
  {
    var s := SignPosition(value, i);
    if q < s && i < q {
      NoStartBeforeSign(value, alnum, i, q);
    } else if s < q {
      BlankRun(value, s + 1, q);
    }
  }

  lemma {:induction false} NoNameInField(value: string, alnum: char -> bool, p: nat, q: nat)
    requires KnowsAscii(alnum) && FieldEnd(value, p).Some? && p < q < FieldEnd(value, p).value
    ensures !NamedAt(value, alnum, q)
  {
    FieldIsName(value, p);
    NotNamed(value, alnum, q);
  }

  lemma {:induction false} NoNameBetween(value: string, alnum: char -> bool, p: nat, q: nat)
    requires KnowsAscii(alnum) && SignedAt(value, alnum, p) && p < q < ValuePosition(value, alnum, p)
    ensures !NamedAt(value, alnum, q)
  {
    FieldIsName(value, p);
    NoStartBetween(value, alnum, p, FieldEnd(value, p).value, q);
    NotNamed(value, alnum, q);
  }

  /** An assignment that starts behind another one starts in its value or behind that. */
  lemma {:induction false} NextStart(value: string, alnum: char -> bool, p: nat, q: nat)
    requires KnowsAscii(alnum) && Assigns(value, alnum, p) && AssignmentAt(value, alnum, q) && p < q
    ensures ValueOf(value, alnum, p).start <= q
  {
    var at := ValuePosition(value, alnum, p);
    if q < at {
      NoNameBetween(value, alnum, p, q);
    } else if q == at && Quote(value[at]) {
      NotNamed(value, alnum, q);
    }
  }

  /** Positions without an assignment change nothing. */
  lemma {:induction false} NothingUntil(value: string, alnum: char -> bool, ranges: seq<Range>, cursor: nat, to: nat)
    requires AssignmentsScanned(value, alnum, ranges, cursor) && cursor <= to <= |value|
    requires forall p | cursor <= p < to :: !AssignmentAt(value, alnum, p)
    ensures AssignmentsScanned(value, alnum, ranges, to)
  {
    forall p | 0 <= p < to ensures Settled(value, alnum, ranges, p) {
    }
    forall range | range in ranges ensures IsAssigned(value, alnum, range, to) {
      var p :| 0 <= p < cursor && AssignmentAt(value, alnum, p) && range == ValueOf(value, alnum, p);
    }
  }

  lemma {:induction false} NotHere(value: string, alnum: char -> bool, ranges: seq<Range>, start: nat)
    requires AssignmentsScanned(value, alnum, ranges, start) && start < |value| && !AssignmentAt(value, alnum, start)
    ensures AssignmentsScanned(value, alnum, ranges, start + 1)
  {
    forall p | start <= p < start + 1 ensures !AssignmentAt(value, alnum, p) {
      assert p == start;
    }
    NothingUntil(value, alnum, ranges, start, start + 1);
  }

  /** A name without a sign is skipped whole. */
  lemma {:induction false} NoSign(value: string, alnum: char -> bool, ranges: seq<Range>, start: nat)
    requires KnowsAscii(alnum) && AssignmentsScanned(value, alnum, ranges, start)
    requires NamedAt(value, alnum, start) && !SignedAt(value, alnum, start)
    ensures AssignmentsScanned(value, alnum, ranges, FieldEnd(value, start).value)
  {
    forall p | start <= p < FieldEnd(value, start).value ensures !AssignmentAt(value, alnum, p) {
      if start < p {
        NoNameInField(value, alnum, start, p);
      }
    }
    NothingUntil(value, alnum, ranges, start, FieldEnd(value, start).value);
  }

  /** Behind a sign without a value there is nothing left. */
  lemma {:induction false} NoValue(value: string, alnum: char -> bool, ranges: seq<Range>, start: nat)
    requires KnowsAscii(alnum) && AssignmentsScanned(value, alnum, ranges, start)
    requires SignedAt(value, alnum, start) && !Assigns(value, alnum, start)
    ensures AssignmentsScanned(value, alnum, ranges, |value|)
  {
    forall p | start <= p < |value| ensures !AssignmentAt(value, alnum, p) {
      if start < p {
        NoNameBetween(value, alnum, start, p);
      }
    }
    NothingUntil(value, alnum, ranges, start, |value|);
  }

  lemma {:induction false} EmptyValue(value: string, alnum: char -> bool, ranges: seq<Range>, start: nat)
    requires KnowsAscii(alnum) && AssignmentsScanned(value, alnum, ranges, start)
    requires Assigns(value, alnum, start) && !AssignmentAt(value, alnum, start)
    ensures AssignmentsScanned(value, alnum, ranges, ValueOf(value, alnum, start).end)
  {
    var end := ValueOf(value, alnum, start).end;
    forall p | start <= p < end ensures !AssignmentAt(value, alnum, p) {
      if start < p && AssignmentAt(value, alnum, p) {
        NextStart(value, alnum, start, p);
      }
    }
    NothingUntil(value, alnum, ranges, start, end);
  }

  lemma {:induction false} NotYetReplaced(value: string, alnum: char -> bool, ranges: seq<Range>, start: nat, p: nat)
    requires KnowsAscii(alnum) && AssignmentsScanned(value, alnum, ranges, start) && start <= p && AssignmentAt(value, alnum, p)
    ensures ValueOf(value, alnum, p) !in ranges
  {
    if ValueOf(value, alnum, p) in ranges {
      assert IsAssigned(value, alnum, ValueOf(value, alnum, p), start);
      var q :| 0 <= q < start && AssignmentAt(value, alnum, q) && ValueOf(value, alnum, p) == ValueOf(value, alnum, q);
      NextStart(value, alnum, q, p);
    }
  }

  /** What replacing the value of the assignment at `start` settles. */
  lemma {:induction false} SettledMore(value: string, alnum: char -> bool, ranges: seq<Range>, start: nat, p: nat)
    requires KnowsAscii(alnum) && AssignmentsScanned(value, alnum, ranges, start) && AssignmentAt(value, alnum, start)
    requires p < ValueOf(value, alnum, start).end
    ensures Settled(value, alnum, ranges + [ValueOf(value, alnum, start)], p)
  {
    var range := ValueOf(value, alnum, start);
    InSomeMore(ranges, range, p);
    if AssignmentAt(value, alnum, p) {
      if p < start {
        assert Settled(value, alnum, ranges, p);
        NextStart(value, alnum, p, start);
      } else if p == start {
        NotInOrdered(ranges, |value|, start);
      } else {
        NextStart(value, alnum, start, p);
        NotYetReplaced(value, alnum, ranges, start, p);
      }
    }
  }

  lemma {:induction false} ValueSettled(value: string, alnum: char -> bool, ranges: seq<Range>, start: nat)
    requires KnowsAscii(alnum) && AssignmentsScanned(value, alnum, ranges, start) && AssignmentAt(value, alnum, start)
    ensures AssignmentsScanned(value, alnum, ranges + [ValueOf(value, alnum, start)], ValueOf(value, alnum, start).end)
  {
    var range := ValueOf(value, alnum, start);
    var more := ranges + [range];
    OneMore(ranges, range, |value|);
    forall p | 0 <= p < range.end ensures Settled(value, alnum, more, p) {
      SettledMore(value, alnum, ranges, start, p);
    }
    forall r | r in more ensures IsAssigned(value, alnum, r, range.end) {
      if r in ranges {
        var p :| 0 <= p < start && AssignmentAt(value, alnum, p) && r == ValueOf(value, alnum, p);
      }
    }
  }

  // ---------- which values are replaced, said of the text alone ----------

  /** The assignment at `p` does not start in the value of an outermost one. */
  ghost predicate Outermost(value: string, alnum: char -> bool, p: nat)
    decreases p
  {
    && AssignmentAt(value, alnum, p)
    && forall q: nat | q < p && AssignmentAt(value, alnum, q) && Outermost(value, alnum, q) ::
         !InRange(ValueOf(value, alnum, q), p)
  }

  /** The ranges are the values of the outermost assignments, and nothing else. */
  ghost predicate ReplacesOutermost(value: string, alnum: char -> bool, ranges: seq<Range>) {
    && (forall p: nat | Outermost(value, alnum, p) :: ValueOf(value, alnum, p) in ranges)
    && (forall range | range in ranges :: exists p: nat :: Outermost(value, alnum, p) && range == ValueOf(value, alnum, p))
  }

  predicate Covered(ranges: seq<Range>, range: Range) {
    forall x | range.start <= x < range.end :: InSome(ranges, x)
  }

  /** No character of an assigned value stays. */
  ghost predicate AllCovered(value: string, alnum: char -> bool, ranges: seq<Range>) {
    forall p: nat | AssignmentAt(value, alnum, p) :: Covered(ranges, ValueOf(value, alnum, p))
  }

  /** An assignment that starts in the value of an outermost one ends there, too. */
  ghost predicate NoneReachesOut(value: string, alnum: char -> bool) {
    forall p: nat, q: nat | Outermost(value, alnum, p) && AssignmentAt(value, alnum, q) && InRange(ValueOf(value, alnum, p), q) ::
      ValueOf(value, alnum, q).end <= ValueOf(value, alnum, p).end
  }

  /** Where a replaced position lies: in the replaced value of an earlier assignment. */
  lemma {:induction false} InsideOf(value: string, alnum: char -> bool, ranges: seq<Range>, x: nat) returns (p: nat)
    requires AssignmentsScanned(value, alnum, ranges, |value|) && InSome(ranges, x)
    ensures p < x && AssignmentAt(value, alnum, p) && ValueOf(value, alnum, p) in ranges && InRange(ValueOf(value, alnum, p), x)
  {
    var i :| 0 <= i < |ranges| && InRange(ranges[i], x);
    assert IsAssigned(value, alnum, ranges[i], |value|);
    p :| 0 <= p < |value| && AssignmentAt(value, alnum, p) && ranges[i] == ValueOf(value, alnum, p);
  }

  lemma {:induction false} Inside(ranges: seq<Range>, range: Range, x: nat)
    requires range in ranges && InRange(range, x)
    ensures InSome(ranges, x)
  {
    var i :| 0 <= i < |ranges| && ranges[i] == range;
  }

  lemma {:induction false} NotInside(ranges: seq<Range>, range: Range, x: nat)
    requires range in ranges && !InSome(ranges, x)
    ensures !InRange(range, x)
  {
    var i :| 0 <= i < |ranges| && ranges[i] == range;
  }

  lemma {:induction false} OutermostExactly(value: string, alnum: char -> bool, ranges: seq<Range>, p: nat)
    requires AssignmentsScanned(value, alnum, ranges, |value|) && AssignmentAt(value, alnum, p)
    ensures Outermost(value, alnum, p) <==> ValueOf(value, alnum, p) in ranges
    decreases p
  {
    assert Settled(value, alnum, ranges, p);
    if ValueOf(value, alnum, p) in ranges {
      forall q: nat | q < p && AssignmentAt(value, alnum, q) && Outermost(value, alnum, q)
        ensures !InRange(ValueOf(value, alnum, q), p)
      {
        OutermostExactly(value, alnum, ranges, q);
        NotInside(ranges, ValueOf(value, alnum, q), p);
      }
    } else {
      var q := InsideOf(value, alnum, ranges, p);
      OutermostExactly(value, alnum, ranges, q);
    }
  }

  /** What the scan replaces, independent of its course. */
  lemma {:induction false} OutermostAreReplaced(value: string, alnum: char -> bool, ranges: seq<Range>)
    requires AssignmentsScanned(value, alnum, ranges, |value|)
    ensures ReplacesOutermost(value, alnum, ranges)
  {
    forall p: nat | Outermost(value, alnum, p) ensures ValueOf(value, alnum, p) in ranges {
      OutermostExactly(value, alnum, ranges, p);
    }
    forall range | range in ranges ensures exists p: nat :: Outermost(value, alnum, p) && range == ValueOf(value, alnum, p) {
      assert IsAssigned(value, alnum, range, |value|);
      var p :| 0 <= p < |value| && AssignmentAt(value, alnum, p) && range == ValueOf(value, alnum, p);
      OutermostExactly(value, alnum, ranges, p);
    }
  }

  /** The later of two replaced values lies behind the earlier one. */
  lemma {:induction false} Disjoint(value: string, alnum: char -> bool, ranges: seq<Range>, p: nat, q: nat)
    requires KnowsAscii(alnum) && AssignmentsScanned(value, alnum, ranges, |value|) && p < q
    requires AssignmentAt(value, alnum, p) && ValueOf(value, alnum, p) in ranges
    requires AssignmentAt(value, alnum, q) && ValueOf(value, alnum, q) in ranges
    ensures ValueOf(value, alnum, p).end <= q
  {
    NextStart(value, alnum, p, q);
    assert Settled(value, alnum, ranges, q);
    if q < ValueOf(value, alnum, p).end {
      Inside(ranges, ValueOf(value, alnum, p), q);
    }
  }

  /** The first character of a value that reaches out of the replaced value its name is in stays. */
  lemma {:induction false} ReachingOutStays(value: string, alnum: char -> bool, ranges: seq<Range>, p: nat, q: nat, x: nat)
    requires KnowsAscii(alnum) && AssignmentsScanned(value, alnum, ranges, |value|)
    requires AssignmentAt(value, alnum, p) && ValueOf(value, alnum, p) in ranges
    requires AssignmentAt(value, alnum, q) && InRange(ValueOf(value, alnum, p), q)
    requires ValueOf(value, alnum, q).end > ValueOf(value, alnum, p).end
    requires x == if ValueOf(value, alnum, q).start < ValueOf(value, alnum, p).end
                  then ValueOf(value, alnum, p).end else ValueOf(value, alnum, q).start
    ensures !InSome(ranges, x)
  {
    if InSome(ranges, x) {
      var r := InsideOf(value, alnum, ranges, x);
      if p < r {
        Disjoint(value, alnum, ranges, p, r);
        NextStart(value, alnum, q, r);
      } else if r < p {
        Disjoint(value, alnum, ranges, r, p);
      }
    }
  }

  lemma {:induction false} CoveredWithin(value: string, alnum: char -> bool, ranges: seq<Range>, q: nat)
    requires AssignmentsScanned(value, alnum, ranges, |value|) && AssignmentAt(value, alnum, q) && NoneReachesOut(value, alnum)
    ensures Covered(ranges, ValueOf(value, alnum, q))
  {
    assert Settled(value, alnum, ranges, q);
    var p := q;
    if ValueOf(value, alnum, q) !in ranges {
      p := InsideOf(value, alnum, ranges, q);
      OutermostExactly(value, alnum, ranges, p);
    }
    forall x | ValueOf(value, alnum, q).start <= x < ValueOf(value, alnum, q).end ensures InSome(ranges, x) {
      Inside(ranges, ValueOf(value, alnum, p), x);
    }
  }

  /** No character of an assigned value stays, exactly when no assignment that starts in the
      value of an outermost one reaches behind it. */
  lemma {:induction false} AllCoveredExactlyWhenInside(value: string, alnum: char -> bool, ranges: seq<Range>)
    requires KnowsAscii(alnum) && AssignmentsScanned(value, alnum, ranges, |value|)
    ensures AllCovered(value, alnum, ranges) <==> NoneReachesOut(value, alnum)
  {
    if NoneReachesOut(value, alnum) {
      forall q: nat | AssignmentAt(value, alnum, q) ensures Covered(ranges, ValueOf(value, alnum, q)) {
        CoveredWithin(value, alnum, ranges, q);
      }
    }
    if AllCovered(value, alnum, ranges) {
      forall p: nat, q: nat | Outermost(value, alnum, p) && AssignmentAt(value, alnum, q) && InRange(ValueOf(value, alnum, p), q)
        ensures ValueOf(value, alnum, q).end <= ValueOf(value, alnum, p).end
      {
        OutermostExactly(value, alnum, ranges, p);
        var inner, outer := ValueOf(value, alnum, q), ValueOf(value, alnum, p);
        assert Covered(ranges, inner);
        if inner.end > outer.end {
          ReachingOutStays(value, alnum, ranges, p, q, if inner.start < outer.end then outer.end else inner.start);
        }
      }
    }
  }

  // ---------- quoted values ----------

  /** Quote marks and backslashes of a text, escaped. */
  function Escaped(text: string, quote: char): string {
    if text == "" then ""
    else (if text[0] == quote || text[0] == '\\' then ['\\', text[0]] else [text[0]]) + Escaped(text[1..], quote)
  }

  /** A text that was escaped and quoted ends at its closing quote. */
  lemma {:induction false} EscapedEnds(before: string, text: string, quote: char, rest: string)
    requires quote != '\\'
    ensures QuoteEnd(before + Escaped(text, quote) + [quote] + rest, quote, |before|) == |before| + |Escaped(text, quote)|
    decreases |text|
  {
    var value := before + Escaped(text, quote) + [quote] + rest;
    if text == "" {
      assert value[|before|] == quote;
    } else {
      var head := if text[0] == quote || text[0] == '\\' then ['\\', text[0]] else [text[0]];
      EscapedEnds(before + head, text[1..], quote, rest);
      assert before + head + Escaped(text[1..], quote) + [quote] + rest == value;
      assert value[|before|] == head[0];
    }
  }

  /** So the value of a field that is written escaped and quoted is taken whole. */
  lemma {:induction false} EscapedValueIsTaken(before: string, text: string, quote: char, rest: string)
    requires Quote(quote)
    ensures var value := before + [quote] + Escaped(text, quote) + [quote] + rest;
            ValueAt(value, |before|) == Range(|before| + 1, |before| + 1 + |Escaped(text, quote)|, "[REDACTED]")
  {
    EscapedEnds(before + [quote], text, quote, rest);
    assert (before + [quote] + Escaped(text, quote) + [quote] + rest)[|before|] == quote;
  }

  // ---------- the loop ----------

  method FirstField(value: string, cursor: nat) returns (field: Option<nat>)
    ensures field == FirstFrom(value, cursor, 0)
  {
    var k := 0;
    while k < FIELD_COUNT
      invariant 0 <= k <= FIELD_COUNT
      invariant FirstFrom(value, cursor, k) == FirstFrom(value, cursor, 0)
    {
      var found := AsciiStartsWith(value, Field(k), cursor);
      if found {
        return Some(k);
      }
      k := k + 1;
    }
    return None;
  }

  /** The end of a quoted value, and whether its closing quote is there. */
  method QuotedEnd(value: string, quote: char, from: nat) returns (end: nat, closed: bool)
    requires from <= |value|
    ensures end == QuoteEnd(value, quote, from)
    ensures closed == (end < |value|)
  {
    end := from;
    while end < |value|
      invariant from <= end <= |value| && QuoteEnd(value, quote, end) == QuoteEnd(value, quote, from)
    {
      if value[end] == '\\' && end + 1 < |value| {
        end := end + 2;
      } else if value[end] == quote {
        return end, true;
      } else {
        end := end + 1;
      }
    }
    return end, false;
  }

  method UnquotedEnd(value: string, from: nat) returns (end: nat)
    requires from <= |value|
    ensures end == PlainEnd(value, from)
  {
    end := from;
    while end < |value| && !Delimiter(value[end])
      invariant from <= end <= |value| && PlainEnd(value, end) == PlainEnd(value, from)
    {
      end := end + 1;
    }
  }

  /** The value at `at`, and where the scan goes on: behind a closing quote. */
  method TakeValue(value: string, at: nat) returns (range: Range, cursor: nat)
    requires at < |value|
    ensures range == ValueAt(value, at)
    ensures range.end <= cursor <= |value|
    ensures cursor == range.end || (cursor == range.end + 1 && Quote(value[range.end]))
  {
    if Quote(value[at]) {
      var end, closed := QuotedEnd(value, value[at], at + 1);
      range := Range(at + 1, end, "[REDACTED]");
      cursor := end + if closed then 1 else 0;
    } else {
      var end := UnquotedEnd(value, at);
      range := Range(at, end, "[REDACTED]");
      cursor := end;
    }
  }

  /** The value of the name at `start` is replaced, unless it is empty. */
  method ScanValue(value: string, alnum: char -> bool, ranges: seq<Range>, ghost start: nat, at: nat)
    returns (ranges': seq<Range>, cursor: nat)
    requires KnowsAscii(alnum) && AssignmentsScanned(value, alnum, ranges, start)
    requires Assigns(value, alnum, start) && at == ValuePosition(value, alnum, start)
    ensures AssignmentsScanned(value, alnum, ranges', cursor) && cursor > start
  {
    var range;
    range, cursor := TakeValue(value, at);
    ranges' := ranges;
    if range.end > range.start {
      ValueSettled(value, alnum, ranges, start);
      ranges' := ranges' + [range];
    } else {
      EmptyValue(value, alnum, ranges, start);
    }
    if cursor > range.end {
      NotNamed(value, alnum, range.end);
      NotHere(value, alnum, ranges', range.end);
    }
  }

  /** From the name in [start, end) to its value; without one, to where the scan goes on. */
  method FindValue(value: string, alnum: char -> bool, start: nat, end: nat) returns (position: Option<nat>, cursor: nat)
    requires start <= end <= |value|
    ensures position.Some? ==> WholeName(value, alnum, start, end) && HasSign(value, end) && position.value == BehindSign(value, end)
    ensures position.None? ==>
              || (!WholeName(value, alnum, start, end) && cursor == start + 1)
              || (WholeName(value, alnum, start, end) && !HasSign(value, end) && cursor == end)
  {
    cursor := start + 1;
    if start > 0 && (alnum(value[start - 1]) || value[start - 1] in "_-") {
      return None, cursor;
    }
    var at := end;
    if at < |value| && Quote(value[at]) {
      at := at + 1;
    } else if at < |value| && (alnum(value[at]) || value[at] in "_-") {
      return None, cursor;
    }
    at := SkipBlanks(value, at);
    if at >= |value| || !Sign(value[at]) {
      return None, end;
    }
    at := SkipBlanks(value, at + 1);
    return Some(at), cursor;
  }

  /** One field name at the cursor; `None` when the text ends behind its sign. */
  method ScanField(value: string, alnum: char -> bool, ranges: seq<Range>, start: nat, end: nat)
    returns (ranges': seq<Range>, cursor: Option<nat>)
    requires KnowsAscii(alnum) && AssignmentsScanned(value, alnum, ranges, start)
    requires start < |value| && FieldEnd(value, start) == Some(end)
    ensures cursor.Some? ==> AssignmentsScanned(value, alnum, ranges', cursor.value) && cursor.value > start
    ensures cursor.None? ==> AssignmentsScanned(value, alnum, ranges', |value|)
  {
    var position, next := FindValue(value, alnum, start, end);
    if position.None? {
      Skipped(value, alnum, ranges, start, next);
      return ranges, Some(next);
    }
    if position.value >= |value| {
      NoValue(value, alnum, ranges, start);
      return ranges, None;
    }
    ranges', next := ScanValue(value, alnum, ranges, start, position.value);
    cursor := Some(next);
  }

  lemma {:induction false} Skipped(value: string, alnum: char -> bool, ranges: seq<Range>, start: nat, next: nat)
    requires KnowsAscii(alnum) && AssignmentsScanned(value, alnum, ranges, start)
    requires start < |value| && FieldEnd(value, start).Some?
    requires (!NamedAt(value, alnum, start) && next == start + 1)
             || (NamedAt(value, alnum, start) && !SignedAt(value, alnum, start) && next == FieldEnd(value, start).value)
    ensures AssignmentsScanned(value, alnum, ranges, next) && next > start
  {
    FieldIsName(value, start);
    if NamedAt(value, alnum, start) {
      NoSign(value, alnum, ranges, start);
    } else {
      NotHere(value, alnum, ranges, start);
    }
  }

  /** What happens at one position of the cursor. */
  method ScanAt(value: string, alnum: char -> bool, ranges: seq<Range>, start: nat)
    returns (ranges': seq<Range>, cursor: Option<nat>)
    requires KnowsAscii(alnum) && AssignmentsScanned(value, alnum, ranges, start) && start < |value|
    ensures cursor.Some? ==> AssignmentsScanned(value, alnum, ranges', cursor.value) && cursor.value > start
    ensures cursor.None? ==> AssignmentsScanned(value, alnum, ranges', |value|)
  {
    var field := FirstField(value, start);
    if field.None? {
      NotHere(value, alnum, ranges, start);
      return ranges, Some(start + 1);
    }
    ranges', cursor := ScanField(value, alnum, ranges, start, start + |Field(field.value)|);
  }

  method ScanAssignments(value: string, alnum: char -> bool) returns (ranges: seq<Range>)
    requires KnowsAscii(alnum)
    ensures AssignmentsScanned(value, alnum, ranges, |value|)
  {
    ranges := [];
    var cursor := 0;
    while cursor < |value|
      invariant AssignmentsScanned(value, alnum, ranges, cursor)
    {
      var next;
      ranges, next := ScanAt(value, alnum, ranges, cursor);
      if next.None? {
        break;
      }
      cursor := next.value;
    }
  }

  /** The values of the outermost assignments are replaced, and nothing else is. No assigned
      character stays, exactly when no assignment reaches out of an outermost value. */
  method RedactAssignments(value: string, alnum: char -> bool) returns (out: string, ranges: seq<Range>)
    requires KnowsAscii(alnum)
    ensures Ordered(ranges, |value|) && out == Interleaved(value, ranges)
    ensures ReplacesOutermost(value, alnum, ranges)
    ensures AllCovered(value, alnum, ranges) <==> NoneReachesOut(value, alnum)
  {
    ranges := ScanAssignments(value, alnum);
    OutermostAreReplaced(value, alnum, ranges);
    AllCoveredExactlyWhenInside(value, alnum, ranges);
    AllApplied(ranges, |value|);
    out := ReplaceRanges(value, ranges);
  }

  // ---------- a value that stays ----------

  predicate Plain(word: string) {
    word != "" && forall x | 0 <= x < |word| :: !Delimiter(word[x])
  }

  /** A text that assigns to `password`, as the value of `token`. */
  predicate Chained(text: string, secret: string) {
    text == "token = password = " + secret && Plain(secret)
  }

  lemma {:induction false} NotField(value: string, p: nat, k: nat)
    requires k < FIELD_COUNT && p < |value| && Field(k) != "" && Lower(value[p]) != Field(k)[0]
    ensures FirstFrom(value, p, k) == FirstFrom(value, p, k + 1)
  {
    if Matches(value, Field(k), p) {
      FirstCharacter(value, Field(k), p);
    }
  }

  lemma {:induction false} FirstCharacter(value: string, literal: string, p: nat)
    requires literal != "" && Matches(value, literal, p)
    ensures Lower(value[p]) == literal[0]
  {
    assert Lower(value[p + 0]) == literal[0];
  }

  lemma {:induction false} NotTheFirstSix(value: string, p: nat)
    requires p < |value| && (value[p] == 'p' || value[p] == 't')
    ensures FirstFrom(value, p, 0) == FirstFrom(value, p, 6)
  {
    NotField(value, p, 0);
    NotField(value, p, 1);
    NotField(value, p, 2);
    NotField(value, p, 3);
    NotField(value, p, 4);
    NotField(value, p, 5);
  }

  lemma {:induction false} NotTheFirstTen(value: string, p: nat)
    requires p < |value| && value[p] == 't'
    ensures FirstFrom(value, p, 0) == FirstFrom(value, p, 10)
  {
    NotTheFirstSix(value, p);
    NotField(value, p, 6);
    NotField(value, p, 7);
    NotField(value, p, 8);
    NotField(value, p, 9);
  }

  lemma {:induction false} TokenAt(value: string, p: nat)
    requires p < |value| && value[p] == 't' && Matches(value, Field(10), p)
    ensures FieldEnd(value, p) == Some(p + 5)
  {
    NotTheFirstTen(value, p);
  }

  lemma {:induction false} PasswordAt(value: string, p: nat)
    requires p < |value| && value[p] == 'p' && Matches(value, Field(6), p)
    ensures FieldEnd(value, p) == Some(p + 8)
  {
    NotTheFirstSix(value, p);
  }

  lemma {:induction false} BlankSignBlank(value: string, i: nat)
    requires i + 3 < |value| && value[i] == ' ' && Sign(value[i + 1]) && value[i + 2] == ' ' && !Blank(value[i + 3])
    ensures HasSign(value, i) && BehindSign(value, i) == i + 3
  {
    assert BlankEnd(value, i + 1) == i + 1;
    assert BlankEnd(value, i + 3) == i + 3;
  }

  lemma {:induction false} PlainEndIs(value: string, i: nat, end: nat)
    requires i <= end <= |value| && (forall x | i <= x < end :: !Delimiter(value[x]))
    requires end < |value| ==> Delimiter(value[end])
    ensures PlainEnd(value, i) == end
    decreases end - i
  {
    if i < end {
      PlainEndIs(value, i + 1, end);
    }
  }

  lemma {:induction false} PlainValue(value: string, at: nat, end: nat)
    requires at < end <= |value| && (forall x | at <= x < end :: !Delimiter(value[x]))
    requires end < |value| ==> Delimiter(value[end])
    ensures ValueAt(value, at) == Range(at, end, "[REDACTED]")
  {
    PlainEndIs(value, at, end);
  }

  predicate WordAt(value: string, p: nat, word: string) {
    p + |word| <= |value| && forall o | 0 <= o < |word| :: value[p + o] == word[o]
  }

  lemma {:induction false} WordMatches(value: string, p: nat, word: string)
    requires WordAt(value, p, word) && forall o | 0 <= o < |word| :: 'a' <= word[o] <= 'z'
    ensures Matches(value, word, p)
  {
  }

  lemma {:induction false} SpacedSign(value: string, i: nat)
    requires WordAt(value, i, " = ")
    ensures value[i] == ' ' && value[i + 1] == '=' && value[i + 2] == ' '
  {
    assert value[i + 0] == " = "[0] && value[i + 1] == " = "[1] && value[i + 2] == " = "[2];
  }

  lemma {:induction false} PlainWord(value: string, p: nat, word: string)
    requires WordAt(value, p, word) && Plain(word)
    ensures forall x | p <= x < p + |word| :: !Delimiter(value[x])
  {
    forall x | p <= x < p + |word| ensures !Delimiter(value[x]) {
      assert value[p + (x - p)] == word[x - p];
    }
  }

  lemma {:induction false} SpacedName(value: string, alnum: char -> bool, i: nat, word: string)
    requires i <= |value| && WordAt(value, i, " = ") && WordAt(value, i + 3, word) && Plain(word) && !alnum(' ')
    ensures !NameAt(value, alnum, i) && HasSign(value, i) && BehindSign(value, i) == i + 3
  {
    SpacedSign(value, i);
    PlainWord(value, i + 3, word);
    BlankSignBlank(value, i);
  }

  lemma {:induction false} PlainWordValue(value: string, at: nat, word: string)
    requires WordAt(value, at, word) && Plain(word)
    requires at + |word| < |value| ==> value[at + |word|] == ' '
    ensures ValueAt(value, at) == Range(at, at + |word|, "[REDACTED]")
  {
    PlainWord(value, at, word);
    PlainValue(value, at, at + |word|);
  }

  /** A field name, a sign between blanks, and a plain word. */
  lemma {:induction false} SpacedWord(value: string, alnum: char -> bool, p: nat, i: nat, word: string)
    requires FieldEnd(value, p) == Some(i) && i <= |value| && !NameBefore(value, alnum, p) && !alnum(' ')
    requires WordAt(value, i, " = ") && WordAt(value, i + 3, word) && Plain(word)
    requires i + 3 + |word| < |value| ==> value[i + 3 + |word|] == ' '
    ensures AssignmentAt(value, alnum, p) && ValueOf(value, alnum, p) == Range(i + 3, i + 3 + |word|, "[REDACTED]")
  {
    SpacedName(value, alnum, i, word);
    PlainWordValue(value, i + 3, word);
  }

  lemma {:induction false} ChainedWords(text: string, secret: string)
    requires Chained(text, secret)
    ensures WordAt(text, 0, "token") && WordAt(text, 5, " = ")
    ensures WordAt(text, 8, "password") && WordAt(text, 16, " = ") && WordAt(text, 19, secret) && |text| == 19 + |secret|
  {
  }

  lemma {:induction false} PasswordIsPlain()
    ensures Plain("password")
  {
  }

  lemma {:induction false} ChainedToken(text: string, alnum: char -> bool)
    requires WordAt(text, 0, "token") && WordAt(text, 5, " = ") && WordAt(text, 8, "password") && WordAt(text, 16, " = ")
    requires !alnum(' ')
    ensures AssignmentAt(text, alnum, 0) && ValueOf(text, alnum, 0) == Range(8, 16, "[REDACTED]")
  {
    WordMatches(text, 0, "token");
    assert text[0 + 0] == "token"[0];
    TokenAt(text, 0);
    SpacedSign(text, 16);
    PasswordIsPlain();
    SpacedWord(text, alnum, 0, 5, "password");
  }

  lemma {:induction false} ChainedPassword(text: string, secret: string, alnum: char -> bool)
    requires WordAt(text, 5, " = ") && WordAt(text, 8, "password") && WordAt(text, 16, " = ")
    requires WordAt(text, 19, secret) && |text| == 19 + |secret| && Plain(secret) && !alnum(' ')
    ensures AssignmentAt(text, alnum, 8) && ValueOf(text, alnum, 8) == Range(19, |text|, "[REDACTED]")
  {
    WordMatches(text, 8, "password");
    assert text[8 + 0] == "password"[0];
    PasswordAt(text, 8);
    SpacedSign(text, 5);
    SpacedWord(text, alnum, 8, 16, secret);
  }

  /** An assigned value can stay: `password` is replaced as the value of `token`, and what is
      assigned to it is not seen. */
  lemma {:induction false} ChainedValueStays(text: string, secret: string, alnum: char -> bool, ranges: seq<Range>)
    requires Chained(text, secret) && KnowsAscii(alnum) && !alnum(' ')
    requires AssignmentsScanned(text, alnum, ranges, |text|)
    ensures AssignmentAt(text, alnum, 8) && ValueOf(text, alnum, 8) == Range(19, |text|, "[REDACTED]")
    ensures ValueOf(text, alnum, 8) !in ranges && !InSome(ranges, 19)
    ensures !NoneReachesOut(text, alnum)
  {
    ChainedWords(text, secret);
    ChainedToken(text, alnum);
    ChainedPassword(text, secret, alnum);
    assert Outermost(text, alnum, 0);
    OutermostExactly(text, alnum, ranges, 0);
    Inside(ranges, ValueOf(text, alnum, 0), 8);
    assert Settled(text, alnum, ranges, 8);
    ReachingOutStays(text, alnum, ranges, 0, 8, 19);
  }
}
