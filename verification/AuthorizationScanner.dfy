/** The scanner for authorization headers (k2do/agent/tools/mcp.py, 71, 948-979).
    `alnum` stands for `str.isalnum` of one character. */
module AuthorizationScanner {
  import opened Prelude
  import opened ScannerBasics
  import opened TextRanges

  const SCHEME_COUNT := 2

  function Scheme(k: nat): string
    requires k < SCHEME_COUNT
  {
    if k == 0 then "bearer" else "basic"
  }

  lemma {:induction false} SchemeShape(k: nat)
    requires k < SCHEME_COUNT
    ensures 5 <= |Scheme(k)| <= 6
    ensures forall o | 0 <= o < |Scheme(k)| :: 'a' <= Scheme(k)[o] <= 'z'
  {
  }

  /** A scheme word with a blank behind it stands at `p`. */
  predicate SchemeAt(value: string, alnum: char -> bool, p: nat, k: nat) {
    && k < SCHEME_COUNT && Matches(value, Scheme(k), p) && !NameBefore(value, alnum, p)
    && p + |Scheme(k)| < |value| && Blank(value[p + |Scheme(k)|])
  }

  /** What follows the scheme word: a run of token characters. */
  function TokenOf(value: string, p: nat, k: nat): Range
    requires k < SCHEME_COUNT && p + |Scheme(k)| <= |value|
  {
    var start := BlankEnd(value, p + |Scheme(k)|);
    Range(start, RunEnd(value, start), "[REDACTED]")
  }

  /** A scheme word at `p`, followed by a token of at least four characters. */
  predicate CredentialAt(value: string, alnum: char -> bool, p: nat, k: nat) {
    SchemeAt(value, alnum, p, k) && TokenOf(value, p, k).end - TokenOf(value, p, k).start >= 4
  }

  /** A credential's token is replaced exactly when its scheme word is not itself replaced. */
  predicate Settled(value: string, alnum: char -> bool, ranges: seq<Range>, p: nat, k: nat) {
    CredentialAt(value, alnum, p, k) ==> (TokenOf(value, p, k) in ranges <==> !InSome(ranges, p))
  }

  predicate IsCredential(value: string, alnum: char -> bool, range: Range, n: nat) {
    exists p, k | 0 <= p < n && 0 <= k < SCHEME_COUNT :: CredentialAt(value, alnum, p, k) && range == TokenOf(value, p, k)
  }

  predicate CredentialsScanned(value: string, alnum: char -> bool, ranges: seq<Range>, cursor: nat) {
    && cursor <= |value| && Ordered(ranges, |value|) && End(ranges) <= cursor
    && (forall p, k | 0 <= p < cursor && 0 <= k < SCHEME_COUNT :: Settled(value, alnum, ranges, p, k))
    && (forall range | range in ranges :: IsCredential(value, alnum, range, cursor))
  }

  lemma {:induction false} SchemeLetter(value: string, k: nat, start: nat, x: nat)
    requires k < SCHEME_COUNT && Matches(value, Scheme(k), start) && start <= x < start + |Scheme(k)|
    ensures AsciiLetterOrDigit(value[x]) && TokenCharacter(value[x]) && !Blank(value[x])
  {
    SchemeShape(k);
    LowerShape(value[x]);
    assert Lower(value[start + (x - start)]) == Scheme(k)[x - start];
  }

  /** Two scheme words with the same token are the same. */
  lemma {:induction false} TokenTellsScheme(value: string, alnum: char -> bool, p: nat, k: nat, q: nat, j: nat)
    requires SchemeAt(value, alnum, p, k) && SchemeAt(value, alnum, q, j)
    requires TokenOf(value, p, k).start == TokenOf(value, q, j).start
    ensures p == q && k == j
  {
    var b, c := p + |Scheme(k)|, q + |Scheme(j)|;
    SchemeLetter(value, k, p, b - 1);
    SchemeLetter(value, j, q, c - 1);
    if b < c {
      BlankRun(value, b, c - 1);
    } else if c < b {
      BlankRun(value, c, b - 1);
    }
    assert b == c;
    assert Lower(value[p + (|Scheme(k)| - 1)]) == Scheme(k)[|Scheme(k)| - 1];
    assert Lower(value[q + (|Scheme(j)| - 1)]) == Scheme(j)[|Scheme(j)| - 1];
  }

  /** No scheme word starts inside another one, or in the blanks behind it. */
  lemma {:induction false} NoSchemeInside(value: string, alnum: char -> bool, start: nat, k: nat, p: nat, j: nat)
    requires KnowsAscii(alnum) && k < SCHEME_COUNT && j < SCHEME_COUNT && Matches(value, Scheme(k), start)
    requires start < p < BlankEnd(value, start + |Scheme(k)|)
    ensures !SchemeAt(value, alnum, p, j)
  {
    if p < start + |Scheme(k)| {
      SchemeLetter(value, k, start, p - 1);
    } else {
      BlankRun(value, start + |Scheme(k)|, p);
      SchemeShape(j);
      if Matches(value, Scheme(j), p) {
        SchemeLetter(value, j, p, p);
      }
    }
  }

  lemma {:induction false} NoSchemeInShortToken(value: string, alnum: char -> bool, from: nat, p: nat, j: nat)
    requires from <= |value| && from <= p < RunEnd(value, from) && RunEnd(value, from) - from < 4 && j < SCHEME_COUNT
    ensures !SchemeAt(value, alnum, p, j)
  {
    SchemeShape(j);
    RunIsToken(value, from, p);
    if Matches(value, Scheme(j), p) {
      forall x | p <= x < p + |Scheme(j)| ensures TokenCharacter(value[x]) {
        SchemeLetter(value, j, p, x);
      }
      RunEndIs(value, p, p + |Scheme(j)|);
    }
  }

  /** Positions without a scheme word change nothing. */
  lemma {:induction false} NoSchemesUntil(value: string, alnum: char -> bool, ranges: seq<Range>, cursor: nat, to: nat)
    requires CredentialsScanned(value, alnum, ranges, cursor) && cursor <= to <= |value|
    requires forall p, k | cursor <= p < to && 0 <= k < SCHEME_COUNT :: !CredentialAt(value, alnum, p, k)
    ensures CredentialsScanned(value, alnum, ranges, to)
  {
    forall p, k | 0 <= p < to && 0 <= k < SCHEME_COUNT ensures Settled(value, alnum, ranges, p, k) {
    }
    forall range | range in ranges ensures IsCredential(value, alnum, range, to) {
      var p, k :| 0 <= p < cursor && 0 <= k < SCHEME_COUNT && CredentialAt(value, alnum, p, k) && range == TokenOf(value, p, k);
    }
  }

  /** What replacing the token of the scheme word at `start` settles. */
  lemma {:induction false} SettledMore(value: string, alnum: char -> bool, ranges: seq<Range>, start: nat, k: nat, p: nat, j: nat)
    requires KnowsAscii(alnum) && CredentialsScanned(value, alnum, ranges, start) && CredentialAt(value, alnum, start, k)
    requires p < TokenOf(value, start, k).end && j < SCHEME_COUNT
    ensures Settled(value, alnum, ranges + [TokenOf(value, start, k)], p, j)
  {
    var token := TokenOf(value, start, k);
    InSomeMore(ranges, token, p);
    if CredentialAt(value, alnum, p, j) {
      if p < start {
        assert Settled(value, alnum, ranges, p, j);
        if TokenOf(value, p, j) == token {
          TokenTellsScheme(value, alnum, p, j, start, k);
        }
      } else if p == start {
        NotInOrdered(ranges, |value|, start);
        SchemesDiffer(value, start, k, j);
      } else if p < token.start {
        NoSchemeInside(value, alnum, start, k, p, j);
      } else {
        NotYetReplaced(value, alnum, ranges, start, p, j);
        if TokenOf(value, p, j) == token {
          TokenTellsScheme(value, alnum, p, j, start, k);
        }
      }
    }
  }

  lemma {:induction false} SchemesDiffer(value: string, p: nat, k: nat, j: nat)
    requires k < SCHEME_COUNT && j < SCHEME_COUNT && Matches(value, Scheme(k), p) && Matches(value, Scheme(j), p)
    ensures k == j
  {
    assert Lower(value[p + 1]) == Scheme(k)[1] == Scheme(j)[1];
  }

  lemma {:induction false} NotYetReplaced(value: string, alnum: char -> bool, ranges: seq<Range>, start: nat, p: nat, j: nat)
    requires CredentialsScanned(value, alnum, ranges, start) && start <= p && CredentialAt(value, alnum, p, j)
    ensures TokenOf(value, p, j) !in ranges
  {
    if TokenOf(value, p, j) in ranges {
      assert IsCredential(value, alnum, TokenOf(value, p, j), start);
      var q, k :| 0 <= q < start && 0 <= k < SCHEME_COUNT && CredentialAt(value, alnum, q, k) && TokenOf(value, p, j) == TokenOf(value, q, k);
      TokenTellsScheme(value, alnum, p, j, q, k);
    }
  }

  lemma {:induction false} CredentialSettled(value: string, alnum: char -> bool, ranges: seq<Range>, start: nat, k: nat)
    requires KnowsAscii(alnum) && CredentialsScanned(value, alnum, ranges, start) && CredentialAt(value, alnum, start, k)
    ensures CredentialsScanned(value, alnum, ranges + [TokenOf(value, start, k)], TokenOf(value, start, k).end)
  {
    var token := TokenOf(value, start, k);
    var more := ranges + [token];
    OneMore(ranges, token, |value|);
    forall p, j | 0 <= p < token.end && 0 <= j < SCHEME_COUNT ensures Settled(value, alnum, more, p, j) {
      SettledMore(value, alnum, ranges, start, k, p, j);
    }
    forall range | range in more ensures IsCredential(value, alnum, range, token.end) {
      if range in ranges {
        var p, j :| 0 <= p < start && 0 <= j < SCHEME_COUNT && CredentialAt(value, alnum, p, j) && range == TokenOf(value, p, j);
      }
    }
  }

  lemma {:induction false} NotAStart(value: string, alnum: char -> bool, ranges: seq<Range>, start: nat)
    requires CredentialsScanned(value, alnum, ranges, start) && start < |value|
    requires forall k | 0 <= k < SCHEME_COUNT :: !CredentialAt(value, alnum, start, k)
    ensures CredentialsScanned(value, alnum, ranges, start + 1)
  {
    forall p, k | start <= p < start + 1 && 0 <= k < SCHEME_COUNT ensures !CredentialAt(value, alnum, p, k) {
      assert p == start;
    }
    NoSchemesUntil(value, alnum, ranges, start, start + 1);
  }

  lemma {:induction false} NoCredential(value: string, alnum: char -> bool, ranges: seq<Range>, start: nat, k: nat)
    requires KnowsAscii(alnum) && CredentialsScanned(value, alnum, ranges, start)
    requires k < SCHEME_COUNT && Matches(value, Scheme(k), start) && !CredentialAt(value, alnum, start, k)
    ensures CredentialsScanned(value, alnum, ranges, start + |Scheme(k)|)
    ensures |Scheme(k)| > 0
  {
    SchemeShape(k);
    var to := start + |Scheme(k)|;
    forall p, j | start <= p < to && 0 <= j < SCHEME_COUNT ensures !CredentialAt(value, alnum, p, j) {
      if p > start {
        NoSchemeInside(value, alnum, start, k, p, j);
      } else if Matches(value, Scheme(j), p) {
        SchemesDiffer(value, p, k, j);
      }
    }
    NoSchemesUntil(value, alnum, ranges, start, to);
  }

  lemma {:induction false} ShortToken(value: string, alnum: char -> bool, ranges: seq<Range>, start: nat, k: nat)
    requires KnowsAscii(alnum) && CredentialsScanned(value, alnum, ranges, start)
    requires k < SCHEME_COUNT && Matches(value, Scheme(k), start) && !CredentialAt(value, alnum, start, k)
    requires SchemeAt(value, alnum, start, k)
    ensures CredentialsScanned(value, alnum, ranges, TokenOf(value, start, k).end)
    ensures TokenOf(value, start, k).end > start
  {
    var token := TokenOf(value, start, k);
    SchemeShape(k);
    NoCredential(value, alnum, ranges, start, k);
    forall p, j | start < p < token.end && 0 <= j < SCHEME_COUNT ensures !CredentialAt(value, alnum, p, j) {
      if p < token.start {
        NoSchemeInside(value, alnum, start, k, p, j);
      } else {
        NoSchemeInShortToken(value, alnum, token.start, p, j);
      }
    }
    NoSchemesUntil(value, alnum, ranges, start + |Scheme(k)|, token.end);
  }

  method FirstScheme(value: string, cursor: nat) returns (matched: Option<nat>)
    ensures matched.Some? ==> matched.value < SCHEME_COUNT && Matches(value, Scheme(matched.value), cursor)
    ensures matched.None? ==> forall k | 0 <= k < SCHEME_COUNT :: !Matches(value, Scheme(k), cursor)
  {
    var k := 0;
    while k < SCHEME_COUNT
      invariant 0 <= k <= SCHEME_COUNT
      invariant forall j | 0 <= j < k :: !Matches(value, Scheme(j), cursor)
    {
      var found := AsciiStartsWith(value, Scheme(k), cursor);
      if found {
        return Some(k);
      }
      k := k + 1;
    }
    return None;
  }

  /** One match of a scheme word at the cursor. */
  method ScanScheme(value: string, alnum: char -> bool, ranges: seq<Range>, start: nat, k: nat)
    returns (ranges': seq<Range>, cursor: nat)
    requires KnowsAscii(alnum) && CredentialsScanned(value, alnum, ranges, start) && start < |value|
    requires k < SCHEME_COUNT && Matches(value, Scheme(k), start)
    ensures CredentialsScanned(value, alnum, ranges', cursor) && cursor > start
  {
    if start > 0 && (alnum(value[start - 1]) || value[start - 1] in "_-") {
      NotAStart(value, alnum, ranges, start);
      return ranges, start + 1;
    }
    var tokenStart := start + |Scheme(k)|;
    if tokenStart >= |value| || !Blank(value[tokenStart]) {
      NoCredential(value, alnum, ranges, start, k);
      return ranges, tokenStart;
    }
    tokenStart := SkipBlanks(value, tokenStart);
    var tokenEnd := SkipTokens(value, tokenStart);
    if tokenEnd - tokenStart >= 4 {
      CredentialSettled(value, alnum, ranges, start, k);
      ranges' := ranges + [Range(tokenStart, tokenEnd, "[REDACTED]")];
    } else {
      ranges' := ranges;
      ShortToken(value, alnum, ranges, start, k);
    }
    cursor := tokenEnd;
  }

  // ---------- which credentials are replaced, said of the text alone ----------

  /** Another scheme word, `q`, starts inside the token of the credential at `p`. */
  predicate StartsInside(value: string, alnum: char -> bool, p: nat, k: nat, q: nat)
    requires CredentialAt(value, alnum, p, k)
  {
    TokenOf(value, p, k).start <= q < TokenOf(value, p, k).end
  }

  /** No credential starts inside the token of a credential. */
  ghost predicate NoNested(value: string, alnum: char -> bool) {
    forall p: nat, k: nat, q: nat, j: nat | CredentialAt(value, alnum, p, k) && CredentialAt(value, alnum, q, j) ::
      !StartsInside(value, alnum, p, k, q)
  }

  ghost predicate AllReplaced(value: string, alnum: char -> bool, ranges: seq<Range>) {
    forall p: nat, k: nat | CredentialAt(value, alnum, p, k) :: TokenOf(value, p, k) in ranges
  }

  lemma {:induction false} ReplacedInside(value: string, alnum: char -> bool, ranges: seq<Range>, q: nat, j: nat)
    requires CredentialsScanned(value, alnum, ranges, |value|) && CredentialAt(value, alnum, q, j) && InSome(ranges, q)
    ensures !NoNested(value, alnum)
  {
    var i :| 0 <= i < |ranges| && InRange(ranges[i], q);
    assert IsCredential(value, alnum, ranges[i], |value|);
    var p, k :| 0 <= p < |value| && 0 <= k < SCHEME_COUNT && CredentialAt(value, alnum, p, k) && ranges[i] == TokenOf(value, p, k);
    assert StartsInside(value, alnum, p, k, q);
  }

  /** Every credential's token is replaced exactly when no credential starts inside another
      one's token. */
  lemma {:induction false} AllReplacedExactlyWhenNotNested(value: string, alnum: char -> bool, ranges: seq<Range>)
    requires CredentialsScanned(value, alnum, ranges, |value|)
    ensures AllReplaced(value, alnum, ranges) <==> NoNested(value, alnum)
  {
    forall q: nat, j: nat | NoNested(value, alnum) && CredentialAt(value, alnum, q, j) ensures TokenOf(value, q, j) in ranges {
      assert Settled(value, alnum, ranges, q, j);
      if InSome(ranges, q) {
        ReplacedInside(value, alnum, ranges, q, j);
      }
    }
    if AllReplaced(value, alnum, ranges) {
      forall p: nat, k: nat, q: nat, j: nat | CredentialAt(value, alnum, p, k) && CredentialAt(value, alnum, q, j)
        ensures !StartsInside(value, alnum, p, k, q)
      {
        assert Settled(value, alnum, ranges, q, j);
        var i :| 0 <= i < |ranges| && ranges[i] == TokenOf(value, p, k);
        assert InRange(ranges[i], q) ==> InSome(ranges, q);
      }
    }
  }

  // ---------- the loop ----------

  /** Tokens behind scheme words are replaced, and nothing else is: all of them, exactly when
      no credential is nested. */
  method RedactAuthorization(value: string, alnum: char -> bool) returns (out: string, ranges: seq<Range>)
    requires KnowsAscii(alnum)
    ensures out == Interleaved(value, ranges) && CredentialsScanned(value, alnum, ranges, |value|)
    ensures AllReplaced(value, alnum, ranges) <==> NoNested(value, alnum)
  {
    ranges := [];
    var cursor := 0;
    while cursor < |value|
      invariant CredentialsScanned(value, alnum, ranges, cursor)
    {
      var matched := FirstScheme(value, cursor);
      if matched.None? {
        NotAStart(value, alnum, ranges, cursor);
        cursor := cursor + 1;
      } else {
        ranges, cursor := ScanScheme(value, alnum, ranges, cursor, matched.value);
      }
    }
    AllReplacedExactlyWhenNotNested(value, alnum, ranges);
    AllApplied(ranges, |value|);
    out := ReplaceRanges(value, ranges);
  }

  const NESTED := "bearer basic abcd"

  lemma {:induction false} NestedRuns()
    ensures RunEnd(NESTED, 7) == 12 && RunEnd(NESTED, 13) == 17
    ensures BlankEnd(NESTED, 6) == 7 && BlankEnd(NESTED, 12) == 13
  {
    assert RunEnd(NESTED, 12) == 12;
    RunEndIs(NESTED, 7, 12);
    assert RunEnd(NESTED, 17) == 17;
    RunEndIs(NESTED, 13, 17);
  }

  lemma {:induction false} NestedCredentials(alnum: char -> bool)
    requires !alnum(' ')
    ensures CredentialAt(NESTED, alnum, 0, 0) && TokenOf(NESTED, 0, 0) == Range(7, 12, "[REDACTED]")
    ensures CredentialAt(NESTED, alnum, 7, 1)
  {
    NestedRuns();
    assert Matches(NESTED, Scheme(0), 0) && Matches(NESTED, Scheme(1), 7);
  }

  lemma {:induction false} NothingAtZero(value: string, alnum: char -> bool, ranges: seq<Range>)
    requires CredentialsScanned(value, alnum, ranges, |value|)
    ensures !InSome(ranges, 0)
  {
    forall i | 0 <= i < |ranges| ensures ranges[i].start > 0 {
      assert IsCredential(value, alnum, ranges[i], |value|);
      SchemeShape(0);
      SchemeShape(1);
    }
  }

  /** A credential can be missed: here the second scheme word is replaced as the first one's
      token, and the token behind it stays. */
  lemma {:induction false} NestedCredentialIsMissed(alnum: char -> bool, ranges: seq<Range>)
    requires !alnum(' ') && CredentialsScanned(NESTED, alnum, ranges, |NESTED|)
    ensures CredentialAt(NESTED, alnum, 7, 1) && TokenOf(NESTED, 7, 1) !in ranges && !NoNested(NESTED, alnum)
  {
    NestedCredentials(alnum);
    assert StartsInside(NESTED, alnum, 0, 0, 7);
    NothingAtZero(NESTED, alnum, ranges);
    assert Settled(NESTED, alnum, ranges, 0, 0) && Settled(NESTED, alnum, ranges, 7, 1);
    var i :| 0 <= i < |ranges| && ranges[i] == TokenOf(NESTED, 0, 0);
    assert InSome(ranges, 7);
  }
}
