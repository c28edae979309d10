/** The written forms that the credential scanners are for (k2do/agent/tools/mcp.py, 52-81,
    858-1008), in any surrounding text. */
module RedactionForms {
  import opened Prelude
  import opened ScannerBasics
  import opened TextRanges
  import TokenScanner
  import AuthorizationScanner
  import AssignmentScanner

  /** `word` stands at `p`, letter by letter. */
  predicate Spelled(value: string, p: nat, word: string) {
    p + |word| <= |value| && forall o | 0 <= o < |word| :: value[p + o] == word[o]
  }

  predicate LowerCase(word: string) {
    forall o | 0 <= o < |word| :: Lower(word[o]) == word[o]
  }

  lemma {:induction false} SpelledMatches(value: string, p: nat, word: string)
    requires Spelled(value, p, word) && LowerCase(word)
    ensures Matches(value, word, p)
  {
  }

  // ---------- tokens with a known prefix ----------

  const TOKEN_PREFIXES: seq<string> := ["github_pat_", "ghp_", "gho_", "ghu_", "ghs_", "ghr_", "akia", "sk-"]

  lemma {:induction false} PrefixNumber(prefix: string) returns (k: nat)
    requires prefix in TOKEN_PREFIXES
    ensures k < TokenScanner.PREFIX_COUNT && TokenScanner.Prefix(k) == prefix
    ensures TokenScanner.MinimumTail(k) == if prefix == "akia" then 16 else 12
  {
    k :| 0 <= k < |TOKEN_PREFIXES| && TOKEN_PREFIXES[k] == prefix;
  }

  lemma {:induction false} PrefixesAreLower(k: nat)
    requires k < TokenScanner.PREFIX_COUNT
    ensures LowerCase(TokenScanner.Prefix(k))
  {
    TokenScanner.PrefixShape(k);
  }

  lemma {:induction false} RunCovers(value: string, p: nat, end: nat)
    requires p <= end <= |value| && forall x | p <= x < end :: TokenCharacter(value[x])
    ensures RunEnd(value, p) >= end
  {
    RunEndIs(value, p, end);
  }

  /** A known prefix with a tail that is long enough, not in the middle of a word, is covered
      up to the end of the tail. */
  lemma {:induction false} WrittenTokenIsCovered(value: string, alnum: char -> bool, ranges: seq<Range>, p: nat, prefix: string, end: nat)
    requires TokenScanner.TokensCovered(value, alnum, ranges, |value|)
    requires forall range | range in ranges :: TokenScanner.IsToken(value, alnum, range)
    requires prefix in TOKEN_PREFIXES && Spelled(value, p, prefix)
    requires p == 0 || (value[p - 1] != '_' && !alnum(value[p - 1]))
    requires p + |prefix| + (if prefix == "akia" then 16 else 12) <= end <= |value|
    requires forall x | p + |prefix| <= x < end :: TokenCharacter(value[x])
    ensures forall x | p <= x < end :: InSome(ranges, x)
  {
    var k := PrefixNumber(prefix);
    PrefixesAreLower(k);
    SpelledMatches(value, p, prefix);
    RunCovers(value, p + |prefix|, end);
    assert TokenScanner.TokenAt(value, alnum, p, k);
    CoveredToTheEnd(value, alnum, ranges, p, k, end);
  }

  lemma {:induction false} SameRun(value: string, alnum: char -> bool, q: nat, j: nat, p: nat, k: nat)
    requires TokenScanner.TokenAt(value, alnum, q, j) && TokenScanner.TokenAt(value, alnum, p, k)
    requires q <= p < RunEnd(value, q + |TokenScanner.Prefix(j)|)
    ensures RunEnd(value, q + |TokenScanner.Prefix(j)|) == RunEnd(value, p + |TokenScanner.Prefix(k)|)
  {
    TokenScanner.PrefixIsRun(value, j, q);
    TokenScanner.PrefixIsRun(value, k, p);
    RunIsToken(value, q, p);
  }

  lemma {:induction false} RangeAround(value: string, alnum: char -> bool, ranges: seq<Range>, p: nat, k: nat) returns (i: nat)
    requires InSome(ranges, p) && TokenScanner.TokenAt(value, alnum, p, k)
    requires forall range | range in ranges :: TokenScanner.IsToken(value, alnum, range)
    ensures i < |ranges| && ranges[i].start <= p && ranges[i].end == RunEnd(value, p + |TokenScanner.Prefix(k)|)
  {
    i :| 0 <= i < |ranges| && InRange(ranges[i], p);
    RangeReaches(value, alnum, ranges[i], p, k);
  }

  lemma {:induction false} RangeReaches(value: string, alnum: char -> bool, range: Range, p: nat, k: nat)
    requires TokenScanner.IsToken(value, alnum, range) && InRange(range, p) && TokenScanner.TokenAt(value, alnum, p, k)
    ensures range.end == RunEnd(value, p + |TokenScanner.Prefix(k)|)
  {
    var j := TokenNumber(value, alnum, range);
    SameRun(value, alnum, range.start, j, p, k);
  }

  lemma {:induction false} TokenNumber(value: string, alnum: char -> bool, range: Range) returns (j: nat)
    requires TokenScanner.IsToken(value, alnum, range)
    ensures TokenScanner.TokenAt(value, alnum, range.start, j) && range.end == RunEnd(value, range.start + |TokenScanner.Prefix(j)|)
  {
    j :| 0 <= j < TokenScanner.PREFIX_COUNT && TokenScanner.TokenAt(value, alnum, range.start, j)
         && range.end == RunEnd(value, range.start + |TokenScanner.Prefix(j)|);
  }

  lemma {:induction false} CoveredToTheEnd(value: string, alnum: char -> bool, ranges: seq<Range>, p: nat, k: nat, end: nat)
    requires TokenScanner.TokensCovered(value, alnum, ranges, |value|) && p < |value|
    requires forall range | range in ranges :: TokenScanner.IsToken(value, alnum, range)
    requires TokenScanner.TokenAt(value, alnum, p, k) && end <= RunEnd(value, p + |TokenScanner.Prefix(k)|)
    ensures forall x | p <= x < end :: InSome(ranges, x)
  {
    assert InSome(ranges, p);
    var i := RangeAround(value, alnum, ranges, p, k);
    forall x | p <= x < end ensures InSome(ranges, x) {
      assert InRange(ranges[i], x);
    }
  }

  // ---------- authorization headers ----------

  /** A scheme word in lower or in title case, one blank, and a token of four characters or more
      is a credential. */
  lemma {:induction false} WrittenCredential(value: string, alnum: char -> bool, p: nat, scheme: string, end: nat) returns (k: nat)
    requires scheme in ["bearer", "basic", "Bearer", "Basic"] && Spelled(value, p, scheme)
    requires !NameBefore(value, alnum, p)
    requires p + |scheme| + 5 <= end <= |value| && value[p + |scheme|] == ' '
    requires forall x | p + |scheme| + 1 <= x < end :: TokenCharacter(value[x])
    requires end < |value| ==> !TokenCharacter(value[end])
    ensures AuthorizationScanner.CredentialAt(value, alnum, p, k)
    ensures AuthorizationScanner.TokenOf(value, p, k) == Range(p + |scheme| + 1, end, "[REDACTED]")
  {
    k := if scheme in ["bearer", "Bearer"] then 0 else 1;
    SchemeMatches(value, p, scheme, k);
    OneBlank(value, p + |scheme|);
    RunEndIs(value, p + |scheme| + 1, end);
  }

  lemma {:induction false} OneBlank(value: string, i: nat)
    requires i + 1 < |value| && value[i] == ' ' && TokenCharacter(value[i + 1])
    ensures BlankEnd(value, i) == i + 1
  {
    assert BlankEnd(value, i + 1) == i + 1;
  }

  lemma {:induction false} SchemeMatches(value: string, p: nat, scheme: string, k: nat)
    requires scheme in ["bearer", "basic", "Bearer", "Basic"] && Spelled(value, p, scheme)
    requires k == if scheme in ["bearer", "Bearer"] then 0 else 1
    ensures Matches(value, AuthorizationScanner.Scheme(k), p) && |AuthorizationScanner.Scheme(k)| == |scheme|
  {
    assert forall o | 0 <= o < |scheme| :: Lower(scheme[o]) == AuthorizationScanner.Scheme(k)[o];
  }

  // ---------- assignments ----------

  const SECRET_FIELDS: seq<string> :=
    ["refresh_token", "refresh-token", "client_secret", "client-secret", "access_token", "access-token", "password",
     "api_key", "api-key", "secret", "token"]

  lemma {:induction false} FieldNumber(field: string) returns (k: nat)
    requires field in SECRET_FIELDS
    ensures k < AssignmentScanner.FIELD_COUNT && AssignmentScanner.Field(k) == field
  {
    k :| 0 <= k < |SECRET_FIELDS| && SECRET_FIELDS[k] == field;
  }

  lemma {:induction false} FieldIsLower(k: nat)
    requires k < AssignmentScanner.FIELD_COUNT
    ensures LowerCase(AssignmentScanner.Field(k))
  {
    forall o | 0 <= o < |AssignmentScanner.Field(k)| ensures Lower(AssignmentScanner.Field(k)[o]) == AssignmentScanner.Field(k)[o] {
      AssignmentScanner.FieldShape(k, o);
    }
  }

  lemma {:induction false} FieldsDiffer(value: string, p: nat, j: nat, k: nat)
    requires j < AssignmentScanner.FIELD_COUNT && k < AssignmentScanner.FIELD_COUNT
    requires Matches(value, AssignmentScanner.Field(j), p) && Matches(value, AssignmentScanner.Field(k), p)
    ensures j == k
  {
    FieldsAreLong(j);
    FieldsAreLong(k);
    assert Lower(value[p + 0]) == AssignmentScanner.Field(j)[0] == AssignmentScanner.Field(k)[0];
    assert Lower(value[p + 1]) == AssignmentScanner.Field(j)[1] == AssignmentScanner.Field(k)[1];
    assert Lower(value[p + 3]) == AssignmentScanner.Field(j)[3] == AssignmentScanner.Field(k)[3];
    if j < 6 && k < 6 {
      assert Lower(value[p + 6]) == AssignmentScanner.Field(j)[6] == AssignmentScanner.Field(k)[6];
      assert Lower(value[p + 7]) == AssignmentScanner.Field(j)[7] == AssignmentScanner.Field(k)[7];
    }
  }

  lemma {:induction false} FieldsAreLong(k: nat)
    requires k < AssignmentScanner.FIELD_COUNT
    ensures |AssignmentScanner.Field(k)| >= if k < 6 then 12 else 5
  {
  }

  lemma {:induction false} NextField(value: string, p: nat, i: nat)
    requires i < AssignmentScanner.FIELD_COUNT && !Matches(value, AssignmentScanner.Field(i), p)
    ensures AssignmentScanner.FirstFrom(value, p, i) == AssignmentScanner.FirstFrom(value, p, i + 1)
  {
  }

  lemma {:induction false} FirstIs(value: string, p: nat, k: nat, i: nat)
    requires i <= k < AssignmentScanner.FIELD_COUNT && Matches(value, AssignmentScanner.Field(k), p)
    ensures AssignmentScanner.FirstFrom(value, p, i) == Some(k)
    decreases k - i
  {
    if i < k {
      if Matches(value, AssignmentScanner.Field(i), p) {
        FieldsDiffer(value, p, i, k);
      }
      NextField(value, p, i);
      FirstIs(value, p, k, i + 1);
    }
  }

  lemma {:induction false} WrittenField(value: string, p: nat, field: string)
    requires field in SECRET_FIELDS && Spelled(value, p, field)
    ensures AssignmentScanner.FieldEnd(value, p) == Some(p + |field|)
  {
    var k := FieldNumber(field);
    FieldIsLower(k);
    SpelledMatches(value, p, field);
    FirstIs(value, p, k, 0);
  }

  lemma {:induction false} SignNext(value: string, i: nat)
    requires i + 1 < |value| && (value[i] == '=' || value[i] == ':') && !Blank(value[i + 1])
    ensures AssignmentScanner.HasSign(value, i) && AssignmentScanner.BehindSign(value, i) == i + 1
  {
    assert BlankEnd(value, i) == i;
    assert BlankEnd(value, i + 1) == i + 1;
  }

  /** A word without a delimiter in it stands from `at` up to `end`, and nothing follows but a
      delimiter. */
  predicate Plain(value: string, at: nat, end: nat) {
    && at < end <= |value| && (forall x | at <= x < end :: value[x] !in " \t\r\n,;[]{}\"'")
    && (end < |value| ==> value[end] in " \t\r\n,;[]{}\"'")
  }

  lemma {:induction false} WrittenValue(value: string, at: nat, end: nat)
    requires Plain(value, at, end)
    ensures AssignmentScanner.ValueAt(value, at) == Range(at, end, "[REDACTED]") && !Blank(value[at])
  {
    AssignmentScanner.PlainValue(value, at, end);
  }

  /** A secret field that is a whole name, a sign, and a plain word are an assignment of that
      word. */
  lemma {:induction false} WrittenAssignment(value: string, alnum: char -> bool, p: nat, field: string, end: nat)
    requires field in SECRET_FIELDS && Spelled(value, p, field) && !NameBefore(value, alnum, p)
    requires p + |field| + 1 < end <= |value| && (value[p + |field|] == '=' || value[p + |field|] == ':')
    requires !alnum('=') && !alnum(':')
    requires Plain(value, p + |field| + 1, end)
    ensures AssignmentScanner.AssignmentAt(value, alnum, p)
    ensures AssignmentScanner.ValueOf(value, alnum, p) == Range(p + |field| + 1, end, "[REDACTED]")
  {
    var i := p + |field|;
    WrittenField(value, p, field);
    WrittenValue(value, i + 1, end);
    SignNext(value, i);
    NameEnds(value, alnum, i);
    AssignmentIs(value, alnum, p, i, i + 1, end);
  }

  lemma {:induction false} NameEnds(value: string, alnum: char -> bool, i: nat)
    requires i < |value| && (value[i] == '=' || value[i] == ':') && !alnum('=') && !alnum(':')
    ensures !AssignmentScanner.NameAt(value, alnum, i)
  {
  }

  lemma {:induction false} AssignmentIs(value: string, alnum: char -> bool, p: nat, i: nat, at: nat, end: nat)
    requires AssignmentScanner.FieldEnd(value, p) == Some(i) && i <= |value|
    requires !NameBefore(value, alnum, p) && !AssignmentScanner.NameAt(value, alnum, i)
    requires AssignmentScanner.HasSign(value, i) && at == AssignmentScanner.BehindSign(value, i) < end <= |value|
    requires AssignmentScanner.ValueAt(value, at) == Range(at, end, "[REDACTED]")
    ensures AssignmentScanner.AssignmentAt(value, alnum, p)
    ensures AssignmentScanner.ValueOf(value, alnum, p) == Range(at, end, "[REDACTED]")
  {
  }
}
