/** The scanner for JSON strings (k2do/agent/tools/mcp.py, 825-855). `decode` stands for
    `json.loads` of one string token. */
module JsonStringScanner {
  import opened Prelude
  import opened ScannerBasics
  import opened TextRanges

  const REPLACEMENT := "\"[REDACTED]\""

  /** Some secret occurs in the text. */
  predicate HoldsSecret(text: string, secrets: seq<string>) {
    exists k | 0 <= k < |secrets| :: Contains(text, secrets[k])
  }

  /** The end of the string token whose content starts at `i`; `None` when it is not closed. */
  function TokenEnd(value: string, i: nat): (end: Option<nat>)
    requires 0 < i
    ensures end.Some? ==> i <= end.value <= |value| && value[end.value - 1] == '"'
    decreases |value| - i
  {
    if i > |value| || (i == |value| && value[i - 1] != '"') then None
    else if i == |value| then Some(i)
    else if value[i] == '\\' then TokenEnd(value, i + 2)
    else if value[i] == '"' then Some(i + 1)
    else TokenEnd(value, i + 1)
  }

  function NextQuote(value: string, from: nat): (at: nat)
    requires from <= |value|
    ensures from <= at <= |value| && (at < |value| ==> value[at] == '"')
    decreases |value| - from
  {
    if from == |value| || value[from] == '"' then from else NextQuote(value, from + 1)
  }

  /** The token decodes to a text with a secret in it. */
  predicate IsSecretToken(decode: string -> Option<string>, secrets: seq<string>, token: string) {
    decode(token).Some? && HoldsSecret(decode(token).value, secrets)
  }

  /** The string tokens from `from` on that hold a secret; an unclosed token ends the search. */
  function SecretTokens(value: string, decode: string -> Option<string>, secrets: seq<string>, from: nat): seq<Range>
    requires from <= |value|
    decreases |value| - from
  {
    var start := NextQuote(value, from);
    if start == |value| then []
    else
      match TokenEnd(value, start + 1)
      case None => []
      case Some(end) =>
        (if IsSecretToken(decode, secrets, value[start..end]) then [Range(start, end, REPLACEMENT)] else [])
        + SecretTokens(value, decode, secrets, end)
  }

  method FindQuote(value: string, from: nat) returns (found: Option<nat>)
    requires from <= |value|
    ensures NextQuote(value, from) == if found.Some? then found.value else |value|
    ensures found.Some? ==> found.value < |value|
  {
    var i := from;
    while i < |value|
      invariant from <= i <= |value| && NextQuote(value, i) == NextQuote(value, from)
    {
      if value[i] == '"' {
        return Some(i);
      }
      i := i + 1;
    }
    return None;
  }

  method StringEnd(value: string, start: nat) returns (end: Option<nat>)
    requires start < |value| && value[start] == '"'
    ensures end == TokenEnd(value, start + 1)
  {
    var i := start + 1;
    while i < |value|
      invariant start < i <= |value| + 1 && TokenEnd(value, i) == TokenEnd(value, start + 1)
    {
      if value[i] == '\\' {
        i := i + 2;
      } else if value[i] == '"' {
        return Some(i + 1);
      } else {
        i := i + 1;
      }
    }
    if i > |value| || value[i - 1] != '"' {
      return None;
    }
    return Some(i);
  }

  method FindsSecret(text: string, secrets: seq<string>) returns (found: bool)
    ensures found == HoldsSecret(text, secrets)
  {
    var k := 0;
    while k < |secrets|
      invariant 0 <= k <= |secrets|
      invariant forall j | 0 <= j < k :: !Contains(text, secrets[j])
    {
      var i := 0;
      while i <= |text|
        invariant 0 <= i <= |text| + 1
        invariant forall x | 0 <= x < i :: !OccursAt(text, secrets[k], x)
      {
        if OccursAt(text, secrets[k], i) {
          return true;
        }
        i := i + 1;
      }
      k := k + 1;
    }
    return false;
  }

  // ---------- the redacted text ----------

  function Shown(decode: string -> Option<string>, secrets: seq<string>, token: string): string {
    if IsSecretToken(decode, secrets, token) then REPLACEMENT else token
  }

  /** The text from `from` on, with every string token that holds a secret replaced. */
  function Cleaned(value: string, decode: string -> Option<string>, secrets: seq<string>, from: nat): string
    requires from <= |value|
    decreases |value| - from
  {
    var start := NextQuote(value, from);
    if start == |value| then value[from..]
    else
      match TokenEnd(value, start + 1)
      case None => value[from..]
      case Some(end) =>
        value[from..start] + Shown(decode, secrets, value[start..end]) + Cleaned(value, decode, secrets, end)
  }

  /** What has been decided up to `position`: replaced tokens, and kept text behind them. */
  function Decided(value: string, ranges: seq<Range>, position: nat): string
    requires End(ranges) <= position <= |value|
  {
    Pieces(value, ranges) + value[End(ranges)..position]
  }

  lemma {:induction false} TokenKept(value: string, ranges: seq<Range>, position: nat, start: nat, end: nat)
    requires End(ranges) <= position <= start <= end <= |value|
    ensures Decided(value, ranges, end) == Decided(value, ranges, position) + value[position..start] + value[start..end]
  {
    assert value[End(ranges)..end] == value[End(ranges)..position] + value[position..start] + value[start..end];
  }

  lemma {:induction false} TokenReplaced(value: string, ranges: seq<Range>, position: nat, token: Range)
    requires End(ranges) <= position <= token.start <= token.end <= |value|
    ensures End(ranges + [token]) == token.end
    ensures Decided(value, ranges + [token], token.end) ==
            Decided(value, ranges, position) + value[position..token.start] + token.text
  {
    OneMoreRange(value, ranges, token);
    assert value[token.end..token.end] == "";
    SplitSlice(value, Pieces(value, ranges), End(ranges), position, token.start);
  }

  lemma {:induction false} SplitSlice(value: string, front: string, a: nat, b: nat, c: nat)
    requires a <= b <= c <= |value|
    ensures front + value[a..c] == front + value[a..b] + value[b..c]
  {
    assert value[a..c] == value[a..b] + value[b..c];
  }

  lemma {:induction false} Regroup(a: string, rest: string, b: string, c: string, d: string)
    requires rest == b + c + d
    ensures a + rest == a + b + c + d
  {
  }

  /** The redacted text from `from` on begins with what stands before the next token, and the
      token as it is shown. */
  lemma {:induction false} CleanedAt(value: string, decode: string -> Option<string>, secrets: seq<string>,
                                     from: nat, start: nat, end: nat)
    requires from <= |value| && start == NextQuote(value, from) < |value| && TokenEnd(value, start + 1) == Some(end)
    ensures Cleaned(value, decode, secrets, from) ==
            value[from..start] + Shown(decode, secrets, value[start..end]) + Cleaned(value, decode, secrets, end)
  {
  }

  lemma {:induction false} AllDecided(value: string, ranges: seq<Range>, position: nat)
    requires End(ranges) <= position <= |value|
    ensures Decided(value, ranges, position) + value[position..] == Interleaved(value, ranges)
  {
    assert value[End(ranges)..] == value[End(ranges)..position] + value[position..];
  }

  lemma {:induction false} OneToken(value: string, decode: string -> Option<string>, secrets: seq<string>, from: nat,
                                    ranges: seq<Range>, start: nat, end: nat)
    requires from <= |value| && start == NextQuote(value, from) < |value| && TokenEnd(value, start + 1) == Some(end)
    ensures ranges + SecretTokens(value, decode, secrets, from) ==
            (if IsSecretToken(decode, secrets, value[start..end]) then ranges + [Range(start, end, REPLACEMENT)] else ranges)
            + SecretTokens(value, decode, secrets, end)
  {
    var rest, token := SecretTokens(value, decode, secrets, end), Range(start, end, REPLACEMENT);
    if IsSecretToken(decode, secrets, value[start..end]) {
      assert ranges + ([token] + rest) == ranges + [token] + rest;
    } else {
      assert [] + rest == rest;
    }
  }

  /** Nothing is left to be found from `position` on. */
  predicate Finished(value: string, position: nat)
    requires position <= |value|
  {
    NextQuote(value, position) == |value| || TokenEnd(value, NextQuote(value, position) + 1).None?
  }

  /** The tokens found so far, and those still to be found. */
  predicate FoundSoFar(value: string, decode: string -> Option<string>, secrets: seq<string>, ranges: seq<Range>, position: nat)
    requires position <= |value|
  {
    SecretTokens(value, decode, secrets, 0) == ranges + SecretTokens(value, decode, secrets, position)
  }

  /** The redacted text so far, and what is still to be redacted. */
  predicate CleanSoFar(value: string, decode: string -> Option<string>, secrets: seq<string>, done: string, position: nat)
    requires position <= |value|
  {
    Cleaned(value, decode, secrets, 0) == done + Cleaned(value, decode, secrets, position)
  }

  /** The scan has got to `position`. */
  predicate Scanned(value: string, decode: string -> Option<string>, secrets: seq<string>, ranges: seq<Range>, position: nat) {
    && position <= |value| && Ordered(ranges, |value|) && End(ranges) <= position
    && FoundSoFar(value, decode, secrets, ranges, position)
    && CleanSoFar(value, decode, secrets, Decided(value, ranges, position), position)
  }

  lemma {:induction false} FoundStep(value: string, decode: string -> Option<string>, secrets: seq<string>, ranges: seq<Range>,
                                     position: nat, start: nat, end: nat)
    requires position <= |value| && FoundSoFar(value, decode, secrets, ranges, position)
    requires start == NextQuote(value, position) < |value| && TokenEnd(value, start + 1) == Some(end)
    ensures FoundSoFar(value, decode, secrets,
              if IsSecretToken(decode, secrets, value[start..end]) then ranges + [Range(start, end, REPLACEMENT)] else ranges, end)
  {
    OneToken(value, decode, secrets, position, ranges, start, end);
  }

  lemma {:induction false} CleanStep(value: string, decode: string -> Option<string>, secrets: seq<string>, done: string,
                                     position: nat, start: nat, end: nat)
    requires position <= |value| && CleanSoFar(value, decode, secrets, done, position)
    requires start == NextQuote(value, position) < |value| && TokenEnd(value, start + 1) == Some(end)
    ensures CleanSoFar(value, decode, secrets,
              done + value[position..start] + Shown(decode, secrets, value[start..end]), end)
  {
    CleanedAt(value, decode, secrets, position, start, end);
    Regroup(done, Cleaned(value, decode, secrets, position), value[position..start],
            Shown(decode, secrets, value[start..end]), Cleaned(value, decode, secrets, end));
  }

  lemma {:induction false} KeepStep(value: string, decode: string -> Option<string>, secrets: seq<string>, ranges: seq<Range>,
                                    position: nat, start: nat, end: nat)
    requires Scanned(value, decode, secrets, ranges, position)
    requires start == NextQuote(value, position) < |value| && TokenEnd(value, start + 1) == Some(end)
    requires !IsSecretToken(decode, secrets, value[start..end])
    ensures Scanned(value, decode, secrets, ranges, end)
  {
    FoundStep(value, decode, secrets, ranges, position, start, end);
    CleanStep(value, decode, secrets, Decided(value, ranges, position), position, start, end);
    TokenKept(value, ranges, position, start, end);
  }

  lemma {:induction false} ReplaceStep(value: string, decode: string -> Option<string>, secrets: seq<string>, ranges: seq<Range>,
                                       position: nat, start: nat, end: nat)
    requires Scanned(value, decode, secrets, ranges, position)
    requires start == NextQuote(value, position) < |value| && TokenEnd(value, start + 1) == Some(end)
    requires IsSecretToken(decode, secrets, value[start..end])
    ensures Scanned(value, decode, secrets, ranges + [Range(start, end, REPLACEMENT)], end)
  {
    var token := Range(start, end, REPLACEMENT);
    FoundStep(value, decode, secrets, ranges, position, start, end);
    OrderedMore(ranges, token, |value|);
    CleanStep(value, decode, secrets, Decided(value, ranges, position), position, start, end);
    TokenReplaced(value, ranges, position, token);
  }

  method HoldsSecretToken(decode: string -> Option<string>, secrets: seq<string>, token: string) returns (found: bool)
    ensures found == IsSecretToken(decode, secrets, token)
  {
    var decoded := decode(token);
    found := false;
    if decoded.Some? {
      found := FindsSecret(decoded.value, secrets);
    }
  }

  method TakeToken(value: string, decode: string -> Option<string>, secrets: seq<string>, ranges: seq<Range>,
                   ghost position: nat, start: nat, end: nat)
    returns (more: seq<Range>)
    requires Scanned(value, decode, secrets, ranges, position)
    requires start == NextQuote(value, position) < |value| && TokenEnd(value, start + 1) == Some(end)
    ensures Scanned(value, decode, secrets, more, end)
  {
    more := ranges;
    var found := HoldsSecretToken(decode, secrets, value[start..end]);
    if found {
      ReplaceStep(value, decode, secrets, ranges, position, start, end);
      more := more + [Range(start, end, REPLACEMENT)];
    } else {
      KeepStep(value, decode, secrets, ranges, position, start, end);
    }
  }

  method ScanTokens(value: string, decode: string -> Option<string>, secrets: seq<string>)
    returns (ranges: seq<Range>, ghost position: nat)
    ensures Scanned(value, decode, secrets, ranges, position) && Finished(value, position)
  {
    ranges, position := [], 0;
    var at := 0;
    ScanStarts(value, decode, secrets);
    while at < |value|
      invariant Scanned(value, decode, secrets, ranges, at)
      decreases |value| - at
    {
      var start := FindQuote(value, at);
      if start.None? {
        break;
      }
      var end := StringEnd(value, start.value);
      if end.None? {
        break;
      }
      ranges := TakeToken(value, decode, secrets, ranges, at, start.value, end.value);
      at := end.value;
    }
    position := at;
  }

  /** Exactly the string tokens with a secret in them are replaced, whole. */
  method RedactJsonStringValues(value: string, decode: string -> Option<string>, secrets: seq<string>)
    returns (out: string, ranges: seq<Range>)
    ensures Ordered(ranges, |value|) && out == Interleaved(value, ranges)
    ensures ranges == SecretTokens(value, decode, secrets, 0)
    ensures out == Cleaned(value, decode, secrets, 0)
  {
    ghost var position;
    ranges, position := ScanTokens(value, decode, secrets);
    ScanEnds(value, decode, secrets, ranges, position);
    AllApplied(ranges, |value|);
    out := ReplaceRanges(value, ranges);
  }

  lemma {:induction false} ScanStarts(value: string, decode: string -> Option<string>, secrets: seq<string>)
    ensures Scanned(value, decode, secrets, [], 0)
  {
    assert [] + SecretTokens(value, decode, secrets, 0) == SecretTokens(value, decode, secrets, 0);
    assert Decided(value, [], 0) + Cleaned(value, decode, secrets, 0) == Cleaned(value, decode, secrets, 0);
  }

  lemma {:induction false} ScanEnds(value: string, decode: string -> Option<string>, secrets: seq<string>, ranges: seq<Range>, position: nat)
    requires Scanned(value, decode, secrets, ranges, position) && Finished(value, position)
    ensures ranges == SecretTokens(value, decode, secrets, 0)
    ensures Interleaved(value, ranges) == Cleaned(value, decode, secrets, 0)
  {
    AllDecided(value, ranges, position);
  }

  // ---------- scanning the redacted text again ----------

  /** Where a token ends depends on the text from its quote on only. */
  lemma {:induction false} TokenEndShifts(a: string, b: string, s: string, i: nat)
    requires 0 < i
    ensures TokenEnd(a + s, |a| + i).Some? <==> TokenEnd(b + s, |b| + i).Some?
    ensures TokenEnd(a + s, |a| + i).Some? ==> TokenEnd(a + s, |a| + i).value - |a| == TokenEnd(b + s, |b| + i).value - |b|
    decreases |s| - i
  {
    assert i < |s| ==> (a + s)[|a| + i] == s[i] == (b + s)[|b| + i];
    assert i == |s| ==> (a + s)[|a| + i - 1] == s[i - 1] == (b + s)[|b| + i - 1];
    if i < |s| {
      if s[i] == '\\' {
        TokenEndShifts(a, b, s, i + 2);
      } else if s[i] != '"' {
        TokenEndShifts(a, b, s, i + 1);
      }
    }
  }

  /** A token that ends before the text does is a token behind and before other text too. */
  lemma {:induction false} TokenEndStays(value: string, start: nat, i: nat, end: nat, a: string, rest: string)
    requires 0 < i && TokenEnd(value, start + i) == Some(end) && (end < |value| || rest == "")
    ensures TokenEnd(a + value[start..end] + rest, |a| + i) == Some(|a| + end - start)
    decreases |value| - i
  {
    var out := a + value[start..end] + rest;
    if start + i < |value| {
      assert out[|a| + i] == value[start + i];
      if value[start + i] == '\\' {
        TokenEndStays(value, start, i + 2, end, a, rest);
      } else if value[start + i] != '"' {
        TokenEndStays(value, start, i + 1, end, a, rest);
      }
    } else {
      assert out[|a| + i - 1] == value[start + i - 1];
    }
  }

  lemma {:induction false} PlainTail(s: string, i: nat, k: nat)
    requires 0 < i <= k < |s| && forall x | i <= x < k :: s[x] != '"' && s[x] != '\\'
    ensures TokenEnd(s, i) == TokenEnd(s, k)
    decreases k - i
  {
    if i < k {
      PlainTail(s, i + 1, k);
    }
  }

  lemma {:induction false} ReplacementIsToken(a: string, rest: string)
    ensures TokenEnd(a + REPLACEMENT + rest, |a| + 1) == Some(|a| + |REPLACEMENT|)
  {
    var s := a + REPLACEMENT + rest;
    var last := |a| + |REPLACEMENT| - 1;
    forall x | |a| + 1 <= x < last ensures s[x] != '"' && s[x] != '\\' {
      assert s[x] == REPLACEMENT[x - |a|];
    }
    assert s[last] == REPLACEMENT[|REPLACEMENT| - 1] == '"';
    PlainTail(s, |a| + 1, last);
  }

  lemma {:induction false} QuoteAfter(a: string, plain: string, s: string)
    requires (forall x | 0 <= x < |plain| :: plain[x] != '"') && (s != "" ==> s[0] == '"')
    ensures NextQuote(a + plain + s, |a|) == |a| + |plain|
    decreases |plain|
  {
    var out := a + plain + s;
    if plain == "" {
      assert s != "" ==> out[|a|] == s[0];
    } else {
      assert out[|a|] == plain[0];
      assert out == (a + [plain[0]]) + plain[1..] + s;
      QuoteAfter(a + [plain[0]], plain[1..], s);
    }
  }

  lemma {:induction false} NoQuoteBefore(value: string, from: nat)
    requires from <= |value|
    ensures forall x | from <= x < NextQuote(value, from) :: value[x] != '"'
    decreases |value| - from
  {
    if from < |value| && value[from] != '"' {
      NoQuoteBefore(value, from + 1);
    }
  }

  /** One step of the second scan: kept text without a quote, then a token. */
  lemma {:induction false} NextIsToken(decode: string -> Option<string>, secrets: seq<string>, a: string, plain: string,
                                       token: string, rest: string)
    requires (forall x | 0 <= x < |plain| :: plain[x] != '"') && token != "" && token[0] == '"'
    requires TokenEnd(a + plain + token + rest, |a + plain| + 1) == Some(|a + plain + token|)
    ensures var out, next := a + plain + token + rest, |a + plain + token|;
            SecretTokens(out, decode, secrets, |a|) ==
            (if IsSecretToken(decode, secrets, token) then [Range(|a + plain|, next, REPLACEMENT)] else [])
            + SecretTokens(out, decode, secrets, next)
  {
    TokenFollows(a, plain, token, rest);
    QuoteAfter(a, plain, token + rest);
    FoundNext(a + plain + token + rest, decode, secrets, |a|, |a + plain|, |a + plain + token|);
  }

  lemma {:induction false} FoundNext(out: string, decode: string -> Option<string>, secrets: seq<string>, from: nat, start: nat, end: nat)
    requires from <= |out| && start == NextQuote(out, from) < |out| && TokenEnd(out, start + 1) == Some(end)
    ensures SecretTokens(out, decode, secrets, from) ==
            (if IsSecretToken(decode, secrets, out[start..end]) then [Range(start, end, REPLACEMENT)] else [])
            + SecretTokens(out, decode, secrets, end)
  {
  }

  lemma {:induction false} TokenFollows(a: string, plain: string, token: string, rest: string)
    ensures a + plain + token + rest == a + plain + (token + rest)
    ensures (a + plain + token + rest)[|a + plain|..|a + plain + token|] == token
  {
  }

  /** A token of the text ends at the same place with other text in front. */
  lemma {:induction false} TokenOfSuffix(value: string, start: nat, a: string)
    requires start < |value|
    ensures TokenEnd(a + value[start..], |a| + 1).Some? <==> TokenEnd(value, start + 1).Some?
    ensures TokenEnd(value, start + 1).Some? ==>
              TokenEnd(a + value[start..], |a| + 1).value - |a| == TokenEnd(value, start + 1).value - start
  {
    TokenEndShifts(a, value[..start], value[start..], 1);
    assert value == value[..start] + value[start..];
  }

  lemma {:induction false} NoMoreTokens(decode: string -> Option<string>, secrets: seq<string>, a: string, plain: string, tail: string)
    requires (forall x | 0 <= x < |plain| :: plain[x] != '"') && (tail != "" ==> tail[0] == '"')
    requires tail == "" || TokenEnd(a + plain + tail, |a + plain| + 1).None?
    ensures SecretTokens(a + plain + tail, decode, secrets, |a|) == []
  {
    QuoteAfter(a, plain, tail);
  }

  lemma {:induction false} PlainPart(value: string, from: nat, plain: string)
    requires from <= |value| && plain == value[from..NextQuote(value, from)]
    ensures forall x | 0 <= x < |plain| :: plain[x] != '"'
  {
    NoQuoteBefore(value, from);
    forall x | 0 <= x < |plain| ensures plain[x] != '"' {
      assert plain[x] == value[from + x];
    }
  }

  /** Kept text without a closed token holds none behind anything either. */
  lemma {:induction false} NothingAtTheEnd(value: string, decode: string -> Option<string>, secrets: seq<string>, a: string, from: nat)
    requires from <= |value| && Finished(value, from)
    ensures SecretTokens(a + value[from..], decode, secrets, |a|) == []
  {
    var start := NextQuote(value, from);
    var plain, tail := value[from..start], value[start..];
    PlainPart(value, from, plain);
    if start < |value| {
      TokenOfSuffix(value, start, a + plain);
    }
    NoMoreTokens(decode, secrets, a, plain, tail);
    assert a + value[from..] == a + plain + tail;
  }

  /** The token at `start` of the text, as the redacted text shows it, behind anything. */
  lemma {:induction false} ShownIsToken(value: string, decode: string -> Option<string>, secrets: seq<string>,
                                        start: nat, end: nat, a: string, rest: string)
    requires start < |value| && value[start] == '"' && TokenEnd(value, start + 1) == Some(end)
    requires end < |value| || rest == ""
    ensures var shown := Shown(decode, secrets, value[start..end]);
            shown != "" && shown[0] == '"' && TokenEnd(a + shown + rest, |a| + 1) == Some(|a| + |shown|)
  {
    if IsSecretToken(decode, secrets, value[start..end]) {
      ReplacementIsToken(a, rest);
    } else {
      TokenEndStays(value, start, 1, end, a, rest);
    }
  }

  lemma {:induction false} CleanedFirst(value: string, decode: string -> Option<string>, secrets: seq<string>, a: string,
                                        from: nat, start: nat, end: nat)
    requires from <= |value| && start == NextQuote(value, from) < |value| && TokenEnd(value, start + 1) == Some(end)
    ensures a + Cleaned(value, decode, secrets, from) ==
            a + value[from..start] + Shown(decode, secrets, value[start..end]) + Cleaned(value, decode, secrets, end)
  {
    CleanedAt(value, decode, secrets, from, start, end);
    Regroup(a, Cleaned(value, decode, secrets, from), value[from..start],
            Shown(decode, secrets, value[start..end]), Cleaned(value, decode, secrets, end));
  }

  /** What the second scan finds first is the token that the first scan found first, as shown. */
  lemma {:induction false} SameFirst(value: string, decode: string -> Option<string>, secrets: seq<string>,
                                     from: nat, start: nat, end: nat, a: string, rest: string)
    requires from <= |value| && start == NextQuote(value, from) < |value| && TokenEnd(value, start + 1) == Some(end)
    requires end < |value| || rest == ""
    ensures var shown := Shown(decode, secrets, value[start..end]);
            var front := a + value[from..start] + shown;
            SecretTokens(front + rest, decode, secrets, |a|) == [] <==>
              !IsSecretToken(decode, secrets, shown) && SecretTokens(front + rest, decode, secrets, |front|) == []
  {
    PlainPart(value, from, value[from..start]);
    ShownIsToken(value, decode, secrets, start, end, a + value[from..start], rest);
    NextIsToken(decode, secrets, a, value[from..start], Shown(decode, secrets, value[start..end]), rest);
  }

  lemma {:induction false} NothingBehind(value: string, decode: string -> Option<string>, secrets: seq<string>, end: nat)
    requires end <= |value|
    ensures end < |value| || Cleaned(value, decode, secrets, end) == ""
  {
  }

  /** Behind anything, the redacted rest holds no secret token exactly when the replacement is
      none itself or there was nothing to replace. */
  lemma {:induction false} CleanedBehind(value: string, decode: string -> Option<string>, secrets: seq<string>, a: string, from: nat)
    requires from <= |value|
    ensures SecretTokens(a + Cleaned(value, decode, secrets, from), decode, secrets, |a|) == [] <==>
            !IsSecretToken(decode, secrets, REPLACEMENT) || SecretTokens(value, decode, secrets, from) == []
    decreases |value| - from
  {
    if Finished(value, from) {
      NothingAtTheEnd(value, decode, secrets, a, from);
    } else {
      var start := NextQuote(value, from);
      var end := TokenEnd(value, start + 1).value;
      var token := value[start..end];
      CleanedFirst(value, decode, secrets, a, from, start, end);
      NothingBehind(value, decode, secrets, end);
      SameFirst(value, decode, secrets, from, start, end, a, Cleaned(value, decode, secrets, end));
      CleanedBehind(value, decode, secrets, a + value[from..start] + Shown(decode, secrets, token), end);
      FoundFirst(value, decode, secrets, from, start, end);
    }
  }

  lemma {:induction false} FoundFirst(value: string, decode: string -> Option<string>, secrets: seq<string>,
                                      from: nat, start: nat, end: nat)
    requires from <= |value| && start == NextQuote(value, from) < |value| && TokenEnd(value, start + 1) == Some(end)
    ensures SecretTokens(value, decode, secrets, from) == [] <==>
            !IsSecretToken(decode, secrets, value[start..end]) && SecretTokens(value, decode, secrets, end) == []
  {
  }

  /** Scanning the redacted text again finds nothing, exactly when the replacement holds no
      secret itself or nothing was replaced. */
  lemma {:induction false} RedactedIsClean(value: string, decode: string -> Option<string>, secrets: seq<string>)
    ensures SecretTokens(Cleaned(value, decode, secrets, 0), decode, secrets, 0) == [] <==>
            !IsSecretToken(decode, secrets, REPLACEMENT) || SecretTokens(value, decode, secrets, 0) == []
  {
    CleanedBehind(value, decode, secrets, "", 0);
    assert "" + Cleaned(value, decode, secrets, 0) == Cleaned(value, decode, secrets, 0);
  }

  // ---------- which tokens are replaced, and where a token ends ----------

  /** The string tokens of the text from `from` on: pairs of start and end. */
  function Tokens(value: string, from: nat): (tokens: seq<(nat, nat)>)
    requires from <= |value|
    ensures forall t | t in tokens :: from <= t.0 <= t.1 <= |value|
    decreases |value| - from
  {
    var start := NextQuote(value, from);
    if start == |value| then []
    else
      match TokenEnd(value, start + 1)
      case None => []
      case Some(end) => [(start, end)] + Tokens(value, end)
  }

  /** The token decodes, and some secret stands in what it decodes to. */
  predicate DecodesToSecret(decode: string -> Option<string>, secrets: seq<string>, token: string) {
    decode(token).Some? && exists k | 0 <= k < |secrets| :: Contains(decode(token).value, secrets[k])
  }

  /** A string token is replaced exactly when some secret stands in what it decodes to. */
  lemma {:induction false} ReplacedExactly(value: string, decode: string -> Option<string>, secrets: seq<string>, from: nat, start: nat, end: nat)
    requires from <= |value| && (start, end) in Tokens(value, from)
    ensures Range(start, end, "\"[REDACTED]\"") in SecretTokens(value, decode, secrets, from) <==>
              DecodesToSecret(decode, secrets, value[start..end])
    decreases |value| - from
  {
    var first := NextQuote(value, from);
    var next := TokenEnd(value, first + 1).value;
    TokensBehind(value, next);
    RangesBehind(value, decode, secrets, next);
    if start == first {
      assert (start, end) !in Tokens(value, next);
    } else {
      ReplacedExactly(value, decode, secrets, next, start, end);
    }
  }

  lemma {:induction false} TokensBehind(value: string, from: nat)
    requires from <= |value|
    ensures forall t | t in Tokens(value, from) :: t.0 >= from
  {
  }

  lemma {:induction false} RangesBehind(value: string, decode: string -> Option<string>, secrets: seq<string>, from: nat)
    requires from <= |value|
    ensures forall r | r in SecretTokens(value, decode, secrets, from) :: r.start >= from
    decreases |value| - from
  {
    var start := NextQuote(value, from);
    if start < |value| && TokenEnd(value, start + 1).Some? {
      RangesBehind(value, decode, secrets, TokenEnd(value, start + 1).value);
    }
  }

  /** Quotes and backslashes of a text, escaped as in section 7 of RFC 8259. */
  function Escaped(text: string): string {
    if text == "" then "" else (if text[0] == '"' || text[0] == '\\' then ['\\', text[0]] else [text[0]]) + Escaped(text[1..])
  }

  lemma {:induction false} MoveHead(before: string, head: string, tail: string, rest: string)
    requires head != ""
    ensures before + (head + tail) + "\"" + rest == before + head + tail + "\"" + rest
    ensures |before| < |before + (head + tail) + "\"" + rest| && (before + (head + tail) + "\"" + rest)[|before|] == head[0]
  {
  }

  /** Over the first, escaped character of a text. */
  lemma {:induction false} EscapedHead(value: string, i: nat, head: string)
    requires 0 < i < |value| && (head == [value[i]] || |head| == 2) && head != "" && head[0] == value[i]
    requires |head| == 2 <==> value[i] == '\\'
    requires value[i] != '"'
    ensures TokenEnd(value, i) == TokenEnd(value, i + |head|)
  {
  }

  /** A text that was escaped and quoted is one token, up to its closing quote. */
  lemma {:induction false} EscapedTextIsOneToken(before: string, text: string, rest: string)
    requires before != ""
    ensures TokenEnd(before + Escaped(text) + "\"" + rest, |before|) == Some(|before| + |Escaped(text)| + 1)
    decreases |text|
  {
    var value := before + Escaped(text) + "\"" + rest;
    if text == "" {
      assert value[|before|] == '"';
    } else {
      var head := if text[0] == '"' || text[0] == '\\' then ['\\', text[0]] else [text[0]];
      MoveHead(before, head, Escaped(text[1..]), rest);
      EscapedHead(value, |before|, head);
      EscapedTextIsOneToken(before + head, text[1..], rest);
    }
  }
}
