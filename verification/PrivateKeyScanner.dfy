/** The scanner for private keys (k2do/agent/tools/mcp.py, 756-766, 858-881). */
module PrivateKeyScanner {
  import opened Prelude
  import opened ScannerBasics
  import opened TextRanges

  const BEGIN := "-----begin "
  const END := "-----end "
  const KEY := "private key"

  function Min(a: nat, b: nat): nat {
    if a <= b then a else b
  }

  /** `literal` stands somewhere in [from, to). */
  predicate Holds(value: string, literal: string, from: nat, to: nat) {
    exists i | from <= i && i + |literal| <= to :: Matches(value, literal, i)
  }

  /** Case-insensitive search within the first `stop` characters. */
  method AsciiFind(value: string, literal: string, start: nat, stop: Option<nat>) returns (found: Option<nat>)
    ensures found.Some? ==> start <= found.value && Matches(value, literal, found.value)
    ensures var upper := if stop.Some? then Min(|value|, stop.value) else |value|;
            && (found.Some? ==> found.value + |literal| <= upper)
            && forall i | start <= i < (if found.Some? then found.value else upper + 1) && i + |literal| <= upper ::
                 !Matches(value, literal, i)
  {
    var upper := if stop.Some? then Min(|value|, stop.value) else |value|;
    var position := start;
    while position + |literal| <= upper
      invariant start <= position
      invariant forall i | start <= i < position && i + |literal| <= upper :: !Matches(value, literal, i)
    {
      var here := AsciiStartsWith(value, literal, position);
      if here {
        return Some(position);
      }
      position := position + 1;
    }
    return None;
  }

  /** The end of the line that starts at `from`, at most 160 characters further. */
  function LineEnd(value: string, from: nat, i: nat): (end: nat)
    requires from <= i <= Min(|value|, from + 160)
    ensures i <= end <= Min(|value|, from + 160)
    decreases Min(|value|, from + 160) - i
  {
    if i < Min(|value|, from + 160) && value[i] != '\n' then LineEnd(value, from, i + 1) else i
  }

  method FindLineEnd(value: string, from: nat) returns (end: nat)
    requires from <= |value|
    ensures end == LineEnd(value, from, from)
  {
    end := from;
    while end < Min(|value|, from + 160) && value[end] != '\n'
      invariant from <= end <= Min(|value|, from + 160)
      invariant LineEnd(value, from, end) == LineEnd(value, from, from)
    {
      end := end + 1;
    }
  }

  /** The first place from `from` on where `literal` stands. */
  function FirstMatch(value: string, literal: string, from: nat): (found: Option<nat>)
    requires from <= |value|
    ensures found.Some? ==> from <= found.value <= |value| && Matches(value, literal, found.value)
    decreases |value| - from
  {
    if Matches(value, literal, from) then Some(from)
    else if from < |value| then FirstMatch(value, literal, from + 1)
    else None
  }

  lemma {:induction false} FirstMatchIs(value: string, literal: string, from: nat, at: nat)
    requires from <= at <= |value| && forall i | from <= i < at :: !Matches(value, literal, i)
    ensures FirstMatch(value, literal, from) == FirstMatch(value, literal, at)
    decreases at - from
  {
    if from < at {
      FirstMatchIs(value, literal, from + 1, at);
    }
  }

  /** Where the key ends whose begin line ends at `from`: with the first end line that names a
      private key, or with the text. */
  function KeyEnd(value: string, from: nat): (end: nat)
    requires from <= |value|
    ensures from <= end <= |value|
    decreases |value| - from
  {
    match FirstMatch(value, END, from)
    case None => |value|
    case Some(e) =>
      LineGoesOn(value, END, e);
      var line := LineEnd(value, e, e);
      if Holds(value, KEY, e, line) then line else KeyEnd(value, line)
  }

  /** A begin line that names a private key starts at `p`. */
  predicate KeyHeaderAt(value: string, p: nat) {
    Matches(value, BEGIN, p) && p <= |value| && Holds(value, KEY, p, LineEnd(value, p, p))
  }

  /** The range reaches from a private key's begin line to the end of that key. */
  predicate IsKey(value: string, range: Range) {
    && KeyHeaderAt(value, range.start) && range.text == "[REDACTED PRIVATE KEY]"
    && range.end == KeyEnd(value, LineEnd(value, range.start, range.start))
  }

  predicate HeadersCovered(value: string, ranges: seq<Range>, n: nat) {
    forall p | 0 <= p < n && KeyHeaderAt(value, p) :: InSome(ranges, p)
  }

  /** Begin lines do not overlap. */
  lemma {:induction false} HeadersApart(value: string, p: nat, q: nat)
    requires Matches(value, BEGIN, p) && p < q < p + |BEGIN|
    ensures !Matches(value, BEGIN, q)
  {
    var o := if q < p + 5 then p + 5 - q else 0;
    assert Lower(value[p + (q + o - p)]) == BEGIN[q + o - p];
    MatchesAt(value, BEGIN, q, o);
  }

  lemma {:induction false} MatchesAt(value: string, literal: string, start: nat, o: nat)
    ensures Matches(value, literal, start) && o < |literal| ==> Lower(value[start + o]) == literal[o]
  {
  }

  /** Search in the whole rest of the text. */
  method FindFrom(value: string, literal: string, from: nat) returns (found: Option<nat>)
    requires from <= |value|
    ensures found == FirstMatch(value, literal, from)
  {
    found := AsciiFind(value, literal, from, None);
    FirstMatchIs(value, literal, from, if found.Some? then found.value else |value|);
  }

  method FindKeyEnd(value: string, from: nat) returns (end: nat)
    requires from <= |value|
    ensures end == KeyEnd(value, from)
    ensures from < |value| ==> from < end
  {
    end := |value|;
    var cursor := from;
    var endStart := FindFrom(value, END, cursor);
    while endStart.Some?
      invariant end == |value| && from <= cursor <= |value|
      invariant endStart == FirstMatch(value, END, cursor) && KeyEnd(value, from) == KeyEnd(value, cursor)
      decreases |value| - cursor
    {
      var endLine := FindLineEnd(value, endStart.value);
      LineGoesOn(value, END, endStart.value);
      var named := AsciiFind(value, KEY, endStart.value, Some(endLine));
      if named.Some? {
        return endLine;
      }
      cursor := endLine;
      endStart := FindFrom(value, END, cursor);
    }
  }

  lemma {:induction false} LineGoesOn(value: string, literal: string, p: nat)
    requires Matches(value, literal, p) && literal != "" && literal[0] == '-'
    ensures p < LineEnd(value, p, p)
  {
    assert Lower(value[p + 0]) == literal[0];
  }

  lemma {:induction false} HeadersSettled(value: string, before: seq<Range>, ranges: seq<Range>, start: nat, cursor: nat, next: nat)
    requires HeadersCovered(value, before, start) && (forall p | InSome(before, p) :: InSome(ranges, p))
    requires Matches(value, BEGIN, start)
    requires if KeyHeaderAt(value, start) then forall p | start <= p < cursor :: InSome(ranges, p)
             else cursor == start + |BEGIN|
    requires forall p | cursor <= p < next && p + |BEGIN| <= |value| :: !Matches(value, BEGIN, p)
    ensures HeadersCovered(value, ranges, next)
  {
    forall p | 0 <= p < next && KeyHeaderAt(value, p) ensures InSome(ranges, p) {
      if p < start {
        assert InSome(before, p);
      } else if start < p < start + |BEGIN| {
        HeadersApart(value, start, p);
      }
    }
  }

  predicate HeadersScanned(value: string, ranges: seq<Range>, cursor: nat, next: nat) {
    && cursor <= |value| && Ordered(ranges, |value|) && End(ranges) <= cursor
    && HeadersCovered(value, ranges, next)
    && forall range | range in ranges :: IsKey(value, range)
  }

  /** One begin line: kept, or replaced with all that belongs to its key. */
  method TakeHeader(value: string, ranges: seq<Range>, start: nat)
    returns (ranges': seq<Range>, cursor: nat, begin: Option<nat>)
    requires Matches(value, BEGIN, start) && HeadersScanned(value, ranges, start, start)
    ensures HeadersScanned(value, ranges', cursor, if begin.Some? then begin.value else |value|) && start < cursor
    ensures begin.Some? ==> cursor <= begin.value && Matches(value, BEGIN, begin.value)
  {
    LineGoesOn(value, BEGIN, start);
    var headerEnd := FindLineEnd(value, start);
    var named := AsciiFind(value, KEY, start, Some(headerEnd));
    ranges' := ranges;
    if named.None? {
      cursor := start + |BEGIN|;
    } else {
      cursor := FindKeyEnd(value, headerEnd);
      OneMore(ranges, Range(start, cursor, "[REDACTED PRIVATE KEY]"), |value|);
      ranges' := ranges' + [Range(start, cursor, "[REDACTED PRIVATE KEY]")];
    }
    begin := AsciiFind(value, BEGIN, cursor, None);
    HeadersSettled(value, ranges, ranges', start, cursor, if begin.Some? then begin.value else |value|);
  }

  /** Every private key header is covered, up to its end line or the end of the text. */
  method RedactPrivateKeys(value: string) returns (out: string, ranges: seq<Range>)
    ensures Ordered(ranges, |value|) && out == Interleaved(value, ranges)
    ensures HeadersCovered(value, ranges, |value|)
    ensures forall range | range in ranges :: IsKey(value, range)
  {
    ranges := [];
    var cursor := 0;
    var begin: Option<nat> := AsciiFind(value, BEGIN, cursor, None);
    while begin.Some?
      invariant HeadersScanned(value, ranges, cursor, if begin.Some? then begin.value else |value|)
      invariant begin.Some? ==> cursor <= begin.value && Matches(value, BEGIN, begin.value)
      decreases |value| - cursor
    {
      ranges, cursor, begin := TakeHeader(value, ranges, begin.value);
    }
    AllApplied(ranges, |value|);
    out := ReplaceRanges(value, ranges);
  }
}
