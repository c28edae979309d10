/** What the credential scanners share (k2do/agent/tools/mcp.py, 82-84, 743-766).
    `alnum` stands for `str.isalnum` of one character. */
module ScannerBasics {
  import opened TextRanges

  predicate AsciiLetterOrDigit(c: char) {
    'a' <= c <= 'z' || 'A' <= c <= 'Z' || '0' <= c <= '9'
  }

  function Lower(c: char): char {
    if 'A' <= c <= 'Z' then (c as int + 32) as char else c
  }

  predicate TokenCharacter(c: char) {
    AsciiLetterOrDigit(c) || c in "._~+/=-"
  }

  predicate KnowsAscii(alnum: char -> bool) {
    forall c | AsciiLetterOrDigit(c) :: alnum(c)
  }

  lemma {:induction false} LowerShape(c: char)
    ensures 'a' <= Lower(c) <= 'z' ==> AsciiLetterOrDigit(c)
    ensures Lower(c) in "_-" ==> c == Lower(c)
  {
  }

  /** `literal` stands at `start`, ASCII case ignored. */
  predicate Matches(value: string, literal: string, start: int) {
    0 <= start && start + |literal| <= |value| &&
    forall o | 0 <= o < |literal| :: Lower(value[start + o]) == literal[o]
  }

  method AsciiStartsWith(value: string, literal: string, start: int) returns (found: bool)
    ensures found == Matches(value, literal, start)
  {
    if start < 0 || start + |literal| > |value| {
      return false;
    }
    var offset := 0;
    while offset < |literal|
      invariant 0 <= offset <= |literal|
      invariant forall o | 0 <= o < offset :: Lower(value[start + o]) == literal[o]
    {
      var character := value[start + offset];
      if 'A' <= character <= 'Z' {
        character := (character as int + 32) as char;
      }
      if character != literal[offset] {
        assert Lower(value[start + offset]) != literal[offset];
        return false;
      }
      offset := offset + 1;
    }
    return true;
  }

  lemma {:induction false} OrderedMore(ranges: seq<Range>, range: Range, size: nat)
    requires Ordered(ranges, size) && End(ranges) <= range.start < range.end <= size
    ensures Ordered(ranges + [range], size) && End(ranges + [range]) == range.end
  {
    assert (ranges + [range])[..|ranges|] == ranges;
  }

  lemma {:induction false} OneMore(ranges: seq<Range>, range: Range, size: nat)
    requires Ordered(ranges, size) && End(ranges) <= range.start < range.end <= size
    ensures Ordered(ranges + [range], size) && End(ranges + [range]) == range.end
    ensures forall p | InSome(ranges, p) :: InSome(ranges + [range], p)
    ensures forall p | range.start <= p < range.end :: InSome(ranges + [range], p)
  {
    var more := ranges + [range];
    OrderedMore(ranges, range, size);
    forall p | InSome(ranges, p) ensures InSome(more, p) {
      var k :| 0 <= k < |ranges| && InRange(ranges[k], p);
      assert more[k] == ranges[k];
    }
    assert more[|ranges|] == range;
  }

  /** In ordered ranges nothing is skipped, so every range found is replaced. */
  lemma {:induction false} AllApplied(ranges: seq<Range>, size: nat)
    requires Ordered(ranges, size)
    ensures Applied(ranges) == ranges
  {
    InBounds(ranges, size);
    OrderedIsApplied(ranges, size);
  }

  lemma {:induction false} InBounds(ranges: seq<Range>, size: nat)
    requires Ordered(ranges, size)
    ensures forall range | range in ranges :: range.end <= size
  {
    if ranges != [] {
      InBounds(ranges[..|ranges| - 1], size);
    }
  }

  lemma {:induction false} NotInOrdered(ranges: seq<Range>, size: nat, p: nat)
    requires Ordered(ranges, size) && End(ranges) <= p
    ensures !InSome(ranges, p)
  {
    if ranges != [] {
      var front := ranges[..|ranges| - 1];
      NotInOrdered(front, size, p);
      forall k | 0 <= k < |ranges| ensures !(ranges[k].start <= p < ranges[k].end) {
        if k < |front| {
          assert front[k] == ranges[k];
        }
      }
    }
  }

  lemma {:induction false} InSomeMore(ranges: seq<Range>, range: Range, p: nat)
    ensures InSome(ranges + [range], p) <==> InSome(ranges, p) || range.start <= p < range.end
  {
    var more := ranges + [range];
    if InSome(ranges, p) {
      var k :| 0 <= k < |ranges| && InRange(ranges[k], p);
      assert more[k] == ranges[k];
    }
    if InSome(more, p) {
      var k :| 0 <= k < |more| && InRange(more[k], p);
      if k < |ranges| {
        assert more[k] == ranges[k];
      }
    }
    assert more[|ranges|] == range;
  }

  // ---------- blanks, names and token runs ----------

  predicate Blank(c: char) {
    c == ' ' || c == '\t'
  }

  /** The end of the run of blanks that starts at `i`. */
  function BlankEnd(value: string, i: nat): (end: nat)
    requires i <= |value|
    ensures i <= end <= |value|
    decreases |value| - i
  {
    if i < |value| && Blank(value[i]) then BlankEnd(value, i + 1) else i
  }

  lemma {:induction false} BlankRun(value: string, i: nat, x: nat)
    requires i <= x < |value| && x < BlankEnd(value, i)
    ensures Blank(value[x])
    decreases x - i
  {
    if i < x {
      BlankRun(value, i + 1, x);
    }
  }

  method SkipBlanks(value: string, from: nat) returns (end: nat)
    requires from <= |value|
    ensures end == BlankEnd(value, from)
  {
    end := from;
    while end < |value| && Blank(value[end])
      invariant from <= end <= |value| && BlankEnd(value, end) == BlankEnd(value, from)
    {
      end := end + 1;
    }
  }

  predicate NameBefore(value: string, alnum: char -> bool, p: nat)
    requires p <= |value|
  {
    p > 0 && (alnum(value[p - 1]) || value[p - 1] in "_-")
  }

  /** The end of the run of token characters that starts at `i`. */
  function RunEnd(value: string, i: nat): (end: nat)
    requires i <= |value|
    ensures i <= end <= |value|
    decreases |value| - i
  {
    if i < |value| && TokenCharacter(value[i]) then RunEnd(value, i + 1) else i
  }

  lemma {:induction false} RunEndIs(value: string, i: nat, end: nat)
    requires i <= end <= |value|
    requires forall x | i <= x < end :: TokenCharacter(value[x])
    ensures RunEnd(value, end) == RunEnd(value, i)
    decreases end - i
  {
    if i < end {
      RunEndIs(value, i + 1, end);
    }
  }

  lemma {:induction false} RunIsToken(value: string, i: nat, x: nat)
    requires i <= x < |value| && x < RunEnd(value, i)
    ensures TokenCharacter(value[x]) && RunEnd(value, x) == RunEnd(value, i)
    decreases x - i
  {
    if i < x {
      RunIsToken(value, i + 1, x);
    }
  }

  method SkipTokens(value: string, from: nat) returns (end: nat)
    requires from <= |value|
    ensures end == RunEnd(value, from)
  {
    end := from;
    while end < |value| && TokenCharacter(value[end])
      invariant from <= end <= |value| && RunEnd(value, end) == RunEnd(value, from)
    {
      end := end + 1;
    }
  }
}
