/** UTF-8 (RFC 3629, sections 3 and 4): encoding, strict decoding, and decoding that skips
    what is invalid. */
module Utf8 {
  import opened Prelude

  type Byte = b: int | 0 <= b < 256

  predicate IsScalar(v: int) {
    0 <= v < 0xD800 || 0xE000 <= v < 0x110000
  }

  function Width(v: int): (w: nat)
    ensures 1 <= w <= 4
  {
    if v < 0x80 then 1 else if v < 0x800 then 2 else if v < 0x10000 then 3 else 4
  }

  function Bytes(v: int): (bytes: seq<Byte>)
    requires IsScalar(v)
    ensures |bytes| == Width(v)
  {
    if v < 0x80 then [v]
    else if v < 0x800 then [0xC0 + v / 64, 0x80 + v % 64]
    else if v < 0x10000 then [0xE0 + v / 4096, 0x80 + v / 64 % 64, 0x80 + v % 64]
    else [0xF0 + v / 262144, 0x80 + v / 4096 % 64, 0x80 + v / 64 % 64, 0x80 + v % 64]
  }

  function Encode(s: string): seq<Byte> {
    if s == "" then [] else Bytes(s[0] as int) + Encode(s[1..])
  }

  predicate Continues(b: Byte) {
    0x80 <= b < 0xC0
  }

  /** The scalar value encoded at the front, when there is a valid one. */
  function Front(b: seq<Byte>): (v: Option<int>)
    ensures v.Some? ==> IsScalar(v.value) && Width(v.value) <= |b|
  {
    if b == [] then None
    else if b[0] < 0x80 then Some(b[0])
    else if 0xC2 <= b[0] < 0xE0 && |b| >= 2 && Continues(b[1]) then
      Some((b[0] as int - 0xC0) * 64 + (b[1] as int - 0x80))
    else if 0xE0 <= b[0] < 0xF0 && |b| >= 3 && Continues(b[1]) && Continues(b[2]) then
      var v := (b[0] as int - 0xE0) * 4096 + (b[1] as int - 0x80) * 64 + (b[2] as int - 0x80);
      if v >= 0x800 && IsScalar(v) then Some(v) else None
    else if 0xF0 <= b[0] < 0xF5 && |b| >= 4 && Continues(b[1]) && Continues(b[2]) && Continues(b[3]) then
      var v :=
        (b[0] as int - 0xF0) * 262144 + (b[1] as int - 0x80) * 4096 + (b[2] as int - 0x80) * 64 + (b[3] as int - 0x80);
      if v >= 0x10000 && IsScalar(v) then Some(v) else None
    else None
  }

  /** `decode("utf-8", "ignore")`. */
  function DecodeIgnoring(b: seq<Byte>): string
    decreases |b|
  {
    if b == [] then ""
    else
      match Front(b)
      case Some(v) => [v as char] + DecodeIgnoring(b[Width(v)..])
      case None => DecodeIgnoring(b[1..])
  }

  /** `decode("utf-8")`; `None` stands for the decoding error. */
  function Decode(b: seq<Byte>): Option<string>
    decreases |b|
  {
    if b == [] then Some("")
    else
      match Front(b)
      case None => None
      case Some(v) =>
        match Decode(b[Width(v)..])
        case None => None
        case Some(rest) => Some([v as char] + rest)
  }

  lemma {:induction false} FrontOfBytes(v: int, rest: seq<Byte>)
    requires IsScalar(v)
    ensures Front(Bytes(v) + rest) == Some(v)
    ensures (Bytes(v) + rest)[Width(v)..] == rest
  {
    var b := Bytes(v) + rest;
    assert forall i | 0 <= i < |Bytes(v)| :: b[i] == Bytes(v)[i];
    if 0x800 <= v < 0x10000 {
      ThreeDigits(v);
    } else if v >= 0x10000 {
      FourDigits(v);
    }
  }

  lemma {:induction false} ThreeDigits(v: int)
    requires 0 <= v < 0x10000
    ensures v == v / 4096 * 4096 + v / 64 % 64 * 64 + v % 64
  {
    assert v / 4096 == v / 64 / 64;
  }

  lemma {:induction false} FourDigits(v: int)
    requires 0 <= v < 0x110000
    ensures v == v / 262144 * 262144 + v / 4096 % 64 * 4096 + v / 64 % 64 * 64 + v % 64
    ensures v / 262144 <= 4
  {
    assert v / 4096 == v / 64 / 64;
    assert v / 262144 == v / 4096 / 64;
  }

  lemma {:induction false} EncodeAppend(a: string, b: string)
    ensures Encode(a + b) == Encode(a) + Encode(b)
  {
    if a == "" {
      assert a + b == b;
    } else {
      EncodeAppend(a[1..], b);
      assert (a + b)[1..] == a[1..] + b;
      Regroup(Bytes(a[0] as int), Encode(a[1..]), Encode(b));
    }
  }

  lemma {:induction false} Regroup<T>(a: seq<T>, b: seq<T>, c: seq<T>)
    ensures a + b + c == a + (b + c)
  {
  }

  /** Encoding and strict decoding are inverse. */
  lemma {:induction false} EncodeDecode(s: string)
    ensures Decode(Encode(s)) == Some(s)
  {
    if s != "" {
      FrontOfBytes(s[0] as int, Encode(s[1..]));
      EncodeDecode(s[1..]);
      assert [s[0]] + s[1..] == s;
    }
  }

  // ---------- cut encodings ----------

  /** The number of characters whose encoding fits into `n` bytes. */
  function Fitting(s: string, n: nat): (k: nat)
    ensures k <= |s|
  {
    if s == "" || Width(s[0] as int) > n then 0 else 1 + Fitting(s[1..], n - Width(s[0] as int))
  }

  /** `s[..Fitting(s, n)]` is the longest prefix that fits. */
  lemma {:induction false} FittingIsLongest(s: string, n: nat, k: nat)
    requires k <= |s|
    ensures |Encode(s[..k])| <= n <==> k <= Fitting(s, n)
  {
    if k > 0 {
      assert s[..k][1..] == s[1..][..k - 1];
      if Width(s[0] as int) <= n {
        FittingIsLongest(s[1..], n - Width(s[0] as int), k - 1);
      }
    } else {
      assert s[..0] == "";
    }
  }

  /** A cut character leaves nothing behind. */
  lemma {:induction false} CutCharacter(v: int, n: nat)
    requires IsScalar(v) && n < Width(v)
    ensures DecodeIgnoring(Bytes(v)[..n]) == ""
  {
    var b := Bytes(v)[..n];
    if n >= 1 {
      assert Front(b) == None;
      SkipsContinuations(b[1..]);
    }
  }

  lemma {:induction false} SkipsContinuations(b: seq<Byte>)
    requires forall i | 0 <= i < |b| :: Continues(b[i])
    ensures DecodeIgnoring(b) == ""
  {
    if b != [] {
      SkipsContinuations(b[1..]);
    }
  }

  /** Cutting an encoding and decoding it loses exactly the characters that do not fit. */
  lemma {:induction false} CutDecodes(s: string, n: nat)
    requires n <= |Encode(s)|
    ensures DecodeIgnoring(Encode(s)[..n]) == s[..Fitting(s, n)]
  {
    if s != "" {
      var v, rest := s[0] as int, Encode(s[1..]);
      if n < Width(v) {
        CutCharacter(v, n);
        assert (Bytes(v) + rest)[..n] == Bytes(v)[..n];
      } else {
        assert (Bytes(v) + rest)[..n] == Bytes(v) + rest[..n - Width(v)];
        FrontOfBytes(v, rest[..n - Width(v)]);
        CutDecodes(s[1..], n - Width(v));
        assert s[..Fitting(s, n)] == [s[0]] + s[1..][..Fitting(s, n) - 1];
      }
    }
  }
}
