/** Session keys as file names (k2do/session/manager.py, 68-80; RFC 4648, sections 3.2 and 5). */
module SessionKeys {
  import opened Prelude
  import opened Utf8

  /** The base64url alphabet. */
  function Letter(v: int): (c: char)
    requires 0 <= v < 64
    ensures c != '='
  {
    if v < 26 then (v + 65) as char
    else if v < 52 then (v + 71) as char
    else if v < 62 then (v - 4) as char
    else if v == 62 then '-'
    else '_'
  }

  function Value(c: char): (v: Option<int>)
    ensures v.Some? ==> 0 <= v.value < 64
  {
    if 'A' <= c <= 'Z' then Some(c as int - 65)
    else if 'a' <= c <= 'z' then Some(c as int - 71)
    else if '0' <= c <= '9' then Some(c as int + 4)
    else if c == '-' then Some(62)
    else if c == '_' then Some(63)
    else None
  }

  lemma {:induction false} LetterValue(v: int)
    requires 0 <= v < 64
    ensures Value(Letter(v)) == Some(v)
  {
  }

  function Quad(a: Byte, b: Byte, c: Byte): (quad: string)
    ensures |quad| == 4
  {
    [Letter(a / 4), Letter(a % 4 * 16 + b / 16), Letter(b % 16 * 4 + c / 64), Letter(c % 64)]
  }

  /** Base64url with padding. */
  function Encode64(raw: seq<Byte>): string {
    if raw == [] then ""
    else if |raw| == 1 then Quad(raw[0], 0, 0)[..2] + "=="
    else if |raw| == 2 then Quad(raw[0], raw[1], 0)[..3] + "="
    else Quad(raw[0], raw[1], raw[2]) + Encode64(raw[3..])
  }

  /** `rstrip("=")`. */
  function Stripped(token: string): string {
    if token != "" && token[|token| - 1] == '=' then Stripped(token[..|token| - 1]) else token
  }

  function EncodeSessionKey(key: string): string {
    Stripped(Encode64(Encode(key)))
  }

  /** The bytes of one padded quad. */
  function Triple(quad: string): (bytes: Option<seq<Byte>>)
    requires |quad| == 4
  {
    var a, b, c, d := Value(quad[0]), Value(quad[1]), Value(quad[2]), Value(quad[3]);
    if a.None? || b.None? then None
    else
      var first: Byte := a.value * 4 + b.value / 16;
      if quad[2] == '=' && quad[3] == '=' then Some([first])
      else if c.None? then None
      else
        var second: Byte := b.value % 16 * 16 + c.value / 4;
        if quad[3] == '=' then Some([first, second])
        else if d.None? then None
        else Some([first, second, c.value % 4 * 64 + d.value])
  }

  /** Decoding of padded base64url; padding only ends the text. */
  function Decode64(token: string): Option<seq<Byte>> {
    if token == "" then Some([])
    else if |token| < 4 then None
    else
      match Triple(token[..4])
      case None => None
      case Some(bytes) =>
        if |bytes| < 3 then if |token| == 4 then Some(bytes) else None
        else
          match Decode64(token[4..])
          case None => None
          case Some(rest) => Some(bytes + rest)
  }

  function Padding(n: nat): string {
    if n == 0 then "" else if n == 1 then "=" else if n == 2 then "==" else "==="
  }

  function DecodeSessionKey(token: string): Option<string> {
    match Decode64(token + Padding((4 - |token| % 4) % 4))
    case None => None
    case Some(raw) => Decode(raw)
  }

  lemma {:induction false} Digits(a: Byte, b: Byte, c: Byte)
    ensures a / 4 * 4 + (a % 4 * 16 + b / 16) / 16 == a
    ensures (a % 4 * 16 + b / 16) % 16 * 16 + (b % 16 * 4 + c / 64) / 4 == b
    ensures (b % 16 * 4 + c / 64) % 4 * 64 + c % 64 == c
    ensures a / 4 < 64 && a % 4 * 16 + b / 16 < 64 && b % 16 * 4 + c / 64 < 64
  {
  }

  lemma {:induction false} LetterValues(x: int, y: int, z: int, w: int)
    requires 0 <= x < 64 && 0 <= y < 64 && 0 <= z < 64 && 0 <= w < 64
    ensures Value(Letter(x)) == Some(x) && Value(Letter(y)) == Some(y)
    ensures Value(Letter(z)) == Some(z) && Value(Letter(w)) == Some(w)
  {
    LetterValue(x);
    LetterValue(y);
    LetterValue(z);
    LetterValue(w);
  }

  lemma {:induction false} FullQuad(a: Byte, b: Byte, c: Byte)
    ensures Triple(Quad(a, b, c)) == Some([a, b, c])
  {
    Digits(a, b, c);
    LetterValues(a / 4, a % 4 * 16 + b / 16, b % 16 * 4 + c / 64, c % 64);
  }

  lemma {:induction false} PairQuad(a: Byte, b: Byte)
    ensures Triple(Quad(a, b, 0)[..3] + "=") == Some([a, b])
  {
    Digits(a, b, 0);
    LetterValues(a / 4, a % 4 * 16 + b / 16, b % 16 * 4, 0);
  }

  lemma {:induction false} SingleQuad(a: Byte)
    ensures Triple(Quad(a, 0, 0)[..2] + "==") == Some([a])
  {
    Digits(a, 0, 0);
    LetterValues(a / 4, a % 4 * 16, 0, 0);
  }

  // ---------- tokens without their padding ----------

  function Core(raw: seq<Byte>): string {
    if raw == [] then ""
    else if |raw| == 1 then Quad(raw[0], 0, 0)[..2]
    else if |raw| == 2 then Quad(raw[0], raw[1], 0)[..3]
    else Quad(raw[0], raw[1], raw[2]) + Core(raw[3..])
  }

  /** How many bytes the last group lacks. */
  function Missing(raw: seq<Byte>): (n: nat)
    ensures n <= 2
  {
    if raw == [] then 0 else if |raw| == 1 then 2 else if |raw| == 2 then 1 else Missing(raw[3..])
  }

  predicate SafeCharacter(c: char) {
    'A' <= c <= 'Z' || 'a' <= c <= 'z' || '0' <= c <= '9' || c == '-' || c == '_'
  }

  predicate FileNameSafe(token: string) {
    forall i | 0 <= i < |token| :: SafeCharacter(token[i])
  }

  lemma {:induction false} LetterIsSafe(v: int)
    requires 0 <= v < 64
    ensures SafeCharacter(Letter(v))
  {
  }

  lemma {:induction false} CoreAndPadding(raw: seq<Byte>)
    ensures Encode64(raw) == Core(raw) + Padding(Missing(raw))
    ensures (|Core(raw)| + Missing(raw)) % 4 == 0
  {
    if |raw| >= 3 {
      CoreAndPadding(raw[3..]);
      var quad := Quad(raw[0], raw[1], raw[2]);
      assert quad + (Core(raw[3..]) + Padding(Missing(raw[3..]))) == quad + Core(raw[3..]) + Padding(Missing(raw[3..]));
    }
  }

  lemma {:induction false} CoreIsSafe(raw: seq<Byte>)
    ensures FileNameSafe(Core(raw))
  {
    if raw != [] {
      var b, c := if |raw| > 1 then raw[1] else 0, if |raw| > 2 then raw[2] else 0;
      QuadIsSafe(raw[0], b, c);
      if |raw| >= 3 {
        CoreIsSafe(raw[3..]);
        SafeAppend(Quad(raw[0], b, c), Core(raw[3..]));
      }
    }
  }

  lemma {:induction false} SafeAppend(a: string, b: string)
    requires FileNameSafe(a) && FileNameSafe(b)
    ensures FileNameSafe(a + b)
  {
  }

  lemma {:induction false} QuadIsSafe(a: Byte, b: Byte, c: Byte)
    ensures FileNameSafe(Quad(a, b, c))
  {
    LetterIsSafe(a / 4);
    LetterIsSafe(a % 4 * 16 + b / 16);
    LetterIsSafe(b % 16 * 4 + c / 64);
    LetterIsSafe(c % 64);
  }

  lemma {:induction false} StripTail(core: string, n: nat)
    requires n <= 2 && FileNameSafe(core)
    ensures Stripped(core + Padding(n)) == core
  {
    assert core != "" ==> SafeCharacter(core[|core| - 1]);
    if n == 0 {
      assert core + Padding(n) == core;
    } else {
      assert (core + "=")[..|core|] == core;
      if n == 2 {
        assert (core + "==")[..|core| + 1] == core + "=";
        assert Stripped(core + "==") == Stripped(core + "=");
      }
    }
  }

  lemma {:induction false} EncodedKeyIsCore(key: string)
    ensures EncodeSessionKey(key) == Core(Encode(key))
  {
    var raw := Encode(key);
    CoreAndPadding(raw);
    CoreIsSafe(raw);
    StripTail(Core(raw), Missing(raw));
  }

  lemma {:induction false} DecodeQuad(quad: string, bytes: seq<Byte>, rest: string, tail: seq<Byte>)
    requires |quad| == 4 && Triple(quad) == Some(bytes) && |bytes| == 3 && Decode64(rest) == Some(tail)
    ensures Decode64(quad + rest) == Some(bytes + tail)
  {
    assert (quad + rest)[..4] == quad && (quad + rest)[4..] == rest;
  }

  lemma {:induction false} QuadAlone(quad: string, bytes: seq<Byte>)
    requires |quad| == 4 && Triple(quad) == Some(bytes) && |bytes| < 3
    ensures Decode64(quad) == Some(bytes)
  {
    assert quad[..4] == quad;
  }

  lemma {:induction false} ShortDecodes(raw: seq<Byte>)
    requires 1 <= |raw| <= 2
    ensures Decode64(Core(raw) + Padding(Missing(raw))) == Some(raw)
  {
    if |raw| == 1 {
      SingleQuad(raw[0]);
      QuadAlone(Quad(raw[0], 0, 0)[..2] + "==", [raw[0]]);
      assert [raw[0]] == raw;
    } else {
      PairQuad(raw[0], raw[1]);
      QuadAlone(Quad(raw[0], raw[1], 0)[..3] + "=", [raw[0], raw[1]]);
      assert [raw[0], raw[1]] == raw;
    }
  }

  lemma {:induction false} PaddedDecodes(raw: seq<Byte>)
    ensures Decode64(Core(raw) + Padding(Missing(raw))) == Some(raw)
  {
    if raw == [] {
    } else if |raw| < 3 {
      ShortDecodes(raw);
    } else {
      var quad := Quad(raw[0], raw[1], raw[2]);
      FullQuad(raw[0], raw[1], raw[2]);
      PaddedDecodes(raw[3..]);
      DecodeQuad(quad, [raw[0], raw[1], raw[2]], Core(raw[3..]) + Padding(Missing(raw[3..])), raw[3..]);
      Regroup(quad, Core(raw[3..]), Padding(Missing(raw[3..])));
      assert [raw[0], raw[1], raw[2]] + raw[3..] == raw;
    }
  }

  lemma {:induction false} PaddingIsMissing(size: nat, missing: nat)
    requires missing <= 2 && (size + missing) % 4 == 0
    ensures (4 - size % 4) % 4 == missing
  {
  }

  lemma {:induction false} CoreDecodes(raw: seq<Byte>)
    ensures Decode64(Core(raw) + Padding((4 - |Core(raw)| % 4) % 4)) == Some(raw)
  {
    CoreAndPadding(raw);
    PaddingIsMissing(|Core(raw)|, Missing(raw));
    PaddedDecodes(raw);
  }

  /** Session keys survive encoding and decoding. */
  lemma {:induction false} SessionKeyRoundTrip(key: string)
    ensures DecodeSessionKey(EncodeSessionKey(key)) == Some(key)
  {
    EncodedKeyIsCore(key);
    CoreDecodes(Encode(key));
    EncodeDecode(key);
  }

  /** Different keys get different file names. */
  lemma {:induction false} SessionKeysAreDistinct(a: string, b: string)
    ensures EncodeSessionKey(a) == EncodeSessionKey(b) <==> a == b
  {
    SessionKeyRoundTrip(a);
    SessionKeyRoundTrip(b);
  }

  /** A file name consists of letters, digits, `-` and `_` only. */
  lemma {:induction false} SessionKeyIsSafe(key: string)
    ensures FileNameSafe(EncodeSessionKey(key))
  {
    EncodedKeyIsCore(key);
    CoreIsSafe(Encode(key));
  }

  // ---------- the standard's own terms ----------

  /** The alphabet in its order: capitals, small letters, digits, `-`, `_`. */
  lemma {:induction false} AlphabetInOrder(v: int, c: char)
    requires 0 <= v < 64
    ensures Letter(v) == c <==>
              || ('A' <= c <= 'Z' && v == c as int - 'A' as int)
              || ('a' <= c <= 'z' && v == 26 + (c as int - 'a' as int))
              || ('0' <= c <= '9' && v == 52 + (c as int - '0' as int))
              || (c == '-' && v == 62) || (c == '_' && v == 63)
  {
  }

  /** Four letters are the 24 bits of three bytes, first byte first. */
  lemma {:induction false} SameBits(a: Byte, b: Byte, c: Byte)
    ensures var quad := Quad(a, b, c);
            && Value(quad[0]).Some? && Value(quad[1]).Some? && Value(quad[2]).Some? && Value(quad[3]).Some?
            && Value(quad[0]).value * 262144 + Value(quad[1]).value * 4096 + Value(quad[2]).value * 64 + Value(quad[3]).value
               == a * 65536 + b * 256 + c
  {
    LetterValues(a / 4, a % 4 * 16 + b / 16, b % 16 * 4 + c / 64, c % 64);
    Digits(a, b, c);
  }

  lemma {:induction false} CoreLength(raw: seq<Byte>)
    ensures |Core(raw)| == (4 * |raw| + 2) / 3
  {
    if |raw| >= 3 {
      CoreLength(raw[3..]);
    }
  }

  /** A key of `n` bytes makes a file name of four characters per three bytes, rounded up,
      and its groups are the standard's. */
  lemma {:induction false} SessionKeyGroups(key: string, k: nat)
    requires 3 * k + 3 <= |Encode(key)|
    ensures |EncodeSessionKey(key)| == (4 * |Encode(key)| + 2) / 3
    ensures var raw := Encode(key);
            4 * k + 4 <= |EncodeSessionKey(key)|
            && EncodeSessionKey(key)[4 * k..4 * k + 4] == Quad(raw[3 * k], raw[3 * k + 1], raw[3 * k + 2])
  {
    EncodedKeyIsCore(key);
    CoreLength(Encode(key));
    GroupAt(Encode(key), k);
  }

  lemma {:induction false} GroupAt(raw: seq<Byte>, k: nat)
    requires 3 * k + 3 <= |raw|
    ensures 4 * k + 4 <= |Core(raw)| && Core(raw)[4 * k..4 * k + 4] == Quad(raw[3 * k], raw[3 * k + 1], raw[3 * k + 2])
  {
    CoreLength(raw);
    if k > 0 {
      GroupAt(raw[3..], k - 1);
      var rest := Core(raw[3..]);
      assert Core(raw)[4 * k..4 * k + 4] == rest[4 * (k - 1)..4 * (k - 1) + 4];
    }
  }
}
