/** When can a redacted text still contain a secret? (k2do/agent/tools/mcp.py, 769-798) */
module RedactionSurvival {
  import opened ExactRedaction
  import opened TextRanges

  /** Where a character of the output comes from. */
  datatype Origin = Kept(position: nat) | FromMarker(offset: nat)

  function MarkerOrigins(): seq<Origin> {
    [FromMarker(0), FromMarker(1), FromMarker(2), FromMarker(3), FromMarker(4),
     FromMarker(5), FromMarker(6), FromMarker(7), FromMarker(8), FromMarker(9)]
  }

  function Origins(mask: seq<bool>, k: nat): seq<Origin>
    requires k <= |mask|
  {
    if k == 0 then []
    else if !mask[k - 1] then Origins(mask, k - 1) + [Kept(k - 1)]
    else if k == 1 || !mask[k - 2] then Origins(mask, k - 1) + MarkerOrigins()
    else Origins(mask, k - 1)
  }

  predicate Explains(value: string, mask: seq<bool>, origin: Origin, c: char)
    requires |value| == |mask|
  {
    match origin
    case Kept(p) => p < |value| && !mask[p] && c == value[p]
    case FromMarker(o) => o < 10 && c == MARKER[o]
  }

  /** Which origins may stand side by side. */
  predicate Follows(a: Origin, b: Origin) {
    match (a, b)
    case (Kept(p), Kept(p')) => p' == p + 1
    case (Kept(_), FromMarker(o)) => o == 0
    case (FromMarker(o), FromMarker(o')) => o' == o + 1
    case (FromMarker(o), Kept(_)) => o == 9
  }

  predicate AllFollow(origins: seq<Origin>) {
    forall q | 0 < q < |origins| :: Follows(origins[q - 1], origins[q])
  }

  lemma {:induction false} OriginsExplain(value: string, mask: seq<bool>, k: nat)
    requires k <= |value| == |mask|
    ensures |Origins(mask, k)| == |Masked(value, mask, k)|
    ensures forall q | 0 <= q < |Origins(mask, k)| :: Explains(value, mask, Origins(mask, k)[q], Masked(value, mask, k)[q])
  {
    if k > 0 {
      OriginsExplain(value, mask, k - 1);
      if mask[k - 1] && (k == 1 || !mask[k - 2]) {
        MarkerExplained(value, mask);
      }
    }
  }

  lemma {:induction false} MarkerExplained(value: string, mask: seq<bool>)
    requires |value| == |mask|
    ensures |MarkerOrigins()| == |MARKER|
    ensures forall o | 0 <= o < 10 :: Explains(value, mask, MarkerOrigins()[o], MARKER[o])
  {
  }

  lemma {:induction false} OriginsFollow(mask: seq<bool>, k: nat)
    requires k <= |mask|
    ensures AllFollow(Origins(mask, k))
    ensures k > 0 ==>
              && |Origins(mask, k)| > 0
              && Origins(mask, k)[|Origins(mask, k)| - 1] == if mask[k - 1] then FromMarker(9) else Kept(k - 1)
    ensures k == 0 ==> Origins(mask, k) == []
  {
    if k > 0 {
      OriginsFollow(mask, k - 1);
      if mask[k - 1] && (k == 1 || !mask[k - 2]) {
        assert AllFollow(MarkerOrigins());
        FollowJoin(Origins(mask, k - 1), MarkerOrigins());
      } else if !mask[k - 1] {
        FollowJoin(Origins(mask, k - 1), [Kept(k - 1)]);
      }
    }
  }

  lemma {:induction false} FollowJoin(a: seq<Origin>, b: seq<Origin>)
    requires AllFollow(a) && AllFollow(b)
    requires a != [] && b != [] ==> Follows(a[|a| - 1], b[0])
    ensures AllFollow(a + b)
  {
    var h := a + b;
    forall q | 0 < q < |h| ensures Follows(h[q - 1], h[q]) {
      if q < |a| {
        assert Follows(a[q - 1], a[q]);
      } else if q > |a| {
        assert Follows(b[q - |a| - 1], b[q - |a|]);
      }
    }
  }

  // ---------- the condition ----------

  /** A marker placed at `d` agrees with `secret` wherever they overlap. */
  predicate Aligned(secret: string, d: int) {
    forall o | 0 <= o < 10 && 0 <= d + o < |secret| :: secret[d + o] == MARKER[o]
  }

  /** Some placement of a marker overlaps `secret` and agrees with it. */
  predicate Straddles(secret: string) {
    exists d | -10 < d < |secret| :: Aligned(secret, d)
  }

  /** Inside a marker, offsets count up. */
  lemma {:induction false} MarkerForward(origins: seq<Origin>, at: nat, o: nat, steps: nat)
    requires AllFollow(origins) && at + steps < |origins| && origins[at] == FromMarker(o) && o + steps < 10
    ensures origins[at + steps] == FromMarker(o + steps)
  {
    if steps > 0 {
      MarkerForward(origins, at, o, steps - 1);
      assert Follows(origins[at + steps - 1], origins[at + steps]);
    }
  }

  lemma {:induction false} MarkerBackward(origins: seq<Origin>, at: nat, o: nat, steps: nat)
    requires AllFollow(origins) && steps <= at < |origins| && origins[at] == FromMarker(o) && steps <= o
    ensures origins[at - steps] == FromMarker(o - steps)
  {
    if steps > 0 {
      MarkerBackward(origins, at, o, steps - 1);
      assert Follows(origins[at - steps], origins[at - steps + 1]);
    }
  }

  lemma {:induction false} KeptForward(origins: seq<Origin>, at: nat, p: nat, steps: nat)
    requires AllFollow(origins) && at + steps < |origins| && origins[at] == Kept(p)
    requires forall x | at <= x <= at + steps :: origins[x].Kept?
    ensures origins[at + steps] == Kept(p + steps)
  {
    if steps > 0 {
      KeptForward(origins, at, p, steps - 1);
      assert Follows(origins[at + steps - 1], origins[at + steps]);
    }
  }

  lemma {:induction false} MarkerAround(origins: seq<Origin>, at: nat, o: nat, other: nat)
    requires AllFollow(origins) && at < |origins| && origins[at] == FromMarker(o) && o < 10 && other < 10
    requires 0 <= at + other - o < |origins|
    ensures origins[at + other - o] == FromMarker(other)
  {
    if other >= o {
      MarkerForward(origins, at, o, other - o);
    } else {
      MarkerBackward(origins, at, o, o - other);
    }
  }

  /** An occurrence that touches a marker is aligned with it. */
  lemma {:induction false} TouchingIsAligned(value: string, mask: seq<bool>, secret: string, q: nat, j: nat)
    requires |value| == |mask| && OccursAt(Masked(value, mask, |value|), secret, q)
    requires j < |secret| && q + j < |Origins(mask, |mask|)| && Origins(mask, |mask|)[q + j].FromMarker?
    ensures Straddles(secret)
  {
    var out, origins := Masked(value, mask, |value|), Origins(mask, |mask|);
    OriginsExplain(value, mask, |mask|);
    OriginsFollow(mask, |mask|);
    var o := origins[q + j].offset;
    assert Explains(value, mask, origins[q + j], out[q + j]);
    var d := j - o;
    forall other | 0 <= other < 10 && 0 <= d + other < |secret| ensures secret[d + other] == MARKER[other] {
      MarkerAround(origins, q + j, o, other);
      assert Explains(value, mask, origins[q + d + other], out[q + d + other]);
      assert out[q..q + |secret|][d + other] == out[q + d + other];
    }
    assert Aligned(secret, d);
  }

  /** An occurrence in kept text only was already there. */
  lemma {:induction false} UntouchedWasThere(value: string, mask: seq<bool>, secret: string, q: nat)
    requires |value| == |mask| && secret != "" && OccursAt(Masked(value, mask, |value|), secret, q)
    requires |Origins(mask, |mask|)| == |Masked(value, mask, |value|)|
    requires forall x | q <= x < q + |secret| :: Origins(mask, |mask|)[x].Kept?
    ensures var p := Origins(mask, |mask|)[q].position; p < |value| && !mask[p] && OccursAt(value, secret, p)
  {
    var out, origins := Masked(value, mask, |value|), Origins(mask, |mask|);
    OriginsExplain(value, mask, |mask|);
    OriginsFollow(mask, |mask|);
    var p := origins[q].position;
    assert Explains(value, mask, origins[q], out[q]);
    forall j | 0 <= j < |secret| ensures p + j < |value| && value[p + j] == secret[j] {
      KeptForward(origins, q, p, j);
      assert Explains(value, mask, origins[q + j], out[q + j]);
      assert out[q..q + |secret|][j] == out[q + j];
    }
    KeptForward(origins, q, p, |secret| - 1);
    assert Explains(value, mask, origins[q + (|secret| - 1)], out[q + (|secret| - 1)]);
    assert value[p..p + |secret|] == secret;
  }

  /** A secret that straddles no marker never occurs in a redacted text. */
  lemma {:induction false} OnlyStraddlersSurvive(value: string, secrets: seq<string>, secret: string)
    requires secret in secrets && secret != "" && !Straddles(secret)
    ensures !Contains(Redacted(value, secrets), secret)
  {
    var mask := Cover(value, secrets);
    var out := Redacted(value, secrets);
    OriginsExplain(value, mask, |mask|);
    forall q | 0 <= q <= |out| ensures !OccursAt(out, secret, q) {
      if OccursAt(out, secret, q) {
        forall x | q <= x < q + |secret| ensures Origins(mask, |mask|)[x].Kept? {
          if Origins(mask, |mask|)[x].FromMarker? {
            TouchingIsAligned(value, mask, secret, q, x - q);
          }
        }
        UntouchedWasThere(value, mask, secret, q);
        var p, k := Origins(mask, |mask|)[q].position, IndexOf(secrets, secret);
        assert CoversAt(value, secrets[k], p, p);
        assert Covered(value, secrets, p);
        assert false;
      }
    }
  }

  ghost function IndexOf(secrets: seq<string>, secret: string): (k: nat)
    requires secret in secrets
    ensures k < |secrets| && secrets[k] == secret
  {
    var k :| 0 <= k < |secrets| && secrets[k] == secret;
    k
  }

  // ---------- the condition is exact ----------

  function Repeat(c: char, n: nat): (r: string)
    ensures |r| == n && forall i | 0 <= i < n :: r[i] == c
  {
    if n == 0 then "" else Repeat(c, n - 1) + [c]
  }

  function Before(secret: string, d: int): string
    requires d < |secret|
  {
    if d > 0 then secret[..d] else ""
  }

  function Behind(secret: string, d: int): string
    requires -10 < d
  {
    if d + 10 < |secret| then secret[d + 10..] else ""
  }

  /** A character that differs from four given ones. */
  function Other(a: char, b: char, c: char, d: char): (e: char)
    ensures e != a && e != b && e != c && e != d
  {
    if 'a' != a && 'a' != b && 'a' != c && 'a' != d then 'a'
    else if 'b' != a && 'b' != b && 'b' != c && 'b' != d then 'b'
    else if 'c' != a && 'c' != b && 'c' != c && 'c' != d then 'c'
    else if 'd' != a && 'd' != b && 'd' != c && 'd' != d then 'd'
    else 'e'
  }

  function Filler(secret: string, d: int): (c: char)
    requires secret != "" && -10 < d < |secret|
    ensures c != secret[0] && c != secret[|secret| - 1]
    ensures Before(secret, d) != "" ==> c != Before(secret, d)[|Before(secret, d)| - 1]
    ensures Behind(secret, d) != "" ==> c != Behind(secret, d)[0]
  {
    Other(secret[0], secret[|secret| - 1], secret[if d > 0 then d - 1 else 0],
          secret[if d + 10 < |secret| then d + 10 else 0])
  }

  lemma {:induction false} OccursChar(value: string, secret: string, i: nat, x: nat)
    ensures OccursAt(value, secret, i) && x < |secret| ==> value[i + x] == secret[x]
  {
    if OccursAt(value, secret, i) && x < |secret| {
      assert value[i..i + |secret|][x] == value[i + x];
    }
  }

  /** In `u + t + w`, with `t` longer than all else, the only secret that occurs is `t`. */
  lemma {:induction false} OnlyTheFiller(secret: string, d: int, i: nat)
    requires secret != "" && -10 < d < |secret|
    ensures var u, w, t := Before(secret, d), Behind(secret, d), Repeat(Filler(secret, d), |secret| + 1);
            !OccursAt(u + t + w, secret, i) && (OccursAt(u + t + w, t, i) <==> i == |u|)
  {
    var u, w, c := Before(secret, d), Behind(secret, d), Filler(secret, d);
    var t := Repeat(c, |secret| + 1);
    var value := u + t + w;
    OccursChar(value, secret, i, 0);
    OccursChar(value, secret, i, |secret| - 1);
    assert !OccursAt(value, secret, i);
    if i < |u| {
      OccursChar(value, t, i, |u| - 1 - i);
    } else if |u| < i <= |u| + |t| {
      OccursChar(value, t, i, |u| + |t| - i);
    }
    assert value[|u|..|u| + |t|] == t;
  }

  lemma {:induction false} FillerCover(secret: string, d: int, p: nat)
    requires secret != "" && -10 < d < |secret|
    ensures var u, w, t := Before(secret, d), Behind(secret, d), Repeat(Filler(secret, d), |secret| + 1);
            p < |u + t + w| ==> (Covered(u + t + w, [secret, t], p) <==> |u| <= p < |u| + |t|)
  {
    var u, w, t := Before(secret, d), Behind(secret, d), Repeat(Filler(secret, d), |secret| + 1);
    var value, secrets := u + t + w, [secret, t];
    if p < |value| {
      OnlyTheFiller(secret, d, |u|);
      if |u| <= p < |u| + |t| {
        assert CoversAt(value, secrets[1], |u|, p);
      }
      forall k, i | 0 <= k < |secrets| && 0 <= i <= |value| && CoversAt(value, secrets[k], i, p)
        ensures |u| <= p < |u| + |t|
      {
        OnlyTheFiller(secret, d, i);
      }
    }
  }

  lemma {:induction false} MiddleMasked(u: string, t: string, w: string, mask: seq<bool>)
    requires |mask| == |u + t + w| && t != ""
    requires forall p | 0 <= p < |mask| :: mask[p] <==> |u| <= p < |u| + |t|
    ensures Masked(u + t + w, mask, |mask|) == u + MARKER + w
  {
    var value := u + t + w;
    PlainStretch(value, mask, 0, |u|);
    assert value[0..|u|] == u;
    RunStretch(value, mask, |u|, |u| + |t|);
    PlainStretch(value, mask, |u| + |t|, |value|);
    assert value[|u| + |t|..|value|] == w;
  }

  /** Only the filler is replaced. */
  lemma {:induction false} FillerRedacted(secret: string, d: int)
    requires secret != "" && -10 < d < |secret|
    ensures var u, w, t := Before(secret, d), Behind(secret, d), Repeat(Filler(secret, d), |secret| + 1);
            Redacted(u + t + w, [secret, t]) == u + MARKER + w
  {
    var u, w, t := Before(secret, d), Behind(secret, d), Repeat(Filler(secret, d), |secret| + 1);
    var value := u + t + w;
    var mask := Cover(value, [secret, t]);
    forall p | 0 <= p < |value| ensures mask[p] <==> |u| <= p < |u| + |t| {
      FillerCover(secret, d, p);
    }
    MiddleMasked(u, t, w, mask);
  }

  lemma {:induction false} AlignedOccurs(secret: string, d: int)
    requires secret != "" && -10 < d < |secret| && Aligned(secret, d)
    ensures Contains(Before(secret, d) + MARKER + Behind(secret, d), secret)
  {
    var u, w := Before(secret, d), Behind(secret, d);
    var out, q := u + MARKER + w, if d < 0 then -d else 0;
    forall x | 0 <= x < |secret| ensures q + x < |out| && out[q + x] == secret[x] {
      if 0 <= x - d < 10 {
        var o := x - d;
        assert secret[d + o] == MARKER[o];
      }
    }
    assert q + (|secret| - 1) < |out|;
    assert out[q..q + |secret|] == secret;
    assert OccursAt(out, secret, q);
  }

  /** Every secret that straddles a marker does survive in some text, beside some other secret. */
  lemma {:induction false} StraddlersSurvive(secret: string) returns (value: string, secrets: seq<string>)
    requires secret != "" && Straddles(secret)
    ensures secret in secrets && Contains(Redacted(value, secrets), secret)
  {
    var d :| -10 < d < |secret| && Aligned(secret, d);
    var t := Repeat(Filler(secret, d), |secret| + 1);
    value, secrets := Before(secret, d) + t + Behind(secret, d), [secret, t];
    FillerRedacted(secret, d);
    AlignedOccurs(secret, d);
    assert secrets[0] == secret;
  }

  ghost predicate AlwaysGone(secret: string, value: string, secrets: seq<string>) {
    secret in secrets ==> !Contains(Redacted(value, secrets), secret)
  }

  /** A non-empty secret is gone from every redacted text exactly when it straddles no marker. */
  lemma {:induction false} GoneExactlyWhenNotStraddling(secret: string)
    requires secret != ""
    ensures (forall value, secrets :: AlwaysGone(secret, value, secrets)) <==> !Straddles(secret)
  {
    if Straddles(secret) {
      var value, secrets := StraddlersSurvive(secret);
      assert !AlwaysGone(secret, value, secrets);
    } else {
      forall value, secrets | secret in secrets ensures AlwaysGone(secret, value, secrets) {
        OnlyStraddlersSurvive(value, secrets, secret);
      }
    }
  }

  lemma {:induction false} AlignedAt(secret: string, d: int, o: nat)
    requires Aligned(secret, d) && o < 10
    ensures 0 <= d + o < |secret| ==> MARKER[o] in secret
  {
    if 0 <= d + o < |secret| {
      assert secret[d + o] == MARKER[o];
    }
  }

  predicate IsMarkerWord(word: string) {
    |word| == 8 && forall x | 0 <= x < 8 :: word[x] == MARKER[x + 1]
  }

  lemma {:induction false} MarkerWord()
    ensures IsMarkerWord("REDACTED") && MARKER[0] == '[' && MARKER[9] == ']'
  {
  }

  lemma {:induction false} StraddlerIsPart(secret: string, d: int, word: string)
    requires -10 < d < |secret| && Aligned(secret, d) && IsMarkerWord(word)
    requires MARKER[0] !in secret && MARKER[9] !in secret
    ensures Contains(word, secret)
  {
    AlignedAt(secret, d, 0);
    AlignedAt(secret, d, 9);
    var q := -d - 1;
    forall x | 0 <= x < |secret| ensures secret[x] == word[q + x] {
      assert secret[d + (x - d)] == MARKER[x - d];
    }
    assert word[q..q + |secret|] == secret;
    assert OccursAt(word, secret, q);
  }

  lemma {:induction false} PartStraddles(secret: string, q: int, word: string)
    requires secret != "" && 0 <= q && OccursAt(word, secret, q) && IsMarkerWord(word)
    ensures Straddles(secret)
  {
    var d := -q - 1;
    forall o | 0 <= o < 10 && 0 <= d + o < |secret| ensures secret[d + o] == MARKER[o] {
      assert word[q..q + |secret|][d + o] == word[o - 1];
    }
    assert Aligned(secret, d);
  }

  /** Without square brackets, straddling means being a part of the marker's word. */
  lemma {:induction false} PlainStraddlers(secret: string)
    requires secret != "" && '[' !in secret && ']' !in secret
    ensures Straddles(secret) <==> Contains("REDACTED", secret)
  {
    MarkerWord();
    if Straddles(secret) {
      var d :| -10 < d < |secret| && Aligned(secret, d);
      StraddlerIsPart(secret, d, "REDACTED");
    }
    if Contains("REDACTED", secret) {
      var q :| 0 <= q <= |"REDACTED"| && OccursAt("REDACTED", secret, q);
      PartStraddles(secret, q, "REDACTED");
    }
  }

  /** Secrets without square brackets that are no part of the marker's word never show again. */
  lemma {:induction false} PlainSecretsAreGone(value: string, secrets: seq<string>)
    requires forall secret | secret in secrets && secret != "" ::
               '[' !in secret && ']' !in secret && !Contains("REDACTED", secret)
    ensures forall secret | secret in secrets && secret != "" :: !Contains(Redacted(value, secrets), secret)
  {
    forall secret | secret in secrets && secret != "" ensures !Contains(Redacted(value, secrets), secret) {
      PlainStraddlers(secret);
      OnlyStraddlersSurvive(value, secrets, secret);
    }
  }
}
