/** The second half of the setup functions of camellia.c: kw2 and kw4 are absorbed into the
    other round keys, the key XOR is moved to the end of F, and the inverse of the last
    half of P is applied.  The C text is one unrolled listing; the lines that repeat for
    every six-round group are one method here. */
module CamelliaKeys {
  import opened CamelliaWords
  import opened Camellia
  import opened CamelliaSetup

  /** CAMELLIA_TABLE_WORD_LEN, in pairs of words. */
  const TABLE_LENGTH := 34

  /** kw2 as it reaches group g, through the FLInv layers in front of it. */
  function Kw2At(k: seq<Half>, n: nat, g: nat): Half
    requires |k| == 8 * n + 2 && g < n
  {
    if g == 0 then k[1] else Through(Kw2At(k, n, g - 1), k[8 * g + 1])
  }

  /** kw4 as it reaches group g, through the FL layers behind it. */
  function Kw4At(k: seq<Half>, n: nat, g: nat): Half
    requires |k| == 8 * n + 2 && g < n
    decreases n - g
  {
    if g + 1 == n then k[8 * n + 1] else Through(Kw4At(k, n, g + 1), k[8 * g + 8])
  }

  /** Group g of the table `t`, with kw2 in the even rounds' keys if `two`, kw4 in the odd
      rounds' keys if `four`. */
  predicate Absorbed(t: seq<Half>, k: seq<Half>, n: nat, g: nat, two: bool, four: bool)
    requires |t| == |k| == 8 * n + 2 && g < n
  {
    var i := 8 * g + 2;
    var a, b := Kw2At(k, n, g), Kw4At(k, n, g);
    && t[i] == (if four then Xor(k[i], b) else k[i])
    && t[i + 1] == (if two then Xor(k[i + 1], a) else k[i + 1])
    && t[i + 2] == (if four then Xor(k[i + 2], b) else k[i + 2])
    && t[i + 3] == (if two then Xor(k[i + 3], a) else k[i + 3])
    && t[i + 4] == (if four then Xor(k[i + 4], b) else k[i + 4])
    && t[i + 5] == (if two then Xor(k[i + 5], a) else k[i + 5])
    && (g + 1 < n ==> t[i + 6] == k[i + 6] && t[i + 7] == k[i + 7])
  }

  /** The lines "round 2", "round 4", "round 6" and "modified for FLinv" for one group. */
  method AbsorbKw2(sub: array<Half>, ghost k: seq<Half>, n: nat, g: nat)
    requires sub.Length == |k| == 8 * n + 2 && g < n
    requires Absorbed(sub[..], k, n, g, false, false) && sub[1] == Kw2At(k, n, g)
    modifies sub
    ensures Absorbed(sub[..], k, n, g, true, false)
    ensures sub[1] == if g + 1 < n then Kw2At(k, n, g + 1) else Kw2At(k, n, g)
    ensures forall i :: 0 <= i < sub.Length && i != 1 && !(8 * g + 2 <= i < 8 * g + 8) ==> sub[i] == old(sub[i])
  {
    hide Xor, Through;
    var i := 8 * g + 2;
    sub[i + 1] := Xor(sub[i + 1], sub[1]);
    sub[i + 3] := Xor(sub[i + 3], sub[1]);
    sub[i + 5] := Xor(sub[i + 5], sub[1]);
    if g + 1 < n { sub[1] := Through(sub[1], sub[i + 7]); }
  }

  /** The lines "round 5", "round 3", "round 1" for one group. */
  method AbsorbKw4(sub: array<Half>, ghost k: seq<Half>, n: nat, g: nat, kw4: Half)
    requires sub.Length == |k| == 8 * n + 2 && g < n
    requires Absorbed(sub[..], k, n, g, true, false) && kw4 == Kw4At(k, n, g)
    modifies sub
    ensures Absorbed(sub[..], k, n, g, true, true)
    ensures forall i :: 0 <= i < sub.Length && !(8 * g + 2 <= i < 8 * g + 8) ==> sub[i] == old(sub[i])
  {
    hide Xor, Through;
    var i := 8 * g + 2;
    sub[i + 4] := Xor(sub[i + 4], kw4);
    sub[i + 2] := Xor(sub[i + 2], kw4);
    sub[i] := Xor(sub[i], kw4);
  }

  /** Keys that absorbed the same whitening key differ as the original keys do. */
  lemma SameShift(a: Half, b: Half, d: Half)
    ensures Xor(Xor(a, d), Xor(b, d)) == Xor(a, b)
  {
    WhitenEnd(a, d, b);
  }

  /** ... and also when one of them passes an FL layer with the whitening key. */
  lemma ShiftThrough(a: Half, b: Half, d: Half, k: Half)
    ensures Xor(Through(Xor(a, d), k), Xor(b, Through(d, k))) == Xor(Through(a, k), b)
    ensures Xor(Xor(b, Through(d, k)), Through(Xor(a, d), k)) == Xor(b, Through(a, k))
  {
    ThroughXor(a, d, k);
    WhitenEnd(Through(a, k), Through(d, k), b);
    WhitenEnd(b, Through(d, k), Through(a, k));
    hide Xor, Through;
  }

  /** Everything but the inverse of P is in place for group g. */
  ghost predicate Moved(sk: seq<Half>, k: seq<Half>, n: nat, g: nat)
    requires |k| == 8 * n + 2 && 8 * n < |sk| && g < n
  {
    && sk[8 * g + 2] == Difference(k, n, g, 0) && sk[8 * g + 3] == Difference(k, n, g, 1)
    && sk[8 * g + 4] == Difference(k, n, g, 2) && sk[8 * g + 5] == Difference(k, n, g, 3)
    && sk[8 * g + 6] == Difference(k, n, g, 4) && sk[8 * g + 7] == Difference(k, n, g, 5)
    && (g + 1 < n ==> sk[8 * g + 8] == k[8 * g + 8] && sk[8 * g + 9] == k[8 * g + 9])
  }

  /** The lines "round 1" .. "round 6", "FL(kl1)", "FLinv(kl2)" of "key XOR is end of
      F-function" for one group. */
  method MoveKeys(sub: array<Half>, subkey: array<Half>, ghost k: seq<Half>, n: nat, g: nat)
    requires sub != subkey && sub.Length == |k| == 8 * n + 2 && 8 * n < subkey.Length && g < n
    requires Absorbed(sub[..], k, n, g, true, true)
    requires g > 0 ==> Absorbed(sub[..], k, n, g - 1, true, true)
    requires g + 1 < n ==> Absorbed(sub[..], k, n, g + 1, true, true)
    modifies subkey
    ensures Moved(subkey[..], k, n, g)
    ensures forall i :: 0 <= i < subkey.Length && !(8 * g + 2 <= i < 8 * g + 10) ==> subkey[i] == old(subkey[i])
  {
    hide Xor, Through, Absorbed, Difference;
    var i := 8 * g + 2;
    MoveKeysLemma(sub[..], k, n, g);
    subkey[i] := if g == 0 then sub[i + 1] else Xor(Through(sub[i - 3], sub[i - 1]), sub[i + 1]);
    subkey[i + 1], subkey[i + 2] := Xor(sub[i], sub[i + 2]), Xor(sub[i + 1], sub[i + 3]);
    subkey[i + 3], subkey[i + 4] := Xor(sub[i + 2], sub[i + 4]), Xor(sub[i + 3], sub[i + 5]);
    MoveLastKeys(sub, subkey, k, n, g);
  }

  /** The sixth key of the group and the FL layer behind it. */
  method MoveLastKeys(sub: array<Half>, subkey: array<Half>, ghost k: seq<Half>, n: nat, g: nat)
    requires sub != subkey && sub.Length == |k| == 8 * n + 2 && 8 * n < subkey.Length && g < n
    requires Absorbed(sub[..], k, n, g, true, true)
    modifies subkey
    ensures subkey[8 * g + 7] == if g + 1 == n then sub[8 * g + 6]
            else Xor(sub[8 * g + 6], Through(sub[8 * g + 10], sub[8 * g + 8]))
    ensures g + 1 < n ==> subkey[8 * g + 8] == k[8 * g + 8] && subkey[8 * g + 9] == k[8 * g + 9]
    ensures forall i :: 0 <= i < subkey.Length && !(8 * g + 7 <= i < 8 * g + 10) ==> subkey[i] == old(subkey[i])
  {
    hide Xor, Through, Absorbed;
    var i := 8 * g + 2;
    if g + 1 < n {
      LayerKeys(sub[..], k, n, g, true, true);
      subkey[i + 5] := Xor(sub[i + 4], Through(sub[i + 8], sub[i + 6]));
      subkey[i + 6], subkey[i + 7] := sub[i + 6], sub[i + 7];
    } else {
      subkey[i + 5] := sub[i + 4];
    }
  }

  lemma MoveKeysLemma(t: seq<Half>, k: seq<Half>, n: nat, g: nat)
    requires |t| == |k| == 8 * n + 2 && g < n
    requires Absorbed(t, k, n, g, true, true)
    requires g > 0 ==> Absorbed(t, k, n, g - 1, true, true)
    requires g + 1 < n ==> Absorbed(t, k, n, g + 1, true, true)
    ensures var i := 8 * g + 2;
            && (if g == 0 then t[i + 1] else Xor(Through(t[i - 3], t[i - 1]), t[i + 1])) == Difference(k, n, g, 0)
            && Xor(t[i], t[i + 2]) == Difference(k, n, g, 1)
            && Xor(t[i + 1], t[i + 3]) == Difference(k, n, g, 2)
            && Xor(t[i + 2], t[i + 4]) == Difference(k, n, g, 3)
            && Xor(t[i + 3], t[i + 5]) == Difference(k, n, g, 4)
            && (if g + 1 == n then t[i + 4] else Xor(t[i + 4], Through(t[i + 8], t[i + 6]))) == Difference(k, n, g, 5)
  {
    hide Xor, Through;
    var i := 8 * g + 2;
    var a, b := Kw2At(k, n, g), Kw4At(k, n, g);
    HalfLaws(k[i + 1], a, ZERO, ZERO);
    SameShift(k[i], k[i + 2], b);
    SameShift(k[i + 1], k[i + 3], a);
    SameShift(k[i + 2], k[i + 4], b);
    SameShift(k[i + 3], k[i + 5], a);
    if g > 0 { ShiftThrough(k[i - 3], k[i + 1], Kw2At(k, n, g - 1), k[i - 1]); }
    if g + 1 < n { ShiftThrough(k[i + 8], k[i + 4], Kw4At(k, n, g + 1), k[i + 6]); }
  }

  /** "apply the inverse of the last half of P-function" for one group. */
  method InvertP(subkey: array<Half>, ghost k: seq<Half>, n: nat, g: nat)
    requires |k| == 8 * n + 2 && 8 * n < subkey.Length && g < n && Moved(subkey[..], k, n, g)
    modifies subkey
    ensures GroupRewritten(subkey[..], k, n, g)
    ensures forall i :: 0 <= i < subkey.Length && !(8 * g + 2 <= i < 8 * g + 8) ==> subkey[i] == old(subkey[i])
  {
    hide PInv, Difference;
    var i := 8 * g + 2;
    subkey[i], subkey[i + 1], subkey[i + 2] := PInv(subkey[i]), PInv(subkey[i + 1]), PInv(subkey[i + 2]);
    subkey[i + 3], subkey[i + 4], subkey[i + 5] := PInv(subkey[i + 3]), PInv(subkey[i + 4]), PInv(subkey[i + 5]);
  }

  // ---- all groups ----

  /** Group h only depends on its own entries. */
  lemma AbsorbedFrame(t: seq<Half>, u: seq<Half>, k: seq<Half>, n: nat, h: nat, two: bool, four: bool)
    requires |t| == |u| == |k| == 8 * n + 2 && h < n && Absorbed(t, k, n, h, two, four)
    requires forall i :: 8 * h + 2 <= i < 8 * h + 8 || (h + 1 < n && 8 * h + 8 <= i < 8 * h + 10) ==> t[i] == u[i]
    ensures Absorbed(u, k, n, h, two, four)
  {
    hide Xor, Kw2At, Kw4At;
  }

  /** "absorb kw2 to other subkeys" */
  method AbsorbAllKw2(sub: array<Half>, ghost k: seq<Half>, n: nat)
    requires sub.Length == 8 * n + 2 && sub[..] == k && 0 < n
    modifies sub
    ensures forall h :: 0 <= h < n ==> Absorbed(sub[..], k, n, h, true, false)
    ensures sub[8 * n] == Xor(k[8 * n], Kw2At(k, n, n - 1))
    ensures sub[0] == k[0] && sub[8 * n + 1] == k[8 * n + 1]
  {
    hide Xor, Through, Absorbed;
    Unabsorbed(k, n);
    for g := 0 to n
      invariant sub[1] == Kw2At(k, n, if g < n then g else n - 1)
      invariant sub[0] == k[0] && sub[8 * n] == k[8 * n] && sub[8 * n + 1] == k[8 * n + 1]
      invariant forall h :: 0 <= h < g ==> Absorbed(sub[..], k, n, h, true, false)
      invariant forall h :: g <= h < n ==> Absorbed(sub[..], k, n, h, false, false)
    {
      ghost var t := sub[..];
      AbsorbKw2(sub, k, n, g);
      forall h | 0 <= h < g ensures Absorbed(sub[..], k, n, h, true, false) {
        AbsorbedFrame(t, sub[..], k, n, h, true, false);
      }
      forall h | g < h < n ensures Absorbed(sub[..], k, n, h, false, false) {
        AbsorbedFrame(t, sub[..], k, n, h, false, false);
      }
    }
    ghost var t := sub[..];
    sub[8 * n] := Xor(sub[8 * n], sub[1]);
    forall h | 0 <= h < n ensures Absorbed(sub[..], k, n, h, true, false) {
      AbsorbedFrame(t, sub[..], k, n, h, true, false);
    }
  }

  lemma Unabsorbed(k: seq<Half>, n: nat)
    requires |k| == 8 * n + 2
    ensures forall h :: 0 <= h < n ==> Absorbed(k, k, n, h, false, false)
  {
    hide Xor, Kw2At, Kw4At;
  }

  /** "absorb kw4 to other subkeys", from the last group to the first */
  method AbsorbAllKw4(sub: array<Half>, ghost k: seq<Half>, n: nat)
    requires sub.Length == |k| == 8 * n + 2 && 0 < n && sub[8 * n + 1] == k[8 * n + 1] && sub[0] == k[0]
    requires forall h :: 0 <= h < n ==> Absorbed(sub[..], k, n, h, true, false)
    modifies sub
    ensures forall h :: 0 <= h < n ==> Absorbed(sub[..], k, n, h, true, true)
    ensures sub[8 * n] == old(sub[8 * n]) && sub[0] == Xor(k[0], Kw4At(k, n, 0))
  {
    hide Xor, Through, Absorbed;
    var kw4 := sub[8 * n + 1];
    for g := n downto 0
      invariant g > 0 ==> kw4 == (if g == n then k[8 * n + 1] else Through(Kw4At(k, n, g), k[8 * g]))
      invariant g == 0 ==> kw4 == Kw4At(k, n, 0)
      invariant sub[0] == k[0] && sub[8 * n] == old(sub[8 * n])
      invariant forall h :: 0 <= h < g ==> Absorbed(sub[..], k, n, h, true, false)
      invariant forall h :: g <= h < n ==> Absorbed(sub[..], k, n, h, true, true)
    {
      ghost var t := sub[..];
      AbsorbKw4(sub, k, n, g, kw4);
      forall h | 0 <= h < g ensures Absorbed(sub[..], k, n, h, true, false) {
        AbsorbedFrame(t, sub[..], k, n, h, true, false);
      }
      forall h | g < h < n ensures Absorbed(sub[..], k, n, h, true, true) {
        AbsorbedFrame(t, sub[..], k, n, h, true, true);
      }
      if g > 0 {
        LayerKeys(sub[..], k, n, g - 1, true, false);
        kw4 := Through(kw4, sub[8 * g]);
      }
    }
    ghost var t := sub[..];
    sub[0] := Xor(sub[0], kw4);
    forall h | 0 <= h < n ensures Absorbed(sub[..], k, n, h, true, true) {
      AbsorbedFrame(t, sub[..], k, n, h, true, true);
    }
  }

  /** The FL layer's keys absorb nothing. */
  lemma LayerKeys(t: seq<Half>, k: seq<Half>, n: nat, g: nat, two: bool, four: bool)
    requires |t| == |k| == 8 * n + 2 && g + 1 < n && Absorbed(t, k, n, g, two, four)
    ensures t[8 * g + 8] == k[8 * g + 8] && t[8 * g + 9] == k[8 * g + 9]
  {
    hide Xor, Kw2At, Kw4At;
  }

  /** What the whitening keys left behind in the outer entries. */
  lemma OuterKeys(t: seq<Half>, k: seq<Half>, n: nat)
    requires |t| == |k| == 8 * n + 2 && 0 < n
    requires Absorbed(t, k, n, 0, true, true) && Absorbed(t, k, n, n - 1, true, true)
    requires t[0] == Xor(k[0], Kw4At(k, n, 0)) && t[8 * n] == Xor(k[8 * n], Kw2At(k, n, n - 1))
    ensures Xor(t[0], t[2]) == Xor(k[0], k[2]) && Xor(t[8 * n], t[8 * n - 1]) == Xor(k[8 * n], k[8 * n - 1])
  {
    hide Xor, Kw2At, Kw4At;
    SameShift(k[0], k[2], Kw4At(k, n, 0));
    SameShift(k[8 * n], k[8 * n - 1], Kw2At(k, n, n - 1));
  }

  lemma MovedFrame(t: seq<Half>, u: seq<Half>, k: seq<Half>, n: nat, h: nat)
    requires |t| == |u| && |k| == 8 * n + 2 && 8 * n < |t| && h < n && Moved(t, k, n, h)
    requires forall i :: 8 * h + 2 <= i < 8 * h + 8 || (h + 1 < n && 8 * h + 8 <= i < 8 * h + 10) ==> t[i] == u[i]
    ensures Moved(u, k, n, h)
  {
    hide Difference;
  }

  /** "key XOR is end of F-function" */
  method MoveAllKeys(sub: array<Half>, subkey: array<Half>, ghost k: seq<Half>, n: nat)
    requires sub != subkey && sub.Length == |k| == 8 * n + 2 && 8 * n < subkey.Length && 0 < n
    requires forall h :: 0 <= h < n ==> Absorbed(sub[..], k, n, h, true, true)
    modifies subkey
    ensures forall h :: 0 <= h < n ==> Moved(subkey[..], k, n, h)
    ensures subkey[0] == Xor(sub[0], sub[2]) && subkey[8 * n] == Xor(sub[8 * n], sub[8 * n - 1])
  {
    hide Xor, Absorbed, Moved;
    subkey[0] := Xor(sub[0], sub[2]);
    for g := 0 to n
      invariant subkey[0] == Xor(sub[0], sub[2])
      invariant forall h :: 0 <= h < g ==> Moved(subkey[..], k, n, h)
    {
      ghost var t := subkey[..];
      MoveKeys(sub, subkey, k, n, g);
      forall h | 0 <= h < g ensures Moved(subkey[..], k, n, h) {
        MovedFrame(t, subkey[..], k, n, h);
      }
    }
    ghost var t := subkey[..];
    subkey[8 * n] := Xor(sub[8 * n], sub[8 * n - 1]);
    forall h | 0 <= h < n ensures Moved(subkey[..], k, n, h) {
      MovedFrame(t, subkey[..], k, n, h);
    }
  }

  lemma GroupRewrittenFrame(t: seq<Half>, u: seq<Half>, k: seq<Half>, n: nat, h: nat)
    requires |t| == |u| && |k| == 8 * n + 2 && 8 * n < |t| && h < n && GroupRewritten(t, k, n, h)
    requires forall i :: 8 * h + 2 <= i < 8 * h + 8 || (h + 1 < n && 8 * h + 8 <= i < 8 * h + 10) ==> t[i] == u[i]
    ensures GroupRewritten(u, k, n, h)
  {
    hide Difference, PInv;
  }

  /** "apply the inverse of the last half of P-function" */
  method InvertAllP(subkey: array<Half>, ghost k: seq<Half>, n: nat)
    requires |k| == 8 * n + 2 && 8 * n < subkey.Length && 0 < n
    requires forall h :: 0 <= h < n ==> Moved(subkey[..], k, n, h)
    modifies subkey
    ensures forall h :: 0 <= h < n ==> GroupRewritten(subkey[..], k, n, h)
    ensures subkey[0] == old(subkey[0]) && subkey[8 * n] == old(subkey[8 * n])
  {
    hide Moved, GroupRewritten;
    for g := 0 to n
      invariant subkey[0] == old(subkey[0]) && subkey[8 * n] == old(subkey[8 * n])
      invariant forall h :: 0 <= h < g ==> GroupRewritten(subkey[..], k, n, h)
      invariant forall h :: g <= h < n ==> Moved(subkey[..], k, n, h)
    {
      ghost var t := subkey[..];
      InvertP(subkey, k, n, g);
      forall h | 0 <= h < g ensures GroupRewritten(subkey[..], k, n, h) {
        GroupRewrittenFrame(t, subkey[..], k, n, h);
      }
      forall h | g < h < n ensures Moved(subkey[..], k, n, h) {
        MovedFrame(t, subkey[..], k, n, h);
      }
    }
  }

  /** Everything in the setup functions behind the generation of the round keys. */
  method RewriteKeys(sub: array<Half>, subkey: array<Half>, n: nat)
    requires sub != subkey && sub.Length == 8 * n + 2 && 8 * n < subkey.Length && 0 < n
    modifies sub, subkey
    ensures IsRewritten(subkey[..], old(sub[..]), n)
  {
    hide Xor, Absorbed, Moved, GroupRewritten;
    ghost var k := sub[..];
    AbsorbAllKw2(sub, k, n);
    AbsorbAllKw4(sub, k, n);
    OuterKeys(sub[..], k, n);
    MoveAllKeys(sub, subkey, k, n);
    InvertAllP(subkey, k, n);
  }

  // ---- the setup functions ----

  /** `camellia_setup128` */
  method Setup128(s: SBoxes, key: Quad, subkey: array<Half>) returns (ghost k: seq<Half>)
    requires subkey.Length == TABLE_LENGTH
    modifies subkey
    ensures Keys128(s, key, k) && IsRewritten(subkey[..], k, 3)
  {
    hide Keys128, IsRewritten;
    var sub := new Half[26](_ => ZERO);
    GenerateKeys128(s, key, sub);
    k := sub[..];
    Keys128Length(s, key, k);
    RewriteKeys(sub, subkey, 3);
  }

  /** `camellia_setup256` */
  method Setup256(s: SBoxes, kl: Quad, kr: Quad, subkey: array<Half>) returns (ghost k: seq<Half>)
    requires subkey.Length == TABLE_LENGTH
    modifies subkey
    ensures Keys256(s, kl, kr, k) && IsRewritten(subkey[..], k, 4)
  {
    hide Keys256, IsRewritten;
    var sub := new Half[34](_ => ZERO);
    GenerateKeys256(s, kl, kr, sub);
    k := sub[..];
    RewriteKeys(sub, subkey, 4);
  }

  lemma Keys128Length(s: SBoxes, key: Quad, k: seq<Half>)
    requires Keys128(s, key, k)
    ensures |k| == 26
  {
  }
}
