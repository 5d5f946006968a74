/** The key setup and the in-place block functions of camellia.c, proved against the key
    schedule of RFC 3713, section 2.2, and the fast cipher of module Camellia. */
module CamelliaSetup {
  import opened CamelliaWords
  import opened Camellia

  /** A 128-bit value as four 32-bit words, most significant first. */
  datatype Quad = Quad(w0: bv32, w1: bv32, w2: bv32, w3: bv32)

  function Hi(q: Quad): Half { Half(q.w0, q.w1) }
  function Lo(q: Quad): Half { Half(q.w2, q.w3) }
  function Join(a: Half, b: Half): Quad { Quad(a.l, a.r, b.l, b.r) }

  const SIGMA1 := Half(0xA09E667F, 0x3BCC908B)
  const SIGMA2 := Half(0xB67AE858, 0x4CAA73B2)
  const SIGMA3 := Half(0xC6EF372F, 0xE94F82BE)
  const SIGMA4 := Half(0x54FF53A5, 0xF1D36F1C)
  const SIGMA5 := Half(0x10E527FA, 0xDE682D1D)
  const SIGMA6 := Half(0xB05688C2, 0xB3E6C1FD)

  // ---- RFC 3713, section 2.2 ----

  /** q <<< (32 m + t): word i is the top of words i + m and i + m + 1, shifted left by t. */
  function Rotl(q: Quad, m: nat, t: bv6): Quad
    requires m < 4 && t < 32
  {
    match m
    case 0 => Quad(Funnel(q.w0, q.w1, t), Funnel(q.w1, q.w2, t), Funnel(q.w2, q.w3, t), Funnel(q.w3, q.w0, t))
    case 1 => Quad(Funnel(q.w1, q.w2, t), Funnel(q.w2, q.w3, t), Funnel(q.w3, q.w0, t), Funnel(q.w0, q.w1, t))
    case 2 => Quad(Funnel(q.w2, q.w3, t), Funnel(q.w3, q.w0, t), Funnel(q.w0, q.w1, t), Funnel(q.w1, q.w2, t))
    case 3 => Quad(Funnel(q.w3, q.w0, t), Funnel(q.w0, q.w1, t), Funnel(q.w1, q.w2, t), Funnel(q.w2, q.w3, t))
  }

  function KA(s: SBoxes, kl: Quad, kr: Quad): Quad {
    var d1, d2 := Xor(Hi(kl), Hi(kr)), Xor(Lo(kl), Lo(kr));
    var d2 := Xor(d2, F(s, d1, SIGMA1));
    var d1 := Xor(d1, F(s, d2, SIGMA2));
    var d1, d2 := Xor(d1, Hi(kl)), Xor(d2, Lo(kl));
    var d2 := Xor(d2, F(s, d1, SIGMA3));
    var d1 := Xor(d1, F(s, d2, SIGMA4));
    Join(d1, d2)
  }

  function KB(s: SBoxes, kl: Quad, kr: Quad): Quad {
    var ka := KA(s, kl, kr);
    var d1, d2 := Xor(Hi(ka), Hi(kr)), Xor(Lo(ka), Lo(kr));
    var d2 := Xor(d2, F(s, d1, SIGMA5));
    var d1 := Xor(d1, F(s, d2, SIGMA6));
    Join(d1, d2)
  }

  const ZEROKEY := Quad(0, 0, 0, 0)

  /** The round keys that a 128-bit key contributes directly (KL), and by way of KA. */
  predicate FromKL128(k: seq<Half>, kl: Quad)
    requires |k| == 26
  {
    && k[0] == Hi(kl) && k[1] == Lo(kl)
    && k[4] == Hi(Rotl(kl, 0, 15)) && k[5] == Lo(Rotl(kl, 0, 15))
    && k[10] == Hi(Rotl(kl, 1, 13)) && k[11] == Lo(Rotl(kl, 1, 13))
    && k[13] == Lo(Rotl(kl, 1, 28)) && k[16] == Hi(Rotl(kl, 2, 13))
    && k[17] == Lo(Rotl(kl, 2, 13)) && k[18] == Hi(Rotl(kl, 2, 30))
    && k[19] == Lo(Rotl(kl, 2, 30)) && k[22] == Hi(Rotl(kl, 3, 15))
    && k[23] == Lo(Rotl(kl, 3, 15))
  }

  predicate FromKA128(k: seq<Half>, ka: Quad)
    requires |k| == 26
  {
    && k[2] == Hi(ka) && k[3] == Lo(ka)
    && k[6] == Hi(Rotl(ka, 0, 15)) && k[7] == Lo(Rotl(ka, 0, 15))
    && k[8] == Hi(Rotl(ka, 0, 30)) && k[9] == Lo(Rotl(ka, 0, 30))
    && k[12] == Hi(Rotl(ka, 1, 13)) && k[14] == Hi(Rotl(ka, 1, 28))
    && k[15] == Lo(Rotl(ka, 1, 28)) && k[20] == Hi(Rotl(ka, 2, 30))
    && k[21] == Lo(Rotl(ka, 2, 30)) && k[24] == Hi(Rotl(ka, 3, 15))
    && k[25] == Lo(Rotl(ka, 3, 15))
  }

  predicate IsKLEntry(i: int) {
    i < 2 || 4 <= i < 6 || 10 <= i < 12 || i == 13 || 16 <= i < 20 || 22 <= i < 24
  }

  /** `k` are the round keys of the 128-bit key `kl`. */
  predicate Keys128(s: SBoxes, kl: Quad, k: seq<Half>) {
    |k| == 26 && FromKL128(k, kl) && FromKA128(k, KA(s, kl, ZEROKEY))
  }

  predicate FromKL256(k: seq<Half>, kl: Quad)
    requires |k| == 34
  {
    && k[0] == Hi(kl) && k[1] == Lo(kl)
    && k[12] == Hi(Rotl(kl, 1, 13)) && k[13] == Lo(Rotl(kl, 1, 13))
    && k[16] == Hi(Rotl(kl, 1, 28)) && k[17] == Lo(Rotl(kl, 1, 28))
    && k[22] == Hi(Rotl(kl, 2, 13)) && k[23] == Lo(Rotl(kl, 2, 13))
    && k[30] == Hi(Rotl(kl, 3, 15)) && k[31] == Lo(Rotl(kl, 3, 15))
  }

  predicate IsKLEntry256(i: int) {
    0 <= i <= 1 || 12 <= i <= 13 || 16 <= i <= 17 || 22 <= i <= 23 || 30 <= i <= 31
  }

  predicate FromKR256(k: seq<Half>, kr: Quad)
    requires |k| == 34
  {
    && k[4] == Hi(Rotl(kr, 0, 15)) && k[5] == Lo(Rotl(kr, 0, 15))
    && k[8] == Hi(Rotl(kr, 0, 30)) && k[9] == Lo(Rotl(kr, 0, 30))
    && k[18] == Hi(Rotl(kr, 1, 28)) && k[19] == Lo(Rotl(kr, 1, 28))
    && k[26] == Hi(Rotl(kr, 2, 30)) && k[27] == Lo(Rotl(kr, 2, 30))
  }

  predicate IsKREntry256(i: int) {
    4 <= i <= 5 || 8 <= i <= 9 || 18 <= i <= 19 || 26 <= i <= 27
  }

  predicate FromKA256(k: seq<Half>, ka: Quad)
    requires |k| == 34
  {
    && k[6] == Hi(Rotl(ka, 0, 15)) && k[7] == Lo(Rotl(ka, 0, 15))
    && k[14] == Hi(Rotl(ka, 1, 13)) && k[15] == Lo(Rotl(ka, 1, 13))
    && k[24] == Hi(Rotl(ka, 2, 13)) && k[25] == Lo(Rotl(ka, 2, 13))
    && k[28] == Hi(Rotl(ka, 2, 30)) && k[29] == Lo(Rotl(ka, 2, 30))
  }

  predicate IsKAEntry256(i: int) {
    6 <= i <= 7 || 14 <= i <= 15 || 24 <= i <= 25 || 28 <= i <= 29
  }

  predicate FromKB256(k: seq<Half>, kb: Quad)
    requires |k| == 34
  {
    && k[2] == Hi(kb) && k[3] == Lo(kb)
    && k[10] == Hi(Rotl(kb, 0, 30)) && k[11] == Lo(Rotl(kb, 0, 30))
    && k[20] == Hi(Rotl(kb, 1, 28)) && k[21] == Lo(Rotl(kb, 1, 28))
    && k[32] == Hi(Rotl(kb, 3, 15)) && k[33] == Lo(Rotl(kb, 3, 15))
  }

  predicate IsKBEntry256(i: int) {
    2 <= i <= 3 || 10 <= i <= 11 || 20 <= i <= 21 || 32 <= i <= 33
  }

  /** `k` are the round keys of the 256-bit key (kl, kr). */
  predicate Keys256(s: SBoxes, kl: Quad, kr: Quad, k: seq<Half>) {
    |k| == 34 && FromKL256(k, kl) && FromKR256(k, kr) && FromKA256(k, KA(s, kl, kr)) && FromKB256(k, KB(s, kl, kr))
  }

  // ---- the rotation macros ----

  /** CAMELLIA_ROLDQ */
  function RolDQ(q: Quad, bits: bv6): Quad
    requires bits < 32
  {
    Quad(Funnel(q.w0, q.w1, bits), Funnel(q.w1, q.w2, bits), Funnel(q.w2, q.w3, bits), Funnel(q.w3, q.w0, bits))
  }

  /** CAMELLIA_ROLDQo32, for shifts over 32 bits: `bits` is the shift minus 32. */
  function RolDQo32(q: Quad, bits: bv6): Quad
    requires bits < 32
  {
    Quad(Funnel(q.w1, q.w2, bits), Funnel(q.w2, q.w3, bits), Funnel(q.w3, q.w0, bits), Funnel(q.w0, q.w1, bits))
  }

  lemma Rotate15By30(q: Quad)
    ensures RolDQ(Rotl(q, 0, 15), 30) == Rotl(q, 1, 13)
  {
    hide Funnel;
    Funnel15Then30(q.w0, q.w1, q.w2); Funnel15Then30(q.w1, q.w2, q.w3);
    Funnel15Then30(q.w2, q.w3, q.w0); Funnel15Then30(q.w3, q.w0, q.w1);
  }

  lemma Rotate15By15(q: Quad)
    ensures RolDQ(Rotl(q, 0, 15), 15) == Rotl(q, 0, 30)
  {
    hide Funnel;
    Funnel15Then15(q.w0, q.w1, q.w2); Funnel15Then15(q.w1, q.w2, q.w3);
    Funnel15Then15(q.w2, q.w3, q.w0); Funnel15Then15(q.w3, q.w0, q.w1);
  }

  lemma Rotate30By15(q: Quad)
    ensures RolDQ(Rotl(q, 0, 30), 15) == Rotl(q, 1, 13)
  {
    hide Funnel;
    Funnel30Then15(q.w0, q.w1, q.w2); Funnel30Then15(q.w1, q.w2, q.w3);
    Funnel30Then15(q.w2, q.w3, q.w0); Funnel30Then15(q.w3, q.w0, q.w1);
  }

  lemma Rotate30By30(q: Quad)
    ensures RolDQ(Rotl(q, 0, 30), 30) == Rotl(q, 1, 28)
  {
    hide Funnel;
    Funnel30Then30(q.w0, q.w1, q.w2); Funnel30Then30(q.w1, q.w2, q.w3);
    Funnel30Then30(q.w2, q.w3, q.w0); Funnel30Then30(q.w3, q.w0, q.w1);
  }

  lemma Rotate45By15(q: Quad)
    ensures RolDQ(Rotl(q, 1, 13), 15) == Rotl(q, 1, 28)
  {
    hide Funnel;
    Funnel13Then15(q.w0, q.w1, q.w2); Funnel13Then15(q.w1, q.w2, q.w3);
    Funnel13Then15(q.w2, q.w3, q.w0); Funnel13Then15(q.w3, q.w0, q.w1);
  }

  lemma Rotate45By49(q: Quad)
    ensures RolDQo32(Rotl(q, 1, 13), 17) == Rotl(q, 2, 30)
  {
    hide Funnel;
    Funnel13Then17(q.w0, q.w1, q.w2); Funnel13Then17(q.w1, q.w2, q.w3);
    Funnel13Then17(q.w2, q.w3, q.w0); Funnel13Then17(q.w3, q.w0, q.w1);
  }

  lemma Rotate60By17(q: Quad)
    ensures RolDQ(Rotl(q, 1, 28), 17) == Rotl(q, 2, 13)
  {
    hide Funnel;
    Funnel28Then17(q.w0, q.w1, q.w2); Funnel28Then17(q.w1, q.w2, q.w3);
    Funnel28Then17(q.w2, q.w3, q.w0); Funnel28Then17(q.w3, q.w0, q.w1);
  }

  lemma Rotate60By34(q: Quad)
    ensures RolDQo32(Rotl(q, 1, 28), 2) == Rotl(q, 2, 30)
  {
    hide Funnel;
    Funnel28Then2(q.w0, q.w1, q.w2); Funnel28Then2(q.w1, q.w2, q.w3);
    Funnel28Then2(q.w2, q.w3, q.w0); Funnel28Then2(q.w3, q.w0, q.w1);
  }

  lemma Rotate60By51(q: Quad)
    ensures RolDQo32(Rotl(q, 1, 28), 19) == Rotl(q, 3, 15)
  {
    hide Funnel;
    Funnel28Then19(q.w0, q.w1, q.w2); Funnel28Then19(q.w1, q.w2, q.w3);
    Funnel28Then19(q.w2, q.w3, q.w0); Funnel28Then19(q.w3, q.w0, q.w1);
  }

  lemma Rotate77By17(q: Quad)
    ensures RolDQ(Rotl(q, 2, 13), 17) == Rotl(q, 2, 30)
  {
    hide Funnel;
    Funnel13Then17(q.w0, q.w1, q.w2); Funnel13Then17(q.w1, q.w2, q.w3);
    Funnel13Then17(q.w2, q.w3, q.w0); Funnel13Then17(q.w3, q.w0, q.w1);
  }

  lemma Rotate77By34(q: Quad)
    ensures RolDQo32(Rotl(q, 2, 13), 2) == Rotl(q, 3, 15)
  {
    hide Funnel;
    Funnel13Then2(q.w0, q.w1, q.w2); Funnel13Then2(q.w1, q.w2, q.w3);
    Funnel13Then2(q.w2, q.w3, q.w0); Funnel13Then2(q.w3, q.w0, q.w1);
  }

  lemma Rotate94By17(q: Quad)
    ensures RolDQ(Rotl(q, 2, 30), 17) == Rotl(q, 3, 15)
  {
    hide Funnel;
    Funnel30Then17(q.w0, q.w1, q.w2); Funnel30Then17(q.w1, q.w2, q.w3);
    Funnel30Then17(q.w2, q.w3, q.w0); Funnel30Then17(q.w3, q.w0, q.w1);
  }

  lemma Rotate94By34(q: Quad)
    ensures RolDQo32(Rotl(q, 2, 30), 2) == q
  {
    hide Funnel;
    Funnel30Then2(q.w0, q.w1, q.w2); Funnel30Then2(q.w1, q.w2, q.w3);
    Funnel30Then2(q.w2, q.w3, q.w0); Funnel30Then2(q.w3, q.w0, q.w1);
  }

  // ---- generating the round keys ----

  lemma KAParts(s: SBoxes, kl: Quad)
    ensures var d2 := Xor(Lo(kl), F(s, Hi(kl), SIGMA1));
            var d1 := F(s, d2, SIGMA2);
            var e2 := Xor(F(s, d1, SIGMA3), F(s, Hi(kl), SIGMA1));
            KA(s, kl, ZEROKEY) == Join(Xor(d1, F(s, e2, SIGMA4)), e2)
  {
    var w := F(s, Hi(kl), SIGMA1);
    HalfLaws(Hi(kl), ZERO, ZERO, ZERO);
    HalfLaws(Lo(kl), ZERO, ZERO, ZERO);
    var d2 := Xor(Lo(kl), w);
    var x := F(s, d2, SIGMA2);
    HalfLaws(Hi(kl), x, ZERO, ZERO);
    HalfLaws(x, Hi(kl), ZERO, ZERO);
    HalfLaws(Lo(kl), w, ZERO, ZERO);
    HalfLaws(w, Lo(kl), ZERO, ZERO);
    HalfLaws(w, F(s, x, SIGMA3), ZERO, ZERO);
    hide Xor, F;
  }

  /** `camellia_setup128`: the KL dependent subkeys. */
  method KLSubkeys128(kl: Quad, sub: array<Half>)
    requires sub.Length == 26
    modifies sub
    ensures FromKL128(sub[..], kl)
  {
    hide Funnel, Rotl, RolDQ, RolDQo32, Hi, Lo;
    var q := kl;
    sub[0], sub[1] := Hi(q), Lo(q);
    RotateOnce(kl);
    q := RolDQ(q, 15);
    sub[4], sub[5] := Hi(q), Lo(q);
    Rotate15By30(kl);
    q := RolDQ(q, 30);
    sub[10], sub[11] := Hi(q), Lo(q);
    Rotate45By15(kl);
    q := RolDQ(q, 15);
    sub[13] := Lo(q);
    Rotate60By17(kl);
    q := RolDQ(q, 17);
    sub[16], sub[17] := Hi(q), Lo(q);
    Rotate77By17(kl);
    q := RolDQ(q, 17);
    sub[18], sub[19] := Hi(q), Lo(q);
    Rotate94By17(kl);
    q := RolDQ(q, 17);
    sub[22], sub[23] := Hi(q), Lo(q);
  }

  /** `camellia_setup128`: the KA dependent subkeys. */
  method KASubkeys128(ka: Quad, sub: array<Half>)
    requires sub.Length == 26
    modifies sub
    ensures FromKA128(sub[..], ka)
    ensures forall i :: 0 <= i < 26 && IsKLEntry(i) ==> sub[i] == old(sub[i])
  {
    hide Funnel, Rotl, RolDQ, RolDQo32, Hi, Lo;
    var q := ka;
    sub[2], sub[3] := Hi(q), Lo(q);
    RotateOnce(ka);
    q := RolDQ(q, 15);
    sub[6], sub[7] := Hi(q), Lo(q);
    Rotate15By15(ka);
    q := RolDQ(q, 15);
    sub[8], sub[9] := Hi(q), Lo(q);
    Rotate30By15(ka);
    q := RolDQ(q, 15);
    sub[12] := Hi(q);
    Rotate45By15(ka);
    q := RolDQ(q, 15);
    sub[14], sub[15] := Hi(q), Lo(q);
    Rotate60By34(ka);
    q := RolDQo32(q, 2);
    sub[20], sub[21] := Hi(q), Lo(q);
    Rotate94By17(ka);
    q := RolDQ(q, 17);
    sub[24], sub[25] := Hi(q), Lo(q);
  }

  method GenerateKeys128(s: SBoxes, key: Quad, sub: array<Half>)
    requires sub.Length == 26
    modifies sub
    ensures Keys128(s, key, sub[..])
  {
    hide Rotl, KA;
    KLSubkeys128(key, sub);
    var ka := GenerateKA128(s, sub[0], sub[1]);
    KASubkeys128(ka, sub);
  }

  method GenerateKA128(s: SBoxes, hi: Half, lo: Half) returns (ka: Quad)
    ensures ka == KA(s, Join(hi, lo), ZEROKEY)
  {
    hide Xor, F, MacroF;
    var d1, d2 := hi, lo;
    MacroFIsF(s, d1, SIGMA1);
    var w := MacroF(s, d1, SIGMA1);
    d2 := Xor(d2, w);
    MacroFIsF(s, d2, SIGMA2);
    d1 := MacroF(s, d2, SIGMA2);
    MacroFIsF(s, d1, SIGMA3);
    d2 := MacroF(s, d1, SIGMA3);
    d2 := Xor(d2, w);
    MacroFIsF(s, d2, SIGMA4);
    w := MacroF(s, d2, SIGMA4);
    d1 := Xor(d1, w);
    KAParts(s, Join(hi, lo));
    ka := Join(d1, d2);
  }

  lemma RotateOnce(q: Quad)
    ensures RolDQ(q, 15) == Rotl(q, 0, 15) && RolDQ(q, 30) == Rotl(q, 0, 30) && RolDQo32(q, 13) == Rotl(q, 1, 13)
  {
    hide Funnel;
  }

  /** `camellia_setup256`: the KL dependent subkeys. */
  method KLSubkeys256(kl: Quad, sub: array<Half>)
    requires sub.Length == 34
    modifies sub
    ensures FromKL256(sub[..], kl)
  {
    hide Funnel, Rotl, RolDQ, RolDQo32, Hi, Lo;
    var q := kl;
    sub[0], sub[1] := Hi(q), Lo(q);
    RotateOnce(kl);
    q := RolDQo32(q, 13);
    sub[12], sub[13] := Hi(q), Lo(q);
    Rotate45By15(kl);
    q := RolDQ(q, 15);
    sub[16], sub[17] := Hi(q), Lo(q);
    Rotate60By17(kl);
    q := RolDQ(q, 17);
    sub[22], sub[23] := Hi(q), Lo(q);
    Rotate77By34(kl);
    q := RolDQo32(q, 2);
    sub[30], sub[31] := Hi(q), Lo(q);
  }

  /** The KR dependent subkeys; in the end `q` has been rotated by 128 bits. */
  method KRSubkeys256(kr: Quad, sub: array<Half>) returns (q: Quad)
    requires sub.Length == 34
    modifies sub
    ensures q == kr && FromKR256(sub[..], kr)
    ensures forall i :: 0 <= i < 34 && !IsKREntry256(i) ==> sub[i] == old(sub[i])
  {
    hide Funnel, Rotl, RolDQ, RolDQo32, Hi, Lo;
    q := kr;
    RotateOnce(kr);
    q := RolDQ(q, 15);
    sub[4], sub[5] := Hi(q), Lo(q);
    Rotate15By15(kr);
    q := RolDQ(q, 15);
    sub[8], sub[9] := Hi(q), Lo(q);
    Rotate30By30(kr);
    q := RolDQ(q, 30);
    sub[18], sub[19] := Hi(q), Lo(q);
    Rotate60By34(kr);
    q := RolDQo32(q, 2);
    sub[26], sub[27] := Hi(q), Lo(q);
    Rotate94By34(kr);
    q := RolDQo32(q, 2);
  }

  method KASubkeys256(ka: Quad, sub: array<Half>)
    requires sub.Length == 34
    modifies sub
    ensures FromKA256(sub[..], ka)
    ensures forall i :: 0 <= i < 34 && !IsKAEntry256(i) ==> sub[i] == old(sub[i])
  {
    hide Funnel, RolDQ, RolDQo32;
    var q := ka;
    RotateOnce(ka);
    q := RolDQ(q, 15);
    sub[6], sub[7] := Hi(q), Lo(q);
    Rotate15By30(ka);
    q := RolDQ(q, 30);
    sub[14], sub[15] := Hi(q), Lo(q);
    // KA rotated by 77 bits is KA rotated by 45 bits, one word on
    RotateWord(ka);
    sub[24], sub[25] := Half(q.w1, q.w2), Half(q.w3, q.w0);
    // 45 + 49 bits: KA rotated by 94
    Rotate45By49(ka);
    q := RolDQo32(q, 17);
    sub[28], sub[29] := Hi(q), Lo(q);
  }

  lemma RotateWord(q: Quad)
    ensures var r := Rotl(q, 1, 13);
            Half(r.w1, r.w2) == Hi(Rotl(q, 2, 13)) && Half(r.w3, r.w0) == Lo(Rotl(q, 2, 13))
  {
    hide Funnel;
  }

  method KBSubkeys256(kb: Quad, sub: array<Half>)
    requires sub.Length == 34
    modifies sub
    ensures FromKB256(sub[..], kb)
    ensures forall i :: 0 <= i < 34 && !IsKBEntry256(i) ==> sub[i] == old(sub[i])
  {
    hide Funnel, Rotl, RolDQ, RolDQo32, Hi, Lo;
    var q := kb;
    sub[2], sub[3] := Hi(q), Lo(q);
    RotateOnce(kb);
    q := RolDQ(q, 30);
    sub[10], sub[11] := Hi(q), Lo(q);
    Rotate30By30(kb);
    q := RolDQ(q, 30);
    sub[20], sub[21] := Hi(q), Lo(q);
    Rotate60By51(kb);
    q := RolDQo32(q, 19);
    sub[32], sub[33] := Hi(q), Lo(q);
  }

  lemma KAParts256(s: SBoxes, kl: Quad, kr: Quad)
    ensures var a1, a2 := Xor(Hi(kl), Hi(kr)), Xor(Lo(kl), Lo(kr));
            var w := F(s, a1, SIGMA1);
            var d1 := Xor(F(s, Xor(a2, w), SIGMA2), Hi(kr));
            var d2 := Xor(F(s, d1, SIGMA3), Xor(w, Lo(kr)));
            KA(s, kl, kr) == Join(Xor(d1, F(s, d2, SIGMA4)), d2)
  {
    var a1, a2 := Xor(Hi(kl), Hi(kr)), Xor(Lo(kl), Lo(kr));
    var w := F(s, a1, SIGMA1);
    var x := F(s, Xor(a2, w), SIGMA2);
    // a1 ^ x ^ Hi(kl) is x ^ Hi(kr)
    HalfLaws(a1, x, Hi(kl), ZERO);
    HalfLaws(Hi(kl), Hi(kr), Hi(kl), ZERO);
    CancelKey(Hi(kl), Hi(kr), x);
    CancelKey(Lo(kl), Lo(kr), w);
    HalfLaws(F(s, Xor(x, Hi(kr)), SIGMA3), Xor(w, Lo(kr)), ZERO, ZERO);
    hide Xor, F;
  }

  lemma CancelKey(l: Half, r: Half, x: Half)
    ensures Xor(Xor(Xor(l, r), x), l) == Xor(x, r)
  {
    HalfLaws(Xor(l, r), x, l, ZERO);
    HalfLaws(l, ZERO, ZERO, ZERO);
    HalfLaws(l, r, ZERO, ZERO);
    HalfLaws(r, l, ZERO, ZERO);
    HalfLaws(r, x, ZERO, ZERO);
    HalfLaws(x, ZERO, ZERO, ZERO);
    hide Xor;
  }

  /** "generate KA" and "generate KB". */
  method GenerateKAB256(s: SBoxes, hi: Half, lo: Half, kr: Quad) returns (ka: Quad, kb: Quad)
    ensures ka == KA(s, Join(hi, lo), kr) && kb == KB(s, Join(hi, lo), kr)
  {
    hide Xor, F, MacroF;
    var d1, d2 := Xor(hi, Hi(kr)), Xor(lo, Lo(kr));
    MacroFIsF(s, d1, SIGMA1);
    var w := MacroF(s, d1, SIGMA1);
    d2 := Xor(d2, w);
    MacroFIsF(s, d2, SIGMA2);
    d1 := MacroF(s, d2, SIGMA2);
    d1 := Xor(d1, Hi(kr));
    MacroFIsF(s, d1, SIGMA3);
    d2 := MacroF(s, d1, SIGMA3);
    d2 := Xor(d2, Xor(w, Lo(kr)));
    MacroFIsF(s, d2, SIGMA4);
    w := MacroF(s, d2, SIGMA4);
    d1 := Xor(d1, w);
    KAParts256(s, Join(hi, lo), kr);
    ka := Join(d1, d2);
    d1, d2 := Xor(Hi(kr), d1), Xor(Lo(kr), d2);
    HalfLaws(Hi(kr), Hi(ka), ZERO, ZERO);
    HalfLaws(Lo(kr), Lo(ka), ZERO, ZERO);
    MacroFIsF(s, d1, SIGMA5);
    d2 := Xor(d2, MacroF(s, d1, SIGMA5));
    MacroFIsF(s, d2, SIGMA6);
    d1 := Xor(d1, MacroF(s, d2, SIGMA6));
    kb := Join(d1, d2);
  }

  method ABSubkeys256(ka: Quad, kb: Quad, sub: array<Half>)
    requires sub.Length == 34
    modifies sub
    ensures FromKA256(sub[..], ka) && FromKB256(sub[..], kb)
    ensures forall i :: 0 <= i < 34 && (IsKLEntry256(i) || IsKREntry256(i)) ==> sub[i] == old(sub[i])
  {
    hide Rotl;
    KASubkeys256(ka, sub);
    KBSubkeys256(kb, sub);
  }

  method KeySubkeys256(kl: Quad, kr: Quad, sub: array<Half>) returns (r: Quad)
    requires sub.Length == 34
    modifies sub
    ensures FromKL256(sub[..], kl) && FromKR256(sub[..], kr) && r == kr
  {
    hide Rotl;
    KLSubkeys256(kl, sub);
    r := KRSubkeys256(kr, sub);
  }

  method GenerateKeys256(s: SBoxes, kl: Quad, kr: Quad, sub: array<Half>)
    requires sub.Length == 34
    modifies sub
    ensures Keys256(s, kl, kr, sub[..])
  {
    hide Rotl, KA, KB, FromKA256, FromKB256;
    var r := KeySubkeys256(kl, kr, sub);
    var ka, kb := GenerateKAB256(s, sub[0], sub[1], r);
    ABSubkeys256(ka, kb, sub);
  }
}
