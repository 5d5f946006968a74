/** Camellia: the cipher of RFC 3713 with abstract S-boxes, the fast form of camellia.c,
    and the simulation that connects them.

    Round keys are numbered as in the C tables: kw1, kw2, k1 .. k6, kl1, kl2, k7 .. , kw3,
    kw4 are entries 0, 1, 2 .. 7, 8, 9, 10 .. , 8n, 8n + 1 for n six-round groups (three
    for 128-bit keys, four otherwise). */
module Camellia {
  import opened CamelliaWords

  /** A 64-bit half, as the two 32-bit words the C code works on. */
  datatype Half = Half(l: bv32, r: bv32)

  /** The 128-bit block, D1 || D2 in RFC 3713. */
  datatype Block = Block(d1: Half, d2: Half)

  datatype SBoxes = SBoxes(s1: bv8 -> bv8, s2: bv8 -> bv8, s3: bv8 -> bv8, s4: bv8 -> bv8)

  const ZERO := Half(0, 0)

  function Xor(a: Half, b: Half): Half { Half(Xor32(a.l, b.l), Xor32(a.r, b.r)) }

  // ---- RFC 3713, section 2.4 ----

  /** The P-function on the eight S-box outputs: the bytes y1 .. y8. */
  function P(t1: bv8, t2: bv8, t3: bv8, t4: bv8, t5: bv8, t6: bv8, t7: bv8, t8: bv8): Half {
    Half(Word(Sum6(t1, t3, t4, t6, t7, t8), Sum6(t1, t2, t4, t5, t7, t8), Sum6(t1, t2, t3, t5, t6, t8),
              Sum6(t2, t3, t4, t5, t6, t7)),
         Word(Sum5(t1, t2, t6, t7, t8), Sum5(t2, t3, t5, t7, t8), Sum5(t3, t4, t5, t6, t8), Sum5(t1, t4, t5, t6, t7)))
  }

  /** F without its key: the S-boxes, then P. */
  function SP(s: SBoxes, x: Half): Half {
    P(s.s1(Byte(x.l, 24)), s.s2(Byte(x.l, 16)), s.s3(Byte(x.l, 8)), s.s4(Byte(x.l, 0)),
      s.s2(Byte(x.r, 24)), s.s3(Byte(x.r, 16)), s.s4(Byte(x.r, 8)), s.s1(Byte(x.r, 0)))
  }

  function F(s: SBoxes, x: Half, k: Half): Half { SP(s, Xor(x, k)) }

  function FL(x: Half, k: Half): Half {
    var r := Xor32(x.r, RL1(And32(x.l, k.l)));
    Half(Xor32(x.l, Or32(r, k.r)), r)
  }

  function FLInv(y: Half, k: Half): Half {
    var l := Xor32(y.l, Or32(y.r, k.r));
    Half(l, Xor32(y.r, RL1(And32(l, k.l))))
  }

  // ---- RFC 3713, section 2.3: the cipher for given round keys ----

  function TwoRounds(s: SBoxes, k: seq<Half>, i: nat, d: Block): Block
    requires i + 1 < |k|
  {
    var d2 := Xor(d.d2, F(s, d.d1, k[i]));
    Block(Xor(d.d1, F(s, d2, k[i + 1])), d2)
  }

  function SixRounds(s: SBoxes, k: seq<Half>, i: nat, d: Block): Block
    requires i + 5 < |k|
  {
    TwoRounds(s, k, i + 4, TwoRounds(s, k, i + 2, TwoRounds(s, k, i, d)))
  }

  /** The six-round groups g .. n - 1, with an FL layer between consecutive groups. */
  function Groups(s: SBoxes, k: seq<Half>, n: nat, g: nat, d: Block): Block
    requires g < n && |k| == 8 * n + 2
    decreases n - g
  {
    var e := SixRounds(s, k, 8 * g + 2, d);
    if g + 1 == n then e
    else Groups(s, k, n, g + 1, Block(FL(e.d1, k[8 * g + 8]), FLInv(e.d2, k[8 * g + 9])))
  }

  function Encrypt(s: SBoxes, k: seq<Half>, n: nat, m: Block): Block
    requires 0 < n && |k| == 8 * n + 2
  {
    var e := Groups(s, k, n, 0, Block(Xor(m.d1, k[0]), Xor(m.d2, k[1])));
    Block(Xor(e.d2, k[8 * n]), Xor(e.d1, k[8 * n + 1]))
  }

  // ---- camellia.c: tables and macros ----

  function SP1110(s: SBoxes, x: bv8): bv32 { Word(s.s1(x), s.s1(x), s.s1(x), 0) }
  function SP0222(s: SBoxes, x: bv8): bv32 { Word(0, s.s2(x), s.s2(x), s.s2(x)) }
  function SP3033(s: SBoxes, x: bv8): bv32 { Word(s.s3(x), 0, s.s3(x), s.s3(x)) }
  function SP4404(s: SBoxes, x: bv8): bv32 { Word(s.s4(x), s.s4(x), 0, s.s4(x)) }

  /** The table lookups of CAMELLIA_F and CAMELLIA_ROUNDSM: `il` and `ir`. */
  function Lookup(s: SBoxes, x: Half): Half {
    Half(Xor32(Xor32(Xor32(SP1110(s, Byte(x.l, 24)), SP0222(s, Byte(x.l, 16))), SP3033(s, Byte(x.l, 8))),
               SP4404(s, Byte(x.l, 0))),
         Xor32(Xor32(Xor32(SP1110(s, Byte(x.r, 0)), SP0222(s, Byte(x.r, 24))), SP3033(s, Byte(x.r, 16))),
               SP4404(s, Byte(x.r, 8))))
  }

  /** CAMELLIA_F */
  function MacroF(s: SBoxes, x: Half, k: Half): Half {
    var i := Lookup(s, Xor(x, k));
    var yl := Xor32(i.r, i.l);
    Half(yl, Xor32(RR8(i.l), yl))
  }

  /** CAMELLIA_ROUNDSM: the new value of (yl, yr). */
  function RoundSM(s: SBoxes, x: Half, k: Half, y: Half): Half {
    var i := Lookup(s, x);
    var il := Xor32(i.l, k.l);
    var ir := Xor32(i.r, Xor32(il, k.r));
    Half(Xor32(y.l, ir), Xor32(y.r, Xor32(RR8(il), ir)))
  }

  /** "The inverse of the last half of P-function", applied to a round key. */
  function PInv(k: Half): Half {
    var dw := RL8(Xor32(k.l, k.r));
    Half(dw, Xor32(k.l, dw))
  }

  /** How a difference passes FLInv forwards, or FL backwards. */
  function Through(d: Half, k: Half): Half {
    var l := Xor32(d.l, And32(d.r, Not32(k.r)));
    Half(l, Xor32(d.r, RL1(And32(l, k.l))))
  }

  // ---- the algebra of halves ----

  lemma HalfLaws(a: Half, b: Half, c: Half, d: Half)
    ensures Xor(a, b) == Xor(b, a)
    ensures Xor(Xor(a, b), b) == a
    ensures Xor(a, ZERO) == a
    ensures Xor(Xor(a, b), Xor(c, d)) == Xor(Xor(a, c), Xor(b, d))
  {
    XorLaws(a.l, b.l, 0); XorLaws(a.r, b.r, 0);
    XorCancel(a.l, b.l); XorCancel(a.r, b.r);
    XorSelf(a.l); XorSelf(a.r);
    XorExchange(a.l, b.l, c.l, d.l); XorExchange(a.r, b.r, c.r, d.r);
    hide Xor32;
  }

  lemma ThroughXor(a: Half, b: Half, k: Half)
    ensures Through(Xor(a, b), k) == Xor(Through(a, k), Through(b, k))
  {
    var la, lb := Xor32(a.l, And32(a.r, Not32(k.r))), Xor32(b.l, And32(b.r, Not32(k.r)));
    AndXor(a.r, b.r, Not32(k.r));
    XorExchange(a.l, b.l, And32(a.r, Not32(k.r)), And32(b.r, Not32(k.r)));
    AndXor(la, lb, k.l);
    RotateXor(And32(la, k.l), And32(lb, k.l));
    XorExchange(a.r, b.r, RL1(And32(la, k.l)), RL1(And32(lb, k.l)));
    hide Xor32, And32, Not32, RL1;
  }

  /** A difference d behind FL comes from Through(d) in front of it. */
  lemma FLDifference(x: Half, d: Half, k: Half)
    ensures FL(Xor(x, Through(d, k)), k) == Xor(FL(x, k), d)
  {
    var t := Through(d, k);
    AndXor(x.l, t.l, k.l);
    RotateXor(And32(x.l, k.l), And32(t.l, k.l));
    var f, g := RL1(And32(x.l, k.l)), RL1(And32(t.l, k.l));
    XorExchange(x.r, t.r, f, g);
    XorCancel(d.r, g);
    var r := Xor32(x.r, f);
    OrXor(r, d.r, k.r);
    XorExchange(x.l, t.l, Or32(r, k.r), And32(d.r, Not32(k.r)));
    XorCancel(d.l, And32(d.r, Not32(k.r)));
    hide Xor32, And32, Not32, RL1, Or32;
  }

  /** A difference d in front of FLInv becomes Through(d) behind it. */
  lemma FLInvDifference(x: Half, d: Half, k: Half)
    ensures FLInv(Xor(x, d), k) == Xor(FLInv(x, k), Through(d, k))
  {
    var t := Through(d, k);
    OrXor(x.r, d.r, k.r);
    XorExchange(x.l, d.l, Or32(x.r, k.r), And32(d.r, Not32(k.r)));
    var l := Xor32(x.l, Or32(x.r, k.r));
    AndXor(l, t.l, k.l);
    RotateXor(And32(l, k.l), And32(t.l, k.l));
    XorExchange(x.r, d.r, RL1(And32(l, k.l)), RL1(And32(t.l, k.l)));
    hide Xor32, And32, Not32, RL1, Or32;
  }

  lemma FLInverse(x: Half, k: Half)
    ensures FLInv(FL(x, k), k) == x && FL(FLInv(x, k), k) == x
  {
    var y, z := FL(x, k), FLInv(x, k);
    XorCancel(x.l, Or32(y.r, k.r));
    XorCancel(x.r, RL1(And32(x.l, k.l)));
    XorCancel(x.r, RL1(And32(z.l, k.l)));
    XorCancel(x.l, Or32(x.r, k.r));
    hide Xor32, And32, Not32, RL1, Or32;
  }

  // ---- F by tables ----

  lemma TableSum(a: bv8, b: bv8, c: bv8, d: bv8)
    ensures Xor32(Xor32(Xor32(Word(a, a, a, 0), Word(0, b, b, b)), Word(c, 0, c, c)), Word(d, d, 0, d))
            == Word(Sum3(a, c, d), Sum3(a, b, d), Sum3(a, b, c), Sum3(b, c, d))
  {
    hide Xor32, Word, Xor8;
    WordXor(a, a, a, 0, 0, b, b, b);
    Xor8Zero(a); Xor8Zero(b);
    var e := Xor8(a, b);
    WordXor(a, e, e, b, c, 0, c, c);
    Xor8Zero(e);
    WordXor(Xor8(a, c), e, Xor8(e, c), Xor8(b, c), d, d, 0, d);
    Xor8Zero(Xor8(e, c));
  }

  lemma PByTables(t1: bv8, t2: bv8, t3: bv8, t4: bv8, t5: bv8, t6: bv8, t7: bv8, t8: bv8)
    ensures var il := Xor32(Xor32(Xor32(Word(t1, t1, t1, 0), Word(0, t2, t2, t2)), Word(t3, 0, t3, t3)),
                            Word(t4, t4, 0, t4));
            var ir := Xor32(Xor32(Xor32(Word(t8, t8, t8, 0), Word(0, t5, t5, t5)), Word(t6, 0, t6, t6)),
                            Word(t7, t7, 0, t7));
            P(t1, t2, t3, t4, t5, t6, t7, t8) == Half(Xor32(ir, il), Xor32(RR8(il), Xor32(ir, il)))
  {
    hide Xor32, Word, RR8, Xor8, Sum3, Sum5, Sum6;
    TableSum(t1, t2, t3, t4);
    TableSum(t8, t5, t6, t7);
    var u0, u1, u2, u3 := Sum3(t1, t3, t4), Sum3(t1, t2, t4), Sum3(t1, t2, t3), Sum3(t2, t3, t4);
    WordXor(Sum3(t8, t6, t7), Sum3(t8, t5, t7), Sum3(t8, t5, t6), Sum3(t5, t6, t7), u0, u1, u2, u3);
    WordRR8(u0, u1, u2, u3);
    Sum33Rotated(t1, t3, t4, t6, t7, t8);
    Sum33Rotated(t1, t2, t4, t5, t7, t8);
    Sum33Rotated(t1, t2, t3, t5, t6, t8);
    Sum33(t2, t3, t4, t5, t6, t7);
    Sum36First(t1, t2, t6, t7, t8, t3, t4);
    Sum36Second(t2, t3, t5, t7, t8, t1, t4);
    Sum36Third(t3, t4, t5, t6, t8, t1, t2);
    Sum36Fourth(t1, t4, t5, t6, t7, t2, t3);
    WordXor(u3, u0, u1, u2, Sum6(t1, t3, t4, t6, t7, t8), Sum6(t1, t2, t4, t5, t7, t8), Sum6(t1, t2, t3, t5, t6, t8),
            Sum6(t2, t3, t4, t5, t6, t7));
  }

  /** The table form of F is RFC 3713's F. */
  lemma MacroFIsF(s: SBoxes, x: Half, k: Half)
    ensures MacroF(s, x, k) == F(s, x, k)
  {
    var z := Xor(x, k);
    PByTables(s.s1(Byte(z.l, 24)), s.s2(Byte(z.l, 16)), s.s3(Byte(z.l, 8)), s.s4(Byte(z.l, 0)),
              s.s2(Byte(z.r, 24)), s.s3(Byte(z.r, 16)), s.s4(Byte(z.r, 8)), s.s1(Byte(z.r, 0)));
    hide Xor32, Word, RR8, Byte, P;
  }

  /** A round with a key rewritten by PInv adds SP of the round's input and the key. */
  lemma RoundIs(s: SBoxes, x: Half, k: Half, y: Half)
    ensures RoundSM(s, x, PInv(k), y) == Xor(y, Xor(SP(s, x), k))
  {
    MacroFIsF(s, x, ZERO);
    HalfLaws(x, x, x, x);
    hide Lookup, SP;
    var i := Lookup(s, x);
    var dw := RL8(Xor32(k.l, k.r));
    RotateXor(i.l, dw);
    RotateBack(Xor32(k.l, k.r));
    RoundAlgebra(i, k, dw, RR8(i.l));
    hide Xor32, RR8, RL8;
  }

  lemma RoundAlgebra(i: Half, k: Half, dw: bv32, rr: bv32)
    ensures var ir := Xor32(i.r, Xor32(Xor32(i.l, dw), Xor32(k.l, dw)));
            && ir == Xor32(Xor32(i.r, i.l), k.l)
            && Xor32(Xor32(rr, Xor32(k.l, k.r)), ir) == Xor32(Xor32(rr, Xor32(i.r, i.l)), k.r)
  {
    XorExchange(i.l, dw, k.l, dw);
    XorSelf(dw);
    XorSelf(Xor32(i.l, k.l));
    XorLaws(i.r, i.l, k.l);
    var yl := Xor32(i.r, i.l);
    XorExchange(rr, Xor32(k.l, k.r), yl, k.l);
    XorLaws(k.l, k.r, k.l);
    XorLaws(k.r, k.l, k.l);
    XorCancel(k.r, k.l);
    hide Xor32;
  }

  // ---- the fast cipher ----

  function FastTwo(s: SBoxes, sk: seq<Half>, i: nat, y: Block): Block
    requires i + 1 < |sk|
  {
    var y2 := RoundSM(s, y.d1, sk[i], y.d2);
    Block(RoundSM(s, y2, sk[i + 1], y.d1), y2)
  }

  function FastSix(s: SBoxes, sk: seq<Half>, i: nat, y: Block): Block
    requires i + 5 < |sk|
  {
    FastTwo(s, sk, i + 4, FastTwo(s, sk, i + 2, FastTwo(s, sk, i, y)))
  }

  /** CAMELLIA_FLS */
  function FLS(y: Block, k1: Half, k2: Half): Block { Block(FL(y.d1, k1), FLInv(y.d2, k2)) }

  function FastGroups(s: SBoxes, sk: seq<Half>, n: nat, g: nat, y: Block): Block
    requires g < n && 8 * n < |sk|
    decreases n - g
  {
    var e := FastSix(s, sk, 8 * g + 2, y);
    if g + 1 == n then e else FastGroups(s, sk, n, g + 1, FLS(e, sk[8 * g + 8], sk[8 * g + 9]))
  }

  /** `camellia_encrypt128` (n = 3), `camellia_encrypt256` (n = 4) */
  function FastEncrypt(s: SBoxes, sk: seq<Half>, n: nat, m: Block): Block
    requires 0 < n && 8 * n < |sk|
  {
    var e := FastGroups(s, sk, n, 0, Block(Xor(m.d1, sk[0]), m.d2));
    Block(Xor(e.d2, sk[8 * n]), e.d1)
  }

  /** Six rounds with the keys i + 5 down to i. */
  function FastSixBack(s: SBoxes, sk: seq<Half>, i: nat, z: Block): Block
    requires i + 5 < |sk|
  {
    FastTwoBack(s, sk, i, FastTwoBack(s, sk, i + 2, FastTwoBack(s, sk, i + 4, z)))
  }

  function FastTwoBack(s: SBoxes, sk: seq<Half>, i: nat, z: Block): Block
    requires i + 1 < |sk|
  {
    var z2 := RoundSM(s, z.d1, sk[i + 1], z.d2);
    Block(RoundSM(s, z2, sk[i], z.d1), z2)
  }

  /** The groups hi down to lo of the decryption. */
  function FastGroupsBack(s: SBoxes, sk: seq<Half>, hi: nat, lo: nat, z: Block): Block
    requires lo <= hi && 8 * hi + 8 <= |sk|
    decreases hi
  {
    var e := FastSixBack(s, sk, 8 * hi + 2, z);
    if hi == lo then e else FastGroupsBack(s, sk, hi - 1, lo, FLS(e, sk[8 * hi + 1], sk[8 * hi]))
  }

  /** `camellia_decrypt128` (n = 3), `camellia_decrypt256` (n = 4) */
  function FastDecrypt(s: SBoxes, sk: seq<Half>, n: nat, c: Block): Block
    requires 0 < n && 8 * n < |sk|
  {
    var e := FastGroupsBack(s, sk, n - 1, 0, Block(Xor(c.d1, sk[8 * n]), c.d2));
    Block(Xor(e.d2, sk[0]), e.d1)
  }

  // ---- the rewritten keys ----

  /** A half of the fast cipher's state is the RFC state's half plus a known offset.  Round
      j (0 .. 5) of group g rewrites the offset of the half it updates from Arriving to
      Leaving; the other half carries the round's own key, so that the S-boxes see exactly
      what RFC 3713 shows them. */
  function Arriving(k: seq<Half>, n: nat, g: nat, j: nat): Half
    requires |k| == 8 * n + 2 && g < n && j < 6
  {
    if j > 0 then k[8 * g + 1 + j] else if g == 0 then k[1] else Through(k[8 * g - 1], k[8 * g + 1])
  }

  function Leaving(k: seq<Half>, n: nat, g: nat, j: nat): Half
    requires |k| == 8 * n + 2 && g < n && j < 6
  {
    if j < 5 then k[8 * g + 3 + j] else if g + 1 == n then k[8 * n + 1] else Through(k[8 * g + 10], k[8 * g + 8])
  }

  /** A round key of the fast cipher, before the inverse of the last half of P. */
  function Difference(k: seq<Half>, n: nat, g: nat, j: nat): Half
    requires |k| == 8 * n + 2 && g < n && j < 6
  {
    Xor(Arriving(k, n, g, j), Leaving(k, n, g, j))
  }

  ghost predicate GroupRewritten(sk: seq<Half>, k: seq<Half>, n: nat, g: nat)
    requires |k| == 8 * n + 2 && 8 * n < |sk| && g < n
  {
    && sk[8 * g + 2] == PInv(Difference(k, n, g, 0)) && sk[8 * g + 3] == PInv(Difference(k, n, g, 1))
    && sk[8 * g + 4] == PInv(Difference(k, n, g, 2)) && sk[8 * g + 5] == PInv(Difference(k, n, g, 3))
    && sk[8 * g + 6] == PInv(Difference(k, n, g, 4)) && sk[8 * g + 7] == PInv(Difference(k, n, g, 5))
    && (g + 1 < n ==> sk[8 * g + 8] == k[8 * g + 8] && sk[8 * g + 9] == k[8 * g + 9])
  }

  /** The key table the setup functions leave behind (entry 1 is not used). */
  ghost predicate IsRewritten(sk: seq<Half>, k: seq<Half>, n: nat) {
    && 0 < n && |k| == 8 * n + 2 && 8 * n < |sk|
    && sk[0] == Xor(k[0], k[2]) && sk[8 * n] == Xor(k[8 * n], k[8 * n - 1])
    && forall g :: 0 <= g < n ==> GroupRewritten(sk, k, n, g)
  }

  // ---- the simulation ----

  /** The fast state that carries the given offsets. */
  function Carry(d: Block, a: Half, b: Half): Block { Block(Xor(d.d1, a), Xor(d.d2, b)) }

  /** One round: the half that is updated exchanges its offset. */
  lemma SimulateRound(s: SBoxes, x: Half, k: Half, y: Half, arriving: Half, leaving: Half)
    ensures RoundSM(s, Xor(x, k), PInv(Xor(arriving, leaving)), Xor(y, arriving)) == Xor(Xor(y, F(s, x, k)), leaving)
  {
    var f := SP(s, Xor(x, k));
    var d := Xor(arriving, leaving);
    RoundIs(s, Xor(x, k), d, Xor(y, arriving));
    HalfLaws(y, arriving, f, d);
    HalfLaws(arriving, leaving, f, d);
    HalfLaws(leaving, arriving, f, d);
    HalfLaws(arriving, d, f, d);
    hide Xor, SP, RoundSM, PInv;
  }

  /** Two rounds with the keys k0, k1, when the offsets go b -> k1 and k0 -> c. */
  lemma SimulateTwo(s: SBoxes, k: seq<Half>, sk: seq<Half>, i: nat, d: Block, b: Half, c: Half)
    requires i + 1 < |k| && i + 1 < |sk|
    requires sk[i] == PInv(Xor(b, k[i + 1])) && sk[i + 1] == PInv(Xor(k[i], c))
    ensures FastTwo(s, sk, i, Carry(d, k[i], b)) == Carry(TwoRounds(s, k, i, d), c, k[i + 1])
  {
    hide Xor, F, RoundSM, PInv;
    SimulateRound(s, d.d1, k[i], d.d2, b, k[i + 1]);
    SimulateRound(s, Xor(d.d2, F(s, d.d1, k[i])), k[i + 1], d.d1, k[i], c);
  }

  lemma SimulateSix(s: SBoxes, k: seq<Half>, sk: seq<Half>, n: nat, g: nat, d: Block)
    requires |k| == 8 * n + 2 && 8 * n < |sk| && g < n && GroupRewritten(sk, k, n, g)
    ensures FastSix(s, sk, 8 * g + 2, Carry(d, k[8 * g + 2], Arriving(k, n, g, 0)))
            == Carry(SixRounds(s, k, 8 * g + 2, d), Leaving(k, n, g, 5), k[8 * g + 7])
  {
    hide Xor, TwoRounds, FastTwo, PInv, Carry, Through;
    var i := 8 * g + 2;
    var a := TwoRounds(s, k, i, d);
    var b := TwoRounds(s, k, i + 2, a);
    SimulateTwo(s, k, sk, i, d, Arriving(k, n, g, 0), k[i + 2]);
    SimulateTwo(s, k, sk, i + 2, a, k[i + 1], k[i + 4]);
    SimulateTwo(s, k, sk, i + 4, b, k[i + 3], Leaving(k, n, g, 5));
  }

  /** The offsets change places at an FL layer. */
  lemma SimulateLayer(d: Block, a: Half, b: Half, k1: Half, k2: Half)
    ensures FLS(Carry(d, Through(a, k1), b), k1, k2) == Carry(Block(FL(d.d1, k1), FLInv(d.d2, k2)), a, Through(b, k2))
  {
    FLDifference(d.d1, a, k1);
    FLInvDifference(d.d2, b, k2);
    hide Xor, Through, FL, FLInv;
  }

  lemma {:induction false} SimulateGroups(s: SBoxes, k: seq<Half>, sk: seq<Half>, n: nat, g: nat, d: Block)
    requires |k| == 8 * n + 2 && 8 * n < |sk| && g < n && forall h :: 0 <= h < n ==> GroupRewritten(sk, k, n, h)
    ensures FastGroups(s, sk, n, g, Carry(d, k[8 * g + 2], Arriving(k, n, g, 0)))
            == Carry(Groups(s, k, n, g, d), k[8 * n + 1], k[8 * n - 1])
    decreases n - g
  {
    hide Carry, Through, FLS, FL, FLInv, FastSix, SixRounds, Difference, PInv;
    SimulateSix(s, k, sk, n, g, d);
    if g + 1 < n {
      assert GroupRewritten(sk, k, n, g);
      var i := 8 * g + 2;
      var e := SixRounds(s, k, i, d);
      SimulateLayer(e, k[i + 8], k[i + 5], k[i + 6], k[i + 7]);
      SimulateGroups(s, k, sk, n, g + 1, Block(FL(e.d1, k[i + 6]), FLInv(e.d2, k[i + 7])));
    }
  }

  lemma WhitenStart(m: Block, k0: Half, k1: Half, k2: Half)
    ensures Block(Xor(m.d1, Xor(k0, k2)), m.d2) == Carry(Block(Xor(m.d1, k0), Xor(m.d2, k1)), k2, k1)
  {
    HalfLaws(m.d1, ZERO, k0, k2);
    HalfLaws(Xor(k0, k2), ZERO, ZERO, ZERO);
    HalfLaws(ZERO, Xor(k0, k2), ZERO, ZERO);
    HalfLaws(k2, ZERO, ZERO, ZERO);
    HalfLaws(ZERO, k2, ZERO, ZERO);
    HalfLaws(m.d2, k1, ZERO, ZERO);
    hide Xor;
  }

  lemma WhitenEnd(x: Half, a: Half, k: Half)
    ensures Xor(Xor(x, a), Xor(k, a)) == Xor(x, k)
  {
    HalfLaws(x, a, k, a);
    HalfLaws(ZERO, a, k, a);
    HalfLaws(a, ZERO, k, a);
    HalfLaws(Xor(x, k), ZERO, k, a);
    hide Xor;
  }

  /** Encryption with the rewritten keys is the encryption of RFC 3713. */
  lemma FastEncryptIsEncrypt(s: SBoxes, k: seq<Half>, sk: seq<Half>, n: nat, m: Block)
    requires IsRewritten(sk, k, n)
    ensures FastEncrypt(s, sk, n, m) == Encrypt(s, k, n, m)
  {
    hide Xor, Groups, FastGroups, Through, GroupRewritten;
    var d := Block(Xor(m.d1, k[0]), Xor(m.d2, k[1]));
    WhitenStart(m, k[0], k[1], k[2]);
    SimulateGroups(s, k, sk, n, 0, d);
    WhitenEnd(Groups(s, k, n, 0, d).d2, k[8 * n - 1], k[8 * n]);
  }

  // ---- decryption ----

  lemma RoundUndoesRound(s: SBoxes, x: Half, k: Half, y: Half)
    ensures RoundSM(s, x, k, RoundSM(s, x, k, y)) == y
  {
    var i := Lookup(s, x);
    var il := Xor32(i.l, k.l);
    var ir := Xor32(i.r, Xor32(il, k.r));
    XorCancel(y.l, ir);
    XorCancel(y.r, Xor32(RR8(il), ir));
    hide Lookup, Xor32, RR8;
  }

  function Swap(b: Block): Block { Block(b.d2, b.d1) }

  lemma SixBackUndoesSix(s: SBoxes, sk: seq<Half>, i: nat, y: Block)
    requires i + 5 < |sk|
    ensures FastSixBack(s, sk, i, Swap(FastSix(s, sk, i, y))) == Swap(y)
  {
    var a := FastTwo(s, sk, i, y);
    var b := FastTwo(s, sk, i + 2, a);
    TwoBackUndoesTwo(s, sk, i, y);
    TwoBackUndoesTwo(s, sk, i + 2, a);
    TwoBackUndoesTwo(s, sk, i + 4, b);
    hide FastTwo, FastTwoBack;
  }

  lemma TwoBackUndoesTwo(s: SBoxes, sk: seq<Half>, i: nat, y: Block)
    requires i + 1 < |sk|
    ensures FastTwoBack(s, sk, i, Swap(FastTwo(s, sk, i, y))) == Swap(y)
  {
    var y2 := RoundSM(s, y.d1, sk[i], y.d2);
    RoundUndoesRound(s, y2, sk[i + 1], y.d1);
    RoundUndoesRound(s, y.d1, sk[i], y.d2);
    hide RoundSM;
  }

  /** The lowest group of the backward run can be split off. */
  lemma {:induction false} GroupsBackStep(s: SBoxes, sk: seq<Half>, hi: nat, lo: nat, z: Block)
    requires lo < hi && 8 * hi + 8 <= |sk|
    ensures var e := FastGroupsBack(s, sk, hi, lo + 1, z);
            FastGroupsBack(s, sk, hi, lo, z) == FastSixBack(s, sk, 8 * lo + 2, FLS(e, sk[8 * lo + 9], sk[8 * lo + 8]))
    decreases hi
  {
    hide FastSixBack, FLS;
    if lo + 1 < hi {
      GroupsBackStep(s, sk, hi - 1, lo, FLS(FastSixBack(s, sk, 8 * hi + 2, z), sk[8 * hi + 1], sk[8 * hi]));
    }
  }

  lemma {:induction false} GroupsBackUndoGroups(s: SBoxes, sk: seq<Half>, n: nat, g: nat, y: Block)
    requires g < n && 8 * n < |sk|
    ensures FastGroupsBack(s, sk, n - 1, g, Swap(FastGroups(s, sk, n, g, y))) == Swap(y)
    decreases n - g
  {
    hide FastSix, FastSixBack, FL, FLInv;
    var e := FastSix(s, sk, 8 * g + 2, y);
    SixBackUndoesSix(s, sk, 8 * g + 2, y);
    if g + 1 < n {
      var f := FLS(e, sk[8 * g + 8], sk[8 * g + 9]);
      GroupsBackUndoGroups(s, sk, n, g + 1, f);
      GroupsBackStep(s, sk, n - 1, g, Swap(FastGroups(s, sk, n, g, y)));
      FLInverse(e.d1, sk[8 * g + 8]);
      FLInverse(e.d2, sk[8 * g + 9]);
    }
  }

  /** Decryption undoes encryption, for any key table and any block. */
  lemma DecryptUndoesEncrypt(s: SBoxes, sk: seq<Half>, n: nat, m: Block)
    requires 0 < n && 8 * n < |sk|
    ensures FastDecrypt(s, sk, n, FastEncrypt(s, sk, n, m)) == m
  {
    var y := Block(Xor(m.d1, sk[0]), m.d2);
    GroupsBackUndoGroups(s, sk, n, 0, y);
    var e := FastGroups(s, sk, n, 0, y);
    HalfLaws(e.d2, sk[8 * n], ZERO, ZERO);
    HalfLaws(m.d1, sk[0], ZERO, ZERO);
    hide Xor, FastGroups, FastGroupsBack;
  }

  // ---- and encryption undoes decryption ----

  lemma TwoUndoesTwoBack(s: SBoxes, sk: seq<Half>, i: nat, z: Block)
    requires i + 1 < |sk|
    ensures FastTwo(s, sk, i, Swap(FastTwoBack(s, sk, i, z))) == Swap(z)
  {
    var z2 := RoundSM(s, z.d1, sk[i + 1], z.d2);
    RoundUndoesRound(s, z2, sk[i], z.d1);
    RoundUndoesRound(s, z.d1, sk[i + 1], z.d2);
    hide RoundSM;
  }

  lemma SixUndoesSixBack(s: SBoxes, sk: seq<Half>, i: nat, z: Block)
    requires i + 5 < |sk|
    ensures FastSix(s, sk, i, Swap(FastSixBack(s, sk, i, z))) == Swap(z)
  {
    var a := FastTwoBack(s, sk, i + 4, z);
    var b := FastTwoBack(s, sk, i + 2, a);
    TwoUndoesTwoBack(s, sk, i + 4, z);
    TwoUndoesTwoBack(s, sk, i + 2, a);
    TwoUndoesTwoBack(s, sk, i, b);
    hide FastTwo, FastTwoBack;
  }

  lemma {:induction false} GroupsUndoGroupsBack(s: SBoxes, sk: seq<Half>, n: nat, g: nat, z: Block)
    requires g < n && 8 * n < |sk|
    ensures FastGroups(s, sk, n, g, Swap(FastGroupsBack(s, sk, n - 1, g, z))) == Swap(z)
    decreases n - g
  {
    hide FastSix, FastSixBack, FL, FLInv;
    if g + 1 < n {
      var e := FastGroupsBack(s, sk, n - 1, g + 1, z);
      GroupsBackStep(s, sk, n - 1, g, z);
      SixUndoesSixBack(s, sk, 8 * g + 2, FLS(e, sk[8 * g + 9], sk[8 * g + 8]));
      FLInverse(e.d1, sk[8 * g + 9]);
      FLInverse(e.d2, sk[8 * g + 8]);
      GroupsUndoGroupsBack(s, sk, n, g + 1, z);
    } else {
      SixUndoesSixBack(s, sk, 8 * g + 2, z);
    }
  }

  /** Every block is the encryption of what it decrypts to, for any key table. */
  lemma EncryptUndoesDecrypt(s: SBoxes, sk: seq<Half>, n: nat, c: Block)
    requires 0 < n && 8 * n < |sk|
    ensures FastEncrypt(s, sk, n, FastDecrypt(s, sk, n, c)) == c
  {
    var z := Block(Xor(c.d1, sk[8 * n]), c.d2);
    GroupsUndoGroupsBack(s, sk, n, 0, z);
    var e := FastGroupsBack(s, sk, n - 1, 0, z);
    HalfLaws(e.d2, sk[0], ZERO, ZERO);
    HalfLaws(c.d1, sk[8 * n], ZERO, ZERO);
    hide Xor, FastGroups, FastGroupsBack;
  }
}
