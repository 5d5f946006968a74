/** The 32-bit word operations camellia.c is written with, and their algebra.

    Each machine operation is a named function, so that the proofs about the cipher use
    only the laws stated here. */
module CamelliaWords {

  function Xor32(a: bv32, b: bv32): bv32 { a ^ b }
  function And32(a: bv32, b: bv32): bv32 { a & b }
  function Or32(a: bv32, b: bv32): bv32 { a | b }
  function Not32(a: bv32): bv32 { !a }

  function Xor8(a: bv8, b: bv8): bv8 { a ^ b }

  function Byte(x: bv32, shift: bv6): bv8
    requires shift <= 24
  {
    ((x >> shift) & 0xff) as bv8
  }

  function Word(a: bv8, b: bv8, c: bv8, d: bv8): bv32 {
    ((a as bv32) << 24) | ((b as bv32) << 16) | ((c as bv32) << 8) | (d as bv32)
  }

  /** CAMELLIA_RL1, CAMELLIA_RL8, CAMELLIA_RR8 */
  function RL1(x: bv32): bv32 { (x << 1) + (x >> 31) }
  function RL8(x: bv32): bv32 { (x << 8) + (x >> 24) }
  function RR8(x: bv32): bv32 { (x >> 8) + (x << 24) }

  /** One word of CAMELLIA_ROLDQ: the top 32 bits of (a || b) << n. */
  function Funnel(a: bv32, b: bv32, n: bv6): bv32
    requires n <= 32
  {
    (a << n) + (b >> (32 - n))
  }

  lemma XorLaws(a: bv32, b: bv32, c: bv32)
    ensures Xor32(Xor32(a, b), c) == Xor32(a, Xor32(b, c))
    ensures Xor32(a, b) == Xor32(b, a)
  {
  }

  lemma XorSelf(a: bv32)
    ensures Xor32(a, a) == 0 && Xor32(a, 0) == a
  {
  }

  /** Exclusive-or is an abelian group: the four-term exchange used everywhere. */
  lemma XorExchange(a: bv32, b: bv32, c: bv32, d: bv32)
    ensures Xor32(Xor32(a, b), Xor32(c, d)) == Xor32(Xor32(a, c), Xor32(b, d))
  {
    XorLaws(a, b, Xor32(c, d));
    XorLaws(b, c, d);
    XorLaws(c, b, d);
    XorLaws(a, c, Xor32(b, d));
    hide Xor32;
  }

  lemma XorCancel(a: bv32, b: bv32)
    ensures Xor32(Xor32(a, b), b) == a
  {
    XorLaws(a, b, b);
    XorSelf(a);
    XorSelf(b);
    hide Xor32;
  }

  lemma AndXor(a: bv32, b: bv32, k: bv32)
    ensures And32(Xor32(a, b), k) == Xor32(And32(a, k), And32(b, k))
  {
  }

  lemma OrIs(a: bv32, k: bv32)
    ensures Or32(a, k) == Xor32(And32(a, Not32(k)), k)
  {
  }

  lemma OrXor(a: bv32, b: bv32, k: bv32)
    ensures Or32(Xor32(a, b), k) == Xor32(Or32(a, k), And32(b, Not32(k)))
  {
    OrIs(a, k);
    OrIs(Xor32(a, b), k);
    AndXor(a, b, Not32(k));
    var p, q := And32(a, Not32(k)), And32(b, Not32(k));
    XorLaws(p, q, k);
    XorLaws(q, k, 0);
    XorLaws(p, k, q);
    hide Xor32, And32, Or32, Not32;
  }

  function RotL1(x: bv32): bv32 { x.RotateLeft(1) }
  function RotR8(x: bv32): bv32 { x.RotateRight(8) }

  lemma RL1Is(x: bv32)
    ensures RL1(x) == RotL1(x)
  {
  }

  lemma RR8Is(x: bv32)
    ensures RR8(x) == RotR8(x)
  {
  }

  lemma RotL1Xor(a: bv32, b: bv32)
    ensures RotL1(Xor32(a, b)) == Xor32(RotL1(a), RotL1(b))
  {
  }

  lemma RotR8Xor(a: bv32, b: bv32)
    ensures RotR8(Xor32(a, b)) == Xor32(RotR8(a), RotR8(b))
  {
  }

  lemma RotateXor(a: bv32, b: bv32)
    ensures RL1(Xor32(a, b)) == Xor32(RL1(a), RL1(b))
    ensures RR8(Xor32(a, b)) == Xor32(RR8(a), RR8(b))
  {
    hide *;
    RL1Is(a); RL1Is(b); RL1Is(Xor32(a, b)); RotL1Xor(a, b);
    RR8Is(a); RR8Is(b); RR8Is(Xor32(a, b)); RotR8Xor(a, b);
  }

  lemma RotateBack(x: bv32)
    ensures RR8(RL8(x)) == x
  {
  }

  lemma Xor8Zero(a: bv8)
    ensures Xor8(a, 0) == a && Xor8(0, a) == a
  {
  }

  /** Sums of S-box outputs. */
  function Sum3(a: bv8, b: bv8, c: bv8): bv8 { Xor8(Xor8(a, b), c) }
  function Sum5(a: bv8, b: bv8, c: bv8, d: bv8, e: bv8): bv8 { a ^ b ^ c ^ d ^ e }
  function Sum6(a: bv8, b: bv8, c: bv8, d: bv8, e: bv8, f: bv8): bv8 { a ^ b ^ c ^ d ^ e ^ f }

  lemma Sum33(a: bv8, b: bv8, c: bv8, d: bv8, e: bv8, f: bv8)
    ensures Xor8(Sum3(d, e, f), Sum3(a, b, c)) == Sum6(a, b, c, d, e, f)
  {
  }

  lemma Sum33Rotated(a: bv8, b: bv8, c: bv8, d: bv8, e: bv8, f: bv8)
    ensures Xor8(Sum3(f, d, e), Sum3(a, b, c)) == Sum6(a, b, c, d, e, f)
  {
  }

  lemma Sum36First(a: bv8, b: bv8, c: bv8, d: bv8, e: bv8, x: bv8, y: bv8)
    ensures Xor8(Sum3(b, x, y), Sum6(a, x, y, c, d, e)) == Sum5(a, b, c, d, e)
  {
  }

  lemma Sum36Second(a: bv8, b: bv8, c: bv8, d: bv8, e: bv8, x: bv8, y: bv8)
    ensures Xor8(Sum3(x, b, y), Sum6(x, a, y, c, d, e)) == Sum5(a, b, c, d, e)
  {
  }

  lemma Sum36Third(a: bv8, b: bv8, c: bv8, d: bv8, e: bv8, x: bv8, y: bv8)
    ensures Xor8(Sum3(x, y, b), Sum6(x, y, a, c, d, e)) == Sum5(a, b, c, d, e)
  {
  }

  lemma Sum36Fourth(a: bv8, b: bv8, c: bv8, d: bv8, e: bv8, x: bv8, y: bv8)
    ensures Xor8(Sum3(a, x, y), Sum6(x, y, b, c, d, e)) == Sum5(a, b, c, d, e)
  {
  }

  lemma WordXor(a: bv8, b: bv8, c: bv8, d: bv8, a': bv8, b': bv8, c': bv8, d': bv8)
    ensures Xor32(Word(a, b, c, d), Word(a', b', c', d')) == Word(Xor8(a, a'), Xor8(b, b'), Xor8(c, c'), Xor8(d, d'))
  {
  }

  lemma WordRR8(a: bv8, b: bv8, c: bv8, d: bv8)
    ensures RR8(Word(a, b, c, d)) == Word(d, a, b, c)
  {
  }

  // ---- rotating twice, for the pairs of shifts the key schedules use ----

  lemma Funnel15Then30(a: bv32, b: bv32, c: bv32)
    ensures Funnel(Funnel(a, b, 15), Funnel(b, c, 15), 30) == Funnel(b, c, 13)
  {
  }

  lemma Funnel13Then15(a: bv32, b: bv32, c: bv32)
    ensures Funnel(Funnel(a, b, 13), Funnel(b, c, 13), 15) == Funnel(a, b, 28)
  {
  }

  lemma Funnel28Then17(a: bv32, b: bv32, c: bv32)
    ensures Funnel(Funnel(a, b, 28), Funnel(b, c, 28), 17) == Funnel(b, c, 13)
  {
  }

  lemma Funnel13Then17(a: bv32, b: bv32, c: bv32)
    ensures Funnel(Funnel(a, b, 13), Funnel(b, c, 13), 17) == Funnel(a, b, 30)
  {
  }

  lemma Funnel30Then17(a: bv32, b: bv32, c: bv32)
    ensures Funnel(Funnel(a, b, 30), Funnel(b, c, 30), 17) == Funnel(b, c, 15)
  {
  }

  lemma Funnel15Then15(a: bv32, b: bv32, c: bv32)
    ensures Funnel(Funnel(a, b, 15), Funnel(b, c, 15), 15) == Funnel(a, b, 30)
  {
  }

  lemma Funnel30Then15(a: bv32, b: bv32, c: bv32)
    ensures Funnel(Funnel(a, b, 30), Funnel(b, c, 30), 15) == Funnel(b, c, 13)
  {
  }

  lemma Funnel28Then2(a: bv32, b: bv32, c: bv32)
    ensures Funnel(Funnel(a, b, 28), Funnel(b, c, 28), 2) == Funnel(a, b, 30)
  {
  }

  lemma Funnel13Then2(a: bv32, b: bv32, c: bv32)
    ensures Funnel(Funnel(a, b, 13), Funnel(b, c, 13), 2) == Funnel(a, b, 15)
  {
  }

  lemma Funnel30Then30(a: bv32, b: bv32, c: bv32)
    ensures Funnel(Funnel(a, b, 30), Funnel(b, c, 30), 30) == Funnel(b, c, 28)
  {
  }

  lemma Funnel30Then2(a: bv32, b: bv32, c: bv32)
    ensures Funnel(Funnel(a, b, 30), Funnel(b, c, 30), 2) == b
  {
  }

  lemma Funnel28Then19(a: bv32, b: bv32, c: bv32)
    ensures Funnel(Funnel(a, b, 28), Funnel(b, c, 28), 19) == Funnel(b, c, 15)
  {
  }
}
