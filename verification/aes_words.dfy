/** Bytes of GF(2^8) and the 32-bit words of aes_generic.c. */
module AesWords {

  function Xor8(a: bv8, b: bv8): bv8 { a ^ b }

  /** Multiplication by x modulo x^8 + x^4 + x^3 + x + 1 (section 4.2.1 of FIPS 197). */
  function XTime(a: bv8): bv8 { Xor8(Shl1(a), Reduction(a)) }

  function Shl1(a: bv8): bv8 { a << 1 }
  function Reduction(a: bv8): bv8 { if a & 0x80 == 0 then 0 else 0x1b }

  function Times2(a: bv8): bv8 { XTime(a) }
  function Times3(a: bv8): bv8 { Xor8(XTime(a), a) }
  function Times9(a: bv8): bv8 { Xor8(XTime(XTime(XTime(a))), a) }
  function Times11(a: bv8): bv8 { Xor8(Xor8(XTime(XTime(XTime(a))), XTime(a)), a) }
  function Times13(a: bv8): bv8 { Xor8(Xor8(XTime(XTime(XTime(a))), XTime(XTime(a))), a) }
  function Times14(a: bv8): bv8 { Xor8(Xor8(XTime(XTime(XTime(a))), XTime(XTime(a))), XTime(a)) }

  /** A 32-bit word by its bytes, `byte(x, 0)` first: a column of the AES state. */
  datatype Word = Word(b0: bv8, b1: bv8, b2: bv8, b3: bv8)

  const ZERO := Word(0, 0, 0, 0)

  function Xor(a: Word, b: Word): Word {
    Word(Xor8(a.b0, b.b0), Xor8(a.b1, b.b1), Xor8(a.b2, b.b2), Xor8(a.b3, b.b3))
  }

  /** rol32 by 8, 16, 24; ror32 by 8 is rol32 by 24. */
  function Rol8(a: Word): Word { Word(a.b3, a.b0, a.b1, a.b2) }
  function Rol16(a: Word): Word { Word(a.b2, a.b3, a.b0, a.b1) }
  function Rol24(a: Word): Word { Word(a.b1, a.b2, a.b3, a.b0) }

  function Sum4(a: bv8, b: bv8, c: bv8, d: bv8): bv8 { Xor8(Xor8(a, b), Xor8(c, d)) }

  // ---- section 5.1.3 and 5.3.3 of FIPS 197, one column ----

  function MixColumn(a: Word): Word {
    Word(Sum4(Times2(a.b0), Times3(a.b1), a.b2, a.b3),
         Sum4(a.b0, Times2(a.b1), Times3(a.b2), a.b3),
         Sum4(a.b0, a.b1, Times2(a.b2), Times3(a.b3)),
         Sum4(Times3(a.b0), a.b1, a.b2, Times2(a.b3)))
  }

  function InvMixColumn(a: Word): Word {
    Word(Sum4(Times14(a.b0), Times11(a.b1), Times13(a.b2), Times9(a.b3)),
         Sum4(Times9(a.b0), Times14(a.b1), Times11(a.b2), Times13(a.b3)),
         Sum4(Times13(a.b0), Times9(a.b1), Times14(a.b2), Times11(a.b3)),
         Sum4(Times11(a.b0), Times13(a.b1), Times9(a.b2), Times14(a.b3)))
  }

  // ---- star_x and imix_col ----

  function AsBits(a: Word): bv32 {
    ((a.b3 as bv32) << 24) | ((a.b2 as bv32) << 16) | ((a.b1 as bv32) << 8) | (a.b0 as bv32)
  }

  function FromBits(x: bv32): Word {
    Word((x & 0xff) as bv8, ((x >> 8) & 0xff) as bv8, ((x >> 16) & 0xff) as bv8, ((x >> 24) & 0xff) as bv8)
  }

  function StarXBits(x: bv32): bv32 { ((x & 0x7f7f7f7f) << 1) ^ (((x & 0x80808080) >> 7) * 0x1b) }

  function StarX(a: Word): Word { FromBits(StarXBits(AsBits(a))) }

  /** star_x multiplies all four bytes by x at once. */
  lemma StarXIs(a: Word)
    ensures StarX(a) == Word(XTime(a.b0), XTime(a.b1), XTime(a.b2), XTime(a.b3))
  {
  }

  function IMixCol(x: Word): Word {
    var u := StarX(x);
    var v := StarX(u);
    var w := StarX(v);
    var t := Xor(w, x);
    var y := Xor(Xor(u, v), w);
    Xor(y, Xor(Xor(Rol24(Xor(u, t)), Rol16(Xor(v, t))), Rol8(t)))
  }

  // ---- the field's linear algebra ----

  lemma XorLaws(a: bv8, b: bv8, c: bv8)
    ensures Xor8(Xor8(a, b), c) == Xor8(a, Xor8(b, c))
    ensures Xor8(a, b) == Xor8(b, a)
    ensures Xor8(a, 0) == a && Xor8(a, a) == 0
  {
  }

  lemma XorCancel(a: bv8, b: bv8)
    ensures Xor8(Xor8(a, b), b) == a
  {
    XorLaws(a, b, b);
    XorLaws(b, b, b);
    hide Xor8;
  }

  lemma Exchange(a: bv8, b: bv8, c: bv8, d: bv8)
    ensures Xor8(Xor8(a, b), Xor8(c, d)) == Xor8(Xor8(a, c), Xor8(b, d))
  {
    XorLaws(a, b, Xor8(c, d));
    XorLaws(b, c, d);
    XorLaws(c, b, d);
    XorLaws(a, c, Xor8(b, d));
    hide Xor8;
  }

  lemma Shl1Xor(a: bv8, b: bv8)
    ensures Shl1(Xor8(a, b)) == Xor8(Shl1(a), Shl1(b))
  {
  }

  lemma ReductionXor(a: bv8, b: bv8)
    ensures Reduction(Xor8(a, b)) == Xor8(Reduction(a), Reduction(b))
  {
  }

  lemma XTimeXor(a: bv8, b: bv8)
    ensures XTime(Xor8(a, b)) == Xor8(XTime(a), XTime(b))
  {
    Shl1Xor(a, b);
    ReductionXor(a, b);
    Exchange(Shl1(a), Shl1(b), Reduction(a), Reduction(b));
    hide Xor8, Shl1, Reduction;
  }

  /** Every constant multiplication distributes over exclusive-or. */
  lemma TimesXor(a: bv8, b: bv8)
    ensures Times14(Xor8(a, b)) == Xor8(Times14(a), Times14(b))
    ensures Times13(Xor8(a, b)) == Xor8(Times13(a), Times13(b))
    ensures Times11(Xor8(a, b)) == Xor8(Times11(a), Times11(b))
    ensures Times9(Xor8(a, b)) == Xor8(Times9(a), Times9(b))
  {
    var a1, b1 := XTime(a), XTime(b);
    var a2, b2 := XTime(a1), XTime(b1);
    var a3, b3 := XTime(a2), XTime(b2);
    XTimeXor(a, b);
    XTimeXor(a1, b1);
    XTimeXor(a2, b2);
    Exchange(a3, b3, a2, b2);
    Exchange(a3, b3, a1, b1);
    Exchange(a3, b3, a, b);
    Exchange(Xor8(a3, a2), Xor8(b3, b2), a1, b1);
    Exchange(Xor8(a3, a2), Xor8(b3, b2), a, b);
    Exchange(Xor8(a3, a1), Xor8(b3, b1), a, b);
    hide Xor8, XTime;
  }

  lemma TimesSum(a: bv8, b: bv8, c: bv8, d: bv8)
    ensures Times14(Sum4(a, b, c, d)) == Sum4(Times14(a), Times14(b), Times14(c), Times14(d))
    ensures Times13(Sum4(a, b, c, d)) == Sum4(Times13(a), Times13(b), Times13(c), Times13(d))
    ensures Times11(Sum4(a, b, c, d)) == Sum4(Times11(a), Times11(b), Times11(c), Times11(d))
    ensures Times9(Sum4(a, b, c, d)) == Sum4(Times9(a), Times9(b), Times9(c), Times9(d))
  {
    TimesXor(a, b);
    TimesXor(c, d);
    TimesXor(Xor8(a, b), Xor8(c, d));
    hide Xor8, Times14, Times13, Times11, Times9;
  }

  /** Columns of the product of the two matrices. */
  lemma MatrixColumns(a: bv8)
    ensures Sum4(Times14(Times2(a)), Times11(a), Times13(a), Times9(Times3(a))) == a
    ensures Sum4(Times14(Times3(a)), Times11(Times2(a)), Times13(a), Times9(a)) == 0
    ensures Sum4(Times14(a), Times11(Times3(a)), Times13(Times2(a)), Times9(a)) == 0
    ensures Sum4(Times14(a), Times11(a), Times13(Times3(a)), Times9(Times2(a))) == 0
  {
  }

  lemma SumXor(a: bv8, b: bv8, c: bv8, d: bv8, e: bv8, f: bv8, g: bv8, h: bv8)
    ensures Sum4(Xor8(a, e), Xor8(b, f), Xor8(c, g), Xor8(d, h)) == Xor8(Sum4(a, b, c, d), Sum4(e, f, g, h))
  {
    Exchange(a, e, b, f);
    Exchange(c, g, d, h);
    Exchange(Xor8(a, b), Xor8(e, f), Xor8(c, d), Xor8(g, h));
    hide Xor8;
  }

  /** A four by four table of terms, summed by rows or by columns. */
  lemma Regroup(a0: bv8, b0: bv8, c0: bv8, d0: bv8, a1: bv8, b1: bv8, c1: bv8, d1: bv8,
                a2: bv8, b2: bv8, c2: bv8, d2: bv8, a3: bv8, b3: bv8, c3: bv8, d3: bv8)
    ensures Sum4(Sum4(a0, b0, c0, d0), Sum4(a1, b1, c1, d1), Sum4(a2, b2, c2, d2), Sum4(a3, b3, c3, d3))
            == Sum4(Sum4(a0, a1, a2, a3), Sum4(b0, b1, b2, b3), Sum4(c0, c1, c2, c3), Sum4(d0, d1, d2, d3))
  {
    SumXor(a0, b0, c0, d0, a1, b1, c1, d1);
    SumXor(a2, b2, c2, d2, a3, b3, c3, d3);
    SumXor(Xor8(a0, a1), Xor8(b0, b1), Xor8(c0, c1), Xor8(d0, d1), Xor8(a2, a3), Xor8(b2, b3), Xor8(c2, c3),
           Xor8(d2, d3));
    hide Xor8;
  }

  lemma SumZero(a: bv8)
    ensures Sum4(a, 0, 0, 0) == Sum4(0, a, 0, 0) == Sum4(0, 0, a, 0) == Sum4(0, 0, 0, a) == a
  {
    XorLaws(a, 0, 0);
    XorLaws(0, a, 0);
    hide Xor8;
  }

  /** The row of InvMixColumn for the byte a, when b, c, d are the bytes after it, cyclically. */
  lemma MixRow(a: bv8, b: bv8, c: bv8, d: bv8)
    ensures Sum4(Times14(Sum4(Times2(a), Times3(b), c, d)), Times11(Sum4(a, Times2(b), Times3(c), d)),
                 Times13(Sum4(a, b, Times2(c), Times3(d))), Times9(Sum4(Times3(a), b, c, Times2(d)))) == a
  {
    TimesSum(Times2(a), Times3(b), c, d);
    TimesSum(a, Times2(b), Times3(c), d);
    TimesSum(a, b, Times2(c), Times3(d));
    TimesSum(Times3(a), b, c, Times2(d));
    Regroup(Times14(Times2(a)), Times14(Times3(b)), Times14(c), Times14(d),
            Times11(a), Times11(Times2(b)), Times11(Times3(c)), Times11(d),
            Times13(a), Times13(b), Times13(Times2(c)), Times13(Times3(d)),
            Times9(Times3(a)), Times9(b), Times9(c), Times9(Times2(d)));
    MatrixColumns(a);
    MatrixColumns(b);
    MatrixColumns(c);
    MatrixColumns(d);
    SumZero(a);
    hide Sum4, Times14, Times13, Times11, Times9, Times3, Times2;
  }

  /** A cyclic shift of the terms does not change a sum. */
  lemma SumCycle(a: bv8, b: bv8, c: bv8, d: bv8)
    ensures Sum4(a, b, c, d) == Sum4(b, c, d, a) == Sum4(c, d, a, b) == Sum4(d, a, b, c)
  {
    Rotate(a, b, c, d);
    Rotate(b, c, d, a);
    Rotate(c, d, a, b);
    hide Sum4;
  }

  lemma Rotate(a: bv8, b: bv8, c: bv8, d: bv8)
    ensures Sum4(a, b, c, d) == Sum4(b, c, d, a)
  {
    XorLaws(Xor8(a, b), Xor8(c, d), 0);
    XorLaws(a, b, 0);
    XorLaws(c, d, 0);
    Exchange(b, a, c, d);
    XorLaws(a, d, 0);
    hide Xor8;
  }

  lemma MixInverse(x: Word)
    ensures InvMixColumn(MixColumn(x)) == x
  {
    var a, b, c, d := x.b0, x.b1, x.b2, x.b3;
    MixRow(a, b, c, d);
    MixRow(b, c, d, a);
    MixRow(c, d, a, b);
    MixRow(d, a, b, c);
    var y := MixColumn(x);
    SumCycle(Times2(a), Times3(b), c, d);
    SumCycle(a, Times2(b), Times3(c), d);
    SumCycle(a, b, Times2(c), Times3(d));
    SumCycle(Times3(a), b, c, Times2(d));
    SumCycle(Times14(y.b1), Times11(y.b2), Times13(y.b3), Times9(y.b0));
    SumCycle(Times14(y.b2), Times11(y.b3), Times13(y.b0), Times9(y.b1));
    SumCycle(Times14(y.b3), Times11(y.b0), Times13(y.b1), Times9(y.b2));
    hide Sum4, Times14, Times13, Times11, Times9, Times3, Times2;
  }

  lemma InvMixXor(x: Word, y: Word)
    ensures InvMixColumn(Xor(x, y)) == Xor(InvMixColumn(x), InvMixColumn(y))
  {
    TimesXor(x.b0, y.b0);
    TimesXor(x.b1, y.b1);
    TimesXor(x.b2, y.b2);
    TimesXor(x.b3, y.b3);
    SumXor(Times14(x.b0), Times11(x.b1), Times13(x.b2), Times9(x.b3), Times14(y.b0), Times11(y.b1), Times13(y.b2),
           Times9(y.b3));
    SumXor(Times9(x.b0), Times14(x.b1), Times11(x.b2), Times13(x.b3), Times9(y.b0), Times14(y.b1), Times11(y.b2),
           Times13(y.b3));
    SumXor(Times13(x.b0), Times9(x.b1), Times14(x.b2), Times11(x.b3), Times13(y.b0), Times9(y.b1), Times14(y.b2),
           Times11(y.b3));
    SumXor(Times11(x.b0), Times13(x.b1), Times9(x.b2), Times14(x.b3), Times11(y.b0), Times13(y.b1), Times9(y.b2),
           Times14(y.b3));
    hide Sum4, Times14, Times13, Times11, Times9, Xor8;
  }

  /** One byte of imix_col: u, v, w are 2x, 4x, 8x of each byte a, b, c, d of the column. */
  lemma IMixByte(a: bv8, b: bv8, c: bv8, d: bv8)
    ensures var a2, a4, b2, c4 := XTime(a), XTime(XTime(a)), XTime(b), XTime(XTime(c));
            var a8, b8, c8, d8 := XTime(a4), XTime(XTime(b2)), XTime(c4), XTime(XTime(XTime(d)));
            Xor8(Xor8(Xor8(a2, a4), a8), Xor8(Xor8(Xor8(b2, Xor8(b8, b)), Xor8(c4, Xor8(c8, c))), Xor8(d8, d)))
            == Sum4(Times14(a), Times11(b), Times13(c), Times9(d))
  {
    var a2, b2, c4 := XTime(a), XTime(b), XTime(XTime(c));
    var a4 := XTime(a2);
    var a8, b8, c8, d8 := XTime(a4), XTime(XTime(b2)), XTime(c4), XTime(XTime(XTime(d)));
    IMixSum(a2, a4, a8, b2, b8, b, c4, c8, c, d8, d);
    hide Xor8, XTime, Sum4;
  }

  lemma IMixSum(a2: bv8, a4: bv8, a8: bv8, b2: bv8, b8: bv8, b: bv8, c4: bv8, c8: bv8, c: bv8, d8: bv8, d: bv8)
    ensures Xor8(Xor8(Xor8(a2, a4), a8), Xor8(Xor8(Xor8(b2, Xor8(b8, b)), Xor8(c4, Xor8(c8, c))), Xor8(d8, d)))
            == Sum4(Xor8(Xor8(a8, a4), a2), Xor8(Xor8(b8, b2), b), Xor8(Xor8(c8, c4), c), Xor8(d8, d))
  {
    XorLaws(a2, a4, a8);
    XorLaws(a4, a8, a2);
    XorLaws(a2, Xor8(a4, a8), 0);
    XorLaws(a8, a4, 0);
    XorLaws(b2, b8, b);
    XorLaws(b8, b2, b);
    XorLaws(c4, c8, c);
    XorLaws(c8, c4, c);
    var p, q, r, t := Xor8(Xor8(a8, a4), a2), Xor8(Xor8(b8, b2), b), Xor8(Xor8(c8, c4), c), Xor8(d8, d);
    XorLaws(q, r, t);
    XorLaws(p, q, Xor8(r, t));
    hide Xor8;
  }

  /** imix_col is InvMixColumn. */
  lemma IMixColIs(x: Word)
    ensures IMixCol(x) == InvMixColumn(x)
  {
    StarXIs(x);
    StarXIs(StarX(x));
    StarXIs(StarX(StarX(x)));
    var a, b, c, d := x.b0, x.b1, x.b2, x.b3;
    IMixByte(a, b, c, d);
    IMixByte(b, c, d, a);
    IMixByte(c, d, a, b);
    IMixByte(d, a, b, c);
    SumCycle(Times14(b), Times11(c), Times13(d), Times9(a));
    SumCycle(Times14(c), Times11(d), Times13(a), Times9(b));
    SumCycle(Times14(d), Times11(a), Times13(b), Times9(c));
    hide Sum4, Times14, Times13, Times11, Times9, Xor8, XTime, StarX;
  }
}
