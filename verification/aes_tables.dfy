/** gen_tabs of aes_generic.c fills the tables of the cipher for the S-box of section 5.1.1
    of FIPS 197, and that S-box has an inverse. */
module AesTables {
  import opened Bytes
  import opened AesWords
  import opened AesField
  import opened Aes
  import opened AesCipher

  // ---- logarithms ----

  function Exponential(e: bv8): bv8 { if e == 255 then 0 else Power(Index(e)) }

  lemma ExponentBelow(e: bv8)
    requires e != 255
    ensures Index(e) < 255
  {
  }

  lemma ExponentialInjective()
    ensures Injective(Exponential)
  {
    hide Power, Index;
    forall x, y | Exponential(x) == Exponential(y) ensures x == y {
      if x != 255 { ExponentBelow(x); PowerNonzero(Index(x)); }
      if y != 255 { ExponentBelow(y); PowerNonzero(Index(y)); }
      if x != 255 && y != 255 {
        if Index(x) < Index(y) { PowerInjective(Index(x), Index(y)); }
        if Index(y) < Index(x) { PowerInjective(Index(y), Index(x)); }
        IndexInjective(x, y);
      }
    }
  }

  lemma LogExists(x: bv8)
    requires x != 0
    ensures exists k: nat :: k < 255 && Power(k) == x
  {
    hide Power, Index;
    ExponentialInjective();
    Onto(Exponential, x);
    var e :| Exponential(e) == x;
    ExponentBelow(e);
  }

  /** 3 is a primitive root: every nonzero byte has a logarithm. */
  ghost function Log(x: bv8): (k: nat)
    requires x != 0
    ensures k < 255 && Power(k) == x
  {
    LogExists(x);
    var k: nat :| k < 255 && Power(k) == x;
    k
  }

  lemma PowerPeriod(k: nat)
    ensures Power(k + 255) == Power(k)
  {
    IterateSum(k, 255, 1);
    OrderValues();
    hide Times3;
  }

  // ---- the S-box ----

  /** The product of polynomials modulo x^8 + x^4 + x^3 + x + 1, by the low n bits of b. */
  function Product(a: bv8, b: bv8, n: nat): bv8
    decreases n
  {
    if n == 0 then 0 else Xor8(if b & 1 == 0 then 0 else a, Product(XTime(a), b >> 1, n - 1))
  }

  function Mul(a: bv8, b: bv8): bv8 { Product(a, b, 8) }

  lemma {:induction false} ProductTimes3(a: bv8, b: bv8, n: nat)
    ensures Product(Times3(a), b, n) == Times3(Product(a, b, n))
    decreases n
  {
    hide XTime, Xor8, Times3;
    Times3Zero(0);
    if n > 0 {
      XTimeCommutes(a);
      ProductTimes3(XTime(a), b >> 1, n - 1);
      Times3Xor(if b & 1 == 0 then 0 else a, Product(XTime(a), b >> 1, n - 1));
    }
  }

  lemma {:induction false} MulPower(k: nat, b: bv8)
    ensures Mul(Power(k), b) == Iterate(k, b)
  {
    hide Product, Times3;
    if k > 0 {
      MulPower(k - 1, b);
      ProductTimes3(Power(k - 1), b, 8);
    } else {
      MulOne(b);
    }
  }

  lemma MulOne(b: bv8)
    ensures Mul(1, b) == b
  {
    XTimeOnes();
    ProductBits(b);
    hide XTime, Xor8;
    assert Product(128, b >> 7, 1) == Xor8(if (b >> 7) & 1 == 0 then 0 else 128, 0);
    assert Product(64, b >> 6, 2) ==
           Xor8(if (b >> 6) & 1 == 0 then 0 else 64, Product(128, b >> 7, 1)) by { Shift(b, 6); }
    assert Product(32, b >> 5, 3) ==
           Xor8(if (b >> 5) & 1 == 0 then 0 else 32, Product(64, b >> 6, 2)) by { Shift(b, 5); }
    assert Product(16, b >> 4, 4) ==
           Xor8(if (b >> 4) & 1 == 0 then 0 else 16, Product(32, b >> 5, 3)) by { Shift(b, 4); }
    assert Product(8, b >> 3, 5) == Xor8(if (b >> 3) & 1 == 0 then 0 else 8, Product(16, b >> 4, 4)) by { Shift(b, 3); }
    assert Product(4, b >> 2, 6) == Xor8(if (b >> 2) & 1 == 0 then 0 else 4, Product(8, b >> 3, 5)) by { Shift(b, 2); }
    assert Product(2, b >> 1, 7) == Xor8(if (b >> 1) & 1 == 0 then 0 else 2, Product(4, b >> 2, 6)) by { Shift(b, 1); }
  }

  lemma Shift(b: bv8, n: bv4)
    requires n < 8
    ensures (b >> n) >> 1 == b >> (n + 1)
  {
  }

  lemma XTimeOnes()
    ensures XTime(1) == 2 && XTime(2) == 4 && XTime(4) == 8 && XTime(8) == 16 && XTime(16) == 32 && XTime(32) == 64
            && XTime(64) == 128
  {
  }

  lemma ProductBits(b: bv8)
    ensures Xor8(if b & 1 == 0 then 0 else 1,
                 Xor8(if (b >> 1) & 1 == 0 then 0 else 2, Xor8(if (b >> 2) & 1 == 0 then 0 else 4,
            Xor8(if (b >> 3) & 1 == 0 then 0 else 8,
                 Xor8(if (b >> 4) & 1 == 0 then 0 else 16, Xor8(if (b >> 5) & 1 == 0 then 0 else 32,
            Xor8(if (b >> 6) & 1 == 0 then 0 else 64, Xor8(if (b >> 7) & 1 == 0 then 0 else 128, 0)))))))) == b
  {
  }

  /** The multiplicative inverse, as gen_tabs finds it. */
  ghost function Inverse(x: bv8): bv8 { if x == 0 then 0 else Power(255 - Log(x)) }

  lemma InverseIs(x: bv8)
    ensures if x == 0 then Inverse(x) == 0 else Mul(x, Inverse(x)) == 1
  {
    hide Mul, Times3;
    if x != 0 {
      var k := Log(x);
      MulPower(k, Power(255 - k));
      IterateSum(k, 255 - k, 1);
      OrderValues();
    }
  }

  /** The affine transformation (5.1) of FIPS 197. */
  function Affine(b: bv8): bv8 {
    b ^ b.RotateLeft(1) ^ b.RotateLeft(2) ^ b.RotateLeft(3) ^ b.RotateLeft(4) ^ 0x63
  }

  /** The three lines of gen_tabs. */
  function AffineLines(p: bv8): bv8 {
    var q := ((p >> 7) | (p << 1)) ^ ((p >> 6) | (p << 2));
    p ^ (0x63 ^ q ^ ((q >> 6) | (q << 2)))
  }

  lemma AffineLinesIs(p: bv8)
    ensures AffineLines(p) == Affine(p)
  {
  }

  function UndoAffine(b: bv8): bv8 { b.RotateLeft(1) ^ b.RotateLeft(3) ^ b.RotateLeft(6) ^ 0x05 }

  lemma AffineInverse(b: bv8)
    ensures UndoAffine(Affine(b)) == b
  {
  }

  ghost function SubByte(x: bv8): bv8 { Affine(Inverse(x)) }

  lemma InverseInjective(x: bv8, y: bv8)
    requires Inverse(x) == Inverse(y)
    ensures x == y
  {
    hide Power;
    if x != 0 { PowerNonzero(255 - Log(x)); }
    if y != 0 { PowerNonzero(255 - Log(y)); }
    if x != 0 && y != 0 {
      if Log(x) < Log(y) { PowerInjective(255 - Log(y), 255 - Log(x)); }
      if Log(y) < Log(x) { PowerInjective(255 - Log(x), 255 - Log(y)); }
    }
  }

  lemma SubByteInjective(x: bv8, y: bv8)
    requires SubByte(x) == SubByte(y)
    ensures x == y
  {
    hide Affine, UndoAffine, Inverse;
    AffineInverse(Inverse(x));
    AffineInverse(Inverse(y));
    InverseInjective(x, y);
  }

  lemma SubByteOnto(y: bv8)
    ensures exists x :: SubByte(x) == y
  {
    hide SubByte;
    var f := (x: bv8) => SubByte(x);
    forall a, b | f(a) == f(b) ensures a == b { SubByteInjective(a, b); }
    Onto(f, y);
    var x :| f(x) == y;
    assert SubByte(x) == y;
  }

  ghost function InvSubByte(y: bv8): (x: bv8)
    ensures SubByte(x) == y
  {
    SubByteOnto(y);
    var x :| SubByte(x) == y;
    x
  }

  /** The S-box of FIPS 197 and its inverse. */
  ghost function Box(): SBox { SBox((x: bv8) => SubByte(x), (y: bv8) => InvSubByte(y)) }

  lemma BoxInvertible()
    ensures Invertible(Box())
  {
    hide SubByte, InvSubByte;
    forall x ensures Box().si(Box().s(x)) == x {
      SubByteInjective(InvSubByte(SubByte(x)), x);
    }
  }

  // ---- gen_tabs ----

  ghost predicate Powers(pow: array<bv8>, log: array<bv8>)
    reads pow, log
  {
    && pow.Length == log.Length == 256
    && (forall j :: 0 <= j < 256 ==> pow[j] == Power(j))
    && (forall j :: 0 <= j < 255 && Index(Power(j)) < 256 ==> log[Index(Power(j))] == ToByte(j))
  }

  /** The first loop, and log_tab[1] = 0. */
  method FillPowers(pow: array<bv8>, log: array<bv8>)
    requires pow.Length == log.Length == 256 && pow != log
    modifies pow, log
    ensures Powers(pow, log)
  {
    hide Index, ToByte, Times3, Power;
    var p: bv8 := 1;
    PowerZero();
    for i := 0 to 256
      invariant p == Power(i)
      invariant forall j :: 0 <= j < i ==> pow[j] == Power(j)
      invariant forall j :: 1 <= j < i && Index(Power(j)) < 256 ==> log[Index(Power(j))] == ToByte(j)
    {
      forall j | 1 <= j < i && Index(Power(j)) < 256 ensures Index(Power(j)) != Index(p) {
        PowerInjective(j, i);
        if Index(Power(j)) == Index(p) { IndexInjective(Power(j), p); }
      }
      IndexBelow(p);
      pow[i] := p;
      log[Index(p)] := ToByte(i);
      PowerNext(i);
      p := Times3(p);
    }
    IndexBelow(1);
    forall j | 1 <= j < 255 && Index(Power(j)) < 256 ensures Index(Power(j)) != Index(1) {
      PowerInjective(0, j);
      if Index(Power(j)) == Index(1) { IndexInjective(Power(j), 1); }
    }
    log[Index(1)] := 0;
    ByteZero();
  }

  lemma PowerNext(k: nat)
    ensures Power(k + 1) == Times3(Power(k))
  {
  }

  lemma ByteZero()
    ensures ToByte(0) == 0
  {
  }

  /** The second loop. */
  method FillRcon(rco: array<bv8>)
    requires rco.Length == 10
    modifies rco
    ensures forall i :: 0 <= i < 10 ==> rco[i] == Rcon(i)
  {
    hide XTime;
    var p: bv8 := 1;
    for i := 0 to 10
      invariant p == Rcon(i)
      invariant forall j :: 0 <= j < i ==> rco[j] == Rcon(j)
    {
      rco[i] := p;
      p := XTime(p);
    }
  }

  /** log_tab[x] for a nonzero byte. */
  method LogOf(pow: array<bv8>, log: array<bv8>, x: bv8) returns (k: nat)
    requires Powers(pow, log) && x != 0
    ensures k == Log(x)
  {
    hide Index, ToByte, Power;
    IndexBelow(x);
    IndexOfByte(Log(x));
    k := Index(log[Index(x)]);
  }

  /** The first i entries of the two boxes are in place. */
  ghost predicate Boxes(sbx: array<bv8>, isb: array<bv8>, i: nat)
    requires sbx.Length == isb.Length == 256 && i <= 256
    reads sbx, isb
  {
    forall j :: 0 <= j < i ==>
        sbx[j] == SubByte(ToByte(j)) && Index(SubByte(ToByte(j))) < 256 && isb[Index(SubByte(ToByte(j)))] == ToByte(j)
  }

  /** Different bytes have different entries of isb_tab. */
  lemma BoxesApart(i: nat, j: nat)
    requires i < 256 && j < 256 && i != j
    ensures Index(SubByte(ToByte(i))) != Index(SubByte(ToByte(j)))
  {
    hide Index, ToByte, SubByte;
    if Index(SubByte(ToByte(i))) == Index(SubByte(ToByte(j))) {
      IndexInjective(SubByte(ToByte(j)), SubByte(ToByte(i)));
      SubByteInjective(ToByte(j), ToByte(i));
      IndexOfByte(j);
      IndexOfByte(i);
    }
  }

  /** One pass of the third loop. */
  method FillBox(pow: array<bv8>, log: array<bv8>, sbx: array<bv8>, isb: array<bv8>, i: nat)
    requires Powers(pow, log) && sbx.Length == isb.Length == 256 && sbx != isb && i < 256 && Boxes(sbx, isb, i)
    modifies sbx, isb
    ensures Boxes(sbx, isb, i + 1)
  {
    hide Index, ToByte, Powers, Affine, AffineLines, Inverse;
    var p := InverseOf(pow, log, i);
    AffineLinesIs(p);
    p := AffineLines(p);
    StoreBox(sbx, isb, i, p);
  }

  method StoreBox(sbx: array<bv8>, isb: array<bv8>, i: nat, p: bv8)
    requires sbx.Length == isb.Length == 256 && sbx != isb && i < 256 && Boxes(sbx, isb, i) && p == SubByte(ToByte(i))
    modifies sbx, isb
    ensures Boxes(sbx, isb, i + 1)
  {
    hide Index, ToByte, SubByte;
    IndexBelow(p);
    forall j | 0 <= j < i ensures Index(SubByte(ToByte(j))) != Index(p) { BoxesApart(i, j); }
    sbx[i] := p;
    isb[Index(p)] := ToByte(i);
  }

  /** The third loop. */
  method FillBoxes(pow: array<bv8>, log: array<bv8>, sbx: array<bv8>, isb: array<bv8>)
    requires Powers(pow, log) && sbx.Length == isb.Length == 256 && sbx != isb
    requires sbx != pow && sbx != log && isb != pow && isb != log
    modifies sbx, isb
    ensures Boxes(sbx, isb, 256)
  {
    hide Index, ToByte, SubByte, Power;
    for i := 0 to 256
      invariant Powers(pow, log) && Boxes(sbx, isb, i)
    {
      FillBox(pow, log, sbx, isb, i);
    }
  }

  lemma BoxEntries(sbx: array<bv8>, isb: array<bv8>, i: nat)
    requires sbx.Length == isb.Length == 256 && Boxes(sbx, isb, 256) && i < 256
    ensures sbx[i] == SubByte(ToByte(i)) && isb[i] == InvSubByte(ToByte(i))
  {
    hide Index, ToByte, SubByte, InvSubByte;
    var x := InvSubByte(ToByte(i));
    ByteOfIndex(x);
    assert SubByte(ToByte(Index(x))) == ToByte(i);
    IndexOfByte(i);
  }

  /** p = (i ? pow_tab[255 - log_tab[i]] : 0) */
  method InverseOf(pow: array<bv8>, log: array<bv8>, i: nat) returns (p: bv8)
    requires Powers(pow, log) && i < 256
    ensures p == Inverse(ToByte(i))
  {
    hide Index, ToByte, Power, Log;
    IndexOfByte(i);
    IndexOfByte(0);
    ByteZero();
    if i == 0 { return 0; }
    var k := LogOf(pow, log, ToByte(i));
    p := pow[255 - k];
  }

  /** ff_mult(c, x); the sum of logarithms wraps as a u8. */
  method FFMult(pow: array<bv8>, log: array<bv8>, c: Constant, x: bv8) returns (y: bv8)
    requires Powers(pow, log)
    ensures y == Times(c, x)
  {
    hide Power, Times, Index, Log;
    TimesOne(c);
    if x == 0 { return 0; }
    var aa := LogOf(pow, log, Byte(c));
    var bb := LogOf(pow, log, x);
    var cc := (aa + bb) % 256;
    MultByLogs(c, x, aa, bb);
    y := pow[cc + if cc < aa then 1 else 0];
    if aa + bb >= 256 { PowerPeriod(aa + bb - 255); }
  }

  lemma MultByLogs(c: Constant, x: bv8, a: nat, b: nat)
    requires Power(a) == Byte(c) && Power(b) == x
    ensures Power(a + b) == Times(c, x)
  {
    hide Times, Times3;
    TimesOne(c);
    IterateSum(b, a, 1);
    TimesPower(c, b, 1);
  }

  /** The four lines tab[n][i] = rol32(t, 8 * n). */
  method FillOne(tab: array2<Word>, i: nat, t: Word)
    requires tab.Length0 == 4 && tab.Length1 == 256 && i < 256
    modifies tab
    ensures Column(tab, i, t)
    ensures forall n, j :: 0 <= n < 4 && 0 <= j < 256 && j != i ==> tab[n, j] == old(tab[n, j])
  {
    tab[0, i] := t;
    tab[1, i] := Rol8(t);
    tab[2, i] := Rol16(t);
    tab[3, i] := Rol24(t);
  }

  predicate Column(tab: array2<Word>, i: nat, t: Word)
    requires tab.Length0 == 4 && tab.Length1 == 256 && i < 256
    reads tab
  {
    forall n :: 0 <= n < 4 ==> tab[n, i] == Rotated(n, t)
  }

  ghost function FtWord(j: nat): Word
    requires j < 256
  {
    var p := SubByte(ToByte(j));
    Word(Times2(p), p, p, Times3(p))
  }

  ghost function ItWord(j: nat): Word
    requires j < 256
  {
    var p := InvSubByte(ToByte(j));
    Word(Times14(p), Times9(p), Times13(p), Times11(p))
  }

  /** The word of ft_tab, by ff_mult. */
  method ForwardEntry(pow: array<bv8>, log: array<bv8>, p: bv8, ghost i: nat) returns (t: Word)
    requires Powers(pow, log) && i < 256 && p == SubByte(ToByte(i))
    ensures t == FtWord(i)
  {
    hide Index, ToByte, Powers, SubByte;
    var p2 := FFMult(pow, log, C2, p);
    var p3 := FFMult(pow, log, C3, p);
    t := Word(p2, p, p, p3);
  }

  /** The word of it_tab, by ff_mult. */
  method InverseEntry(pow: array<bv8>, log: array<bv8>, p: bv8, ghost i: nat) returns (t: Word)
    requires Powers(pow, log) && i < 256 && p == InvSubByte(ToByte(i))
    ensures t == ItWord(i)
  {
    hide Index, ToByte, Powers, InvSubByte;
    var p14 := FFMult(pow, log, C14, p);
    var p9 := FFMult(pow, log, C9, p);
    var p13 := FFMult(pow, log, C13, p);
    var p11 := FFMult(pow, log, C11, p);
    t := Word(p14, p9, p13, p11);
  }

  /** Row i of the four tables is filled. */
  ghost predicate RowFilled(tabs: Tables, i: nat)
    requires tabs.Shaped() && i < 256
    reads tabs.ft, tabs.it, tabs.fl, tabs.il
  {
    && Column(tabs.ft, i, FtWord(i)) && Column(tabs.fl, i, Word(SubByte(ToByte(i)), 0, 0, 0))
    && Column(tabs.it, i, ItWord(i)) && Column(tabs.il, i, Word(InvSubByte(ToByte(i)), 0, 0, 0))
  }

  /** One pass of the last loop. */
  method FillRow(tabs: Tables, i: nat)
    requires tabs.Shaped() && tabs.Distinct() && Powers(tabs.pow, tabs.log) && i < 256
    requires tabs.sbx[i] == SubByte(ToByte(i)) && tabs.isb[i] == InvSubByte(ToByte(i))
    modifies tabs.ft, tabs.it, tabs.fl, tabs.il
    ensures forall n, j :: 0 <= n < 4 && 0 <= j < 256 && j != i ==> tabs.ft[n, j] == old(tabs.ft[n, j])
    ensures forall n, j :: 0 <= n < 4 && 0 <= j < 256 && j != i ==> tabs.fl[n, j] == old(tabs.fl[n, j])
    ensures forall n, j :: 0 <= n < 4 && 0 <= j < 256 && j != i ==> tabs.it[n, j] == old(tabs.it[n, j])
    ensures forall n, j :: 0 <= n < 4 && 0 <= j < 256 && j != i ==> tabs.il[n, j] == old(tabs.il[n, j])
    ensures RowFilled(tabs, i)
  {
    hide Index, ToByte, Powers, SubByte, InvSubByte, FtWord, ItWord, Column;
    var p := tabs.sbx[i];
    FillOne(tabs.fl, i, Word(p, 0, 0, 0));
    var t := ForwardEntry(tabs.pow, tabs.log, p, i);
    FillOne(tabs.ft, i, t);
    p := tabs.isb[i];
    FillOne(tabs.il, i, Word(p, 0, 0, 0));
    t := InverseEntry(tabs.pow, tabs.log, p, i);
    FillOne(tabs.it, i, t);
  }

  /** The last loop. */
  method FillRows(tabs: Tables)
    requires tabs.Shaped() && tabs.Distinct() && Powers(tabs.pow, tabs.log) && Boxes(tabs.sbx, tabs.isb, 256)
    modifies tabs.ft, tabs.it, tabs.fl, tabs.il
    ensures forall j :: 0 <= j < 256 ==> RowFilled(tabs, j)
  {
    hide Index, ToByte, Powers, Boxes, FtWord, ItWord, SubByte, InvSubByte, Rotated;
    for i := 0 to 256
      invariant forall j :: 0 <= j < i ==> RowFilled(tabs, j)
    {
      BoxEntries(tabs.sbx, tabs.isb, i);
      label before:
      FillRow(tabs, i);
      forall j | 0 <= j < i ensures RowFilled(tabs, j) {
        assert old@before(RowFilled(tabs, j));
      }
    }
  }

  /** `gen_tabs` */
  method GenTabs(tabs: Tables)
    requires tabs.Shaped() && tabs.Distinct()
    modifies tabs.pow, tabs.log, tabs.sbx, tabs.isb, tabs.rco, tabs.ft, tabs.it, tabs.fl, tabs.il
    ensures tabs.Filled(Box())
  {
    hide Index, ToByte, Powers, Boxes, Rcon, RowFilled, Box;
    FillPowers(tabs.pow, tabs.log);
    FillRcon(tabs.rco);
    FillBoxes(tabs.pow, tabs.log, tabs.sbx, tabs.isb);
    FillRows(tabs);
    AllRows(tabs);
  }

  lemma AllRows(tabs: Tables)
    requires tabs.Shaped() && forall j :: 0 <= j < 256 ==> RowFilled(tabs, j)
    requires forall j :: 0 <= j < 10 ==> tabs.rco[j] == Rcon(j)
    ensures tabs.Filled(Box())
  {
    hide Index, ToByte, SubByte, InvSubByte, Rotated;
    forall n, x | 0 <= n < 4 && Index(x) < 256
      ensures tabs.ft[n, Index(x)] == FtEntry(Box(), n, x) && tabs.fl[n, Index(x)] == FlEntry(Box(), n, x)
      ensures tabs.it[n, Index(x)] == ItEntry(Box(), n, x) && tabs.il[n, Index(x)] == IlEntry(Box(), n, x)
    {
      ByteOfIndex(x);
      assert RowFilled(tabs, Index(x));
    }
  }
}
