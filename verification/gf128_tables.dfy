/** The 4k and 64k tables of gf128mul.c and the multiplications that use them.  The lle and
    bbe functions of the file are one method here, with the convention as a parameter. */
module Gf128Tables {
  import opened Bytes
  import opened Gf128Poly
  import opened Gf128

  // ---- what a table entry stands for ----

  function Pow2(n: nat): nat { if n == 0 then 1 else 2 * Pow2(n - 1) }

  /** The power of x that bit n of an index selects. */
  function Power(c: Convention, n: nat): nat
    requires n < 8
  {
    if c == Bbe then n else 7 - n
  }

  /** The entry for index y, by its low n bits. */
  function Entry(c: Convention, g: Poly, n: nat, y: nat): Poly
    requires n <= 8
  {
    if n == 0 then ZERO
    else if y >= Pow2(n - 1) then Add(Xn(Power(c, n - 1), g), Entry(c, g, n - 1, y - Pow2(n - 1)))
    else Entry(c, g, n - 1, y)
  }

  /** The number that the low n bits of a byte make. */
  function Value(x: bv8, n: nat): nat
    requires n <= 8
  {
    if n == 0 then 0 else Value(x, n - 1) + if Bit(x, n - 1) then Pow2(n - 1) else 0
  }

  lemma IndexBits(x: bv8)
    ensures Index(x) == B(x, 1) + 2 * B(x, 2) + 4 * B(x, 4) + 8 * B(x, 8) + 16 * B(x, 0x10) + 32 * B(x, 0x20)
            + 64 * B(x, 0x40) + 128 * B(x, 0x80)
  {
  }

  function B(x: bv8, m: bv8): nat { if x & m != 0 then 1 else 0 }

  lemma ValueStep(x: bv8, n: nat)
    requires n < 8
    ensures Value(x, n + 1) == Value(x, n) + Pow2(n) * B(x, Mask(n))
  {
    hide Mask, Pow2;
  }

  lemma ValueZero(x: bv8)
    ensures Value(x, 0) == 0
  {
  }

  lemma Powers()
    ensures Pow2(0) == 1 && Pow2(1) == 2 && Pow2(2) == 4 && Pow2(3) == 8 && Pow2(4) == 16 && Pow2(5) == 32
    ensures Pow2(6) == 64 && Pow2(7) == 128 && Pow2(8) == 256
  {
    assert Pow2(3) == 8;
    assert Pow2(5) == 32;
    assert Pow2(7) == 128;
  }

  lemma IndexIsValue(x: bv8)
    ensures Index(x) == Value(x, 8)
  {
    IndexBits(x);
    hide Index;
    ValueStep(x, 0); ValueStep(x, 1); ValueStep(x, 2); ValueStep(x, 3);
    ValueStep(x, 4); ValueStep(x, 5); ValueStep(x, 6); ValueStep(x, 7);
    Powers();
    hide Value, B, Pow2;
    assert Value(x, 0) == 0 by { ValueZero(x); }
  }

  lemma {:induction false} ValueBelow(x: bv8, n: nat)
    requires n <= 8
    ensures Value(x, n) < Pow2(n)
  {
    hide Bit;
    if n > 0 { ValueBelow(x, n - 1); }
  }

  lemma ReverseBit(x: bv8, n: nat)
    requires n < 8
    ensures Bit(x, n) == Bit(Reverse(x), 7 - n)
  {
  }

  /** The coefficients that a byte in memory stands for. */
  function Coefficients(c: Convention, x: bv8): bv8 { if c == Bbe then x else Reverse(x) }

  function FirstTerm(c: Convention, n: nat): nat
    requires n <= 8
  {
    if c == Bbe then 0 else 8 - n
  }

  function LastTerm(c: Convention, n: nat): nat
    requires n <= 8
  {
    if c == Bbe then n else 8
  }

  /** The terms of one more bit, at the end in bbe, in front in lle. */
  lemma TermsGrow(c: Convention, g: Poly, pb: bv8, n: nat)
    requires 0 < n <= 8
    ensures var rest := ByteTerms(g, pb, FirstTerm(c, n - 1), LastTerm(c, n - 1));
            var term := Term(g, Power(c, n - 1), Bit(pb, Power(c, n - 1)));
            Total(ByteTerms(g, pb, FirstTerm(c, n), LastTerm(c, n))) == Add(term, Total(rest))
  {
    hide Add, Term, Bit, Total;
    var rest := ByteTerms(g, pb, FirstTerm(c, n - 1), LastTerm(c, n - 1));
    var term := Term(g, Power(c, n - 1), Bit(pb, Power(c, n - 1)));
    TotalOne(term);
    if c == Bbe {
      assert ByteTerms(g, pb, 0, n) == rest + [term];
      TotalConcat(rest, [term]);
      AddComm(term, Total(rest));
    } else {
      assert ByteTerms(g, pb, 8 - n, 8) == [term] + rest;
      TotalConcat([term], rest);
    }
  }

  lemma CoefficientBit(c: Convention, x: bv8, n: nat)
    requires n < 8
    ensures Bit(x, n) == Bit(Coefficients(c, x), Power(c, n))
  {
    ReverseBit(x, n);
    hide Bit, Reverse;
  }

  lemma {:induction false} EntryTerms(c: Convention, g: Poly, x: bv8, n: nat)
    requires n <= 8
    ensures Entry(c, g, n, Value(x, n)) == Total(ByteTerms(g, Coefficients(c, x), FirstTerm(c, n), LastTerm(c, n)))
  {
    hide Add, Xn, Bit, Coefficients, Total, ByteTerms, Power;
    if n == 0 {
      NoTerms(c, g, Coefficients(c, x));
    } else {
      EntryTerms(c, g, x, n - 1);
      ValueBelow(x, n - 1);
      CoefficientBit(c, x, n - 1);
      TermsGrow(c, g, Coefficients(c, x), n);
      AddZero(Entry(c, g, n - 1, Value(x, n - 1)));
    }
  }

  lemma NoTerms(c: Convention, g: Poly, pb: bv8)
    ensures Total(ByteTerms(g, pb, FirstTerm(c, 0), LastTerm(c, 0))) == ZERO
  {
  }

  lemma TotalOne(p: Poly)
    ensures Total([p]) == p
  {
    AddZero(p);
    hide Add;
  }

  /** Entry y of a table is the product of g and the byte y. */
  lemma EntryIs(c: Convention, g: Poly, x: bv8)
    ensures Index(x) < 256 && Entry(c, g, 8, Index(x)) == ByteProduct(g, Coefficients(c, x))
  {
    IndexBelow(x);
    IndexIsValue(x);
    EntryTerms(c, g, x, 8);
    hide Index, Entry, Total, Coefficients, Value;
  }

  // ---- filling a table ----

  /** `t` is the table for g. */
  ghost predicate IsTable(c: Convention, t: array<Elem>, g: Poly)
    reads t
  {
    t.Length == 256 && forall y :: 0 <= y < 256 ==> PolyOf(c, t[y]) == Entry(c, g, 8, y)
  }

  /** The entries for the single bits lo .. hi - 1 are in place. */
  ghost predicate IsBasis(c: Convention, t: array<Elem>, g: Poly, lo: nat, hi: nat)
    requires hi <= 8
    reads t
  {
    && t.Length == 256
    && forall m :: lo <= m < hi ==> Pow2(m) < 256 && PolyOf(c, t[Pow2(m)]) == Xn(Power(c, m), g)
  }

  /** The nested loops that every init function has:
      for (j = 2; j < 256; j += j) for (k = 1; k < j; ++k) t[j + k] = t[j] ^ t[k] */
  method FillSums(ghost c: Convention, t: array<Elem>, ghost g: Poly)
    requires IsBasis(c, t, g, 0, 8) && t[0] == ZEROELEM
    modifies t
    ensures IsTable(c, t, g)
  {
    hide PolyOf, Xn, Power, Xor, Add;
    StartOfTable(c, t, g);
    var j := 2;
    ghost var n := 1;
    while j < 256
      invariant 1 <= n <= 8 && j == Pow2(n)
      invariant forall y :: 0 <= y < j && y < 256 ==> PolyOf(c, t[y]) == Entry(c, g, n, y)
      invariant forall m :: n <= m < 8 ==> Pow2(m) < 256 && PolyOf(c, t[Pow2(m)]) == Xn(Power(c, m), g)
      decreases 256 - j
    {
      Pow2Eight(n);
      Pow2Monotone(n + 1, 8);
      Powers();
      forall m | n < m < 8 ensures Pow2(m) >= 2 * j { Pow2Monotone(n + 1, m); }
      FillDouble(c, t, g, n, j);
      j := j + j;
      n := n + 1;
    }
    Pow2Eight(n);
    Powers();
  }

  lemma StartOfTable(c: Convention, t: array<Elem>, g: Poly)
    requires IsBasis(c, t, g, 0, 8) && t[0] == ZEROELEM
    ensures PolyOf(c, t[0]) == Entry(c, g, 1, 0) && PolyOf(c, t[1]) == Entry(c, g, 1, 1) && Pow2(1) == 2
  {
    hide PolyOf, Xn, Power, Add;
    AddZero(Xn(Power(c, 0), g));
    ZeroIs(c);
    assert Pow2(0) == 1;
  }

  lemma {:induction false} Pow2Monotone(m: nat, n: nat)
    requires m <= n
    ensures Pow2(m) <= Pow2(n)
  {
    if m < n { Pow2Monotone(m, n - 1); }
  }

  lemma {:induction false} Pow2Eight(n: nat)
    ensures n < 8 ==> Pow2(n) < 256
    ensures n >= 8 ==> Pow2(n) >= 256
    ensures Pow2(n) > 0
  {
    Powers();
    if n > 8 { Pow2Eight(n - 1); }
  }

  /** One pass of the outer loop. */
  method FillDouble(ghost c: Convention, t: array<Elem>, ghost g: Poly, ghost n: nat, j: nat)
    requires t.Length == 256 && 1 <= n < 8 && j == Pow2(n) && 2 * j <= 256
    requires forall y :: 0 <= y < j ==> PolyOf(c, t[y]) == Entry(c, g, n, y)
    requires PolyOf(c, t[j]) == Xn(Power(c, n), g)
    modifies t
    ensures forall y :: 0 <= y < 2 * j ==> PolyOf(c, t[y]) == Entry(c, g, n + 1, y)
    ensures forall y :: 2 * j <= y < 256 ==> t[y] == old(t[y])
  {
    hide PolyOf, Xn, Power, Xor, Add;
    AddZero(Xn(Power(c, n), g));
    EntryZero(c, g, n);
    for k := 1 to j
      invariant forall y :: 0 <= y < j ==> PolyOf(c, t[y]) == Entry(c, g, n, y)
      invariant forall y :: j <= y < j + k ==> PolyOf(c, t[y]) == Entry(c, g, n + 1, y)
      invariant PolyOf(c, t[j]) == Xn(Power(c, n), g)
      invariant forall y :: 2 * j <= y < 256 ==> t[y] == old(t[y])
    {
      XorIs(c, t[j], t[k]);
      t[j + k] := Xor(t[j], t[k]);
    }
  }

  lemma {:induction false} EntryZero(c: Convention, g: Poly, n: nat)
    requires n <= 8
    ensures Entry(c, g, n, 0) == ZERO && Pow2(n) > 0
  {
    hide Xn, Add;
    if n > 0 { EntryZero(c, g, n - 1); }
  }

  // ---- the init functions ----

  /** bbe: t[1] = g, then t[j + j] = x * t[j] upwards */
  method DoubleUp(t: array<Elem>, g: Elem)
    requires t.Length == 256
    modifies t
    ensures IsBasis(Bbe, t, PolyOf(Bbe, g), 0, 8) && t[0] == old(t[0])
  {
    hide PolyOf, X, TimesX;
    t[1] := g;
    var j := 1;
    ghost var n := 0;
    Powers();
    while j <= 64
      invariant 0 <= n <= 7 && j == Pow2(n) && t[0] == old(t[0])
      invariant IsBasis(Bbe, t, PolyOf(Bbe, g), 0, n + 1)
      decreases 128 - j
    {
      Pow2Monotone(n + 1, 8);
      Pow2Eight(n + 1);
      forall m | 0 <= m <= n ensures Pow2(m) < Pow2(n + 1) { Pow2Monotone(m, n); }
      NextPower(Bbe, t[j], g, n);
      t[j + j] := X(Bbe, t[j]);
      j := j + j;
      n := n + 1;
    }
    if n < 7 { Pow2Monotone(n, 6); }
  }

  /** lle: t[128] = g, then t[j] = x * t[j + j] downwards */
  method HalveDown(t: array<Elem>, g: Elem)
    requires t.Length == 256
    modifies t
    ensures IsBasis(Lle, t, PolyOf(Lle, g), 0, 8) && t[0] == old(t[0])
  {
    hide PolyOf, X, TimesX;
    t[128] := g;
    var j := 64;
    ghost var n := 7;
    Powers();
    while j > 0
      invariant 0 <= n <= 7 && (if n == 0 then j == 0 else j == Pow2(n - 1)) && t[0] == old(t[0])
      invariant IsBasis(Lle, t, PolyOf(Lle, g), n, 8)
      decreases j
    {
      Pow2Monotone(n, 7);
      forall m | n <= m < 8 ensures Pow2(n - 1) < Pow2(m) { Pow2Monotone(n, m); Pow2Eight(n - 1); }
      NextPower(Lle, t[j + j], g, 7 - n);
      t[j] := X(Lle, t[j + j]);
      j := j / 2;
      n := n - 1;
    }
  }

  lemma NextPower(c: Convention, e: Elem, g: Elem, n: nat)
    requires PolyOf(c, e) == Xn(n, PolyOf(c, g))
    ensures PolyOf(c, X(c, e)) == Xn(n + 1, PolyOf(c, g))
  {
    XIs(c, e);
    hide PolyOf, X, TimesX;
  }

  /** `gf128mul_init_4k_bbe`, `gf128mul_init_4k_lle` */
  method Init4k(c: Convention, g: Elem) returns (t: array<Elem>)
    ensures fresh(t) && IsTable(c, t, PolyOf(c, g))
  {
    t := new Elem[256](_ => ZEROELEM);
    if c == Bbe { DoubleUp(t, g); } else { HalveDown(t, g); }
    FillSums(c, t, PolyOf(c, g));
  }

  /** t[i][j] = x^8 * t[i - 1][j] for the single bits, from the top down */
  method NextBasis(c: Convention, t: array<Elem>, prev: array<Elem>, ghost g: Poly)
    requires t != prev && t.Length == 256 && IsTable(c, prev, g)
    modifies t
    ensures IsBasis(c, t, Xn(8, g), 0, 8) && t[0] == old(t[0])
  {
    hide PolyOf, X8, Xn, Power, Entry;
    var j := 128;
    ghost var n := 8;
    Powers();
    while j > 0
      invariant 0 <= n <= 8 && (if n == 0 then j == 0 else j == Pow2(n - 1)) && t[0] == old(t[0])
      invariant IsBasis(c, t, Xn(8, g), n, 8)
      decreases j
    {
      forall m | n <= m < 8 ensures Pow2(n - 1) < Pow2(m) { Pow2Monotone(n, m); Pow2Eight(n - 1); }
      Pow2Eight(n - 1);
      SingleBit(c, g, n - 1);
      X8Is(c, prev[j]);
      XnSum(8, Power(c, n - 1), g);
      XnSum(Power(c, n - 1), 8, g);
      t[j] := X8(c, prev[j]);
      j := j / 2;
      n := n - 1;
    }
  }

  /** The entry of a single bit. */
  lemma SingleBit(c: Convention, g: Poly, n: nat)
    requires n < 8
    ensures Pow2(n) < 256 && Entry(c, g, 8, Pow2(n)) == Xn(Power(c, n), g)
  {
    Pow2Eight(n);
    EntryAbove(c, g, n + 1, 8, Pow2(n));
    EntryZero(c, g, n);
    AddZero(Xn(Power(c, n), g));
    hide Xn, Add, Power;
  }

  lemma {:induction false} EntryAbove(c: Convention, g: Poly, m: nat, n: nat, y: nat)
    requires m <= n <= 8 && y < Pow2(m)
    ensures Entry(c, g, n, y) == Entry(c, g, m, y)
  {
    hide Xn, Add;
    if m < n {
      Pow2Monotone(m, n - 1);
      EntryAbove(c, g, m, n - 1, y);
    }
  }

  /** The tables for g, x^8 * g, .. , x^(8 (n - 1)) * g. */
  ghost predicate AreTables(c: Convention, t: seq<array<Elem>>, g: Poly)
    reads t
  {
    |t| <= 16 && forall i :: 0 <= i < |t| ==> IsTable(c, t[i], Xn(8 * i, g))
  }

  /** `gf128mul_init_64k_bbe`, `gf128mul_init_64k_lle` */
  method Init64k(c: Convention, g: Elem) returns (t: seq<array<Elem>>)
    ensures |t| == 16 && AreTables(c, t, PolyOf(c, g)) && forall i :: 0 <= i < 16 ==> fresh(t[i])
  {
    hide PolyOf, Xn, IsTable;
    ghost var p := PolyOf(c, g);
    var first := Init4k(c, g);
    t := [first];
    assert Xn(0, p) == p by { XnNone(p); }
    for i := 1 to 16
      invariant |t| == i && AreTables(c, t, p)
      invariant forall k :: 0 <= k < i ==> fresh(t[k])
    {
      var row := NextTable(c, t[i - 1], Xn(8 * (i - 1), p));
      XnSum(8, 8 * (i - 1), p);
      t := t + [row];
    }
  }

  lemma XnNone(p: Poly)
    ensures Xn(0, p) == p
  {
  }

  method NextTable(c: Convention, prev: array<Elem>, ghost g: Poly) returns (row: array<Elem>)
    requires IsTable(c, prev, g)
    ensures fresh(row) && IsTable(c, row, Xn(8, g))
  {
    row := new Elem[256](_ => ZEROELEM);
    NextBasis(c, row, prev, g);
    FillSums(c, row, Xn(8, g));
  }

  // ---- the multiplications ----

  /** Where the coefficients 8p .. 8p + 7 are in memory: ap[15 - p] in bbe, ap[p] in lle. */
  function Position(c: Convention, p: nat): nat
    requires p < 16
  {
    if c == Bbe then 15 - p else p
  }

  lemma TableEntry(c: Convention, t: array<Elem>, g: Poly, a: Elem, p: nat)
    requires IsTable(c, t, g) && p < 16
    ensures var x := ByteAt(a, Position(c, p));
            Index(x) < 256 == t.Length && PolyOf(c, t[Index(x)]) == ByteProduct(g, PolyOf(c, a)[p])
  {
    EntryIs(c, g, ByteAt(a, Position(c, p)));
    hide Index, ByteAt, Entry, Reverse, ByteProduct;
  }

  /** `gf128mul_64k_bbe`, `gf128mul_64k_lle`: the sum over the sixteen tables. */
  method Mul64k(c: Convention, a: Elem, t: seq<array<Elem>>, ghost g: Poly) returns (r: Elem)
    requires |t| == 16 && AreTables(c, t, g)
    ensures PolyOf(c, r) == Product(g, PolyOf(c, a))
  {
    hide PolyOf, Xn, IsTable, Index, ByteAt, Total, Terms, ByteProduct, Xor, Add;
    ghost var pa := PolyOf(c, a);
    TableEntry(c, t[0], Xn(8 * 0, g), a, 0);
    TermsOfByte(g, pa, 0);
    r := t[0][Index(ByteAt(a, Position(c, 0)))];
    for i := 1 to 16
      invariant PolyOf(c, r) == Total(Terms(g, pa, 0, 8 * i))
    {
      TableEntry(c, t[i], Xn(8 * i, g), a, i);
      TermsOfByte(g, pa, i);
      TermsConcat(g, pa, 0, 8 * i, 8 * i + 8);
      XorIs(c, r, t[i][Index(ByteAt(a, Position(c, i)))]);
      r := Xor(r, t[i][Index(ByteAt(a, Position(c, i)))]);
    }
  }

  /** `gf128mul_4k_bbe`, `gf128mul_4k_lle`: Horner's rule with a single table. */
  method Mul4k(c: Convention, a: Elem, t: array<Elem>, ghost g: Poly) returns (r: Elem)
    requires IsTable(c, t, g)
    ensures PolyOf(c, r) == Product(g, PolyOf(c, a))
  {
    hide PolyOf, Xn, IsTable, Index, ByteAt, Total, Terms, ByteProduct, Xor, Add, X8;
    ghost var pa := PolyOf(c, a);
    TableEntry(c, t, g, a, 15);
    TermsOfByte(g, pa, 15);
    XnByteProduct(120, g, pa[15]);
    r := t[Index(ByteAt(a, Position(c, 15)))];
    for i := 15 downto 0
      invariant Xn(8 * i, PolyOf(c, r)) == Total(Terms(g, pa, 8 * i, 128))
    {
      ghost var before := PolyOf(c, r);
      X8Is(c, r);
      r := X8(c, r);
      TableEntry(c, t, g, a, i);
      XorIs(c, r, t[Index(ByteAt(a, Position(c, i)))]);
      r := Xor(r, t[Index(ByteAt(a, Position(c, i)))]);
      HornerStep(g, pa, i, before);
    }
    XnNone(PolyOf(c, r));
  }

  lemma HornerStep(g: Poly, a: Poly, i: nat, r: Poly)
    requires i < 15 && Xn(8 * i + 8, r) == Total(Terms(g, a, 8 * i + 8, 128))
    ensures Xn(8 * i, Add(Xn(8, r), ByteProduct(g, a[i]))) == Total(Terms(g, a, 8 * i, 128))
  {
    XnLinear(8 * i, Xn(8, r), ByteProduct(g, a[i]));
    XnSum(8 * i, 8, r);
    XnByteProduct(8 * i, g, a[i]);
    TermsOfByte(g, a, i);
    TermsConcat(g, a, 8 * i, 8 * i + 8, 128);
    AddComm(Total(Terms(g, a, 8 * i, 8 * i + 8)), Total(Terms(g, a, 8 * i + 8, 128)));
    hide Xn, Total, Terms, ByteProduct, Add;
  }

  /** Both table forms, from their init functions on, give the same element, for every pair
      of factors. */
  method MulBothForms(c: Convention, g: Elem, a: Elem) returns (r: Elem, s: Elem)
    ensures r == s && PolyOf(c, r) == Product(PolyOf(c, g), PolyOf(c, a))
  {
    hide PolyOf, Product, IsTable;
    var small := Init4k(c, g);
    r := Mul4k(c, a, small, PolyOf(c, g));
    var large := Init64k(c, g);
    s := Mul64k(c, a, large, PolyOf(c, g));
    PolyInjective(c, r, s);
  }
}
