/** Polynomials over GF(2) modulo x^128 + x^7 + x^2 + x + 1, the field of gf128mul.c.

    A polynomial is held as sixteen bytes: bit j of byte p is the coefficient of
    x^(8p + j).  The product is defined here without tables. */
module Gf128Poly {

  type Poly = p: seq<bv8> | |p| == 16 witness seq(16, _ => 0)

  const ZERO: Poly := [0, 0, 0, 0, 0, 0, 0, 0, 0, 0, 0, 0, 0, 0, 0, 0]

  function Xor8(a: bv8, b: bv8): bv8 { a ^ b }

  /** The high byte of a two-byte window, moved n bits up. */
  function Window(x: bv8, y: bv8, n: bv4): bv8
    requires n <= 8
  {
    (x << n) | (y >> (8 - n))
  }

  function Add(p: Poly, q: Poly): Poly { seq(16, k requires 0 <= k < 16 => Xor8(p[k], q[k])) }

  /** x^7 + x^2 + x + 1, if bit 7 is set. */
  function Reduction(top: bv8): bv8 { if top & 0x80 == 0 then 0 else 0x87 }

  function Shifted(x: bv8): bv8 { x << 1 }

  /** Multiplication by x. */
  function TimesX(p: Poly): Poly {
    seq(16, k requires 0 <= k < 16 => if k == 0 then Xor8(Shifted(p[0]), Reduction(p[15])) else Window(p[k], p[k - 1],
        1))
  }

  function Xn(n: nat, p: Poly): Poly { if n == 0 then p else TimesX(Xn(n - 1, p)) }

  function Mask(j: nat): bv8
    requires j < 8
  {
    match j case 0 => 1 case 1 => 2 case 2 => 4 case 3 => 8 case 4 => 0x10 case 5 => 0x20 case 6 => 0x40 case 7 => 0x80
  }

  predicate Bit(x: bv8, j: nat)
    requires j < 8
  {
    x & Mask(j) != 0
  }

  predicate Coefficient(p: Poly, k: nat)
    requires k < 128
  {
    Bit(p[k / 8], k % 8)
  }

  function Total(s: seq<Poly>): Poly { if s == [] then ZERO else Add(s[0], Total(s[1..])) }

  /** The multiple x^k * g, if `present`. */
  function Term(g: Poly, k: nat, present: bool): Poly { if present then Xn(k, g) else ZERO }

  /** The multiples x^k * g for the coefficients k of a, from lo to hi. */
  function Terms(g: Poly, a: Poly, lo: nat, hi: nat): seq<Poly>
    requires lo <= hi <= 128
  {
    seq<Poly>(hi - lo, k requires 0 <= k < hi - lo => Term(g, lo + k, Coefficient(a, lo + k)))
  }

  /** The product g * a. */
  function Product(g: Poly, a: Poly): Poly { Total(Terms(g, a, 0, 128)) }

  // ---- addition ----

  lemma XorLaws(a: bv8, b: bv8, c: bv8)
    ensures Xor8(Xor8(a, b), c) == Xor8(a, Xor8(b, c))
    ensures Xor8(a, b) == Xor8(b, a)
    ensures Xor8(a, 0) == a && Xor8(a, a) == 0
  {
  }

  lemma AddAssoc(p: Poly, q: Poly, r: Poly)
    ensures Add(Add(p, q), r) == Add(p, Add(q, r))
  {
    hide Xor8;
    forall k | 0 <= k < 16 ensures Add(Add(p, q), r)[k] == Add(p, Add(q, r))[k] { XorLaws(p[k], q[k], r[k]); }
  }

  lemma AddComm(p: Poly, q: Poly)
    ensures Add(p, q) == Add(q, p)
  {
    hide Xor8;
    forall k | 0 <= k < 16 ensures Add(p, q)[k] == Add(q, p)[k] { XorLaws(p[k], q[k], 0); }
  }

  lemma AddZero(p: Poly)
    ensures Add(p, ZERO) == p && Add(ZERO, p) == p && Add(p, p) == ZERO
  {
    hide Xor8;
    AddComm(p, ZERO);
    forall k | 0 <= k < 16 ensures Add(p, ZERO)[k] == p[k] && Add(p, p)[k] == ZERO[k] { XorLaws(p[k], 0, 0); }
  }

  lemma AddExchange(p: Poly, q: Poly, r: Poly, s: Poly)
    ensures Add(Add(p, q), Add(r, s)) == Add(Add(p, r), Add(q, s))
  {
    AddAssoc(p, q, Add(r, s));
    AddAssoc(q, r, s);
    AddComm(q, r);
    AddAssoc(r, q, s);
    AddAssoc(p, r, Add(q, s));
    hide Add;
  }

  lemma {:induction false} TotalConcat(s: seq<Poly>, t: seq<Poly>)
    ensures Total(s + t) == Add(Total(s), Total(t))
  {
    hide Add;
    if s == [] {
      assert s + t == t;
      AddZero(Total(t));
    } else {
      assert (s + t)[1..] == s[1..] + t;
      TotalConcat(s[1..], t);
      AddAssoc(s[0], Total(s[1..]), Total(t));
    }
  }

  // ---- multiplication by powers of x is linear ----

  lemma WindowXor(x: bv8, y: bv8, z: bv8, w: bv8)
    ensures Window(Xor8(x, z), Xor8(y, w), 1) == Xor8(Window(x, y, 1), Window(z, w, 1))
  {
  }

  lemma ReductionXor(x: bv8, y: bv8)
    ensures Reduction(Xor8(x, y)) == Xor8(Reduction(x), Reduction(y))
  {
  }

  lemma ShiftedXor(x: bv8, y: bv8)
    ensures Shifted(Xor8(x, y)) == Xor8(Shifted(x), Shifted(y))
  {
  }

  lemma Xor8Exchange(a: bv8, b: bv8, c: bv8, d: bv8)
    ensures Xor8(Xor8(a, b), Xor8(c, d)) == Xor8(Xor8(a, c), Xor8(b, d))
  {
    XorLaws(a, b, Xor8(c, d));
    XorLaws(b, c, d);
    XorLaws(c, b, d);
    XorLaws(a, c, Xor8(b, d));
    hide Xor8;
  }

  lemma TimesXFirst(p: Poly, q: Poly)
    ensures TimesX(Add(p, q))[0] == Xor8(TimesX(p)[0], TimesX(q)[0])
  {
    hide Xor8, Window, Shifted, Reduction;
    ShiftedXor(p[0], q[0]);
    ReductionXor(p[15], q[15]);
    Xor8Exchange(Shifted(p[0]), Shifted(q[0]), Reduction(p[15]), Reduction(q[15]));
  }

  lemma TimesXOther(p: Poly, q: Poly, k: nat)
    requires 0 < k < 16
    ensures TimesX(Add(p, q))[k] == Xor8(TimesX(p)[k], TimesX(q)[k])
  {
    hide Xor8, Window, Shifted, Reduction;
    WindowXor(p[k], p[k - 1], q[k], q[k - 1]);
  }

  lemma TimesXLinear(p: Poly, q: Poly)
    ensures TimesX(Add(p, q)) == Add(TimesX(p), TimesX(q))
  {
    hide Xor8, TimesX;
    forall k | 0 <= k < 16 ensures TimesX(Add(p, q))[k] == Add(TimesX(p), TimesX(q))[k] {
      if k == 0 { TimesXFirst(p, q); } else { TimesXOther(p, q, k); }
    }
  }

  lemma {:induction false} XnLinear(n: nat, p: Poly, q: Poly)
    ensures Xn(n, Add(p, q)) == Add(Xn(n, p), Xn(n, q))
  {
    hide Add, TimesX;
    if n > 0 {
      XnLinear(n - 1, p, q);
      TimesXLinear(Xn(n - 1, p), Xn(n - 1, q));
    }
  }

  lemma XnZero(n: nat)
    ensures Xn(n, ZERO) == ZERO
  {
    XnLinear(n, ZERO, ZERO);
    AddZero(ZERO);
    AddZero(Xn(n, ZERO));
    hide Add, TimesX, Xn;
  }

  lemma {:induction false} XnSum(m: nat, n: nat, p: Poly)
    ensures Xn(m + n, p) == Xn(m, Xn(n, p))
  {
    hide TimesX;
    if m > 0 { XnSum(m - 1, n, p); }
  }

  lemma {:induction false} XnTotal(n: nat, s: seq<Poly>)
    ensures Xn(n, Total(s)) == Total(seq(|s|, k requires 0 <= k < |s| => Xn(n, s[k])))
  {
    hide Add, Xn;
    var t := seq(|s|, k requires 0 <= k < |s| => Xn(n, s[k]));
    if s == [] {
      XnZero(n);
    } else {
      XnTotal(n, s[1..]);
      XnLinear(n, s[0], Total(s[1..]));
      assert t[1..] == seq(|s| - 1, k requires 0 <= k < |s| - 1 => Xn(n, s[1..][k]));
    }
  }

  // ---- the product, byte by byte ----

  /** The multiples of g for the bits of one byte. */
  function ByteTerms(g: Poly, x: bv8, lo: nat, hi: nat): seq<Poly>
    requires lo <= hi <= 8
  {
    seq<Poly>(hi - lo, j requires 0 <= j < hi - lo => Term(g, lo + j, Bit(x, lo + j)))
  }

  function ByteProduct(g: Poly, x: bv8): Poly { Total(ByteTerms(g, x, 0, 8)) }

  lemma TermsOfByte(g: Poly, a: Poly, p: nat)
    requires p < 16
    ensures Total(Terms(g, a, 8 * p, 8 * p + 8)) == ByteProduct(Xn(8 * p, g), a[p])
  {
    hide Bit, Xn, Total;
    forall j | 0 <= j < 8
      ensures Terms(g, a, 8 * p, 8 * p + 8)[j] == ByteTerms(Xn(8 * p, g), a[p], 0, 8)[j]
    {
      XnSum(j, 8 * p, g);
      assert (8 * p + j) / 8 == p && (8 * p + j) % 8 == j;
    }
    assert Terms(g, a, 8 * p, 8 * p + 8) == ByteTerms(Xn(8 * p, g), a[p], 0, 8);
  }

  lemma TermsConcat(g: Poly, a: Poly, lo: nat, mid: nat, hi: nat)
    requires lo <= mid <= hi <= 128
    ensures Total(Terms(g, a, lo, hi)) == Add(Total(Terms(g, a, lo, mid)), Total(Terms(g, a, mid, hi)))
  {
    hide Xn, Coefficient, Add;
    assert Terms(g, a, lo, hi) == Terms(g, a, lo, mid) + Terms(g, a, mid, hi);
    TotalConcat(Terms(g, a, lo, mid), Terms(g, a, mid, hi));
  }

  /** The table for x^n * g is the table for g, times x^n. */
  lemma XnByteProduct(n: nat, g: Poly, x: bv8)
    ensures Xn(n, ByteProduct(g, x)) == ByteProduct(Xn(n, g), x)
  {
    hide Bit, Xn, Total;
    var s := ByteTerms(g, x, 0, 8);
    XnTotal(n, s);
    var t := seq(|s|, k requires 0 <= k < |s| => Xn(n, s[k]));
    forall j | 0 <= j < 8 ensures t[j] == ByteTerms(Xn(n, g), x, 0, 8)[j] {
      XnZero(n);
      XnSum(n, j, g);
      XnSum(j, n, g);
    }
    assert t == ByteTerms(Xn(n, g), x, 0, 8);
  }

  // ---- the product is linear ----

  lemma BitXor(x: bv8, y: bv8, j: nat)
    requires j < 8
    ensures Bit(Xor8(x, y), j) == (Bit(x, j) != Bit(y, j))
  {
  }

  lemma {:induction false} TotalAdd(s: seq<Poly>, t: seq<Poly>)
    requires |s| == |t|
    ensures Total(seq(|s|, k requires 0 <= k < |s| => Add(s[k], t[k]))) == Add(Total(s), Total(t))
  {
    hide Add;
    var u := seq(|s|, k requires 0 <= k < |s| => Add(s[k], t[k]));
    if s == [] {
      AddZero(ZERO);
    } else {
      TotalAdd(s[1..], t[1..]);
      assert u[1..] == seq(|s| - 1, k requires 0 <= k < |s| - 1 => Add(s[1..][k], t[1..][k]));
      AddExchange(s[0], t[0], Total(s[1..]), Total(t[1..]));
    }
  }

  /** g * (a + b) == g * a + g * b */
  lemma ProductLinear(g: Poly, a: Poly, b: Poly)
    ensures Product(g, Add(a, b)) == Add(Product(g, a), Product(g, b))
  {
    hide Xn, Bit, Total;
    var s, t := Terms(g, a, 0, 128), Terms(g, b, 0, 128);
    TotalAdd(s, t);
    var u := seq(128, k requires 0 <= k < 128 => Add(s[k], t[k]));
    forall k | 0 <= k < 128 ensures u[k] == Terms(g, Add(a, b), 0, 128)[k] {
      BitXor(a[k / 8], b[k / 8], k % 8);
      AddZero(Xn(k, g));
      AddZero(ZERO);
    }
    assert u == Terms(g, Add(a, b), 0, 128);
  }

  // ---- multiplication by x^8 in one step ----

  /** The low and high byte of t * (x^7 + x^2 + x + 1). */
  function LowSpread(t: bv8): bv8 { t ^ (t << 1) ^ (t << 2) ^ (t << 7) }
  function HighSpread(t: bv8): bv8 { (t >> 7) ^ (t >> 6) ^ (t >> 1) }

  function TimesX8(p: Poly): Poly {
    seq(16, k requires 0 <= k < 16 =>
      if k == 0 then LowSpread(p[15]) else if k == 1 then Xor8(p[0], HighSpread(p[15])) else p[k - 1])
  }

  function Shl(x: bv8, n: bv4): bv8
    requires n <= 8
  {
    x << n
  }

  function Over(t: bv8, n: bv4): bv8
    requires n <= 8
  {
    t >> (8 - n)
  }

  /** After n of the eight steps. */
  function Partly(p: Poly, n: bv4): Poly
    requires n <= 8
  {
    seq(16, k requires 0 <= k < 16 =>
      if k == 0 then Xor8(Shl(p[0], n), LowSpread(Over(p[15], n)))
      else if k == 1 then Xor8(Window(p[1], p[0], n), HighSpread(Over(p[15], n)))
      else Window(p[k], p[k - 1], n))
  }

  lemma WindowStep(x: bv8, y: bv8, z: bv8, n: bv4)
    requires n < 8
    ensures Window(Window(x, y, n), Window(y, z, n), 1) == Window(x, y, n + 1)
  {
  }

  lemma LowStep(x: bv8, t: bv8, s: bv8, n: bv4)
    requires n < 8
    ensures Xor8(Shifted(Xor8(Shl(x, n), LowSpread(Over(t, n)))), Reduction(Window(t, s, n))) ==
            Xor8(Shl(x, n + 1), LowSpread(Over(t, n + 1)))
  {
  }

  lemma WindowStart(x: bv8, y: bv8, n: bv4)
    requires n < 8
    ensures Window(Window(x, y, n), Shl(y, n), 1) == Window(x, y, n + 1)
  {
  }

  lemma SpreadStep(t: bv8, n: bv4)
    requires n < 8
    ensures Window(HighSpread(Over(t, n)), LowSpread(Over(t, n)), 1) == HighSpread(Over(t, n + 1))
  {
  }

  lemma HighStep(x: bv8, y: bv8, t: bv8, n: bv4)
    requires n < 8
    ensures Window(Xor8(Window(x, y, n), HighSpread(Over(t, n))), Xor8(Shl(y, n), LowSpread(Over(t, n))), 1)
            == Xor8(Window(x, y, n + 1), HighSpread(Over(t, n + 1)))
  {
    hide Xor8, Window, HighSpread, LowSpread, Over, Shl;
    WindowXor(Window(x, y, n), Shl(y, n), HighSpread(Over(t, n)), LowSpread(Over(t, n)));
    WindowStart(x, y, n);
    SpreadStep(t, n);
  }

  lemma SecondStep(x: bv8, y: bv8, z: bv8, t: bv8, n: bv4)
    requires n < 8
    ensures Window(Window(x, y, n), Xor8(Window(y, z, n), HighSpread(Over(t, n))), 1) == Window(x, y, n + 1)
  {
  }

  lemma PartlyZero(x: bv8, y: bv8)
    ensures Xor8(Shl(x, 0), LowSpread(Over(y, 0))) == x && Xor8(Window(x, y, 0), HighSpread(Over(y, 0))) == x
    ensures Window(x, y, 0) == x
  {
  }

  lemma PartlyEight(x: bv8, y: bv8)
    ensures Xor8(Shl(x, 8), LowSpread(Over(y, 8))) == LowSpread(y)
    ensures Window(x, y, 8) == y && Over(y, 8) == y
  {
  }

  lemma OverZero(y: bv8, x: bv8)
    ensures HighSpread(Over(y, 0)) == 0 && Xor8(x, HighSpread(Over(y, 0))) == x
  {
  }

  /** One of the eight steps. */
  lemma PartlyStep(p: Poly, n: bv4)
    requires n < 8
    ensures TimesX(Partly(p, n)) == Partly(p, n + 1)
  {
    hide Xor8, Window, Shifted, Reduction, HighSpread, LowSpread, Over, Shl;
    var q := Partly(p, n);
    forall k | 0 <= k < 16 ensures TimesX(q)[k] == Partly(p, n + 1)[k] {
      if k == 0 {
        LowStep(p[0], p[15], p[14], n);
      } else if k == 1 {
        HighStep(p[1], p[0], p[15], n);
      } else if k == 2 {
        SecondStep(p[2], p[1], p[0], p[15], n);
      } else {
        WindowStep(p[k], p[k - 1], p[k - 2], n);
      }
    }
  }

  lemma PartlyEnds(p: Poly)
    ensures Partly(p, 0) == p && Partly(p, 8) == TimesX8(p)
  {
    hide Xor8, Window, HighSpread, LowSpread, Over, Shl;
    forall k | 0 <= k < 16 ensures Partly(p, 0)[k] == p[k] && Partly(p, 8)[k] == TimesX8(p)[k] {
      if k == 0 {
        PartlyZero(p[0], p[15]);
        PartlyEight(p[0], p[15]);
      } else {
        PartlyZero(p[k], p[k - 1]);
        PartlyEight(p[k], p[k - 1]);
        OverZero(p[15], p[1]);
        PartlyEight(p[k], p[15]);
      }
    }
  }

  /** The byte-wise form is multiplication by x, eight times. */
  lemma TimesX8Is(p: Poly)
    ensures TimesX8(p) == Xn(8, p)
  {
    hide TimesX, TimesX8, Partly;
    PartlyEnds(p);
    PartlyStep(p, 0); PartlyStep(p, 1); PartlyStep(p, 2); PartlyStep(p, 3);
    PartlyStep(p, 4); PartlyStep(p, 5); PartlyStep(p, 6); PartlyStep(p, 7);
    assert Xn(1, p) == TimesX(Xn(0, p));
    assert Xn(2, p) == TimesX(Xn(1, p));
    assert Xn(4, p) == TimesX(TimesX(Xn(2, p)));
    assert Xn(6, p) == TimesX(TimesX(Xn(4, p)));
    assert Xn(8, p) == TimesX(TimesX(Xn(6, p)));
  }
}
