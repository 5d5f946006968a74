/** The multiplicative group of GF(2^8), as gen_tabs of aes_generic.c uses it: 3 is a
    primitive root, so that powers and logarithms are inverse to each other. */
module AesField {
  import opened Bytes
  import opened AesWords

  /** Times3, k times. */
  function Iterate(k: nat, x: bv8): bv8 { if k == 0 then x else Times3(Iterate(k - 1, x)) }

  /** 3 to the power k. */
  function Power(k: nat): bv8 { Iterate(k, 1) }

  lemma {:induction false} IterateSum(j: nat, k: nat, x: bv8)
    ensures Iterate(j + k, x) == Iterate(j, Iterate(k, x))
  {
    if j > 0 { IterateSum(j - 1, k, x); }
    hide Times3;
  }

  // ---- linear maps commute with Times3 ----

  lemma XTimeCommutes(x: bv8)
    ensures XTime(Times3(x)) == Times3(XTime(x))
  {
    hide XTime, Xor8;
    XTimeXor(XTime(x), x);
  }

  lemma Times3Xor(x: bv8, y: bv8)
    ensures Times3(Xor8(x, y)) == Xor8(Times3(x), Times3(y))
  {
    hide XTime, Xor8;
    XTimeXor(x, y);
    Exchange(XTime(x), XTime(y), x, y);
  }

  /** The six constants of the tables. */
  datatype Constant = C2 | C3 | C9 | C11 | C13 | C14

  function Byte(c: Constant): bv8 {
    match c
    case C2 => 2
    case C3 => 3
    case C9 => 9
    case C11 => 11
    case C13 => 13
    case C14 => 14
  }

  function Times(c: Constant, x: bv8): bv8 {
    match c
    case C2 => Times2(x)
    case C3 => Times3(x)
    case C9 => Times9(x)
    case C11 => Times11(x)
    case C13 => Times13(x)
    case C14 => Times14(x)
  }

  lemma TimesOne(c: Constant)
    ensures Times(c, 1) == Byte(c) && Times(c, 0) == 0 && Byte(c) != 0
  {
  }

  lemma CubeCommutes(x: bv8)
    ensures XTime(XTime(Times3(x))) == Times3(XTime(XTime(x)))
    ensures XTime(XTime(XTime(Times3(x)))) == Times3(XTime(XTime(XTime(x))))
  {
    hide *;
    XTimeCommutes(x);
    XTimeCommutes(XTime(x));
    XTimeCommutes(XTime(XTime(x)));
  }

  lemma TimesCommutes(c: Constant, x: bv8)
    ensures Times(c, Times3(x)) == Times3(Times(c, x))
  {
    hide XTime, Xor8, Times3;
    var x1 := XTime(x);
    var x2 := XTime(x1);
    var x3 := XTime(x2);
    XTimeCommutes(x);
    CubeCommutes(x);
    match c
    case C2 =>
    case C3 => Times3Xor(x1, x); Times3Is(x); Times3Is(Times3(x));
    case C9 => Times3Xor(x3, x);
    case C11 => Times3Xor(x3, x1); Times3Xor(Xor8(x3, x1), x);
    case C13 => Times3Xor(x3, x2); Times3Xor(Xor8(x3, x2), x);
    case C14 => Times3Xor(x3, x2); Times3Xor(Xor8(x3, x2), x1);
  }

  lemma Times3Is(x: bv8)
    ensures Times3(x) == Xor8(XTime(x), x)
  {
  }

  /** f_mult by a constant: add the logarithms. */
  lemma {:induction false} TimesPower(c: Constant, k: nat, x: bv8)
    ensures Times(c, Iterate(k, x)) == Iterate(k, Times(c, x))
  {
    hide Times, Times3;
    if k > 0 {
      TimesPower(c, k - 1, x);
      TimesCommutes(c, Iterate(k - 1, x));
    }
  }

  // ---- the order of 3 ----

  function Bit(x: bv8, mask: bv8, value: bv8): bv8 { if x & mask == 0 then 0 else value }

  /** The square of x, which is linear: x^2k is reduced for each bit k. */
  function Square(x: bv8): bv8 {
    Bit(x, 1, 1) ^ Bit(x, 2, 4) ^ Bit(x, 4, 0x10) ^ Bit(x, 8, 0x40)
    ^ Bit(x, 0x10, 0x1b) ^ Bit(x, 0x20, 0x6c) ^ Bit(x, 0x40, 0xab) ^ Bit(x, 0x80, 0x9a)
  }

  lemma SquareTimes3(x: bv8)
    ensures Square(Times3(x)) == Times3(Times3(Square(x)))
  {
  }

  lemma {:induction false} PowerDouble(k: nat)
    ensures Power(2 * k) == Square(Power(k))
  {
    hide Square, Times3;
    if k > 0 {
      PowerDouble(k - 1);
      SquareTimes3(Power(k - 1));
      assert Power(2 * k) == Times3(Power(2 * k - 1)) == Times3(Times3(Power(2 * k - 2)));
    } else {
      SquareOne();
    }
  }

  lemma SquareOne()
    ensures Square(1) == 1
  {
  }

  function Next(x: bv8, odd: bool): bv8 { if odd then Times3(Square(x)) else Square(x) }

  lemma PowerStep(k: nat, odd: bool)
    ensures Power(2 * k + if odd then 1 else 0) == Next(Power(k), odd)
  {
    PowerDouble(k);
    hide Square, Times3;
  }

  lemma OrderValues()
    ensures Power(255) == 1 && Power(85) != 1 && Power(51) != 1 && Power(15) != 1
  {
    hide Next, Times3, Iterate;
    // 255, 85, 51 and 15 in binary, from the top
    PowerStep(0, true); PowerStep(1, true); PowerStep(3, true); PowerStep(7, true);
    PowerStep(15, true); PowerStep(31, true); PowerStep(63, true); PowerStep(127, true);
    PowerStep(1, false); PowerStep(2, true); PowerStep(5, false); PowerStep(10, true); PowerStep(21, false);
    PowerStep(42, true);
    PowerStep(3, false); PowerStep(6, false); PowerStep(12, true); PowerStep(25, true);
    StepValues();
    assert Power(0) == 1 by { PowerZero(); }
  }

  lemma PowerZero()
    ensures Power(0) == 1
  {
  }

  lemma StepValues()
    ensures Next(1, true) == 3 && Next(3, true) == 0x0f && Next(0x0f, true) == 0xff && Next(0xff, true) == 0x35
    ensures Next(0x35, true) == 0xaa && Next(0xaa, true) == 0xcd && Next(0xcd, true) == 0xa0 && Next(0xa0, true) == 1
    ensures Next(3, false) == 5 && Next(5, true) == 0x33 && Next(0x33, false) == 0x72 && Next(0x72, true) == 0x73
    ensures Next(0x73, false) == 0xd9 && Next(0xd9, true) == 0xbd
    ensures Next(0x0f, false) == 0x55 && Next(0x55, false) == 0xa1 && Next(0xa1, true) == 2 && Next(2, true) == 0x0c
  {
  }

  lemma Times3Injective(x: bv8, y: bv8)
    requires Times3(x) == Times3(y)
    ensures x == y
  {
    assert Times3(Xor8(x, y)) == 0 by {
      Times3Xor(x, y);
      XorLaws(Times3(x), Times3(y), 0);
    }
    Times3Zero(Xor8(x, y));
    XorCancel(x, y);
    XorLaws(0, y, 0);
    XorLaws(y, 0, 0);
    hide Xor8, Times3;
  }

  lemma Times3Zero(x: bv8)
    ensures Times3(x) == 0 <==> x == 0
  {
  }

  lemma {:induction false} PowerNonzero(k: nat)
    ensures Power(k) != 0
  {
    if k > 0 {
      PowerNonzero(k - 1);
      Times3Zero(Power(k - 1));
    }
    hide Times3;
  }

  /** Equal powers differ by a period. */
  lemma {:induction false} PeriodOf(j: nat, d: nat)
    requires Power(j + d) == Power(j)
    ensures Power(d) == 1
  {
    hide Times3;
    if j > 0 {
      Times3Injective(Power(j - 1 + d), Power(j - 1));
      PeriodOf(j - 1, d);
    }
  }

  /** Euclid's algorithm on two periods finds a common divisor that is a period. */
  lemma {:induction false} CommonPeriod(a: nat, b: nat) returns (g: nat, p: nat, q: nat)
    requires 0 < a && 0 < b && Power(a) == 1 && Power(b) == 1
    ensures 0 < g && Power(g) == 1 && a == g * p && b == g * q
    decreases a + b
  {
    hide Power;
    if a == b {
      g, p, q := a, 1, 1;
    } else if a < b {
      ShorterPeriod(b, a);
      g, p, q := CommonPeriod(a, b - a);
      q := p + q;
    } else {
      ShorterPeriod(a, b);
      g, p, q := CommonPeriod(a - b, b);
      p := p + q;
    }
  }

  lemma ShorterPeriod(a: nat, b: nat)
    requires b < a && Power(a) == 1 && Power(b) == 1
    ensures Power(a - b) == 1
  {
    IterateSum(a - b, b, 1);
    hide Times3;
  }

  lemma {:induction false} MultiplePeriod(g: nat, m: nat)
    requires Power(g) == 1
    ensures Power(g * m) == 1
  {
    hide Times3;
    if m > 0 {
      MultiplePeriod(g, m - 1);
      assert g * m == g * (m - 1) + g;
      IterateSum(g * (m - 1), g, 1);
    }
  }

  /** A proper divisor of 255 = 3 * 5 * 17 divides 85, 51 or 15. */
  lemma ProperDivisor(g: nat, q: nat) returns (m: nat)
    requires g * q == 255 && q > 1
    ensures g * m == 85 || g * m == 51 || g * m == 15
  {
    SmallFactor(g, q);
    if q == 3 || q == 15 || q == 51 || q == 255 {
      m := if q == 3 then 1 else if q == 15 then 5 else if q == 51 then 17 else 85;
    }
    else if q == 5 || q == 85 { m := if q == 5 then 1 else 17; }
    else { m := 1; }
  }

  lemma BothLarge(g: nat, q: nat)
    ensures g >= 16 && q >= 16 ==> g * q >= 256
  {
    if g >= 16 && q >= 16 {
      assert (g - 16) * (q - 16) >= 0;
    }
  }

  lemma SmallFactor(g: nat, q: nat)
    requires g * q == 255
    ensures q == 1 || q == 3 || q == 5 || q == 15 || q == 17 || q == 51 || q == 85 || q == 255
  {
    if q > 15 {
      BothLarge(g, q);
      assert g == 0 || g == 1 || g == 2 || g == 3 || g == 4 || g == 5 || g == 6 || g == 7 || g == 8 || g == 9
          || g == 10 || g == 11 || g == 12 || g == 13 || g == 14 || g == 15;
    } else {
      assert q == 0 || q == 1 || q == 2 || q == 3 || q == 4 || q == 5 || q == 6 || q == 7 || q == 8 || q == 9
          || q == 10 || q == 11 || q == 12 || q == 13 || q == 14 || q == 15;
    }
  }

  lemma LargerFactor(g: nat, p: nat, q: nat)
    requires 0 < g * p < g * q
    ensures 1 < q
  {
    if q <= 1 { MulAtMost(g, q, p); }
  }

  lemma MulAtMost(g: nat, q: nat, p: nat)
    requires q <= 1 && 0 < g * p
    ensures g * q <= g * p
  {
    assert p != 0;
    assert g * q <= g;
    assert g * p == g * (p - 1) + g;
  }

  /** 3 has order 255. */
  lemma Order(d: nat)
    requires 0 < d < 255
    ensures Power(d) != 1
  {
    hide Power;
    if Power(d) == 1 {
      OrderValues();
      var g, p, q := CommonPeriod(d, 255);
      LargerFactor(g, p, q);
      var m := ProperDivisor(g, q);
      MultiplePeriod(g, m);
    }
  }

  /** The first 255 powers are distinct, and so are those from 1 to 255. */
  lemma PowerInjective(j: nat, k: nat)
    requires j < k && k - j < 255
    ensures Power(j) != Power(k)
  {
    hide Power;
    if Power(j) == Power(k) {
      PeriodOf(j, k - j);
      Order(k - j);
    }
  }

  // ---- injective functions on bytes are onto ----

  ghost predicate Injective(f: bv8 -> bv8) { forall x, y :: f(x) == f(y) ==> x == y }

  ghost function Image(f: bv8 -> bv8, n: nat): set<nat>
    requires n <= 256
  {
    if n == 0 then {} else Image(f, n - 1) + {Index(f(ToByte(n - 1)))}
  }

  ghost predicate Hit(f: bv8 -> bv8, n: nat, i: nat)
    requires n <= 256
  {
    exists k :: 0 <= k < n && i == Index(f(ToByte(k)))
  }

  lemma {:induction false} ImageMembers(f: bv8 -> bv8, n: nat)
    requires n <= 256
    ensures forall i :: i in Image(f, n) ==> i < 256 && Hit(f, n, i)
  {
    hide Index, ToByte;
    if n > 0 {
      ImageMembers(f, n - 1);
      IndexBelow(f(ToByte(n - 1)));
    }
  }

  lemma {:induction false} ImageSize(f: bv8 -> bv8, n: nat)
    requires n <= 256 && Injective(f)
    ensures |Image(f, n)| == n
  {
    hide Index, ToByte;
    if n > 0 {
      ImageSize(f, n - 1);
      ImageMembers(f, n - 1);
      var last := Index(f(ToByte(n - 1)));
      if last in Image(f, n - 1) {
        assert Hit(f, n - 1, last);
        var k :| 0 <= k < n - 1 && last == Index(f(ToByte(k)));
        IndexInjective(f(ToByte(k)), f(ToByte(n - 1)));
        IndexOfByte(k);
        IndexOfByte(n - 1);
        assert false;
      }
    }
  }

  lemma {:induction false} BelowSize(s: set<nat>, n: nat)
    requires forall i :: i in s ==> i < n
    ensures |s| <= n && (|s| == n ==> forall i :: 0 <= i < n ==> i in s)
  {
    if n > 0 {
      BelowSize(s - {n - 1}, n - 1);
    } else {
      assert s == {};
    }
  }

  lemma Onto(f: bv8 -> bv8, y: bv8)
    requires Injective(f)
    ensures exists x :: f(x) == y
  {
    hide Index, ToByte;
    ImageSize(f, 256);
    ImageMembers(f, 256);
    BelowSize(Image(f, 256), 256);
    IndexBelow(y);
    assert Hit(f, 256, Index(y));
    var k :| 0 <= k < 256 && Index(y) == Index(f(ToByte(k)));
    IndexInjective(f(ToByte(k)), y);
  }
}
