/** LRW: the tweak that lrw.c updates with a table of differences is the product of the
    second key and the block number in GF(2^128). */
module Lrw {
  import opened Gf128Poly
  import opened Gf128
  import opened Gf128Tables

  // ---- runs of one bits ----

  function And64Of(x: bv64, y: bv64): bv64 { x & y }
  function Succ(w: bv64): bv64 { w + 1 }
  function Grow(o: bv64): bv64 { (o << 1) | 1 }
  function Half(w: bv64): bv64 { w >> 1 }
  function Lift(o: bv64): bv64 { (o << 32) | 0xffff_ffff }

  const FULL: bv64 := 0xffff_ffff_ffff_ffff
  const FULL32: bv64 := 0xffff_ffff

  /** The n lowest bits. */
  function Ones(n: nat): bv64 { if n == 0 then 0 else Grow(Ones(n - 1)) }

  /** Bit n. */
  function BitAt(n: nat): bv64 { if n == 0 then 1 else BitAt(n - 1) << 1 }

  lemma GrowIsOnes(o: bv64)
    requires And64Of(o, Succ(o)) == 0
    ensures And64Of(Grow(o), Succ(Grow(o))) == 0
  {
  }

  lemma {:induction false} OnesShape(n: nat)
    ensures And64Of(Ones(n), Succ(Ones(n))) == 0
  {
    if n == 0 {
      ZeroShape();
    } else {
      OnesShape(n - 1);
      GrowIsOnes(Ones(n - 1));
    }
    hide And64Of, Succ, Grow;
  }

  lemma ZeroShape()
    ensures And64Of(0, Succ(0)) == 0
  {
  }

  /** Adding one flips the trailing ones and the zero behind them. */
  lemma SuccIsXor(w: bv64, o: bv64)
    requires And64Of(o, Succ(o)) == 0 && And64Of(w, Grow(o)) == o && o != FULL
    ensures Succ(w) == Xor64(w, Grow(o)) && w != FULL && Succ(w) != 0
  {
  }

  function Grow4(o: bv64): bv64 { Grow(Grow(Grow(Grow(o)))) }

  lemma OnesPlus4(n: nat)
    ensures Ones(n + 4) == Grow4(Ones(n))
  {
    hide Grow;
    assert Ones(n + 2) == Grow(Ones(n + 1));
    assert Ones(n + 4) == Grow(Ones(n + 3));
  }

  lemma Grow4Values()
    ensures Grow4(0) == 0xf && Grow4(0xf) == 0xff && Grow4(0xff) == 0xfff && Grow4(0xfff) == 0xffff
    ensures Grow4(0xffff) == 0xf_ffff && Grow4(0xf_ffff) == 0xff_ffff && Grow4(0xff_ffff) == 0xfff_ffff
    ensures Grow4(0xfff_ffff) == FULL32
  {
  }

  lemma Ones32()
    ensures Ones(32) == FULL32
  {
    hide Grow4;
    OnesPlus4(0); OnesPlus4(4); OnesPlus4(8); OnesPlus4(12); OnesPlus4(16); OnesPlus4(20); OnesPlus4(24); OnesPlus4(28);
    Grow4Values();
  }

  lemma LiftGrow(o: bv64)
    ensures Lift(Grow(o)) == Grow(Lift(o)) && Lift(0) == FULL32
  {
  }

  lemma {:induction false} OnesLift(n: nat)
    ensures Ones(32 + n) == Lift(Ones(n))
  {
    hide Grow, Lift;
    LiftGrow(Ones(if n == 0 then 0 else n - 1));
    if n == 0 { Ones32(); } else { OnesLift(n - 1); }
  }

  lemma Ones64()
    ensures Ones(64) == FULL
  {
    Ones32();
    OnesLift(32);
    assert Lift(FULL32) == FULL;
    hide Ones;
  }

  /** Fewer than 64 ones leave the top bit clear. */
  lemma OnesNotFull(n: nat)
    requires n < 64
    ensures Ones(n) != FULL
  {
    OnesPlus4(0); OnesPlus4(4); OnesPlus4(8); OnesPlus4(12); OnesPlus4(16); OnesPlus4(20); OnesPlus4(24);
    Grow4Values();
    assert Ones(29) == Grow(Ones(28)) && Ones(30) == Grow(Ones(29)) && Ones(31) == Grow(Ones(30));
    OnesLift(31);
    OnesBelow(n, 63);
    GrowThree();
    hide Ones, Grow, Grow4, Lift;
    assert Ones(0) == 0 by { OnesNone(); }
    if Ones(n) == FULL { AndFull(Ones(63)); }
  }

  lemma GrowThree()
    ensures Grow(Grow(Grow(0xfff_ffff))) == 0x7fff_ffff && Lift(0x7fff_ffff) == 0x7fff_ffff_ffff_ffff
  {
  }

  lemma AndFull(x: bv64)
    ensures And64Of(FULL, x) == x
  {
  }

  lemma GrowAnd(a: bv64, b: bv64)
    ensures And64Of(Grow(a), Grow(b)) == Grow(And64Of(a, b)) && And64Of(0, b) == 0
  {
  }

  lemma {:induction false} OnesBelow(m: nat, n: nat)
    requires m <= n
    ensures And64Of(Ones(m), Ones(n)) == Ones(m)
  {
    hide And64Of, Grow;
    if m == 0 {
      GrowAnd(0, Ones(n));
    } else {
      OnesBelow(m - 1, n - 1);
      GrowAnd(Ones(m - 1), Ones(n - 1));
    }
  }

  // ---- get_index128 ----

  /** ffz of a 32-bit value, looking at k bits: the number of ones below the first zero. */
  function Ffz(v: bv64, k: nat): (n: nat)
    ensures n <= k
    decreases k
  {
    if k == 0 || v & 1 == 0 then 0 else 1 + Ffz(Half(v), k - 1)
  }

  lemma OddStep(v: bv64, o: bv64)
    requires v & 1 != 0
    ensures And64Of(Half(v), o) == o && o & (FULL >> 1) == o ==> And64Of(v, Grow(o)) == Grow(o)
    ensures And64Of(Half(v), Grow(o)) == o ==> And64Of(v, Grow(Grow(o))) == Grow(o)
  {
  }

  lemma EvenStart(v: bv64)
    ensures And64Of(v, 0) == 0
    ensures v & 1 == 0 ==> And64Of(v, Grow(0)) == 0
  {
  }

  lemma {:induction false} FfzIs(v: bv64, k: nat)
    requires k <= 32
    ensures var n := Ffz(v, k);
            And64Of(v, Ones(n)) == Ones(n) && (n < k ==> And64Of(v, Grow(Ones(n))) == Ones(n))
    decreases k
  {
    hide And64Of, Grow, Half;
    EvenStart(v);
    if k > 0 && v & 1 != 0 {
      var o := Ones(Ffz(Half(v), k - 1));
      FfzIs(Half(v), k - 1);
      OnesSmall(Ffz(Half(v), k - 1));
      OddStep(v, o);
    }
  }

  lemma OnesSmall(n: nat)
    requires n <= 32
    ensures Ones(n) & (FULL >> 1) == Ones(n)
  {
    OnesBelow(n, 32);
    Ones32();
    SmallMask(Ones(n));
    hide Ones, And64Of;
  }

  lemma SmallMask(o: bv64)
    requires And64Of(o, FULL32) == o
    ensures o & (FULL >> 1) == o
  {
  }

  function Low32(w: bv64): bv64 { w & 0xffff_ffff }
  function High32(w: bv64): bv64 { w >> 32 }

  /** Word i of the be128, from the last: be32_to_cpup(p) for p = block + 3 - i. */
  function Word32(e: Elem, i: nat): bv64
    requires i < 4
  {
    match i
    case 0 => Low32(e.b)
    case 1 => High32(e.b)
    case 2 => Low32(e.a)
    case 3 => High32(e.a)
  }

  const ALLONES := Elem(FULL, FULL)

  /** n < 128 is the number of trailing ones of the 128-bit number. */
  predicate IsIndex(e: Elem, n: nat) {
    if n < 64 then And64Of(e.b, Grow(Ones(n))) == Ones(n)
    else n < 128 && e.b == FULL && And64Of(e.a, Grow(Ones(n - 64))) == Ones(n - 64)
  }

  lemma LowIndex(w: bv64, o: bv64)
    requires And64Of(Low32(w), Grow(o)) == o && And64Of(Grow(o), FULL32) == Grow(o)
    ensures And64Of(w, Grow(o)) == o
  {
  }

  lemma HighIndex(w: bv64, o: bv64)
    requires Low32(w) == FULL32 && And64Of(High32(w), Grow(o)) == o
    ensures And64Of(w, Grow(Lift(o))) == Lift(o)
  {
  }

  lemma BothFull(w: bv64)
    ensures Low32(w) == FULL32 && High32(w) == FULL32 <==> w == FULL
    ensures And64Of(Low32(w), FULL32) == FULL32 ==> Low32(w) == FULL32
    ensures And64Of(High32(w), FULL32) == FULL32 ==> High32(w) == FULL32
  {
  }

  /** A word that is not full: where its first zero is in the 64-bit word. */
  lemma WordIndex(w: bv64, high: bool)
    requires if high then Low32(w) == FULL32 && High32(w) != FULL32 else Low32(w) != FULL32
    ensures var n := Ffz(if high then High32(w) else Low32(w), 32);
            var m := if high then 32 + n else n;
            n < 32 && And64Of(w, Grow(Ones(m))) == Ones(m)
  {
    hide And64Of, Grow, Lift, Low32, High32;
    var v := if high then High32(w) else Low32(w);
    var n := Ffz(v, 32);
    FfzIs(v, 32);
    Ones32();
    BothFull(w);
    if high {
      HighIndex(w, Ones(n));
      OnesLift(n);
    } else {
      OnesBelow(n + 1, 32);
      LowIndex(w, Ones(n));
    }
  }

  /** `get_index128` */
  method GetIndex(e: Elem) returns (x: nat)
    ensures x < 128 <==> e != ALLONES
    ensures if e == ALLONES then x == 128 else IsIndex(e, x)
  {
    hide And64Of, Grow, Low32, High32, Ffz;
    BothFull(e.a);
    BothFull(e.b);
    x := 0;
    while x < 128
      invariant x == 0 || x == 32 || x == 64 || x == 96 || x == 128
      invariant x >= 32 ==> Low32(e.b) == FULL32
      invariant x >= 64 ==> e.b == FULL
      invariant x >= 96 ==> Low32(e.a) == FULL32
      invariant x >= 128 ==> e == ALLONES
    {
      var val := Word32(e, x / 32);
      if val != FULL32 {
        WordIndex(if x < 64 then e.b else e.a, x == 32 || x == 96);
        return x + Ffz(val, 32);
      }
      x := x + 32;
    }
  }

  // ---- the counter ----

  /** `inc` */
  function Inc(e: Elem): Elem { Elem(if Succ(e.b) == 0 then Succ(e.a) else e.a, Succ(e.b)) }

  /** The 128-bit number. */
  function Number(e: Elem): bv128 { ((e.a as bv128) << 64) | (e.b as bv128) }

  lemma IncAddsOne(e: Elem)
    ensures Number(Inc(e)) == Number(e) + 1
  {
  }

  /** The element with the n lowest bits set. */
  function OnesElem(n: nat): Elem { if n <= 64 then Elem(0, Ones(n)) else Elem(Ones(n - 64), FULL) }

  /** Consecutive numbers differ by a run of ones, as long as the counter does not wrap. */
  lemma IncIsXor(e: Elem, n: nat)
    requires IsIndex(e, n)
    ensures Inc(e) == Xor(e, OnesElem(n + 1))
  {
    hide And64Of, Succ, Grow, Xor64;
    if n < 64 {
      OnesShape(n);
      OnesNotFull(n);
      SuccIsXor(e.b, Ones(n));
      XorWithZero(e.a);
    } else {
      OnesShape(n - 64);
      OnesNotFull(n - 64);
      SuccIsXor(e.a, Ones(n - 64));
      SuccFull();
    }
  }

  lemma XorWithZero(x: bv64)
    ensures Xor64(x, 0) == x
  {
  }

  lemma SuccFull()
    ensures Succ(FULL) == 0 && Xor64(FULL, FULL) == 0
  {
  }

  // ---- setkey: the table of differences ----

  /** setbit128_bbe */
  function SetBit(e: Elem, i: nat): Elem
    requires i < 128
  {
    if i < 64 then Elem(e.a, e.b | BitAt(i)) else Elem(e.a | BitAt(i - 64), e.b)
  }

  lemma {:induction false} OnesBit(n: nat)
    ensures Ones(n) | BitAt(n) == Ones(n + 1)
  {
    if n == 0 {
    } else {
      OnesBit(n - 1);
      OrStep(Ones(n - 1), BitAt(n - 1), Ones(n));
      hide Ones, BitAt;
    }
  }

  lemma OrStep(o: bv64, b: bv64, p: bv64)
    requires o | b == p
    ensures Grow(o) | (b << 1) == Grow(p)
  {
  }

  lemma NextOnes(n: nat)
    requires n < 128
    ensures SetBit(OnesElem(n), n) == OnesElem(n + 1)
  {
    if n < 64 { OnesBit(n); } else { OnesBit(n - 64); }
    Ones64();
    assert Ones(0) == 0 by { OnesNone(); }
    hide BitAt, Ones;
  }

  lemma OnesNone()
    ensures Ones(0) == 0
  {
  }

  lemma NoOnes()
    ensures OnesElem(0) == ZEROELEM
  {
  }

  /** mulinc[i] is key2 times the number whose i + 1 lowest bits are set. */
  ghost predicate IsMulinc(mulinc: array<Elem>, key2: Poly)
    reads mulinc
  {
    mulinc.Length == 128
    && forall i :: 0 <= i < 128 ==> PolyOf(Bbe, mulinc[i]) == Product(key2, PolyOf(Bbe, OnesElem(i + 1)))
  }

  // ---- the mode ----

  /** Key2 times the number of the block, as an element. */
  ghost predicate IsTweak(t: Elem, key2: Poly, iv: Elem) { PolyOf(Bbe, t) == Product(key2, PolyOf(Bbe, iv)) }

  /** `lrw_round` */
  function Round(fn: Elem -> Elem, t: Elem, x: Elem): Elem { Xor(fn(Xor(t, x)), t) }

  /** The number j blocks after iv. */
  function Counter(iv: Elem, j: nat): Elem { if j == 0 then iv else Inc(Counter(iv, j - 1)) }

  /** The counter does not pass 2^128 - 1 on the way to block j. */
  predicate NoWrap(iv: Elem, j: nat) { forall i :: 0 <= i < j ==> Counter(iv, i) != ALLONES }

  /** y is block x, whitened before and after with the tweak of block j. */
  ghost predicate IsBlock(fn: Elem -> Elem, key2: Poly, iv: Elem, j: nat, x: Elem, y: Elem) {
    exists t :: IsTweak(t, key2, Counter(iv, j)) && y == Round(fn, t, x)
  }

  /** Every block is whitened with its own tweak. */
  ghost predicate IsLrw(fn: Elem -> Elem, key2: Poly, iv: Elem, src: seq<Elem>, dst: seq<Elem>) {
    |dst| == |src| && forall j :: 0 <= j < |src| ==> IsBlock(fn, key2, iv, j, src[j], dst[j])
  }

  lemma XorTwice(x: Elem, t: Elem)
    ensures Xor(Xor(x, t), t) == x && Xor(x, t) == Xor(t, x)
  {
    Xor64Twice(x.a, t.a);
    Xor64Twice(x.b, t.b);
    hide Xor64;
  }

  lemma Xor64Twice(x: bv64, t: bv64)
    ensures Xor64(Xor64(x, t), t) == x && Xor64(x, t) == Xor64(t, x)
  {
  }

  /** With the inverse cipher, the mode undoes itself, block by block. */
  lemma LrwUndoesLrw(enc: Elem -> Elem, dec: Elem -> Elem, key2: Poly, iv: Elem, src: seq<Elem>, mid: seq<Elem>,
                     dst: seq<Elem>)
    requires forall x :: dec(enc(x)) == x
    requires IsLrw(enc, key2, iv, src, mid) && IsLrw(dec, key2, iv, mid, dst)
    ensures dst == src
  {
    hide Xor, PolyOf, Product;
    forall j | 0 <= j < |src| ensures dst[j] == src[j] {
      assert IsBlock(enc, key2, iv, j, src[j], mid[j]) && IsBlock(dec, key2, iv, j, mid[j], dst[j]);
      var t :| IsTweak(t, key2, Counter(iv, j)) && mid[j] == Round(enc, t, src[j]);
      var u :| IsTweak(u, key2, Counter(iv, j)) && dst[j] == Round(dec, u, mid[j]);
      PolyInjective(Bbe, t, u);
      var e := enc(Xor(t, src[j]));
      XorTwice(e, t);
      XorTwice(Xor(e, t), t);
      XorTwice(src[j], t);
    }
  }

  /** The tweak of the next block. */
  lemma NextTweak(key2: Poly, t: Elem, iv: Elem, n: nat, d: Elem)
    requires IsTweak(t, key2, iv) && IsIndex(iv, n) && PolyOf(Bbe, d) == Product(key2, PolyOf(Bbe, OnesElem(n + 1)))
    ensures IsTweak(Xor(t, d), key2, Inc(iv))
  {
    IncIsXor(iv, n);
    XorIs(Bbe, iv, OnesElem(n + 1));
    XorIs(Bbe, t, d);
    ProductLinear(key2, PolyOf(Bbe, iv), PolyOf(Bbe, OnesElem(n + 1)));
    hide Xor, PolyOf, Product, Add, Inc, OnesElem;
  }

  function Concat(s: seq<seq<Elem>>): seq<Elem> { if s == [] then [] else s[0] + Concat(s[1..]) }

  lemma {:induction false} ConcatLast(s: seq<seq<Elem>>, x: seq<Elem>)
    ensures Concat(s + [x]) == Concat(s) + x
  {
    if s == [] {
      assert s + [x] == [x];
      assert Concat([x]) == x + [];
    } else {
      assert (s + [x])[1..] == s[1..] + [x];
      ConcatLast(s[1..], x);
    }
  }

  /** The tables of `struct priv`. */
  class Context {
    const mulinc: array<Elem>
    var table: seq<array<Elem>>
    ghost var key2: Poly

    constructor ()
      ensures fresh(mulinc) && mulinc.Length == 128
    {
      mulinc := new Elem[128](_ => ZEROELEM);
      table := [];
      key2 := ZERO;
    }

    ghost predicate Keyed()
      reads this, mulinc, table
    {
      |table| == 16 && AreTables(Bbe, table, key2) && IsMulinc(mulinc, key2)
    }

    /** The part of `setkey` that follows the child's. */
    method SetKey(key: Elem)
      requires mulinc.Length == 128
      modifies this, mulinc
      ensures Keyed() && key2 == PolyOf(Bbe, key)
    {
      hide PolyOf, Product, SetBit, OnesElem, IsTable;
      key2 := PolyOf(Bbe, key);
      table := Init64k(Bbe, key);
      var tmp := ZEROELEM;
      NoOnes();
      for i := 0 to 128
        invariant tmp == OnesElem(i) && |table| == 16 && key2 == PolyOf(Bbe, key) && AreTables(Bbe, table, key2)
        invariant forall k :: 0 <= k < 16 ==> fresh(table[k])
        invariant forall k :: 0 <= k < i ==> PolyOf(Bbe, mulinc[k]) == Product(key2, PolyOf(Bbe, OnesElem(k + 1)))
      {
        NextOnes(i);
        tmp := SetBit(tmp, i);
        var product := Mul64k(Bbe, tmp, table, key2);
        mulinc[i] := product;
      }
    }

    /** The blocks of one segment; `first` is the jump into the loop. */
    method Segment(fn: Elem -> Elem, ghost iv: Elem, seg: seq<Elem>, t0: Elem, c0: Elem, first0: bool,
                   ghost before: seq<Elem>, ghost after: seq<Elem>)
      returns (out: seq<Elem>, t: Elem, c: Elem, first: bool)
      requires |before| + |seg| > 0
      requires Keyed() && NoWrap(iv, |before| + |seg| - 1) && IsLrw(fn, key2, iv, before, after)
      requires first0 == (before == []) && IsTweak(t0, key2, c0)
               && c0 == Counter(iv, if first0 then 0 else |before| - 1)
      ensures |out| == |seg| && IsLrw(fn, key2, iv, before + seg, after + out)
      ensures first == (before + seg == []) && IsTweak(t, key2, c)
              && c == Counter(iv, if first then 0 else |before| + |seg| - 1)
    {
      hide PolyOf, Product, OnesElem, IsTable, Inc, IsLrw, IsTweak, IsIndex;
      out, t, c, first := [], t0, c0, first0;
      assert before + seg[..0] == before && after + out == after;
      for k := 0 to |seg|
        invariant |out| == k && IsLrw(fn, key2, iv, before + seg[..k], after + out)
        invariant first == (|before| + k == 0) && IsTweak(t, key2, c)
        invariant c == Counter(iv, if first then 0 else |before| + k - 1)
      {
        if !first {
          assert Counter(iv, |before| + k - 1) != ALLONES;
          var x := GetIndex(c);
          NextTweak(key2, t, c, x, mulinc[x]);
          t := Xor(t, mulinc[x]);
          c := Inc(c);
        }
        first := false;
        var y := Round(fn, t, seg[k]);
        AddBlock(fn, key2, iv, before + seg[..k], after + out, t, seg[k]);
        assert before + seg[..k] + [seg[k]] == before + seg[..k + 1];
        assert after + out + [y] == after + (out + [y]);
        out := out + [y];
      }
      assert seg[..|seg|] == seg;
    }

    /** `crypt`, for the segments of the walk.  fn is the child's block function. */
    method Crypt(fn: Elem -> Elem, iv: Elem, src: seq<seq<Elem>>) returns (dst: seq<seq<Elem>>, last: Elem)
      requires Keyed() && |Concat(src)| > 0 && NoWrap(iv, |Concat(src)| - 1)
      ensures IsLrw(fn, key2, iv, Concat(src), Concat(dst))
      ensures |dst| == |src| && forall i :: 0 <= i < |src| ==> |dst[i]| == |src[i]|
      ensures last == Counter(iv, |Concat(src)| - 1)
    {
      hide PolyOf, Product, OnesElem, IsTable, Inc, IsLrw, Concat, IsTweak;
      var t := Mul64k(Bbe, iv, table, key2);
      TweakOf(t, key2, iv);
      last, dst := iv, [];
      var first := true;
      NoBlocks(fn, key2, iv);
      assert src[..0] == [];
      for i := 0 to |src|
        invariant |dst| == i && forall k :: 0 <= k < i ==> |dst[k]| == |src[k]|
        invariant IsLrw(fn, key2, iv, Concat(src[..i]), Concat(dst))
        invariant first == (Concat(src[..i]) == []) && IsTweak(t, key2, last)
        invariant last == Counter(iv, if first then 0 else |Concat(src[..i])| - 1)
      {
        ghost var before := Concat(src[..i]);
        assert src[..i + 1] == src[..i] + [src[i]];
        ConcatLast(src[..i], src[i]);
        ConcatPrefix(src, i + 1);
        if first && |src[i]| == 0 {
          ConcatLast(dst, []);
          assert Concat(dst) + [] == Concat(dst) && before + src[i] == before;
          dst := dst + [[]];
        } else {
          ghost var done := Concat(dst);
          var out;
          out, t, last, first := Segment(fn, iv, src[i], t, last, first, before, done);
          ConcatLast(dst, out);
          dst := dst + [out];
        }
      }
      assert src[..|src|] == src;
    }
  }

  lemma TweakOf(t: Elem, key2: Poly, iv: Elem)
    requires PolyOf(Bbe, t) == Product(key2, PolyOf(Bbe, iv))
    ensures IsTweak(t, key2, iv)
  {
  }

  lemma NoBlocks(fn: Elem -> Elem, key2: Poly, iv: Elem)
    ensures Concat([]) == [] && IsLrw(fn, key2, iv, [], [])
  {
  }

  lemma AddBlock(fn: Elem -> Elem, key2: Poly, iv: Elem, src: seq<Elem>, dst: seq<Elem>, t: Elem, x: Elem)
    requires IsLrw(fn, key2, iv, src, dst) && IsTweak(t, key2, Counter(iv, |src|))
    ensures IsLrw(fn, key2, iv, src + [x], dst + [Round(fn, t, x)])
  {
    hide IsTweak, Round, Counter;
    assert IsBlock(fn, key2, iv, |src|, x, Round(fn, t, x));
    hide IsBlock;
  }

  /** A prefix of the segments has no more blocks than all of them. */
  lemma {:induction false} ConcatPrefix(s: seq<seq<Elem>>, n: nat)
    requires n <= |s|
    ensures |Concat(s[..n])| <= |Concat(s)|
    decreases |s| - n
  {
    if n < |s| {
      assert s[..n + 1] == s[..n] + [s[n]];
      ConcatLast(s[..n], s[n]);
      ConcatPrefix(s, n + 1);
    } else {
      assert s[..n] == s;
    }
  }
}
