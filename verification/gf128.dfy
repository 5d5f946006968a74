/** Multiplication in GF(2^128) with table support: gf128mul.c, in the bbe and lle
    conventions, proved against the polynomial product of module Gf128Poly. */
module Gf128 {
  import opened Gf128Poly

  /** A be128, as the two 64-bit words in host order. */
  datatype Elem = Elem(a: bv64, b: bv64)

  function Xor64(x: bv64, y: bv64): bv64 { x ^ y }

  /** be128_xor */
  function Xor(x: Elem, y: Elem): Elem { Elem(Xor64(x.a, y.a), Xor64(x.b, y.b)) }

  const ZEROELEM := Elem(0, 0)

  /** The order of coefficients: in bbe, x^0 is the last bit of the last byte; in lle it is
      the first bit of the first byte. */
  datatype Convention = Bbe | Lle

  // ---- the functions on words ----

  function If16(i: bv64, mask: bv64, value: bv64): bv64 { if i & mask == 0 then 0 else value }

  /** xda_bbe: gf128mul_table_bbe[i] */
  function TableBbe(i: bv64): bv64 {
    If16(i, 0x80, 0x4380) ^ If16(i, 0x40, 0x21c0) ^ If16(i, 0x20, 0x10e0) ^ If16(i, 0x10, 0x0870)
    ^ If16(i, 0x08, 0x0438) ^ If16(i, 0x04, 0x021c) ^ If16(i, 0x02, 0x010e) ^ If16(i, 0x01, 0x0087)
  }

  /** xda_lle: gf128mul_table_lle[i] */
  function TableLle(i: bv64): bv64 {
    If16(i, 0x80, 0xe100) ^ If16(i, 0x40, 0x7080) ^ If16(i, 0x20, 0x3840) ^ If16(i, 0x10, 0x1c20)
    ^ If16(i, 0x08, 0x0e10) ^ If16(i, 0x04, 0x0708) ^ If16(i, 0x02, 0x0384) ^ If16(i, 0x01, 0x01c2)
  }

  function Up(a: bv64, b: bv64, n: bv7): bv64
    requires n <= 64
  {
    (a << n) | (b >> (64 - n))
  }

  function Down(a: bv64, b: bv64, n: bv7): bv64
    requires n <= 64
  {
    (b >> n) | (a << (64 - n))
  }

  function Shl64(a: bv64, n: bv7): bv64
    requires n <= 64
  {
    a << n
  }

  function Shr64(a: bv64, n: bv7): bv64
    requires n <= 64
  {
    a >> n
  }

  function And64(a: bv64, m: bv64): bv64 { a & m }

  /** gf128mul_x_bbe */
  function XBbe(e: Elem): Elem { Elem(Up(e.a, e.b, 1), Xor64(Shl64(e.b, 1), TableBbe(Shr64(e.a, 63)))) }

  /** gf128mul_x_lle */
  function XLle(e: Elem): Elem {
    Elem(Xor64(Shr64(e.a, 1), Shl64(TableLle(And64(Shl64(e.b, 7), 0xff)), 48)), Down(e.a, e.b, 1))
  }

  /** gf128mul_x8_bbe */
  function X8Bbe(e: Elem): Elem { Elem(Up(e.a, e.b, 8), Xor64(Shl64(e.b, 8), TableBbe(Shr64(e.a, 56)))) }

  /** gf128mul_x8_lle */
  function X8Lle(e: Elem): Elem {
    Elem(Xor64(Shr64(e.a, 8), Shl64(TableLle(And64(e.b, 0xff)), 48)), Down(e.a, e.b, 8))
  }

  function X(c: Convention, e: Elem): Elem { if c == Bbe then XBbe(e) else XLle(e) }
  function X8(c: Convention, e: Elem): Elem { if c == Bbe then X8Bbe(e) else X8Lle(e) }

  // ---- elements as polynomials ----

  function Get(w: bv64, s: bv7): bv8
    requires s <= 56
  {
    ((w >> s) & 0xff) as bv8
  }

  /** Byte i of the be128 in memory: ((u8 *)e)[i] */
  function ByteAt(e: Elem, i: nat): bv8
    requires i < 16
  {
    match i
    case 0 => Get(e.a, 56) case 1 => Get(e.a, 48) case 2 => Get(e.a, 40) case 3 => Get(e.a, 32)
    case 4 => Get(e.a, 24) case 5 => Get(e.a, 16) case 6 => Get(e.a, 8) case 7 => Get(e.a, 0)
    case 8 => Get(e.b, 56) case 9 => Get(e.b, 48) case 10 => Get(e.b, 40) case 11 => Get(e.b, 32)
    case 12 => Get(e.b, 24) case 13 => Get(e.b, 16) case 14 => Get(e.b, 8) case 15 => Get(e.b, 0)
  }

  /** The bits of a byte in the opposite order. */
  function Reverse(x: bv8): bv8 {
    ((x & 1) << 7) | ((x & 2) << 5) | ((x & 4) << 3) | ((x & 8) << 1)
    | ((x & 0x10) >> 1) | ((x & 0x20) >> 3) | ((x & 0x40) >> 5) | ((x & 0x80) >> 7)
  }

  /** The coefficients 8p .. 8p + 7. */
  function PolyByte(c: Convention, e: Elem, p: nat): bv8
    requires p < 16
  {
    if c == Bbe then ByteAt(e, 15 - p) else Reverse(ByteAt(e, p))
  }

  /** The polynomial that a be128 stands for. */
  function PolyOf(c: Convention, e: Elem): Poly { seq(16, p requires 0 <= p < 16 => PolyByte(c, e, p)) }

  // ---- bytes of shifted words ----

  lemma XorBytes0(x: bv64, y: bv64)
    ensures Get(Xor64(x, y), 56) == Xor8(Get(x, 56), Get(y, 56))
    ensures Get(Xor64(x, y), 48) == Xor8(Get(x, 48), Get(y, 48))
  {
  }

  lemma XorBytes1(x: bv64, y: bv64)
    ensures Get(Xor64(x, y), 40) == Xor8(Get(x, 40), Get(y, 40))
    ensures Get(Xor64(x, y), 32) == Xor8(Get(x, 32), Get(y, 32))
  {
  }

  lemma XorBytes2(x: bv64, y: bv64)
    ensures Get(Xor64(x, y), 24) == Xor8(Get(x, 24), Get(y, 24))
    ensures Get(Xor64(x, y), 16) == Xor8(Get(x, 16), Get(y, 16))
  {
  }

  lemma XorBytes3(x: bv64, y: bv64)
    ensures Get(Xor64(x, y), 8) == Xor8(Get(x, 8), Get(y, 8))
    ensures Get(Xor64(x, y), 0) == Xor8(Get(x, 0), Get(y, 0))
  {
  }

  /** One bit up, byte by byte. */
  lemma UpBytes0(a: bv64, b: bv64)
    ensures Get(Up(a, b, 1), 56) == Window(Get(a, 56), Get(a, 48), 1)
    ensures Get(Up(a, b, 1), 48) == Window(Get(a, 48), Get(a, 40), 1)
    ensures Get(Up(a, b, 1), 40) == Window(Get(a, 40), Get(a, 32), 1)
  {
  }

  lemma UpBytes1(a: bv64, b: bv64)
    ensures Get(Up(a, b, 1), 32) == Window(Get(a, 32), Get(a, 24), 1)
    ensures Get(Up(a, b, 1), 24) == Window(Get(a, 24), Get(a, 16), 1)
    ensures Get(Up(a, b, 1), 16) == Window(Get(a, 16), Get(a, 8), 1)
  {
  }

  lemma UpBytes2(a: bv64, b: bv64)
    ensures Get(Up(a, b, 1), 8) == Window(Get(a, 8), Get(a, 0), 1)
    ensures Get(Up(a, b, 1), 0) == Window(Get(a, 0), Get(b, 56), 1)
  {
  }

  lemma ShlBytes0(b: bv64)
    ensures Get(Shl64(b, 1), 56) == Window(Get(b, 56), Get(b, 48), 1)
    ensures Get(Shl64(b, 1), 48) == Window(Get(b, 48), Get(b, 40), 1)
    ensures Get(Shl64(b, 1), 40) == Window(Get(b, 40), Get(b, 32), 1)
  {
  }

  lemma ShlBytes1(b: bv64)
    ensures Get(Shl64(b, 1), 32) == Window(Get(b, 32), Get(b, 24), 1)
    ensures Get(Shl64(b, 1), 24) == Window(Get(b, 24), Get(b, 16), 1)
    ensures Get(Shl64(b, 1), 16) == Window(Get(b, 16), Get(b, 8), 1)
  {
  }

  lemma ShlBytes2(b: bv64)
    ensures Get(Shl64(b, 1), 8) == Window(Get(b, 8), Get(b, 0), 1)
    ensures Get(Shl64(b, 1), 0) == Shifted(Get(b, 0))
  {
  }

  /** One bit down, byte by byte. */
  lemma DownBytes0(a: bv64, b: bv64)
    ensures Get(Down(a, b, 1), 56) == WindowDown(Get(b, 56), Get(a, 0))
    ensures Get(Down(a, b, 1), 48) == WindowDown(Get(b, 48), Get(b, 56))
    ensures Get(Down(a, b, 1), 40) == WindowDown(Get(b, 40), Get(b, 48))
  {
  }

  lemma DownBytes1(a: bv64, b: bv64)
    ensures Get(Down(a, b, 1), 32) == WindowDown(Get(b, 32), Get(b, 40))
    ensures Get(Down(a, b, 1), 24) == WindowDown(Get(b, 24), Get(b, 32))
    ensures Get(Down(a, b, 1), 16) == WindowDown(Get(b, 16), Get(b, 24))
  {
  }

  lemma DownBytes2(a: bv64, b: bv64)
    ensures Get(Down(a, b, 1), 8) == WindowDown(Get(b, 8), Get(b, 16))
    ensures Get(Down(a, b, 1), 0) == WindowDown(Get(b, 0), Get(b, 8))
  {
  }

  lemma ShrBytes0(a: bv64)
    ensures Get(Shr64(a, 1), 56) == ShiftedDown(Get(a, 56))
    ensures Get(Shr64(a, 1), 48) == WindowDown(Get(a, 48), Get(a, 56))
    ensures Get(Shr64(a, 1), 40) == WindowDown(Get(a, 40), Get(a, 48))
  {
  }

  lemma ShrBytes1(a: bv64)
    ensures Get(Shr64(a, 1), 32) == WindowDown(Get(a, 32), Get(a, 40))
    ensures Get(Shr64(a, 1), 24) == WindowDown(Get(a, 24), Get(a, 32))
    ensures Get(Shr64(a, 1), 16) == WindowDown(Get(a, 16), Get(a, 24))
  {
  }

  lemma ShrBytes2(a: bv64)
    ensures Get(Shr64(a, 1), 8) == WindowDown(Get(a, 8), Get(a, 16))
    ensures Get(Shr64(a, 1), 0) == WindowDown(Get(a, 0), Get(a, 8))
  {
  }

  lemma Up8Bytes(a: bv64, b: bv64)
    ensures var w := Up(a, b, 8);
      Get(w, 56) == Get(a, 48) && Get(w, 48) == Get(a, 40) && Get(w, 40) == Get(a, 32) && Get(w, 32) == Get(a, 24)
      && Get(w, 24) == Get(a, 16) && Get(w, 16) == Get(a, 8) && Get(w, 8) == Get(a, 0) && Get(w, 0) == Get(b, 56)
  {
  }

  lemma Shl8Bytes(b: bv64)
    ensures var w := Shl64(b, 8);
      Get(w, 56) == Get(b, 48) && Get(w, 48) == Get(b, 40) && Get(w, 40) == Get(b, 32) && Get(w, 32) == Get(b, 24)
      && Get(w, 24) == Get(b, 16) && Get(w, 16) == Get(b, 8) && Get(w, 8) == Get(b, 0) && Get(w, 0) == 0
  {
  }

  lemma Down8Bytes(a: bv64, b: bv64)
    ensures var w := Down(a, b, 8);
      Get(w, 56) == Get(a, 0) && Get(w, 48) == Get(b, 56) && Get(w, 40) == Get(b, 48) && Get(w, 32) == Get(b, 40)
      && Get(w, 24) == Get(b, 32) && Get(w, 16) == Get(b, 24) && Get(w, 8) == Get(b, 16) && Get(w, 0) == Get(b, 8)
  {
  }

  lemma Shr8Bytes(a: bv64)
    ensures var w := Shr64(a, 8);
      Get(w, 56) == 0 && Get(w, 48) == Get(a, 56) && Get(w, 40) == Get(a, 48) && Get(w, 32) == Get(a, 40)
      && Get(w, 24) == Get(a, 32) && Get(w, 16) == Get(a, 24) && Get(w, 8) == Get(a, 16) && Get(w, 0) == Get(a, 8)
  {
  }

  /** gf128mul_table_bbe[a >> 63] */
  lemma ReductionBbe(a: bv64)
    ensures var t := TableBbe(Shr64(a, 63));
      Get(t, 56) == 0 && Get(t, 48) == 0 && Get(t, 40) == 0 && Get(t, 32) == 0
      && Get(t, 24) == 0 && Get(t, 16) == 0 && Get(t, 8) == 0 && Get(t, 0) == Reduction(Get(a, 56))
  {
  }

  /** gf128mul_table_bbe[a >> 56] */
  lemma SpreadBbe(a: bv64)
    ensures var t := TableBbe(Shr64(a, 56));
      Get(t, 56) == 0 && Get(t, 48) == 0 && Get(t, 40) == 0 && Get(t, 32) == 0
      && Get(t, 24) == 0 && Get(t, 16) == 0 && Get(t, 8) == HighSpread(Get(a, 56)) && Get(t, 0) == LowSpread(Get(a, 56))
  {
  }

  /** gf128mul_table_lle[(b << 7) & 0xff] << 48 */
  lemma ReductionLle(b: bv64)
    ensures var t := Shl64(TableLle(And64(Shl64(b, 7), 0xff)), 48);
      Get(t, 56) == Reverse(Reduction(Reverse(Get(b, 0)))) && Get(t, 48) == 0 && Get(t, 40) == 0 && Get(t, 32) == 0
      && Get(t, 24) == 0 && Get(t, 16) == 0 && Get(t, 8) == 0 && Get(t, 0) == 0
  {
  }

  /** gf128mul_table_lle[b & 0xff] << 48 */
  lemma SpreadLle(b: bv64)
    ensures var t := Shl64(TableLle(And64(b, 0xff)), 48);
      Get(t, 56) == Reverse(LowSpread(Reverse(Get(b, 0)))) && Get(t, 48) == Reverse(HighSpread(Reverse(Get(b, 0))))
      && Get(t, 40) == 0 && Get(t, 32) == 0
      && Get(t, 24) == 0 && Get(t, 16) == 0 && Get(t, 8) == 0 && Get(t, 0) == 0
  {
  }

  function WindowDown(x: bv8, y: bv8): bv8 { (x >> 1) | (y << 7) }
  function ShiftedDown(x: bv8): bv8 { x >> 1 }

  lemma ReverseLaws(x: bv8, y: bv8)
    ensures Reverse(Reverse(x)) == x
    ensures Reverse(WindowDown(x, y)) == Window(Reverse(x), Reverse(y), 1)
    ensures Reverse(ShiftedDown(x)) == Shifted(Reverse(x))
    ensures Reverse(Xor8(x, y)) == Xor8(Reverse(x), Reverse(y))
    ensures Reverse(0) == 0
  {
  }

  // ---- the words of gf128mul_x and gf128mul_x8 ----

  lemma LowerBbe(a: bv64, b: bv64)
    ensures var w := Xor64(Shl64(b, 1), TableBbe(Shr64(a, 63)));
      Get(w, 56) == Window(Get(b, 56), Get(b, 48), 1) && Get(w, 48) == Window(Get(b, 48), Get(b, 40), 1)
      && Get(w, 40) == Window(Get(b, 40), Get(b, 32), 1) && Get(w, 32) == Window(Get(b, 32), Get(b, 24), 1)
      && Get(w, 24) == Window(Get(b, 24), Get(b, 16), 1) && Get(w, 16) == Window(Get(b, 16), Get(b, 8), 1)
      && Get(w, 8) == Window(Get(b, 8), Get(b, 0), 1) && Get(w, 0) == Xor8(Shifted(Get(b, 0)), Reduction(Get(a, 56)))
  {
    hide *;
    XorBytes0(Shl64(b, 1), TableBbe(Shr64(a, 63)));
    XorBytes1(Shl64(b, 1), TableBbe(Shr64(a, 63)));
    XorBytes2(Shl64(b, 1), TableBbe(Shr64(a, 63)));
    XorBytes3(Shl64(b, 1), TableBbe(Shr64(a, 63)));
    ShlBytes0(b);
    ShlBytes1(b);
    ShlBytes2(b);
    ReductionBbe(a);
    XorZero8(Get(Shl64(b, 1), 56)); XorZero8(Get(Shl64(b, 1), 48)); XorZero8(Get(Shl64(b, 1), 40));
    XorZero8(Get(Shl64(b, 1), 32));
    XorZero8(Get(Shl64(b, 1), 24)); XorZero8(Get(Shl64(b, 1), 16)); XorZero8(Get(Shl64(b, 1), 8));
  }

  lemma Lower8Bbe(a: bv64, b: bv64)
    ensures var w := Xor64(Shl64(b, 8), TableBbe(Shr64(a, 56)));
      Get(w, 56) == Get(b, 48) && Get(w, 48) == Get(b, 40) && Get(w, 40) == Get(b, 32) && Get(w, 32) == Get(b, 24)
      && Get(w, 24) == Get(b, 16) && Get(w, 16) == Get(b, 8) && Get(w, 8) == Xor8(Get(b, 0), HighSpread(Get(a, 56)))
      && Get(w, 0) == LowSpread(Get(a, 56))
  {
    hide *;
    XorBytes0(Shl64(b, 8), TableBbe(Shr64(a, 56)));
    XorBytes1(Shl64(b, 8), TableBbe(Shr64(a, 56)));
    XorBytes2(Shl64(b, 8), TableBbe(Shr64(a, 56)));
    XorBytes3(Shl64(b, 8), TableBbe(Shr64(a, 56)));
    Shl8Bytes(b);
    SpreadBbe(a);
    XorZero8(Get(Shl64(b, 8), 56)); XorZero8(Get(Shl64(b, 8), 48)); XorZero8(Get(Shl64(b, 8), 40));
    XorZero8(Get(Shl64(b, 8), 32));
    XorZero8(Get(Shl64(b, 8), 24)); XorZero8(Get(Shl64(b, 8), 16)); XorZero8(LowSpread(Get(a, 56)));
  }

  lemma UpperLle(a: bv64, b: bv64)
    ensures var w := Xor64(Shr64(a, 1), Shl64(TableLle(And64(Shl64(b, 7), 0xff)), 48));
      Get(w, 56) == Xor8(ShiftedDown(Get(a, 56)), Reverse(Reduction(Reverse(Get(b, 0)))))
      && Get(w, 48) == WindowDown(Get(a, 48), Get(a, 56)) && Get(w, 40) == WindowDown(Get(a, 40), Get(a, 48))
      && Get(w, 32) == WindowDown(Get(a, 32), Get(a, 40))
      && Get(w, 24) == WindowDown(Get(a, 24), Get(a, 32)) && Get(w, 16) == WindowDown(Get(a, 16), Get(a, 24))
      && Get(w, 8) == WindowDown(Get(a, 8), Get(a, 16)) && Get(w, 0) == WindowDown(Get(a, 0), Get(a, 8))
  {
    hide *;
    XorBytes0(Shr64(a, 1), Shl64(TableLle(And64(Shl64(b, 7), 0xff)), 48));
    XorBytes1(Shr64(a, 1), Shl64(TableLle(And64(Shl64(b, 7), 0xff)), 48));
    XorBytes2(Shr64(a, 1), Shl64(TableLle(And64(Shl64(b, 7), 0xff)), 48));
    XorBytes3(Shr64(a, 1), Shl64(TableLle(And64(Shl64(b, 7), 0xff)), 48));
    ShrBytes0(a);
    ShrBytes1(a);
    ShrBytes2(a);
    ReductionLle(b);
    XorZero8(Get(Shr64(a, 1), 48)); XorZero8(Get(Shr64(a, 1), 40)); XorZero8(Get(Shr64(a, 1), 32));
    XorZero8(Get(Shr64(a, 1), 24));
    XorZero8(Get(Shr64(a, 1), 16)); XorZero8(Get(Shr64(a, 1), 8)); XorZero8(Get(Shr64(a, 1), 0));
  }

  lemma Upper8Lle(a: bv64, b: bv64)
    ensures var w := Xor64(Shr64(a, 8), Shl64(TableLle(And64(b, 0xff)), 48));
      Get(w, 56) == Reverse(LowSpread(Reverse(Get(b, 0))))
      && Get(w, 48) == Xor8(Get(a, 56), Reverse(HighSpread(Reverse(Get(b, 0))))) && Get(w, 40) == Get(a, 48)
      && Get(w, 32) == Get(a, 40)
      && Get(w, 24) == Get(a, 32) && Get(w, 16) == Get(a, 24) && Get(w, 8) == Get(a, 16) && Get(w, 0) == Get(a, 8)
  {
    hide *;
    XorBytes0(Shr64(a, 8), Shl64(TableLle(And64(b, 0xff)), 48));
    XorBytes1(Shr64(a, 8), Shl64(TableLle(And64(b, 0xff)), 48));
    XorBytes2(Shr64(a, 8), Shl64(TableLle(And64(b, 0xff)), 48));
    XorBytes3(Shr64(a, 8), Shl64(TableLle(And64(b, 0xff)), 48));
    Shr8Bytes(a);
    SpreadLle(b);
    XorZero8(Get(Shr64(a, 8), 40)); XorZero8(Get(Shr64(a, 8), 32)); XorZero8(Get(Shr64(a, 8), 24));
    XorZero8(Get(Shr64(a, 8), 16));
    XorZero8(Get(Shr64(a, 8), 8)); XorZero8(Get(Shr64(a, 8), 0)); XorZero8(Reverse(LowSpread(Reverse(Get(b, 0)))));
  }

  // ---- gf128mul_x and gf128mul_x8 multiply by x and x^8 ----

  lemma XorZero8(x: bv8)
    ensures Xor8(x, 0) == x && Xor8(0, x) == x
  {
  }

  lemma XBbeUpper(e: Elem, i: nat)
    requires i < 8
    ensures ByteAt(XBbe(e), i) == Window(ByteAt(e, i), ByteAt(e, i + 1), 1)
  {
    hide Get, Window, Up, Shl64, Shr64, TableBbe, Xor64;
    UpBytes0(e.a, e.b);
    UpBytes1(e.a, e.b);
    UpBytes2(e.a, e.b);
  }

  lemma XBbeLower(e: Elem, i: nat)
    requires 8 <= i < 15
    ensures ByteAt(XBbe(e), i) == Window(ByteAt(e, i), ByteAt(e, i + 1), 1)
  {
    hide Get, Window, Up, Shl64, Shr64, TableBbe, Xor64, Xor8, Reduction, Shifted;
    LowerBbe(e.a, e.b);
  }

  lemma XBbeLast(e: Elem)
    ensures ByteAt(XBbe(e), 15) == Xor8(Shifted(ByteAt(e, 15)), Reduction(ByteAt(e, 0)))
  {
    hide Get, Window, Up, Shl64, Shr64, TableBbe, Xor64, Xor8, Reduction, Shifted;
    LowerBbe(e.a, e.b);
  }

  lemma XBbeIs(e: Elem)
    ensures PolyOf(Bbe, XBbe(e)) == TimesX(PolyOf(Bbe, e))
  {
    hide XBbe, ByteAt, Xor8, Window, Reduction, Shifted;
    forall p | 0 <= p < 16 ensures PolyOf(Bbe, XBbe(e))[p] == TimesX(PolyOf(Bbe, e))[p] {
      if p == 0 { XBbeLast(e); } else if p < 8 { XBbeLower(e, 15 - p); } else { XBbeUpper(e, 15 - p); }
    }
  }

  lemma X8BbeIs(e: Elem)
    ensures PolyOf(Bbe, X8Bbe(e)) == TimesX8(PolyOf(Bbe, e))
  {
    hide Get, Up, Shl64, Shr64, TableBbe, Xor64, Xor8, HighSpread, LowSpread;
    Up8Bytes(e.a, e.b);
    Lower8Bbe(e.a, e.b);
    forall p | 0 <= p < 16 ensures PolyOf(Bbe, X8Bbe(e))[p] == TimesX8(PolyOf(Bbe, e))[p] {
    }
  }

  lemma XLleLower(e: Elem, i: nat)
    requires 8 <= i < 16
    ensures ByteAt(XLle(e), i) == WindowDown(ByteAt(e, i), ByteAt(e, i - 1))
  {
    hide Get, WindowDown, Down, And64, Shl64, Shr64, TableLle, Xor64;
    DownBytes0(e.a, e.b);
    DownBytes1(e.a, e.b);
    DownBytes2(e.a, e.b);
  }

  lemma XLleUpper(e: Elem, i: nat)
    requires 0 < i < 8
    ensures ByteAt(XLle(e), i) == WindowDown(ByteAt(e, i), ByteAt(e, i - 1))
  {
    hide Get, WindowDown, ShiftedDown, Reverse, Down, And64, Shl64, Shr64, TableLle, Xor64, Xor8, Reduction;
    UpperLle(e.a, e.b);
  }

  lemma XLleFirst(e: Elem)
    ensures ByteAt(XLle(e), 0) == Xor8(ShiftedDown(ByteAt(e, 0)), Reverse(Reduction(Reverse(ByteAt(e, 15)))))
  {
    hide Get, WindowDown, ShiftedDown, Reverse, Down, And64, Shl64, Shr64, TableLle, Xor64, Xor8, Reduction;
    UpperLle(e.a, e.b);
  }

  lemma XLleIs(e: Elem)
    ensures PolyOf(Lle, XLle(e)) == TimesX(PolyOf(Lle, e))
  {
    hide XLle, ByteAt, Xor8, Window, WindowDown, ShiftedDown, Reverse, Reduction, Shifted;
    forall p | 0 <= p < 16 ensures PolyOf(Lle, XLle(e))[p] == TimesX(PolyOf(Lle, e))[p] {
      if p == 0 {
        XLleFirst(e);
        var r := Reduction(Reverse(ByteAt(e, 15)));
        ReverseLaws(ShiftedDown(ByteAt(e, 0)), Reverse(r));
        ReverseLaws(r, r);
        ReverseLaws(ByteAt(e, 0), r);
      } else {
        if p < 8 { XLleUpper(e, p); } else { XLleLower(e, p); }
        ReverseLaws(ByteAt(e, p), ByteAt(e, p - 1));
      }
    }
  }

  lemma X8LleUpper(e: Elem, i: nat)
    requires 2 <= i < 8
    ensures ByteAt(X8Lle(e), i) == ByteAt(e, i - 1)
  {
    hide Get, Reverse, Down, And64, Shl64, Shr64, TableLle, Xor64, Xor8, HighSpread, LowSpread;
    Upper8Lle(e.a, e.b);
  }

  lemma X8LleLower(e: Elem, i: nat)
    requires 8 <= i < 16
    ensures ByteAt(X8Lle(e), i) == ByteAt(e, i - 1)
  {
    hide Get, Down, And64, Shl64, Shr64, TableLle, Xor64;
    Down8Bytes(e.a, e.b);
  }

  lemma X8LleFirst(e: Elem)
    ensures ByteAt(X8Lle(e), 0) == Reverse(LowSpread(Reverse(ByteAt(e, 15))))
    ensures ByteAt(X8Lle(e), 1) == Xor8(ByteAt(e, 0), Reverse(HighSpread(Reverse(ByteAt(e, 15)))))
  {
    hide Get, Reverse, Down, And64, Shl64, Shr64, TableLle, Xor64, Xor8, HighSpread, LowSpread;
    Upper8Lle(e.a, e.b);
  }

  lemma X8LleIs(e: Elem)
    ensures PolyOf(Lle, X8Lle(e)) == TimesX8(PolyOf(Lle, e))
  {
    hide Reverse, X8Lle, ByteAt, Xor8, HighSpread, LowSpread;
    var top := Reverse(ByteAt(e, 15));
    ReverseLaws(LowSpread(top), 0);
    ReverseLaws(HighSpread(top), 0);
    ReverseLaws(ByteAt(e, 0), Reverse(HighSpread(top)));
    X8LleFirst(e);
    forall p | 0 <= p < 16 ensures PolyOf(Lle, X8Lle(e))[p] == TimesX8(PolyOf(Lle, e))[p] {
      if 2 <= p < 8 { X8LleUpper(e, p); } else if p >= 8 { X8LleLower(e, p); }
    }
  }

  /** gf128mul_x of either convention multiplies the polynomial by x. */
  lemma XIs(c: Convention, e: Elem)
    ensures PolyOf(c, X(c, e)) == TimesX(PolyOf(c, e))
  {
    hide PolyOf, XBbe, XLle, TimesX;
    if c == Bbe { XBbeIs(e); } else { XLleIs(e); }
  }

  /** gf128mul_x8 of either convention multiplies it by x^8. */
  lemma X8Is(c: Convention, e: Elem)
    ensures PolyOf(c, X8(c, e)) == Xn(8, PolyOf(c, e))
  {
    hide PolyOf, X8Bbe, X8Lle, TimesX8, Xn;
    if c == Bbe { X8BbeIs(e); } else { X8LleIs(e); }
    TimesX8Is(PolyOf(c, e));
  }

  // ---- be128_xor adds ----

  lemma XorByteUpper(e: Elem, f: Elem, i: nat)
    requires i < 8
    ensures ByteAt(Xor(e, f), i) == Xor8(ByteAt(e, i), ByteAt(f, i))
  {
    hide Get, Xor64, Xor8;
    XorBytes0(e.a, f.a);
    XorBytes1(e.a, f.a);
    XorBytes2(e.a, f.a);
    XorBytes3(e.a, f.a);
  }

  lemma XorByteLower(e: Elem, f: Elem, i: nat)
    requires 8 <= i < 16
    ensures ByteAt(Xor(e, f), i) == Xor8(ByteAt(e, i), ByteAt(f, i))
  {
    hide Get, Xor64, Xor8;
    XorBytes0(e.b, f.b);
    XorBytes1(e.b, f.b);
    XorBytes2(e.b, f.b);
    XorBytes3(e.b, f.b);
  }

  lemma XorByte(e: Elem, f: Elem, i: nat)
    requires i < 16
    ensures ByteAt(Xor(e, f), i) == Xor8(ByteAt(e, i), ByteAt(f, i))
  {
    hide *;
    if i < 8 { XorByteUpper(e, f, i); } else { XorByteLower(e, f, i); }
  }

  lemma XorIs(c: Convention, e: Elem, f: Elem)
    ensures PolyOf(c, Xor(e, f)) == Add(PolyOf(c, e), PolyOf(c, f))
  {
    hide ByteAt, Xor, Xor8, Reverse;
    forall p | 0 <= p < 16 ensures PolyOf(c, Xor(e, f))[p] == Add(PolyOf(c, e), PolyOf(c, f))[p] {
      XorByte(e, f, 15 - p);
      XorByte(e, f, p);
      ReverseLaws(ByteAt(e, p), ByteAt(f, p));
    }
  }

  lemma ZeroIs(c: Convention)
    ensures PolyOf(c, ZEROELEM) == ZERO
  {
    XorElem(ZEROELEM);
    XorIs(c, ZEROELEM, ZEROELEM);
    AddZero(PolyOf(c, ZEROELEM));
    hide PolyOf, Xor, Add;
  }

  lemma XorElem(e: Elem)
    ensures Xor(e, e) == ZEROELEM
  {
  }

  // ---- different elements are different polynomials ----

  lemma WordOfBytes(w: bv64, v: bv64)
    requires Get(w, 56) == Get(v, 56) && Get(w, 48) == Get(v, 48) && Get(w, 40) == Get(v, 40)
             && Get(w, 32) == Get(v, 32)
    requires Get(w, 24) == Get(v, 24) && Get(w, 16) == Get(v, 16) && Get(w, 8) == Get(v, 8) && Get(w, 0) == Get(v, 0)
    ensures w == v
  {
  }

  lemma PolyByteInjective(c: Convention, e: Elem, f: Elem, i: nat)
    requires i < 16 && PolyOf(c, e) == PolyOf(c, f)
    ensures ByteAt(e, i) == ByteAt(f, i)
  {
    hide ByteAt, Reverse;
    assert PolyOf(c, e)[i] == PolyOf(c, f)[i] && PolyOf(c, e)[15 - i] == PolyOf(c, f)[15 - i];
    ReverseLaws(ByteAt(e, i), 0);
    ReverseLaws(ByteAt(f, i), 0);
  }

  lemma PolyInjective(c: Convention, e: Elem, f: Elem)
    requires PolyOf(c, e) == PolyOf(c, f)
    ensures e == f
  {
    hide Get, PolyOf;
    forall i | 0 <= i < 16 ensures ByteAt(e, i) == ByteAt(f, i) { PolyByteInjective(c, e, f, i); }
    WordsEqual(e, f);
  }

  lemma WordsEqual(e: Elem, f: Elem)
    requires forall i :: 0 <= i < 16 ==> ByteAt(e, i) == ByteAt(f, i)
    ensures e == f
  {
    hide Get;
    assert ByteAt(e, 0) == ByteAt(f, 0) && ByteAt(e, 1) == ByteAt(f, 1) && ByteAt(e, 2) == ByteAt(f, 2)
           && ByteAt(e, 3) == ByteAt(f, 3);
    assert ByteAt(e, 4) == ByteAt(f, 4) && ByteAt(e, 5) == ByteAt(f, 5) && ByteAt(e, 6) == ByteAt(f, 6)
           && ByteAt(e, 7) == ByteAt(f, 7);
    WordOfBytes(e.a, f.a);
    assert ByteAt(e, 8) == ByteAt(f, 8) && ByteAt(e, 9) == ByteAt(f, 9) && ByteAt(e, 10) == ByteAt(f, 10)
           && ByteAt(e, 11) == ByteAt(f, 11);
    assert ByteAt(e, 12) == ByteAt(f, 12) && ByteAt(e, 13) == ByteAt(f, 13) && ByteAt(e, 14) == ByteAt(f, 14)
           && ByteAt(e, 15) == ByteAt(f, 15);
    WordOfBytes(e.b, f.b);
  }
}
