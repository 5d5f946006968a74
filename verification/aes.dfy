/** AES: the cipher and inverse cipher of FIPS 197 for given round keys, and the table
    driven forms of aes_generic.c, for any S-box. */
module Aes {
  import opened AesWords

  /** The S-box and its inverse. */
  datatype SBox = SBox(s: bv8 -> bv8, si: bv8 -> bv8)

  ghost predicate Invertible(b: SBox) { forall x :: b.si(b.s(x)) == x }

  /** The four columns of the state. */
  datatype State = State(c0: Word, c1: Word, c2: Word, c3: Word)

  // ---- sections 5.1 and 5.3 of FIPS 197 ----

  function SubWord(f: bv8 -> bv8, a: Word): Word { Word(f(a.b0), f(a.b1), f(a.b2), f(a.b3)) }

  function SubBytes(f: bv8 -> bv8, s: State): State {
    State(SubWord(f, s.c0), SubWord(f, s.c1), SubWord(f, s.c2), SubWord(f, s.c3))
  }

  /** Row r is rotated by r columns. */
  function ShiftRows(s: State): State {
    State(Word(s.c0.b0, s.c1.b1, s.c2.b2, s.c3.b3), Word(s.c1.b0, s.c2.b1, s.c3.b2, s.c0.b3),
          Word(s.c2.b0, s.c3.b1, s.c0.b2, s.c1.b3), Word(s.c3.b0, s.c0.b1, s.c1.b2, s.c2.b3))
  }

  function InvShiftRows(s: State): State {
    State(Word(s.c0.b0, s.c3.b1, s.c2.b2, s.c1.b3), Word(s.c1.b0, s.c0.b1, s.c3.b2, s.c2.b3),
          Word(s.c2.b0, s.c1.b1, s.c0.b2, s.c3.b3), Word(s.c3.b0, s.c2.b1, s.c1.b2, s.c0.b3))
  }

  function MixColumns(s: State): State { State(MixColumn(s.c0), MixColumn(s.c1), MixColumn(s.c2), MixColumn(s.c3)) }

  function InvMixColumns(s: State): State {
    State(InvMixColumn(s.c0), InvMixColumn(s.c1), InvMixColumn(s.c2), InvMixColumn(s.c3))
  }

  function AddKey(s: State, k: State): State {
    State(Xor(s.c0, k.c0), Xor(s.c1, k.c1), Xor(s.c2, k.c2), Xor(s.c3, k.c3))
  }

  /** The round key that starts at word i. */
  function KeyAt(w: seq<Word>, i: nat): State
    requires i + 3 < |w|
  {
    State(w[i], w[i + 1], w[i + 2], w[i + 3])
  }

  function SubShift(b: SBox, s: State): State { ShiftRows(SubBytes(b.s, s)) }
  function InvSubShift(b: SBox, s: State): State { SubBytes(b.si, InvShiftRows(s)) }

  /** The state after r full rounds. */
  function Middle(b: SBox, w: seq<Word>, r: nat, s: State): State
    requires 4 * r + 3 < |w|
  {
    if r == 0 then s else AddKey(MixColumns(SubShift(b, Middle(b, w, r - 1, s))), KeyAt(w, 4 * r))
  }

  /** Cipher(), section 5.1 */
  function Cipher(b: SBox, w: seq<Word>, nr: nat, s: State): State
    requires 0 < nr && 4 * nr + 3 < |w|
  {
    AddKey(SubShift(b, Middle(b, w, nr - 1, AddKey(s, KeyAt(w, 0)))), KeyAt(w, 4 * nr))
  }

  /** The state after r full rounds of InvCipher(). */
  function InvMiddle(b: SBox, w: seq<Word>, nr: nat, r: nat, s: State): State
    requires r < nr && 4 * nr + 3 < |w|
  {
    if r == 0 then s else InvMixColumns(AddKey(InvSubShift(b, InvMiddle(b, w, nr, r - 1, s)), KeyAt(w, 4 * (nr - r))))
  }

  /** InvCipher(), section 5.3 */
  function InvCipher(b: SBox, w: seq<Word>, nr: nat, s: State): State
    requires 0 < nr && 4 * nr + 3 < |w|
  {
    AddKey(InvSubShift(b, InvMiddle(b, w, nr, nr - 1, AddKey(s, KeyAt(w, 4 * nr)))), KeyAt(w, 0))
  }

  // ---- the inverse cipher undoes the cipher ----

  lemma AddKeyTwice(s: State, k: State)
    ensures AddKey(AddKey(s, k), k) == s
  {
    XorTwice(s.c0, k.c0);
    XorTwice(s.c1, k.c1);
    XorTwice(s.c2, k.c2);
    XorTwice(s.c3, k.c3);
    hide Xor;
  }

  lemma XorTwice(a: Word, b: Word)
    ensures Xor(Xor(a, b), b) == a
  {
    XorCancel(a.b0, b.b0);
    XorCancel(a.b1, b.b1);
    XorCancel(a.b2, b.b2);
    XorCancel(a.b3, b.b3);
    hide Xor8;
  }

  lemma MixColumnsInverse(s: State)
    ensures InvMixColumns(MixColumns(s)) == s
  {
    MixInverse(s.c0);
    MixInverse(s.c1);
    MixInverse(s.c2);
    MixInverse(s.c3);
    hide MixColumn, InvMixColumn;
  }

  lemma SubShiftInverse(b: SBox, s: State)
    requires Invertible(b)
    ensures InvSubShift(b, SubShift(b, s)) == s
  {
  }

  /** After r inverse rounds, the state is the one the cipher had before its last r + 1
      substitutions. */
  lemma {:induction false} RoundsUndo(b: SBox, w: seq<Word>, nr: nat, r: nat, s: State)
    requires Invertible(b) && r < nr && 4 * nr + 3 < |w|
    ensures InvMiddle(b, w, nr, r, SubShift(b, Middle(b, w, nr - 1, s))) == SubShift(b, Middle(b, w, nr - 1 - r, s))
  {
    hide SubShift, InvSubShift, MixColumns, InvMixColumns, AddKey, KeyAt;
    if r > 0 {
      RoundsUndo(b, w, nr, r - 1, s);
      var m := Middle(b, w, nr - r, s);
      SubShiftInverse(b, m);
      var before := MixColumns(SubShift(b, Middle(b, w, nr - r - 1, s)));
      assert m == AddKey(before, KeyAt(w, 4 * (nr - r)));
      AddKeyTwice(before, KeyAt(w, 4 * (nr - r)));
      MixColumnsInverse(SubShift(b, Middle(b, w, nr - r - 1, s)));
    }
  }

  /** For every key schedule and block. */
  lemma InvCipherUndoesCipher(b: SBox, w: seq<Word>, nr: nat, s: State)
    requires Invertible(b) && 0 < nr && 4 * nr + 3 < |w|
    ensures InvCipher(b, w, nr, Cipher(b, w, nr, s)) == s
  {
    hide SubShift, InvSubShift, AddKey, KeyAt, InvMiddle;
    var t := AddKey(s, KeyAt(w, 0));
    var e := SubShift(b, Middle(b, w, nr - 1, t));
    AddKeyTwice(e, KeyAt(w, 4 * nr));
    RoundsUndo(b, w, nr, nr - 1, t);
    SubShiftInverse(b, t);
    AddKeyTwice(s, KeyAt(w, 0));
  }

  // ---- the equivalent inverse cipher (section 5.3.5) ----

  /** The state after r rounds of the equivalent inverse cipher, with the keys d. */
  function EqMiddle(b: SBox, d: seq<Word>, nr: nat, r: nat, s: State): State
    requires r < nr && 4 * nr <= |d|
  {
    if r == 0 then s
    else AddKey(InvMixColumns(InvSubShift(b, EqMiddle(b, d, nr, r - 1, s))), KeyAt(d, 4 * (nr - r)))
  }

  function EqInvCipher(b: SBox, w: seq<Word>, d: seq<Word>, nr: nat, s: State): State
    requires 0 < nr && 4 * nr + 3 < |w| && 4 * nr <= |d|
  {
    AddKey(InvSubShift(b, EqMiddle(b, d, nr, nr - 1, AddKey(s, KeyAt(w, 4 * nr)))), KeyAt(d, 0))
  }

  /** `d` is the decryption key schedule for `w`. */
  predicate IsInvSchedule(d: seq<Word>, w: seq<Word>, nr: nat) {
    && 4 * nr <= |d| && 4 * nr + 3 < |w|
    && (forall i :: 0 <= i < 4 && i < 4 * nr ==> d[i] == w[i])
    && forall i :: 4 <= i < 4 * nr ==> d[i] == InvMixColumn(w[i])
  }

  lemma MixKey(s: State, k: State)
    ensures InvMixColumns(AddKey(s, k)) == AddKey(InvMixColumns(s), InvMixColumns(k))
  {
    InvMixXor(s.c0, k.c0);
    InvMixXor(s.c1, k.c1);
    InvMixXor(s.c2, k.c2);
    InvMixXor(s.c3, k.c3);
    hide InvMixColumn, Xor;
  }

  lemma {:induction false} EqMiddleIsInvMiddle(b: SBox, w: seq<Word>, d: seq<Word>, nr: nat, r: nat, s: State)
    requires IsInvSchedule(d, w, nr) && r < nr
    ensures EqMiddle(b, d, nr, r, s) == InvMiddle(b, w, nr, r, s)
  {
    hide InvSubShift, AddKey, InvMixColumn;
    if r > 0 {
      EqMiddleIsInvMiddle(b, w, d, nr, r - 1, s);
      MixKey(InvSubShift(b, InvMiddle(b, w, nr, r - 1, s)), KeyAt(w, 4 * (nr - r)));
    }
  }

  /** With keys passed through InvMixColumns, the rounds may apply InvMixColumns first. */
  lemma EqInvCipherIsInvCipher(b: SBox, w: seq<Word>, d: seq<Word>, nr: nat, s: State)
    requires IsInvSchedule(d, w, nr) && 0 < nr
    ensures EqInvCipher(b, w, d, nr, s) == InvCipher(b, w, nr, s)
  {
    hide InvSubShift, AddKey, InvMixColumn;
    EqMiddleIsInvMiddle(b, w, d, nr, nr - 1, AddKey(s, KeyAt(w, 4 * nr)));
  }

  // ---- one column of a round by tables ----

  /** The four tables are rotations of one another. */
  function Rotated(n: nat, a: Word): Word
    requires n < 4
  {
    match n
    case 0 => a
    case 1 => Rol8(a)
    case 2 => Rol16(a)
    case 3 => Rol24(a)
  }

  function FtEntry(b: SBox, n: nat, x: bv8): Word
    requires n < 4
  {
    var p := b.s(x);
    Rotated(n, Word(Times2(p), p, p, Times3(p)))
  }

  function FlEntry(b: SBox, n: nat, x: bv8): Word
    requires n < 4
  {
    Rotated(n, Word(b.s(x), 0, 0, 0))
  }

  function ItEntry(b: SBox, n: nat, x: bv8): Word
    requires n < 4
  {
    var p := b.si(x);
    Rotated(n, Word(Times14(p), Times9(p), Times13(p), Times11(p)))
  }

  function IlEntry(b: SBox, n: nat, x: bv8): Word
    requires n < 4
  {
    Rotated(n, Word(b.si(x), 0, 0, 0))
  }

  function Sum5(a: Word, b: Word, c: Word, d: Word, k: Word): Word { Xor(Xor(Xor(Xor(a, b), c), d), k) }

  lemma Sum5Bytes(a: Word, b: Word, c: Word, d: Word, k: Word)
    ensures Sum5(a, b, c, d, k) == Xor(Word(Sum4(a.b0, b.b0, c.b0, d.b0), Sum4(a.b1, b.b1, c.b1, d.b1),
                                            Sum4(a.b2, b.b2, c.b2, d.b2), Sum4(a.b3, b.b3, c.b3, d.b3)), k)
  {
    XorLaws(Xor8(a.b0, b.b0), c.b0, d.b0);
    XorLaws(Xor8(a.b1, b.b1), c.b1, d.b1);
    XorLaws(Xor8(a.b2, b.b2), c.b2, d.b2);
    XorLaws(Xor8(a.b3, b.b3), c.b3, d.b3);
    hide Xor8;
  }

  /** f_rn */
  lemma ForwardColumn(b: SBox, x0: bv8, x1: bv8, x2: bv8, x3: bv8, k: Word)
    ensures Sum5(FtEntry(b, 0, x0), FtEntry(b, 1, x1), FtEntry(b, 2, x2), FtEntry(b, 3, x3), k)
            == Xor(MixColumn(Word(b.s(x0), b.s(x1), b.s(x2), b.s(x3))), k)
  {
    Sum5Bytes(FtEntry(b, 0, x0), FtEntry(b, 1, x1), FtEntry(b, 2, x2), FtEntry(b, 3, x3), k);
    hide Sum4, Times2, Times3, Xor, Sum5;
  }

  /** i_rn */
  lemma InverseColumn(b: SBox, x0: bv8, x1: bv8, x2: bv8, x3: bv8, k: Word)
    ensures Sum5(ItEntry(b, 0, x0), ItEntry(b, 1, x1), ItEntry(b, 2, x2), ItEntry(b, 3, x3), k)
            == Xor(InvMixColumn(Word(b.si(x0), b.si(x1), b.si(x2), b.si(x3))), k)
  {
    Sum5Bytes(ItEntry(b, 0, x0), ItEntry(b, 1, x1), ItEntry(b, 2, x2), ItEntry(b, 3, x3), k);
    hide Sum4, Times9, Times11, Times13, Times14, Xor, Sum5;
  }

  /** f_rl, i_rl and ls_box */
  lemma SingleBytes(a: bv8, b: bv8, c: bv8, d: bv8, k: Word)
    ensures Sum5(Word(a, 0, 0, 0), Rol8(Word(b, 0, 0, 0)), Rol16(Word(c, 0, 0, 0)), Rol24(Word(d, 0, 0, 0)), k)
            == Xor(Word(a, b, c, d), k)
  {
    Sum5Bytes(Word(a, 0, 0, 0), Rol8(Word(b, 0, 0, 0)), Rol16(Word(c, 0, 0, 0)), Rol24(Word(d, 0, 0, 0)), k);
    SumZero(a);
    SumZero(b);
    SumZero(c);
    SumZero(d);
    hide Sum4, Xor, Sum5;
  }

  // ---- section 5.2 of FIPS 197 ----

  function Rcon(i: nat): bv8 { if i == 0 then 1 else XTime(Rcon(i - 1)) }

  /** The word that is added to w[i - nk] to give w[i]; Rcon is counted from 0 here. */
  function Temp(b: SBox, nk: nat, i: nat, prev: Word): Word
    requires nk > 0 && i >= nk
  {
    if i % nk == 0 then Xor(SubWord(b.s, Rol24(prev)), Word(Rcon(i / nk - 1), 0, 0, 0))
    else if nk > 6 && i % nk == 4 then SubWord(b.s, prev)
    else prev
  }

  /** The first n words of `w` are the key expansion of the first nk words. */
  predicate IsExpansion(b: SBox, nk: nat, w: seq<Word>, n: nat)
    requires 0 < nk
  {
    n <= |w| && forall i :: nk <= i < n ==> w[i] == Xor(w[i - nk], Temp(b, nk, i, w[i - 1]))
  }
}
