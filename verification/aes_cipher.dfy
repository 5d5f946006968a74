/** The context of aes_generic.c: key setup, and the table driven block functions. */
module AesCipher {
  import opened Bytes
  import opened AesWords
  import opened Aes

  /** The static tables of the file. */
  class Tables {
    const pow: array<bv8>
    const log: array<bv8>
    const sbx: array<bv8>
    const isb: array<bv8>
    const rco: array<bv8>
    const ft: array2<Word>
    const it: array2<Word>
    const fl: array2<Word>
    const il: array2<Word>

    constructor ()
      ensures Shaped() && Distinct() && fresh(pow) && fresh(log) && fresh(sbx) && fresh(isb) && fresh(rco)
      ensures fresh(ft) && fresh(it) && fresh(fl) && fresh(il)
    {
      pow := new bv8[256](_ => 0);
      log := new bv8[256](_ => 0);
      sbx := new bv8[256](_ => 0);
      isb := new bv8[256](_ => 0);
      rco := new bv8[10](_ => 0);
      ft := new Word[4, 256]((_, _) => ZERO);
      it := new Word[4, 256]((_, _) => ZERO);
      fl := new Word[4, 256]((_, _) => ZERO);
      il := new Word[4, 256]((_, _) => ZERO);
    }

    ghost predicate Shaped() {
      && pow.Length == log.Length == sbx.Length == isb.Length == 256 && rco.Length == 10
      && ft.Length0 == it.Length0 == fl.Length0 == il.Length0 == 4
      && ft.Length1 == it.Length1 == fl.Length1 == il.Length1 == 256
    }

    /** They are separate objects. */
    ghost predicate Distinct() {
      && pow != log && pow != sbx && pow != isb && log != sbx && log != isb && sbx != isb

      && ft != it && ft != fl && ft != il && it != fl && it != il && fl != il
    }

    /** What the cipher needs of the tables, for the S-box b. */
    ghost predicate Filled(b: SBox)
      reads rco, ft, it, fl, il
    {
      && Shaped()
      && (forall i :: 0 <= i < 10 ==> rco[i] == Rcon(i))
      && (forall n, x :: 0 <= n < 4 && Index(x) < 256 ==> ft[n, Index(x)] == FtEntry(b, n, x))
      && (forall n, x :: 0 <= n < 4 && Index(x) < 256 ==> it[n, Index(x)] == ItEntry(b, n, x))
      && (forall n, x :: 0 <= n < 4 && Index(x) < 256 ==> fl[n, Index(x)] == FlEntry(b, n, x))
      && (forall n, x :: 0 <= n < 4 && Index(x) < 256 ==> il[n, Index(x)] == IlEntry(b, n, x))
    }

    /** f_rn: one column of a forward round. */
    method ForwardWord(ghost b: SBox, x0: bv8, x1: bv8, x2: bv8, x3: bv8, k: Word) returns (y: Word)
      requires Filled(b)
      ensures y == Xor(MixColumn(Word(b.s(x0), b.s(x1), b.s(x2), b.s(x3))), k)
    {
      hide Index, FtEntry, MixColumn;
      ByteOfIndex(x0); ByteOfIndex(x1); ByteOfIndex(x2); ByteOfIndex(x3);
      ForwardColumn(b, x0, x1, x2, x3, k);
      y := Xor(Xor(Xor(Xor(ft[0, Index(x0)], ft[1, Index(x1)]), ft[2, Index(x2)]), ft[3, Index(x3)]), k);
    }

    /** i_rn */
    method InverseWord(ghost b: SBox, x0: bv8, x1: bv8, x2: bv8, x3: bv8, k: Word) returns (y: Word)
      requires Filled(b)
      ensures y == Xor(InvMixColumn(Word(b.si(x0), b.si(x1), b.si(x2), b.si(x3))), k)
    {
      hide Index, ItEntry, InvMixColumn;
      ByteOfIndex(x0); ByteOfIndex(x1); ByteOfIndex(x2); ByteOfIndex(x3);
      InverseColumn(b, x0, x1, x2, x3, k);
      y := Xor(Xor(Xor(Xor(it[0, Index(x0)], it[1, Index(x1)]), it[2, Index(x2)]), it[3, Index(x3)]), k);
    }

    /** f_rl */
    method ForwardLastWord(ghost b: SBox, x0: bv8, x1: bv8, x2: bv8, x3: bv8, k: Word) returns (y: Word)
      requires Filled(b)
      ensures y == Xor(Word(b.s(x0), b.s(x1), b.s(x2), b.s(x3)), k)
    {
      hide Index, Xor;
      ByteOfIndex(x0); ByteOfIndex(x1); ByteOfIndex(x2); ByteOfIndex(x3);
      SingleBytes(b.s(x0), b.s(x1), b.s(x2), b.s(x3), k);
      y := Xor(Xor(Xor(Xor(fl[0, Index(x0)], fl[1, Index(x1)]), fl[2, Index(x2)]), fl[3, Index(x3)]), k);
    }

    /** i_rl */
    method InverseLastWord(ghost b: SBox, x0: bv8, x1: bv8, x2: bv8, x3: bv8, k: Word) returns (y: Word)
      requires Filled(b)
      ensures y == Xor(Word(b.si(x0), b.si(x1), b.si(x2), b.si(x3)), k)
    {
      hide Index, Xor;
      ByteOfIndex(x0); ByteOfIndex(x1); ByteOfIndex(x2); ByteOfIndex(x3);
      SingleBytes(b.si(x0), b.si(x1), b.si(x2), b.si(x3), k);
      y := Xor(Xor(Xor(Xor(il[0, Index(x0)], il[1, Index(x1)]), il[2, Index(x2)]), il[3, Index(x3)]), k);
    }

    /** ls_box */
    method LsBox(ghost b: SBox, x: Word) returns (y: Word)
      requires Filled(b)
      ensures y == SubWord(b.s, x)
    {
      hide Xor;
      y := ForwardLastWord(b, x.b0, x.b1, x.b2, x.b3, ZERO);
      XorZero(SubWord(b.s, x));
    }
  }

  lemma XorZero(a: Word)
    ensures Xor(a, ZERO) == a
  {
    XorLaws(a.b0, 0, 0);
    XorLaws(a.b1, 0, 0);
    XorLaws(a.b2, 0, 0);
    XorLaws(a.b3, 0, 0);
    hide Xor8;
  }

  lemma XorComm(a: Word, b: Word)
    ensures Xor(a, b) == Xor(b, a)
  {
    XorLaws(a.b0, b.b0, 0);
    XorLaws(a.b1, b.b1, 0);
    XorLaws(a.b2, b.b2, 0);
    XorLaws(a.b3, b.b3, 0);
    hide Xor8;
  }

  // ---- key expansion ----

  /** One line of loop4, loop6 or loop8: the next word of the expansion. */
  method PutNext(ghost b: SBox, ghost nk: nat, buf: array<Word>, n: nat, t: Word)
    requires 0 < nk <= n < buf.Length && IsExpansion(b, nk, buf[..], n)
    requires t == Xor(Temp(b, nk, n, buf[n - 1]), buf[n - nk])
    modifies buf
    ensures buf[..] == old(buf[..])[n := t] && IsExpansion(b, nk, buf[..], n + 1)
  {
    hide Temp, Xor;
    XorComm(Temp(b, nk, n, buf[n - 1]), buf[n - nk]);
    buf[n] := t;
  }

  /** Where in a group of nk words the word before it is substituted. */
  lemma TempFirst(b: SBox, nk: nat, i: nat, prev: Word)
    requires nk == 4 || nk == 6 || nk == 8
    ensures Temp(b, nk, nk * i + nk, prev) == Xor(SubWord(b.s, Rol24(prev)), Word(Rcon(i), 0, 0, 0))
  {
    assert (nk * i + nk) % nk == 0 && (nk * i + nk) / nk == i + 1;
    hide Xor, SubWord, Rol24;
  }

  lemma TempOther(b: SBox, nk: nat, i: nat, j: nat, prev: Word)
    requires (nk == 4 || nk == 6 || nk == 8) && 0 < j < nk
    ensures Temp(b, nk, nk * i + nk + j, prev) == if nk == 8 && j == 4 then SubWord(b.s, prev) else prev
  {
    hide Xor, SubWord, Rol24;
    GroupPlace(nk, i, j);
  }

  lemma GroupPlace(nk: nat, i: nat, j: nat)
    requires (nk == 4 || nk == 6 || nk == 8) && j < nk
    ensures (nk * i + nk + j) % nk == j
  {
    if nk == 4 { assert (4 * i + 4 + j) % 4 == j; }
    if nk == 6 { assert (6 * i + 6 + j) % 6 == j; }
    if nk == 8 { assert (8 * i + 8 + j) % 8 == j; }
  }

  /** The first line of each loop macro. */
  method FirstOfGroup(tabs: Tables, ghost b: SBox, nk: nat, buf: array<Word>, i: nat, prev: Word) returns (t: Word)
    requires (nk == 4 || nk == 6 || nk == 8) && i < 10 && nk * i + nk < buf.Length && tabs.Filled(b)
    requires IsExpansion(b, nk, buf[..], nk * i + nk) && prev == buf[nk * i + nk - 1]
    modifies buf
    ensures buf[..] == old(buf[..])[nk * i + nk := t] && IsExpansion(b, nk, buf[..], nk * i + nk + 1)
  {
    hide Xor, SubWord, Rcon, Rol24, IsExpansion, Temp;
    TempFirst(b, nk, i, prev);
    t := Rol24(prev);
    t := tabs.LsBox(b, t);
    t := Xor(t, Word(tabs.rco[i], 0, 0, 0));
    t := Xor(t, buf[nk * i]);
    PutNext(b, nk, buf, nk * i + nk, t);
  }

  /** The other lines: t ^= E_KEY[nk * i + j]; E_KEY[nk * i + nk + j] = t */
  method OtherOfGroup(ghost b: SBox, nk: nat, buf: array<Word>, i: nat, j: nat, prev: Word) returns (t: Word)
    requires (nk == 4 || nk == 6 || nk == 8) && 0 < j < nk && nk * i + nk + j < buf.Length && !(nk == 8 && j == 4)
    requires IsExpansion(b, nk, buf[..], nk * i + nk + j) && prev == buf[nk * i + nk + j - 1]
    modifies buf
    ensures buf[..] == old(buf[..])[nk * i + nk + j := t] && IsExpansion(b, nk, buf[..], nk * i + nk + j + 1)
  {
    hide Xor, SubWord, Rol24, IsExpansion, Temp;
    TempOther(b, nk, i, j, prev);
    t := Xor(prev, buf[nk * i + j]);
    PutNext(b, nk, buf, nk * i + nk + j, t);
  }

  /** The fifth line of loop8. */
  method FifthOfGroup(tabs: Tables, ghost b: SBox, buf: array<Word>, i: nat, prev: Word) returns (t: Word)
    requires 8 * i + 12 < buf.Length && tabs.Filled(b)
    requires IsExpansion(b, 8, buf[..], 8 * i + 12) && prev == buf[8 * i + 11]
    modifies buf
    ensures buf[..] == old(buf[..])[8 * i + 12 := t] && IsExpansion(b, 8, buf[..], 8 * i + 13)
  {
    hide Xor, SubWord, Rol24, IsExpansion, Temp;
    TempOther(b, 8, i, 4, prev);
    t := tabs.LsBox(b, prev);
    XorComm(buf[8 * i + 4], t);
    t := Xor(buf[8 * i + 4], t);
    PutNext(b, 8, buf, 8 * i + 12, t);
  }

  method Loop4(tabs: Tables, ghost b: SBox, buf: array<Word>, i: nat, prev: Word) returns (t: Word)
    requires i < 10 && 4 * i + 8 <= buf.Length && tabs.Filled(b)
    requires IsExpansion(b, 4, buf[..], 4 * i + 4) && prev == buf[4 * i + 3]
    modifies buf
    ensures IsExpansion(b, 4, buf[..], 4 * i + 8) && t == buf[4 * i + 7]
    ensures forall k :: 0 <= k < 4 * i + 4 ==> buf[k] == old(buf[k])
  {
    hide IsExpansion;
    t := FirstOfGroup(tabs, b, 4, buf, i, prev);
    t := OtherOfGroup(b, 4, buf, i, 1, t);
    t := OtherOfGroup(b, 4, buf, i, 2, t);
    t := OtherOfGroup(b, 4, buf, i, 3, t);
  }

  method Loop6(tabs: Tables, ghost b: SBox, buf: array<Word>, i: nat, prev: Word) returns (t: Word)
    requires i < 10 && 6 * i + 12 <= buf.Length && tabs.Filled(b)
    requires IsExpansion(b, 6, buf[..], 6 * i + 6) && prev == buf[6 * i + 5]
    modifies buf
    ensures IsExpansion(b, 6, buf[..], 6 * i + 12) && t == buf[6 * i + 11]
    ensures forall k :: 0 <= k < 6 * i + 6 ==> buf[k] == old(buf[k])
  {
    hide IsExpansion;
    t := FirstOfGroup(tabs, b, 6, buf, i, prev);
    t := OtherOfGroup(b, 6, buf, i, 1, t);
    t := OtherOfGroup(b, 6, buf, i, 2, t);
    t := OtherOfGroup(b, 6, buf, i, 3, t);
    t := OtherOfGroup(b, 6, buf, i, 4, t);
    t := OtherOfGroup(b, 6, buf, i, 5, t);
  }

  method Loop8(tabs: Tables, ghost b: SBox, buf: array<Word>, i: nat, prev: Word) returns (t: Word)
    requires i < 10 && 8 * i + 16 <= buf.Length && tabs.Filled(b)
    requires IsExpansion(b, 8, buf[..], 8 * i + 8) && prev == buf[8 * i + 7]
    modifies buf
    ensures IsExpansion(b, 8, buf[..], 8 * i + 16) && t == buf[8 * i + 15]
    ensures forall k :: 0 <= k < 8 * i + 8 ==> buf[k] == old(buf[k])
  {
    hide IsExpansion;
    t := FirstOfGroup(tabs, b, 8, buf, i, prev);
    t := OtherOfGroup(b, 8, buf, i, 1, t);
    t := OtherOfGroup(b, 8, buf, i, 2, t);
    t := OtherOfGroup(b, 8, buf, i, 3, t);
    t := SecondHalf8(tabs, b, buf, i, t);
  }

  method SecondHalf8(tabs: Tables, ghost b: SBox, buf: array<Word>, i: nat, prev: Word) returns (t: Word)
    requires i < 10 && 8 * i + 16 <= buf.Length && tabs.Filled(b)
    requires IsExpansion(b, 8, buf[..], 8 * i + 12) && prev == buf[8 * i + 11]
    modifies buf
    ensures IsExpansion(b, 8, buf[..], 8 * i + 16) && t == buf[8 * i + 15]
    ensures forall k :: 0 <= k < 8 * i + 12 ==> buf[k] == old(buf[k])
  {
    hide IsExpansion;
    t := FifthOfGroup(tabs, b, buf, i, prev);
    t := OtherOfGroup(b, 8, buf, i, 5, t);
    t := OtherOfGroup(b, 8, buf, i, 6, t);
    t := OtherOfGroup(b, 8, buf, i, 7, t);
  }

  // ---- bytes and columns ----

  /** le32_to_cpu of the word at byte 4 * i. */
  function WordAt(bytes: seq<bv8>, i: nat): Word
    requires 4 * i + 4 <= |bytes|
  {
    Word(bytes[4 * i], bytes[4 * i + 1], bytes[4 * i + 2], bytes[4 * i + 3])
  }

  function Load(bytes: seq<bv8>): State
    requires |bytes| == 16
  {
    State(WordAt(bytes, 0), WordAt(bytes, 1), WordAt(bytes, 2), WordAt(bytes, 3))
  }

  function BytesOf(a: Word): seq<bv8> { [a.b0, a.b1, a.b2, a.b3] }

  function Store(s: State): (bytes: seq<bv8>)
    ensures |bytes| == 16
  {
    BytesOf(s.c0) + BytesOf(s.c1) + BytesOf(s.c2) + BytesOf(s.c3)
  }

  lemma LoadStore(s: State, bytes: seq<bv8>)
    requires |bytes| == 16
    ensures Load(Store(s)) == s && Store(Load(bytes)) == bytes
  {
  }

  function Columns(a: array<Word>): State
    requires a.Length == 4
    reads a
  {
    State(a[0], a[1], a[2], a[3])
  }

  /** f_nround */
  method ForwardRound(tabs: Tables, ghost b: SBox, bo: array<Word>, bi: array<Word>, buf: array<Word>, k: nat)
    requires bo.Length == bi.Length == 4 && bo != bi && bo != buf && k + 3 < buf.Length && tabs.Filled(b)
    modifies bo
    ensures Columns(bo) == AddKey(MixColumns(SubShift(b, Columns(bi))), KeyAt(buf[..], k))
  {
    hide Xor, MixColumn, FtEntry, ItEntry, FlEntry, IlEntry, Rcon;
    var y0 := tabs.ForwardWord(b, bi[0].b0, bi[1].b1, bi[2].b2, bi[3].b3, buf[k]);
    var y1 := tabs.ForwardWord(b, bi[1].b0, bi[2].b1, bi[3].b2, bi[0].b3, buf[k + 1]);
    var y2 := tabs.ForwardWord(b, bi[2].b0, bi[3].b1, bi[0].b2, bi[1].b3, buf[k + 2]);
    var y3 := tabs.ForwardWord(b, bi[3].b0, bi[0].b1, bi[1].b2, bi[2].b3, buf[k + 3]);
    bo[0], bo[1], bo[2], bo[3] := y0, y1, y2, y3;
  }

  /** f_lround */
  method ForwardLastRound(tabs: Tables, ghost b: SBox, bo: array<Word>, bi: array<Word>, buf: array<Word>, k: nat)
    requires bo.Length == bi.Length == 4 && bo != bi && bo != buf && k + 3 < buf.Length && tabs.Filled(b)
    modifies bo
    ensures Columns(bo) == AddKey(SubShift(b, Columns(bi)), KeyAt(buf[..], k))
  {
    hide Xor, FtEntry, ItEntry, FlEntry, IlEntry, Rcon;
    var y0 := tabs.ForwardLastWord(b, bi[0].b0, bi[1].b1, bi[2].b2, bi[3].b3, buf[k]);
    var y1 := tabs.ForwardLastWord(b, bi[1].b0, bi[2].b1, bi[3].b2, bi[0].b3, buf[k + 1]);
    var y2 := tabs.ForwardLastWord(b, bi[2].b0, bi[3].b1, bi[0].b2, bi[1].b3, buf[k + 2]);
    var y3 := tabs.ForwardLastWord(b, bi[3].b0, bi[0].b1, bi[1].b2, bi[2].b3, buf[k + 3]);
    bo[0], bo[1], bo[2], bo[3] := y0, y1, y2, y3;
  }

  /** i_nround */
  method InverseRound(tabs: Tables, ghost b: SBox, bo: array<Word>, bi: array<Word>, buf: array<Word>, k: nat)
    requires bo.Length == bi.Length == 4 && bo != bi && bo != buf && k + 3 < buf.Length && tabs.Filled(b)
    modifies bo
    ensures Columns(bo) == AddKey(InvMixColumns(InvSubShift(b, Columns(bi))), KeyAt(buf[..], k))
  {
    hide Xor, InvMixColumn, FtEntry, ItEntry, FlEntry, IlEntry, Rcon;
    var y0 := tabs.InverseWord(b, bi[0].b0, bi[3].b1, bi[2].b2, bi[1].b3, buf[k]);
    var y1 := tabs.InverseWord(b, bi[1].b0, bi[0].b1, bi[3].b2, bi[2].b3, buf[k + 1]);
    var y2 := tabs.InverseWord(b, bi[2].b0, bi[1].b1, bi[0].b2, bi[3].b3, buf[k + 2]);
    var y3 := tabs.InverseWord(b, bi[3].b0, bi[2].b1, bi[1].b2, bi[0].b3, buf[k + 3]);
    bo[0], bo[1], bo[2], bo[3] := y0, y1, y2, y3;
  }

  /** i_lround */
  method InverseLastRound(tabs: Tables, ghost b: SBox, bo: array<Word>, bi: array<Word>, buf: array<Word>, k: nat)
    requires bo.Length == bi.Length == 4 && bo != bi && bo != buf && k + 3 < buf.Length && tabs.Filled(b)
    modifies bo
    ensures Columns(bo) == AddKey(InvSubShift(b, Columns(bi)), KeyAt(buf[..], k))
  {
    hide Xor, FtEntry, ItEntry, FlEntry, IlEntry, Rcon;
    var y0 := tabs.InverseLastWord(b, bi[0].b0, bi[3].b1, bi[2].b2, bi[1].b3, buf[k]);
    var y1 := tabs.InverseLastWord(b, bi[1].b0, bi[0].b1, bi[3].b2, bi[2].b3, buf[k + 1]);
    var y2 := tabs.InverseLastWord(b, bi[2].b0, bi[1].b1, bi[0].b2, bi[3].b3, buf[k + 2]);
    var y3 := tabs.InverseLastWord(b, bi[3].b0, bi[2].b1, bi[1].b2, bi[0].b3, buf[k + 3]);
    bo[0], bo[1], bo[2], bo[3] := y0, y1, y2, y3;
  }

  // ---- the context ----

  function KeyWords(inKey: seq<bv8>, nk: nat): seq<Word>
    requires |inKey| == 4 * nk
  {
    seq(nk, i requires 0 <= i < nk => WordAt(inKey, i))
  }

  /** `w` is the expanded key of section 5.2 of FIPS 197. */
  predicate IsSchedule(b: SBox, inKey: seq<bv8>, w: seq<Word>) {
    var nk := |inKey| / 4;
    && (|inKey| == 16 || |inKey| == 24 || |inKey| == 32)
    && 4 * nk + 28 <= |w|
    && w[..nk] == KeyWords(inKey, nk)
    && IsExpansion(b, nk, w, 4 * nk + 28)
  }

  function Rounds(inKey: seq<bv8>): nat { |inKey| / 4 + 6 }

  /** D_KEY[0..3] are copies; then imix_col up to D_KEY[key_len + 23].  The E_KEY words
      that loop8 wrote past E_KEY[59] are overwritten here. */
  method InvertSchedule(buf: array<Word>, nr: nat)
    requires buf.Length == 120 && (nr == 10 || nr == 12 || nr == 14)
    modifies buf
    ensures buf[..60] == old(buf[..60]) && IsInvSchedule(buf[60..], buf[..60], nr)
  {
    hide IMixCol, InvMixColumn;
    buf[60], buf[61], buf[62], buf[63] := buf[0], buf[1], buf[2], buf[3];
    for i := 4 to 4 * nr
      invariant buf[..60] == old(buf[..60])
      invariant forall j :: 0 <= j < 4 ==> buf[60 + j] == buf[j]
      invariant forall j :: 4 <= j < i ==> buf[60 + j] == InvMixColumn(buf[j])
    {
      IMixColIs(buf[i]);
      buf[60 + i] := IMixCol(buf[i]);
    }
  }

  /** An expansion only looks at its own words. */
  lemma ExpansionPrefix(b: SBox, nk: nat, w: seq<Word>, v: seq<Word>, n: nat)
    requires 0 < nk && IsExpansion(b, nk, w, n) && n <= |v| && w[..n] == v[..n]
    ensures IsExpansion(b, nk, v, n)
  {
    hide Temp, Xor;
    forall i | nk <= i < n ensures v[i] == Xor(v[i - nk], Temp(b, nk, i, v[i - 1])) {
      assert w[i] == w[..n][i] && w[i - nk] == w[..n][i - nk] && w[i - 1] == w[..n][i - 1];
    }
  }

  /** The three loops of `aes_set_key`. */
  method Expand(tabs: Tables, ghost b: SBox, nk: nat, buf: array<Word>)
    requires (nk == 4 || nk == 6 || nk == 8) && buf.Length == 120 && tabs.Filled(b)
    modifies buf
    ensures buf[..nk] == old(buf[..nk]) && IsExpansion(b, nk, buf[..60], 4 * nk + 28)
  {
    hide IsExpansion, FtEntry, ItEntry, FlEntry, IlEntry, Rcon;
    var t := buf[nk - 1];
    NothingExpanded(b, nk, buf[..]);
    if nk == 4 {
      for i := 0 to 10
        invariant IsExpansion(b, 4, buf[..], 4 * i + 4) && t == buf[4 * i + 3]
        invariant forall k :: 0 <= k < 4 ==> buf[k] == old(buf[k])
      {
        t := Loop4(tabs, b, buf, i, t);
      }
      ExpansionPrefix(b, 4, buf[..], buf[..60], 44);
    } else if nk == 6 {
      for i := 0 to 8
        invariant IsExpansion(b, 6, buf[..], 6 * i + 6) && t == buf[6 * i + 5]
        invariant forall k :: 0 <= k < 6 ==> buf[k] == old(buf[k])
      {
        t := Loop6(tabs, b, buf, i, t);
      }
      ShorterExpansion(b, 6, buf[..], 54, 52);
      ExpansionPrefix(b, 6, buf[..], buf[..60], 52);
    } else {
      for i := 0 to 7
        invariant IsExpansion(b, 8, buf[..], 8 * i + 8) && t == buf[8 * i + 7]
        invariant forall k :: 0 <= k < 8 ==> buf[k] == old(buf[k])
      {
        t := Loop8(tabs, b, buf, i, t);
      }
      ShorterExpansion(b, 8, buf[..], 64, 60);
      ExpansionPrefix(b, 8, buf[..], buf[..60], 60);
    }
  }

  lemma NothingExpanded(b: SBox, nk: nat, w: seq<Word>)
    requires 0 < nk <= |w|
    ensures IsExpansion(b, nk, w, nk)
  {
  }

  lemma ShorterExpansion(b: SBox, nk: nat, w: seq<Word>, n: nat, m: nat)
    requires 0 < nk && m <= n && IsExpansion(b, nk, w, n)
    ensures IsExpansion(b, nk, w, m)
  {
    hide Temp, Xor;
  }

  /** `struct aes_ctx` */
  class Context {
    var keyLength: nat
    const buf: array<Word>
    ghost var key: seq<bv8>

    constructor ()
      ensures fresh(buf) && buf.Length == 120
    {
      keyLength := 0;
      buf := new Word[120](_ => ZERO);
      key := [];
    }

    /** The buffer holds both key schedules for `key`. */
    ghost predicate Keyed(b: SBox)
      reads this, buf
    {
      && buf.Length == 120 && keyLength == |key|
      && IsSchedule(b, key, buf[..60]) && IsInvSchedule(buf[60..], buf[..60], Rounds(key))
    }

    /** `aes_set_key`; false stands for -EINVAL.  The crypto layer only passes lengths from
        AES_MIN_KEY_SIZE to AES_MAX_KEY_SIZE. */
    method SetKey(tabs: Tables, ghost b: SBox, inKey: seq<bv8>) returns (ok: bool)
      requires 16 <= |inKey| <= 32 && buf.Length == 120 && tabs.Filled(b)
      modifies this, buf
      ensures ok <==> |inKey| == 16 || |inKey| == 24 || |inKey| == 32
      ensures if ok then Keyed(b) && key == inKey else keyLength == old(keyLength) && buf[..] == old(buf[..])
    {
      hide IsExpansion, FtEntry, ItEntry, FlEntry, IlEntry, Rcon, IsInvSchedule;
      if |inKey| % 8 != 0 { return false; }
      keyLength := |inKey|;
      key := inKey;
      var nk := |inKey| / 4;
      LoadKey(inKey, nk);
      Expand(tabs, b, nk, buf);
      assert buf[..nk] == buf[..60][..nk];
      InvertSchedule(buf, nk + 6);
      return true;
    }

    /** E_KEY[i] = le32_to_cpu(key[i]), for the words of the key. */
    method LoadKey(inKey: seq<bv8>, nk: nat)
      requires |inKey| == 4 * nk && nk <= 8 && buf.Length == 120
      modifies buf
      ensures buf[..nk] == KeyWords(inKey, nk)
    {
      for i := 0 to nk
        invariant forall j :: 0 <= j < i ==> buf[j] == WordAt(inKey, j)
      {
        buf[i] := WordAt(inKey, i);
      }
    }

    /** Two f_nround lines. */
    method ForwardPair(tabs: Tables, ghost b: SBox, b0: array<Word>, b1: array<Word>, ghost r: nat, kp: nat,
                       ghost s: State)
      requires b0.Length == b1.Length == 4 && b0 != b1 && b0 != buf && b1 != buf && buf.Length == 120 && tabs.Filled(b)
      requires kp == 4 * r + 4 && 4 * r + 11 < 60 && Columns(b0) == Middle(b, buf[..60], r, s)
      modifies b0, b1
      ensures Columns(b0) == Middle(b, buf[..60], r + 2, s)
    {
      hide AddKey, MixColumns, SubShift, FtEntry, ItEntry, FlEntry, IlEntry, Rcon;
      ForwardRound(tabs, b, b1, b0, buf, kp);
      assert Columns(b1) == Middle(b, buf[..60], r + 1, s);
      ForwardRound(tabs, b, b0, b1, buf, kp + 4);
    }

    /** Two i_nround lines. */
    method InversePair(tabs: Tables, ghost b: SBox, b0: array<Word>, b1: array<Word>, ghost nr: nat, ghost r: nat,
                       kp: nat, ghost s: State)
      requires b0.Length == b1.Length == 4 && b0 != b1 && b0 != buf && b1 != buf && buf.Length == 120 && tabs.Filled(b)
      requires r + 2 < nr <= 14 && kp == 60 + 4 * (nr - 1 - r) && Columns(b0) == EqMiddle(b, buf[60..], nr, r, s)
      modifies b0, b1
      ensures Columns(b0) == EqMiddle(b, buf[60..], nr, r + 2, s)
    {
      hide AddKey, InvMixColumns, InvSubShift, FtEntry, ItEntry, FlEntry, IlEntry, Rcon;
      InverseRound(tabs, b, b1, b0, buf, kp);
      assert Columns(b1) == EqMiddle(b, buf[60..], nr, r + 1, s);
      InverseRound(tabs, b, b0, b1, buf, kp - 4);
    }

    /** `aes_encrypt` */
    method Encrypt(tabs: Tables, ghost b: SBox, input: seq<bv8>) returns (output: seq<bv8>)
      requires |input| == 16 && tabs.Filled(b) && Keyed(b)
      ensures output == Store(Cipher(b, buf[..60], Rounds(key), Load(input)))
    {
      hide AddKey, MixColumns, SubShift, FtEntry, ItEntry, FlEntry, IlEntry, Rcon, IsExpansion, IsInvSchedule, Middle,
           Load;
      var b0, b1 := new Word[4](_ => ZERO), new Word[4](_ => ZERO);
      var src := Load(input);
      ghost var s := AddKey(src, KeyAt(buf[..60], 0));
      XorKey(b0, src, buf, 0);
      MiddleZero(b, buf[..60], s);
      var kp;
      ghost var r;
      kp, r := ForwardFirst(tabs, b, b0, b1, s);
      ForwardTen(tabs, b, b0, b1, r, kp, s);
      output := Store(State(b0[0], b0[1], b0[2], b0[3]));
    }

    /** The rounds that only longer keys have. */
    method ForwardFirst(tabs: Tables, ghost b: SBox, b0: array<Word>, b1: array<Word>, ghost s: State)
        returns (kp: nat, ghost r: nat)
      requires b0.Length == b1.Length == 4 && b0 != b1 && b0 != buf && b1 != buf && buf.Length == 120 && tabs.Filled(b)
      requires Columns(b0) == Middle(b, buf[..60], 0, s) && (keyLength == 16 || keyLength == 24 || keyLength == 32)
      modifies b0, b1
      ensures kp == 4 * r + 4 && r + 10 == keyLength / 4 + 6 && Columns(b0) == Middle(b, buf[..60], r, s)
    {
      hide FtEntry, ItEntry, FlEntry, IlEntry, Rcon, Middle;
      kp, r := 4, 0;
      if keyLength > 24 { ForwardPair(tabs, b, b0, b1, r, kp, s); kp := kp + 8; r := r + 2; }
      if keyLength > 16 { ForwardPair(tabs, b, b0, b1, r, kp, s); kp := kp + 8; r := r + 2; }
    }

    /** The ten rounds that every key length has. */
    method ForwardTen(tabs: Tables, ghost b: SBox, b0: array<Word>, b1: array<Word>, ghost r: nat, kp: nat,
                      ghost s: State)
      requires b0.Length == b1.Length == 4 && b0 != b1 && b0 != buf && b1 != buf && buf.Length == 120 && tabs.Filled(b)
      requires kp == 4 * r + 4 && r <= 4 && Columns(b0) == Middle(b, buf[..60], r, s)
      modifies b0, b1
      ensures Columns(b0) == AddKey(SubShift(b, Middle(b, buf[..60], r + 9, s)), KeyAt(buf[..60], 4 * (r + 10)))
    {
      hide AddKey, SubShift, FtEntry, ItEntry, FlEntry, IlEntry, Rcon, Middle;
      ForwardPair(tabs, b, b0, b1, r, kp, s);
      ForwardPair(tabs, b, b0, b1, r + 2, kp + 8, s);
      ForwardPair(tabs, b, b0, b1, r + 4, kp + 16, s);
      ForwardPair(tabs, b, b0, b1, r + 6, kp + 24, s);
      LastForward(tabs, b, b0, b1, r + 8, kp + 32, s);
    }

    /** The last f_nround and the f_lround. */
    method LastForward(tabs: Tables, ghost b: SBox, b0: array<Word>, b1: array<Word>, ghost r: nat, kp: nat,
                       ghost s: State)
      requires b0.Length == b1.Length == 4 && b0 != b1 && b0 != buf && b1 != buf && buf.Length == 120 && tabs.Filled(b)
      requires kp == 4 * r + 4 && 4 * r + 11 < 60 && Columns(b0) == Middle(b, buf[..60], r, s)
      modifies b0, b1
      ensures Columns(b0) == AddKey(SubShift(b, Middle(b, buf[..60], r + 1, s)), KeyAt(buf[..60], 4 * (r + 2)))
    {
      hide AddKey, MixColumns, SubShift, FtEntry, ItEntry, FlEntry, IlEntry, Rcon;
      ForwardRound(tabs, b, b1, b0, buf, kp);
      assert Columns(b1) == Middle(b, buf[..60], r + 1, s);
      ForwardLastRound(tabs, b, b0, b1, buf, kp + 4);
    }

    /** The last i_nround and the i_lround. */
    method LastInverse(tabs: Tables, ghost b: SBox, b0: array<Word>, b1: array<Word>, ghost nr: nat, kp: nat,
                       ghost s: State)
      requires b0.Length == b1.Length == 4 && b0 != b1 && b0 != buf && b1 != buf && buf.Length == 120 && tabs.Filled(b)
      requires 2 <= nr <= 14 && kp == 64 && Columns(b0) == EqMiddle(b, buf[60..], nr, nr - 2, s)
      modifies b0, b1
      ensures Columns(b0) == AddKey(InvSubShift(b, EqMiddle(b, buf[60..], nr, nr - 1, s)), KeyAt(buf[60..], 0))
    {
      hide AddKey, InvMixColumns, InvSubShift, FtEntry, ItEntry, FlEntry, IlEntry, Rcon;
      InverseRound(tabs, b, b1, b0, buf, kp);
      assert Columns(b1) == EqMiddle(b, buf[60..], nr, nr - 1, s);
      InverseLastRound(tabs, b, b0, b1, buf, kp - 4);
    }

    method InverseFirst(tabs: Tables, ghost b: SBox, b0: array<Word>, b1: array<Word>, ghost nr: nat, ghost s: State)
      returns (kp: nat, ghost r: nat)
      requires b0.Length == b1.Length == 4 && b0 != b1 && b0 != buf && b1 != buf && buf.Length == 120 && tabs.Filled(b)
      requires (keyLength == 16 || keyLength == 24 || keyLength == 32) && nr == keyLength / 4 + 6
      requires Columns(b0) == EqMiddle(b, buf[60..], nr, 0, s)
      modifies b0, b1
      ensures r + 10 == nr && kp == 60 + 4 * (nr - 1 - r) && Columns(b0) == EqMiddle(b, buf[60..], nr, r, s)
    {
      hide FtEntry, ItEntry, FlEntry, IlEntry, Rcon, EqMiddle;
      kp, r := 60 + keyLength + 20, 0;
      if keyLength > 24 { InversePair(tabs, b, b0, b1, nr, r, kp, s); kp := kp - 8; r := r + 2; }
      if keyLength > 16 { InversePair(tabs, b, b0, b1, nr, r, kp, s); kp := kp - 8; r := r + 2; }
    }

    /** `aes_decrypt` */
    method Decrypt(tabs: Tables, ghost b: SBox, input: seq<bv8>) returns (output: seq<bv8>)
      requires |input| == 16 && tabs.Filled(b) && Keyed(b)
      ensures output == Store(InvCipher(b, buf[..60], Rounds(key), Load(input)))
    {
      hide AddKey, InvMixColumns, InvSubShift, FtEntry, ItEntry, FlEntry, IlEntry, Rcon, IsExpansion, IsInvSchedule,
           EqMiddle, InvMiddle, InvCipher, Load;
      var b0, b1 := new Word[4](_ => ZERO), new Word[4](_ => ZERO);
      var src := Load(input);
      ghost var nr := Rounds(key);
      ghost var s := AddKey(src, KeyAt(buf[..60], 4 * nr));
      XorKey(b0, src, buf, keyLength + 24);
      EqMiddleZero(b, buf[60..], nr, s);
      var kp;
      ghost var r;
      kp, r := InverseFirst(tabs, b, b0, b1, nr, s);
      InversePair(tabs, b, b0, b1, nr, r, kp, s);
      InversePair(tabs, b, b0, b1, nr, r + 2, kp - 8, s);
      InversePair(tabs, b, b0, b1, nr, r + 4, kp - 16, s);
      InversePair(tabs, b, b0, b1, nr, r + 6, kp - 24, s);
      LastInverse(tabs, b, b0, b1, nr, kp - 32, s);
      output := Store(State(b0[0], b0[1], b0[2], b0[3]));
      ScheduleLength(buf[60..], buf[..60], nr);
      EqInvCipherIsInvCipher(b, buf[..60], buf[60..], nr, src);
    }
  }

  lemma ScheduleLength(d: seq<Word>, w: seq<Word>, nr: nat)
    requires IsInvSchedule(d, w, nr)
    ensures 4 * nr <= |d| && 4 * nr + 3 < |w|
  {
  }

  lemma MiddleZero(b: SBox, w: seq<Word>, s: State)
    requires 3 < |w|
    ensures Middle(b, w, 0, s) == s
  {
  }

  lemma EqMiddleZero(b: SBox, d: seq<Word>, nr: nat, s: State)
    requires 0 < nr && 4 * nr <= |d|
    ensures EqMiddle(b, d, nr, 0, s) == s
  {
  }

  /** b0[i] = src[i] ^ E_KEY[k + i] */
  method XorKey(b0: array<Word>, src: State, buf: array<Word>, k: nat)
    requires b0.Length == 4 && b0 != buf && buf.Length == 120 && k + 3 < 60
    modifies b0
    ensures Columns(b0) == AddKey(src, KeyAt(buf[..60], k))
  {
    hide Xor;
    b0[0] := Xor(src.c0, buf[k]);
    b0[1] := Xor(src.c1, buf[k + 1]);
    b0[2] := Xor(src.c2, buf[k + 2]);
    b0[3] := Xor(src.c3, buf[k + 3]);
  }

  /** What `aes_decrypt` computes from what `aes_encrypt` computed, for every key schedule
      and block. */
  lemma DecryptUndoesEncrypt(b: SBox, inKey: seq<bv8>, w: seq<Word>, input: seq<bv8>)
    requires Invertible(b) && |input| == 16 && IsSchedule(b, inKey, w)
    ensures var c := Store(Cipher(b, w, Rounds(inKey), Load(input)));
            Store(InvCipher(b, w, Rounds(inKey), Load(c))) == input
  {
    hide Cipher, InvCipher, Load, Store, IsExpansion;
    var nr := Rounds(inKey);
    LoadStore(Cipher(b, w, nr, Load(input)), input);
    InvCipherUndoesCipher(b, w, nr, Load(input));
    LoadStore(Load(input), input);
  }
}
