/** The in-place block functions and the key length dispatch of camellia.c. */
module CamelliaCipher {
  import opened CamelliaWords
  import opened Camellia
  import opened CamelliaSetup
  import opened CamelliaKeys

  /** The state `io[4]`, as two halves. */
  function State(io: array<Half>): Block
    requires io.Length == 2
    reads io
  {
    Block(io[0], io[1])
  }

  // ---- the lines of the C listings that repeat for every six-round group ----

  method SixRoundsUp(s: SBoxes, subkey: array<Half>, i: nat, io: array<Half>)
    requires io.Length == 2 && io != subkey && i + 5 < subkey.Length
    modifies io
    ensures State(io) == FastSix(s, subkey[..], i, old(State(io)))
  {
    hide RoundSM;
    io[1] := RoundSM(s, io[0], subkey[i], io[1]);
    io[0] := RoundSM(s, io[1], subkey[i + 1], io[0]);
    io[1] := RoundSM(s, io[0], subkey[i + 2], io[1]);
    io[0] := RoundSM(s, io[1], subkey[i + 3], io[0]);
    io[1] := RoundSM(s, io[0], subkey[i + 4], io[1]);
    io[0] := RoundSM(s, io[1], subkey[i + 5], io[0]);
  }

  method SixRoundsDown(s: SBoxes, subkey: array<Half>, i: nat, io: array<Half>)
    requires io.Length == 2 && io != subkey && i + 5 < subkey.Length
    modifies io
    ensures State(io) == FastSixBack(s, subkey[..], i, old(State(io)))
  {
    hide RoundSM;
    io[1] := RoundSM(s, io[0], subkey[i + 5], io[1]);
    io[0] := RoundSM(s, io[1], subkey[i + 4], io[0]);
    io[1] := RoundSM(s, io[0], subkey[i + 3], io[1]);
    io[0] := RoundSM(s, io[1], subkey[i + 2], io[0]);
    io[1] := RoundSM(s, io[0], subkey[i + 1], io[1]);
    io[0] := RoundSM(s, io[1], subkey[i], io[0]);
  }

  /** CAMELLIA_FLS */
  method FLLayer(subkey: array<Half>, i1: nat, i2: nat, io: array<Half>)
    requires io.Length == 2 && io != subkey && i1 < subkey.Length && i2 < subkey.Length
    modifies io
    ensures State(io) == FLS(old(State(io)), subkey[i1], subkey[i2])
  {
    hide FL, FLInv;
    io[0] := FL(io[0], subkey[i1]);
    io[1] := FLInv(io[1], subkey[i2]);
  }

  // ---- the block functions ----

  /** `camellia_encrypt128` */
  method Encrypt128(s: SBoxes, subkey: array<Half>, io: array<Half>)
    requires io.Length == 2 && io != subkey && subkey.Length == TABLE_LENGTH
    modifies io
    ensures State(io) == FastEncrypt(s, subkey[..], 3, old(State(io)))
  {
    hide Xor, FastSix, FLS;
    io[0] := Xor(io[0], subkey[0]);
    SixRoundsUp(s, subkey, 2, io);
    FLLayer(subkey, 8, 9, io);
    SixRoundsUp(s, subkey, 10, io);
    FLLayer(subkey, 16, 17, io);
    ghost var y := State(io);
    SixRoundsUp(s, subkey, 18, io);
    assert State(io) == FastGroups(s, subkey[..], 3, 2, y);
    io[1] := Xor(io[1], subkey[24]);
    io[0], io[1] := io[1], io[0];
  }

  /** `camellia_encrypt256` */
  method Encrypt256(s: SBoxes, subkey: array<Half>, io: array<Half>)
    requires io.Length == 2 && io != subkey && subkey.Length == TABLE_LENGTH
    modifies io
    ensures State(io) == FastEncrypt(s, subkey[..], 4, old(State(io)))
  {
    hide Xor, FastSix, FLS;
    io[0] := Xor(io[0], subkey[0]);
    SixRoundsUp(s, subkey, 2, io);
    FLLayer(subkey, 8, 9, io);
    SixRoundsUp(s, subkey, 10, io);
    FLLayer(subkey, 16, 17, io);
    ghost var y := State(io);
    SixRoundsUp(s, subkey, 18, io);
    FLLayer(subkey, 24, 25, io);
    ghost var z := State(io);
    SixRoundsUp(s, subkey, 26, io);
    assert State(io) == FastGroups(s, subkey[..], 4, 3, z);
    assert State(io) == FastGroups(s, subkey[..], 4, 2, y);
    io[1] := Xor(io[1], subkey[32]);
    io[0], io[1] := io[1], io[0];
  }

  /** `camellia_decrypt128` */
  method Decrypt128(s: SBoxes, subkey: array<Half>, io: array<Half>)
    requires io.Length == 2 && io != subkey && subkey.Length == TABLE_LENGTH
    modifies io
    ensures State(io) == FastDecrypt(s, subkey[..], 3, old(State(io)))
  {
    hide Xor, FastSixBack, FLS;
    io[0] := Xor(io[0], subkey[24]);
    SixRoundsDown(s, subkey, 18, io);
    FLLayer(subkey, 17, 16, io);
    SixRoundsDown(s, subkey, 10, io);
    FLLayer(subkey, 9, 8, io);
    ghost var y := State(io);
    SixRoundsDown(s, subkey, 2, io);
    assert State(io) == FastGroupsBack(s, subkey[..], 0, 0, y);
    io[1] := Xor(io[1], subkey[0]);
    io[0], io[1] := io[1], io[0];
  }

  /** `camellia_decrypt256` */
  method Decrypt256(s: SBoxes, subkey: array<Half>, io: array<Half>)
    requires io.Length == 2 && io != subkey && subkey.Length == TABLE_LENGTH
    modifies io
    ensures State(io) == FastDecrypt(s, subkey[..], 4, old(State(io)))
  {
    hide Xor, FastSixBack, FLS;
    io[0] := Xor(io[0], subkey[32]);
    SixRoundsDown(s, subkey, 26, io);
    FLLayer(subkey, 25, 24, io);
    ghost var x := State(io);
    SixRoundsDown(s, subkey, 18, io);
    FLLayer(subkey, 17, 16, io);
    ghost var y := State(io);
    SixRoundsDown(s, subkey, 10, io);
    FLLayer(subkey, 9, 8, io);
    ghost var z := State(io);
    SixRoundsDown(s, subkey, 2, io);
    assert State(io) == FastGroupsBack(s, subkey[..], 0, 0, z);
    assert State(io) == FastGroupsBack(s, subkey[..], 1, 0, y);
    assert State(io) == FastGroupsBack(s, subkey[..], 2, 0, x);
    io[1] := Xor(io[1], subkey[0]);
    io[0], io[1] := io[1], io[0];
  }

  // ---- the cipher for a key ----

  /** The left and right half of a key given as 32-bit words (RFC 3713, section 2.2). */
  function KL(key: seq<bv32>): Quad
    requires |key| >= 4
  {
    Quad(key[0], key[1], key[2], key[3])
  }

  function KR(key: seq<bv32>): Quad
    requires |key| == 6 || |key| == 8
  {
    if |key| == 8 then Quad(key[4], key[5], key[6], key[7]) else Quad(key[4], key[5], Not32(key[4]), Not32(key[5]))
  }

  predicate ValidKey(key: seq<bv32>) { |key| == 4 || |key| == 6 || |key| == 8 }

  function GroupCount(key: seq<bv32>): nat { if |key| == 4 then 3 else 4 }

  /** `k` are the round keys of `key`. */
  predicate RoundKeys(s: SBoxes, key: seq<bv32>, k: seq<Half>)
    requires ValidKey(key)
  {
    if |key| == 4 then Keys128(s, KL(key), k) else Keys256(s, KL(key), KR(key), k)
  }

  /** The round keys of a key are unique, so that Encrypt is a function of the key. */
  lemma RoundKeysUnique(s: SBoxes, key: seq<bv32>, k: seq<Half>, l: seq<Half>)
    requires ValidKey(key) && RoundKeys(s, key, k) && RoundKeys(s, key, l)
    ensures k == l
  {
    hide Rotl, KA, KB, Hi, Lo, KL, KR;
    if |key| == 4 { Unique128(s, KL(key), k, l); } else { Unique256(s, KL(key), KR(key), k, l); }
  }

  lemma Unique128(s: SBoxes, key: Quad, k: seq<Half>, l: seq<Half>)
    requires Keys128(s, key, k) && Keys128(s, key, l)
    ensures k == l
  {
    hide Rotl, KA, Hi, Lo;
    forall i | 0 <= i < 26 ensures k[i] == l[i] {
    }
  }

  lemma Unique256(s: SBoxes, kl: Quad, kr: Quad, k: seq<Half>, l: seq<Half>)
    requires Keys256(s, kl, kr, k) && Keys256(s, kl, kr, l)
    ensures k == l
  {
    hide FromKL256, FromKR256, FromKA256, FromKB256, KA, KB, IsKLEntry256, IsKREntry256, IsKAEntry256, IsKBEntry256;
    UniqueKL(kl, k, l);
    UniqueKR(kr, k, l);
    UniqueKA(KA(s, kl, kr), k, l);
    UniqueKB(KB(s, kl, kr), k, l);
    forall i | 0 <= i < 34 ensures k[i] == l[i] {
      Covered256(i);
    }
  }

  /** Every entry comes from one of the four quads. */
  lemma Covered256(i: nat)
    requires i < 34
    ensures IsKLEntry256(i) || IsKREntry256(i) || IsKAEntry256(i) || IsKBEntry256(i)
  {
  }

  lemma UniqueKL(q: Quad, k: seq<Half>, l: seq<Half>)
    requires |k| == |l| == 34 && FromKL256(k, q) && FromKL256(l, q)
    ensures forall i :: IsKLEntry256(i) ==> k[i] == l[i]
  {
    hide Rotl, Hi, Lo;
  }

  lemma UniqueKR(q: Quad, k: seq<Half>, l: seq<Half>)
    requires |k| == |l| == 34 && FromKR256(k, q) && FromKR256(l, q)
    ensures forall i :: IsKREntry256(i) ==> k[i] == l[i]
  {
    hide Rotl, Hi, Lo;
  }

  lemma UniqueKA(q: Quad, k: seq<Half>, l: seq<Half>)
    requires |k| == |l| == 34 && FromKA256(k, q) && FromKA256(l, q)
    ensures forall i :: IsKAEntry256(i) ==> k[i] == l[i]
  {
    hide Rotl, Hi, Lo;
  }

  lemma UniqueKB(q: Quad, k: seq<Half>, l: seq<Half>)
    requires |k| == |l| == 34 && FromKB256(k, q) && FromKB256(l, q)
    ensures forall i :: IsKBEntry256(i) ==> k[i] == l[i]
  {
    hide Rotl, Hi, Lo;
  }

  /** The rewritten table means what the round keys mean: encryption is RFC 3713's, and
      decryption with the same table undoes it. */
  lemma MeaningKept(s: SBoxes, k: seq<Half>, table: seq<Half>, n: nat, m: Block)
    requires IsRewritten(table, k, n)
    ensures FastEncrypt(s, table, n, m) == Encrypt(s, k, n, m)
    ensures FastDecrypt(s, table, n, Encrypt(s, k, n, m)) == m
  {
    FastEncryptIsEncrypt(s, k, table, n, m);
    DecryptUndoesEncrypt(s, table, n, m);
    hide FastEncrypt, FastDecrypt, Encrypt, GroupRewritten;
  }

  /** `struct camellia_ctx` */
  class Context {
    var keyLength: nat
    const keyTable: array<Half>
    ghost var key: seq<bv32>
    ghost var roundKeys: seq<Half>

    constructor ()
      ensures fresh(keyTable) && keyTable.Length == TABLE_LENGTH
    {
      keyLength := 0;
      keyTable := new Half[TABLE_LENGTH](_ => ZERO);
      key := [];
      roundKeys := [];
    }

    /** The table holds the rewritten round keys of `key`. */
    ghost predicate Keyed(s: SBoxes)
      reads this, keyTable
    {
      && keyTable.Length == TABLE_LENGTH && ValidKey(key) && keyLength == 4 * |key|
      && RoundKeys(s, key, roundKeys) && IsRewritten(keyTable[..], roundKeys, GroupCount(key))
    }

    /** `camellia_set_key`; false stands for -EINVAL. */
    method SetKey(s: SBoxes, inKey: seq<bv32>) returns (ok: bool)
      requires keyTable.Length == TABLE_LENGTH
      modifies this, keyTable
      ensures ok == ValidKey(inKey)
      ensures if ok then Keyed(s) && key == inKey else keyLength == old(keyLength) && keyTable[..] == old(keyTable[..])
    {
      hide Keys128, Keys256, IsRewritten;
      if |inKey| != 4 && |inKey| != 6 && |inKey| != 8 { return false; }
      keyLength := 4 * |inKey|;
      key := inKey;
      if |inKey| == 4 {
        ghost var k := Setup128(s, KL(inKey), keyTable);
        roundKeys := k;
      } else {
        // camellia_setup192 completes the key and calls camellia_setup256
        ghost var k := Setup256(s, KL(inKey), KR(inKey), keyTable);
        roundKeys := k;
      }
      return true;
    }

    /** `camellia_encrypt` */
    method EncryptBlock(s: SBoxes, m: Block) returns (c: Block)
      requires Keyed(s)
      ensures c == FastEncrypt(s, keyTable[..], GroupCount(key), m)
      ensures c == Encrypt(s, roundKeys, GroupCount(key), m)
    {
      hide IsRewritten, RoundKeys, FastEncrypt, Encrypt;
      var io := new Half[2](_ => ZERO);
      io[0], io[1] := m.d1, m.d2;
      FastEncryptIsEncrypt(s, roundKeys, keyTable[..], GroupCount(key), m);
      if keyLength == 16 { Encrypt128(s, keyTable, io); } else { Encrypt256(s, keyTable, io); }
      c := Block(io[0], io[1]);
    }

    /** `camellia_decrypt`: the one block whose RFC 3713 encryption is `c`. */
    method DecryptBlock(s: SBoxes, c: Block) returns (m: Block)
      requires Keyed(s)
      ensures m == FastDecrypt(s, keyTable[..], GroupCount(key), c)
      ensures forall m0 :: c == Encrypt(s, roundKeys, GroupCount(key), m0) <==> m == m0
    {
      hide GroupRewritten, RoundKeys, FastDecrypt, FastEncrypt, Encrypt;
      var io := new Half[2](_ => ZERO);
      io[0], io[1] := c.d1, c.d2;
      if keyLength == 16 { Decrypt128(s, keyTable, io); } else { Decrypt256(s, keyTable, io); }
      m := Block(io[0], io[1]);
      EncryptUndoesDecrypt(s, keyTable[..], GroupCount(key), c);
      forall m0 ensures c == Encrypt(s, roundKeys, GroupCount(key), m0) <==> m == m0 {
        MeaningKept(s, roundKeys, keyTable[..], GroupCount(key), m0);
      }
    }
  }
}
