/** MD5 over a message that comes in pieces (crypto/md5.c). */
module Md5 {
  import opened Bytes
  import opened Md5Padding

  /** The whole blocks of a message, and the bytes behind them. */
  function Bulk(m: seq<bv8>): (r: seq<bv8>)
    ensures |r| % 64 == 0
  {
    m[..|m| - |m| % 64]
  }

  function Tail(m: seq<bv8>): (r: seq<bv8>)
    ensures |r| < 64 && Bulk(m) + r == m
  {
    m[|m| - |m| % 64..]
  }

  lemma SplitIs(m: seq<bv8>, a: seq<bv8>, b: seq<bv8>)
    requires m == a + b && |a| % 64 == 0 && |b| < 64
    ensures Bulk(m) == a && Tail(m) == b
  {
    assert |m| - |m| % 64 == |a|;
  }

  lemma CountIs(n: nat, len: nat)
    ensures n % W64 % 64 == n % 64 && (n % W64 + len) % W64 == (n + len) % W64
  {
    assert n == W64 * (n / W64) + n % W64;
  }

  /** The padding of a message fits into its last block, or takes one more. */
  lemma PadShort(m: seq<bv8>)
    requires |m| % 64 <= 55
    ensures Padded(m) == Bulk(m) + (Tail(m) + [0x80] + Zeros(55 - |m| % 64) + LeBytes(BitLength(|m|), 8))
  {
    hide LeBytes, BitLength;
    assert Fill(|m|) == 55 - |m| % 64;
  }

  lemma PadLong(m: seq<bv8>)
    requires |m| % 64 > 55
    ensures Padded(m) == Bulk(m) + (Tail(m) + [0x80] + Zeros(63 - |m| % 64)) + (Zeros(56) + LeBytes(BitLength(|m|), 8))
  {
    hide LeBytes, BitLength;
    assert Fill(|m|) == 63 - |m| % 64 + 56;
    assert Zeros(63 - |m| % 64) + Zeros(56) == Zeros(Fill(|m|));
  }

  // ---- what an update does to the two parts ----

  lemma Fits(m: seq<bv8>, data: seq<bv8>)
    requires |m| % 64 + |data| < 64
    ensures Bulk(m + data) == Bulk(m) && Tail(m + data) == Tail(m) + data
    ensures |m + data| % 64 == |m| % 64 + |data| && |Tail(m)| == |m| % 64
  {
    SplitIs(m + data, Bulk(m), Tail(m) + data);
  }

  lemma Fills(m: seq<bv8>, data: seq<bv8>, k: nat)
    requires k <= |data| && k == 64 - |m| % 64
    ensures |Tail(m)| == |m| % 64 && (|m| + k) % 64 == 0
    ensures m + data[..k] == Bulk(m) + (Tail(m) + data[..k])
  {
  }

  lemma Rest(m: seq<bv8>, data: seq<bv8>, k: nat)
    requires k <= |data| < k + 64 && (|m| + k) % 64 == 0
    ensures Bulk(m + data) == m + data[..k] && Tail(m + data) == data[k..] && |m + data| % 64 == |data| - k
  {
    assert m + data == m + data[..k] + data[k..];
    SplitIs(m + data, m + data[..k], data[k..]);
  }

  /** The last block ends with the length. */
  lemma LastBlock(f: Compression, m: seq<bv8>, done: seq<bv8>, head: seq<bv8>)
    requires |done| % 64 == 0 && |head| == 56 && Padded(m) == done + (head + LeBytes(BitLength(|m|), 8))
    ensures var c := |m| % W64;
            |Padded(m)| % 64 == 0
            && Iterate(f, INITIAL, Padded(m))
               == f(Iterate(f, INITIAL, done), Words(head) + [8 * c % W32, c / 0x2000_0000 % W32])
  {
    hide Iterate, Words, Padded, LeBytes, BitLength, INITIAL;
    var length := LeBytes(BitLength(|m|), 8);
    IterateOne(f, INITIAL, done, head + length);
    WordsAppend(head, length);
    LengthWords(|m|);
  }

  class Context {
    const compress: Compression
    var hash: Hash
    const block: array<bv8>
    var byteCount: nat
    ghost var message: seq<bv8>

    /** What has been hashed, and what waits in the block buffer. */
    ghost predicate Valid()
      reads this, block
    {
      && block.Length == 64
      && byteCount == |message| % W64
      && hash == Iterate(compress, INITIAL, Bulk(message))
      && block[..|message| % 64] == Tail(message)
    }

    /** md5_init on a new context */
    constructor (f: Compression)
      ensures Valid() && fresh(block) && compress == f && message == []
    {
      compress, block, hash, byteCount, message := f, new bv8[64], INITIAL, 0, [];
    }

    /** md5_init */
    method Init()
      requires block.Length == 64
      modifies this
      ensures Valid() && message == []
    {
      hash, byteCount, message := INITIAL, 0, [];
    }

    method Copy(at: nat, data: seq<bv8>)
      requires at + |data| <= block.Length
      modifies block
      ensures block[..at] == old(block[..at]) && block[at..at + |data|] == data
      ensures block[at + |data|..] == old(block[at + |data|..])
    {
      forall i | 0 <= i < |data| { block[at + i] := data[i]; }
    }

    /** md5_transform_helper */
    method Transform()
      modifies this`hash
      ensures hash == compress(old(hash), Words(block[..]))
    {
      hash := compress(hash, Words(block[..]));
    }

    /** md5_update: the message goes on with the data. */
    method Update(data: seq<bv8>)
      requires Valid()
      modifies this, block
      ensures Valid() && message == old(message) + data
    {
      hide Iterate, Words, Bulk, Tail, INITIAL;
      ghost var m := message;
      CountIs(|m|, |data|);
      var avail: nat := 64 - byteCount % 64;
      byteCount := (byteCount + |data|) % W64;
      message := message + data;
      if avail > |data| {
        Fits(m, data);
        Copy(64 - avail, data);
        assert block[..|message| % 64] == Tail(m) + data;
        return;
      }
      Fills(m, data, avail);
      Copy(64 - avail, data[..avail]);
      assert block[..] == Tail(m) + data[..avail];
      IterateOne(compress, INITIAL, Bulk(m), block[..]);
      Transform();
      var k := WholeBlocks(m, data, avail);
      Copy(0, data[k..]);
      Rest(m, data, k);
    }

    /** The loop of md5_update over whole blocks; k bytes of the data are done. */
    method WholeBlocks(ghost m: seq<bv8>, data: seq<bv8>, start: nat) returns (k: nat)
      requires block.Length == 64 && start <= |data| && (|m| + start) % 64 == 0
      requires hash == Iterate(compress, INITIAL, m + data[..start])
      modifies this`hash, block
      ensures k <= |data| < k + 64 && (|m| + k) % 64 == 0
      ensures hash == Iterate(compress, INITIAL, m + data[..k])
    {
      hide Iterate, Words, INITIAL;
      k := start;
      while |data| - k >= 64
        invariant k <= |data| && (|m| + k) % 64 == 0
        invariant hash == Iterate(compress, INITIAL, m + data[..k])
      {
        Copy(0, data[k..k + 64]);
        assert block[..] == data[k..k + 64];
        IterateOne(compress, INITIAL, m + data[..k], data[k..k + 64]);
        assert m + data[..k + 64] == m + data[..k] + data[k..k + 64];
        Transform();
        k := k + 64;
      }
    }

    /** The padding of md5_final, up to the length. */
    method Pad() returns (ghost done: seq<bv8>)
      requires Valid()
      modifies this`hash, block
      ensures |done| % 64 == 0 && hash == Iterate(compress, INITIAL, done)
      ensures Padded(message) == done + (block[..56] + LeBytes(BitLength(|message|), 8))
    {
      hide Iterate, Words, Padded, LeBytes, BitLength, Fill, Bulk, Tail, Zeros, INITIAL;
      ghost var m, length := message, LeBytes(BitLength(|message|), 8);
      done := Bulk(m);
      CountIs(|m|, 0);
      var offset: nat := byteCount % 64;
      var padding: int := 56 - (offset + 1);
      var p: nat := offset + 1;
      Copy(offset, [0x80]);
      assert block[..p] == block[..offset] + block[offset..offset + 1];
      if padding < 0 {
        PadLong(m);
        Copy(p, Zeros(padding + 8));
        assert block[..] == block[..p] + block[p..p + (padding + 8)];
        IterateOne(compress, INITIAL, done, block[..]);
        done := done + block[..];
        Transform();
        Copy(0, Zeros(56));
        assert block[..56] == block[0..0 + 56];
      } else {
        PadShort(m);
        Copy(p, Zeros(padding));
        assert block[..56] == block[..p] + block[p..p + padding];
      }
    }

    /** md5_final: the digest of the message.  The context is wiped. */
    method Final() returns (out: seq<bv8>)
      requires Valid()
      modifies this, block
      ensures out == Digest(compress, old(message))
      ensures forall i :: 0 <= i < 64 ==> block[i] == 0
      ensures hash == Hash(0, 0, 0, 0) && byteCount == 0
    {
      hide Iterate, Words, Padded, Output, LeBytes, BitLength, Bulk, Tail, INITIAL;
      ghost var done := Pad();
      LastBlock(compress, message, done, block[..56]);
      hash := compress(hash, Words(block[..56]) + [8 * byteCount % W32, byteCount / 0x2000_0000 % W32]);
      out := Output(hash);
      forall i | 0 <= i < 64 { block[i] := 0; }
      hash, byteCount := Hash(0, 0, 0, 0), 0;
    }
  }
}
