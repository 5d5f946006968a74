/** The message padding of MD5 (sections 3.1 and 3.2 of RFC 1321), and the iteration of a
    compression function over the padded message.  The compression function is arbitrary. */
module Md5Padding {
  import opened Bytes
  import opened Division

  const W32: nat := 0x1_0000_0000
  const W64: nat := 0x1_0000_0000_0000_0000

  datatype Hash = Hash(a: nat, b: nat, c: nat, d: nat)

  /** md5_transform, as a function of the hash and the sixteen words of a block. */
  type Compression = (Hash, seq<nat>) -> Hash

  const INITIAL := Hash(0x67452301, 0xefcdab89, 0x98badcfe, 0x10325476)

  // ---- words and bytes ----

  function LeBytes(w: nat, n: nat): (r: seq<bv8>)
    ensures |r| == n
  {
    if n == 0 then [] else [ToByte(w % 256)] + LeBytes(w / 256, n - 1)
  }

  function LeValue(b: seq<bv8>): nat {
    if b == [] then 0 else Index(b[0]) + 256 * LeValue(b[1..])
  }

  /** The 32-bit words of a byte string. */
  function Words(b: seq<bv8>): seq<nat> {
    if |b| < 4 then [] else [LeValue(b[..4])] + Words(b[4..])
  }

  function Output(h: Hash): (r: seq<bv8>)
    ensures |r| == 16
  {
    LeBytes(h.a, 4) + LeBytes(h.b, 4) + LeBytes(h.c, 4) + LeBytes(h.d, 4)
  }

  function Power256(n: nat): (r: nat)
    ensures r > 0
  {
    if n == 0 then 1 else 256 * Power256(n - 1)
  }

  lemma {:induction false} LeRoundTrip(w: nat, n: nat)
    requires w < Power256(n)
    ensures LeValue(LeBytes(w, n)) == w
  {
    if n > 0 {
      IndexOfByte(w % 256);
      hide ToByte, Index;
      LeRoundTrip(w / 256, n - 1);
    }
  }

  lemma {:induction false} WordsAppend(a: seq<bv8>, b: seq<bv8>)
    requires |a| % 4 == 0
    ensures Words(a + b) == Words(a) + Words(b)
  {
    hide LeValue;
    if a == [] {
      assert a + b == b;
    } else {
      assert (a + b)[..4] == a[..4] && (a + b)[4..] == a[4..] + b;
      WordsAppend(a[4..], b);
    }
  }

  lemma FourBytes(w: nat)
    requires w < W32
    ensures Words(LeBytes(w, 4)) == [w]
  {
    var b := LeBytes(w, 4);
    assert Power256(4) == W32;
    LeRoundTrip(w, 4);
    hide LeBytes, LeValue;
    assert b[..4] == b;
    assert Words(b[4..]) == [];
  }

  lemma LeSplit(w: nat)
    ensures LeBytes(w, 8) == LeBytes(w % W32, 4) + LeBytes(w / W32, 4)
  {
    LeBytesSplit(w, 4, 4);
    assert Power256(4) == W32;
  }

  function Low(w: nat, n: nat): nat { w % Power256(n) }

  function High(w: nat, n: nat): nat {
    Quotient(w, Power256(n));
    w / Power256(n)
  }

  lemma Quotient(w: nat, p: nat)
    requires p > 0
    ensures w / p >= 0
  {
    var k: int := w / p;
    assert w == p * k + w % p;
    Multiple(p, k);
  }

  lemma LowHigh(w: nat, n: nat)
    requires n > 0
    ensures Low(w, n) % 256 == w % 256 && Low(w, n) / 256 == Low(w / 256, n - 1) && High(w, n) == High(w / 256, n - 1)
  {
    ModDiv(w, Power256(n - 1));
  }

  lemma {:induction false} LeBytesSplit(w: nat, m: nat, n: nat)
    ensures LeBytes(w, m + n) == LeBytes(Low(w, m), m) + LeBytes(High(w, m), n)
  {
    if m > 0 {
      LowHigh(w, m);
      hide ToByte, Low, High;
      LeBytesSplit(w / 256, m - 1, n);
    }
  }

  lemma ModDiv(w: nat, p: nat)
    requires p > 0
    ensures w % (256 * p) % 256 == w % 256
    ensures w % (256 * p) / 256 == w / 256 % p
    ensures w / (256 * p) == w / 256 / p
  {
    var q, r, b := w / 256 / p, w / 256 % p, w % 256;
    assert w == 256 * (p * q + r) + b;
    assert w == (256 * p) * q + (256 * r + b);
    assert 256 * r + b < 256 * p;
    Divides(w, 256 * p, q, 256 * r + b);
  }
  // ---- the padded message ----

  function Zeros(n: nat): (r: seq<bv8>)
    ensures |r| == n
  {
    seq(n, _ => 0)
  }

  /** The length of the message in bits, modulo 2^64. */
  function BitLength(n: nat): nat { 8 * n % W64 }

  /** The fewest zeros that leave room for the length at the end of a block. */
  function Fill(n: nat): (r: nat)
    ensures r < 64 && (n + 1 + r + 8) % 64 == 0
  {
    (55 - n) % 64
  }

  function Padded(m: seq<bv8>): seq<bv8> {
    m + [0x80] + Zeros(Fill(|m|)) + LeBytes(BitLength(|m|), 8)
  }

  function Iterate(f: Compression, h: Hash, m: seq<bv8>): Hash
    requires |m| % 64 == 0
    decreases |m|
  {
    if m == [] then h else Iterate(f, f(h, Words(m[..64])), m[64..])
  }

  /** The MD5 digest of a message. */
  function Digest(f: Compression, m: seq<bv8>): (r: seq<bv8>)
    ensures |r| == 16
  {
    Output(Iterate(f, INITIAL, Padded(m)))
  }

  lemma {:induction false} IterateAppend(f: Compression, h: Hash, a: seq<bv8>, b: seq<bv8>)
    requires |a| % 64 == 0 && |b| % 64 == 0
    ensures Iterate(f, h, a + b) == Iterate(f, Iterate(f, h, a), b)
    decreases |a|
  {
    hide Words;
    if a == [] {
      assert a + b == b;
    } else {
      assert (a + b)[..64] == a[..64] && (a + b)[64..] == a[64..] + b;
      IterateAppend(f, f(h, Words(a[..64])), a[64..], b);
    }
  }

  lemma IterateOne(f: Compression, h: Hash, a: seq<bv8>, b: seq<bv8>)
    requires |a| % 64 == 0 && |b| == 64
    ensures Iterate(f, h, a + b) == f(Iterate(f, h, a), Words(b))
  {
    IterateAppend(f, h, a, b);
    hide Words;
    assert b[..64] == b && b[64..] == [];
  }

  /** The message and its length can be read off its padding. */
  lemma PaddedParts(m: seq<bv8>)
    ensures var p := Padded(m);
            |p| % 64 == 0 && |m| + 9 <= |p| && p[..|m|] == m && p[|p| - 8..] == LeBytes(BitLength(|m|), 8)
  {
    hide LeBytes, BitLength;
  }

  lemma BitLengthBytes(n: nat)
    ensures LeValue(LeBytes(BitLength(n), 8)) == BitLength(n)
  {
    assert Power256(8) == W64;
    LeRoundTrip(BitLength(n), 8);
  }

  /** Different messages below 2^61 bytes have different paddings. */
  lemma PaddedInjective(m: seq<bv8>, n: seq<bv8>)
    requires Padded(m) == Padded(n) && 8 * |m| < W64 && 8 * |n| < W64
    ensures m == n
  {
    hide Padded, LeBytes;
    PaddedParts(m);
    PaddedParts(n);
    BitLengthBytes(|m|);
    BitLengthBytes(|n|);
  }

  /** The two words that md5_final stores are the length in bits. */
  lemma LengthWords(n: nat)
    ensures var c := n % W64;
            Words(LeBytes(BitLength(n), 8)) == [8 * c % W32, c / 0x2000_0000 % W32]
  {
    var bits := BitLength(n);
    LeSplit(bits);
    hide LeBytes;
    LengthParts(n);
    FourBytes(bits % W32);
    FourBytes(bits / W32);
    WordsAppend(LeBytes(bits % W32, 4), LeBytes(bits / W32, 4));
  }

  lemma LengthParts(n: nat)
    ensures var c, bits := n % W64, BitLength(n);
            bits < W64 && bits % W32 == 8 * c % W32 && bits / W32 == c / 0x2000_0000 % W32
  {
    var c := n % W64;
    assert 8 * n == W64 * (8 * (n / W64)) + 8 * c;
    assert BitLength(n) == 8 * c % W64;
    var hi, lo := c / 0x2000_0000, c % 0x2000_0000;
    assert 8 * c == W32 * hi + 8 * lo && 8 * lo < W32;
  }
}
