/** Cipher block chaining (section 6.2 of NIST SP 800-38A). */
module Cbc {
  import opened Division

  type Cipher = seq<bv8> -> seq<bv8>

  ghost predicate Sized(f: Cipher, bs: nat) { bs > 0 && forall b :: |b| == bs ==> |f(b)| == bs }

  ghost predicate Inverse(enc: Cipher, dec: Cipher, bs: nat) { forall b :: |b| == bs ==> dec(enc(b)) == b }

  function Xor(a: seq<bv8>, b: seq<bv8>): (r: seq<bv8>)
    requires |a| == |b|
    ensures |r| == |a|
  {
    seq(|a|, i requires 0 <= i < |a| => a[i] ^ b[i])
  }

  /** The whole blocks of p, each XORed with the cipher text before it and encrypted. */
  ghost function Encrypted(enc: Cipher, bs: nat, iv: seq<bv8>, p: seq<bv8>): seq<bv8>
    requires Sized(enc, bs) && |iv| == bs
    decreases |p|
  {
    if |p| < bs then [] else
      var c := enc(Xor(p[..bs], iv));
      c + Encrypted(enc, bs, c, p[bs..])
  }

  /** The whole blocks of c, each decrypted and XORed with the cipher text before it. */
  ghost function Decrypted(dec: Cipher, bs: nat, iv: seq<bv8>, c: seq<bv8>): seq<bv8>
    requires Sized(dec, bs) && |iv| == bs
    decreases |c|
  {
    if |c| < bs then [] else Xor(dec(c[..bs]), iv) + Decrypted(dec, bs, c[..bs], c[bs..])
  }

  /** The IV for what follows: the last block of cipher text. */
  function Carried(bs: nat, iv: seq<bv8>, c: seq<bv8>): (r: seq<bv8>)
    requires bs > 0 && |iv| == bs
    ensures |r| == bs
    decreases |c|
  {
    if |c| < bs then iv else Carried(bs, c[..bs], c[bs..])
  }

  // ---- lengths ----

  function Rest(n: nat, bs: nat): nat
    requires bs > 0
  {
    n % bs
  }

  lemma RestIs(n: nat, bs: nat)
    requires bs > 0
    ensures Rest(n, bs) < bs && Rest(n, bs) <= n
    ensures n < bs ==> Rest(n, bs) == n
    ensures n >= bs ==> Rest(n - bs, bs) == Rest(n, bs)
  {
    var q: int, r := n / bs, n % bs;
    assert n == bs * q + r;
    if n >= bs {
      assert n - bs == bs * (q - 1) + r;
      Divides(n - bs, bs, q - 1, r);
    } else {
      Divides(n, bs, 0, n);
    }
    Multiple(bs, q);
  }

  lemma {:induction false} EncryptedLength(enc: Cipher, bs: nat, iv: seq<bv8>, p: seq<bv8>)
    requires Sized(enc, bs) && |iv| == bs
    ensures |Encrypted(enc, bs, iv, p)| == |p| - Rest(|p|, bs)
    decreases |p|
  {
    RestIs(|p|, bs);
    hide Rest;
    if |p| >= bs { EncryptedLength(enc, bs, enc(Xor(p[..bs], iv)), p[bs..]); }
  }

  // ---- the equations of the standard ----

  lemma Right(a: seq<bv8>, b: seq<bv8>, i: nat, j: nat)
    requires |a| <= i <= j <= |a| + |b|
    ensures (a + b)[i..j] == b[i - |a|..j - |a|]
  {
  }

  /** The block before k, or the IV. */
  function Before(bs: nat, iv: seq<bv8>, c: seq<bv8>, k: nat): seq<bv8>
    requires k == 0 || bs <= k <= |c|
  {
    if k == 0 then iv else c[k - bs..k]
  }

  lemma BeforeRight(bs: nat, iv: seq<bv8>, a: seq<bv8>, b: seq<bv8>, k: nat)
    requires |a| == bs > 0 && (k == bs || 2 * bs <= k <= bs + |b|)
    ensures Before(bs, iv, a + b, k) == Before(bs, a, b, k - bs)
  {
    if k > bs { Right(a, b, k - bs, k); }
  }

  /** The block at k is the encryption of the plain block XORed with the cipher block before
      it, or with the IV. */
  lemma {:induction false} EncryptedBlock(enc: Cipher, bs: nat, iv: seq<bv8>, p: seq<bv8>, k: nat)
    requires Sized(enc, bs) && |iv| == bs && Rest(k, bs) == 0 && k + bs <= |p|
    ensures var c := Encrypted(enc, bs, iv, p);
            && k + bs <= |c| && (k > 0 ==> bs <= k)
            && |Before(bs, iv, c, k)| == bs
            && c[k..k + bs] == enc(Xor(p[k..k + bs], Before(bs, iv, c, k)))
    decreases |p|
  {
    RestIs(k, bs);
    hide Rest, Xor;
    var c := enc(Xor(p[..bs], iv));
    var t := Encrypted(enc, bs, c, p[bs..]);
    if k > 0 {
      RestIs(k - bs, bs);
      EncryptedBlock(enc, bs, c, p[bs..], k - bs);
      hide Before;
      BeforeRight(bs, iv, c, t, k);
      assert p[bs..][k - bs..k] == p[k..k + bs];
      Right(c, t, k, k + bs);
    }
  }

  /** The block at k is the decryption of the cipher block, XORed with the cipher block before
      it, or with the IV. */
  lemma {:induction false} DecryptedBlock(dec: Cipher, bs: nat, iv: seq<bv8>, c: seq<bv8>, k: nat)
    requires Sized(dec, bs) && |iv| == bs && Rest(k, bs) == 0 && k + bs <= |c|
    ensures var p := Decrypted(dec, bs, iv, c);
            && k + bs <= |p| && (k > 0 ==> bs <= k)
            && |Before(bs, iv, c, k)| == bs
            && p[k..k + bs] == Xor(dec(c[k..k + bs]), Before(bs, iv, c, k))
    decreases |c|
  {
    RestIs(k, bs);
    hide Rest, Xor;
    var x := Xor(dec(c[..bs]), iv);
    var t := Decrypted(dec, bs, c[..bs], c[bs..]);
    if k > 0 {
      RestIs(k - bs, bs);
      DecryptedBlock(dec, bs, c[..bs], c[bs..], k - bs);
      hide Before;
      BeforeRight(bs, iv, c[..bs], c[bs..], k);
      assert c[..bs] + c[bs..] == c;
      assert c[bs..][k - bs..k] == c[k..k + bs];
      Right(x, t, k, k + bs);
    }
  }

  // ---- the pieces of a message ----

  /** The blocks may be encrypted in pieces that carry the IV on. */
  lemma {:induction false} EncryptedAppend(enc: Cipher, bs: nat, iv: seq<bv8>, a: seq<bv8>, b: seq<bv8>)
    requires Sized(enc, bs) && |iv| == bs && Rest(|a|, bs) == 0
    ensures var c := Encrypted(enc, bs, iv, a);
            Encrypted(enc, bs, iv, a + b) == c + Encrypted(enc, bs, Carried(bs, iv, c), b)
    decreases |a|
  {
    RestIs(|a|, bs);
    hide Rest;
    if |a| < bs {
      assert a + b == b;
    } else {
      var c := enc(Xor(a[..bs], iv));
      EncryptedAppend(enc, bs, c, a[bs..], b);
      assert (a + b)[..bs] == a[..bs] && (a + b)[bs..] == a[bs..] + b;
      var t := Encrypted(enc, bs, c, a[bs..]);
      assert (c + t)[..bs] == c && (c + t)[bs..] == t;
    }
  }

  lemma {:induction false} DecryptedAppend(dec: Cipher, bs: nat, iv: seq<bv8>, a: seq<bv8>, b: seq<bv8>)
    requires Sized(dec, bs) && |iv| == bs && Rest(|a|, bs) == 0
    ensures Decrypted(dec, bs, iv, a + b) == Decrypted(dec, bs, iv, a) + Decrypted(dec, bs, Carried(bs, iv, a), b)
    decreases |a|
  {
    RestIs(|a|, bs);
    hide Rest;
    if |a| < bs {
      assert a + b == b;
    } else {
      DecryptedAppend(dec, bs, a[..bs], a[bs..], b);
      assert (a + b)[..bs] == a[..bs] && (a + b)[bs..] == a[bs..] + b;
    }
  }

  lemma {:induction false} CarriedAppend(bs: nat, iv: seq<bv8>, a: seq<bv8>, b: seq<bv8>)
    requires bs > 0 && |iv| == bs && Rest(|a|, bs) == 0
    ensures Carried(bs, iv, a + b) == Carried(bs, Carried(bs, iv, a), b)
    decreases |a|
  {
    RestIs(|a|, bs);
    hide Rest;
    if |a| < bs {
      assert a + b == b;
    } else {
      CarriedAppend(bs, a[..bs], a[bs..], b);
      assert (a + b)[..bs] == a[..bs] && (a + b)[bs..] == a[bs..] + b;
    }
  }

  // ---- decryption undoes encryption ----

  lemma XorTwice(a: seq<bv8>, b: seq<bv8>)
    requires |a| == |b|
    ensures Xor(Xor(a, b), b) == a
  {
    forall i | 0 <= i < |a| ensures (a[i] ^ b[i]) ^ b[i] == a[i] {
      XorByte(a[i], b[i]);
    }
  }

  lemma XorByte(x: bv8, y: bv8)
    ensures (x ^ y) ^ y == x
  {
  }

  lemma {:induction false} DecryptUndoesEncrypt(enc: Cipher, dec: Cipher, bs: nat, iv: seq<bv8>, p: seq<bv8>)
    requires Sized(enc, bs) && Sized(dec, bs) && Inverse(enc, dec, bs) && |iv| == bs && Rest(|p|, bs) == 0
    ensures Decrypted(dec, bs, iv, Encrypted(enc, bs, iv, p)) == p
    decreases |p|
  {
    RestIs(|p|, bs);
    hide Rest, Xor;
    if |p| >= bs {
      var x := Xor(p[..bs], iv);
      var c := enc(x);
      var t := Encrypted(enc, bs, c, p[bs..]);
      DecryptUndoesEncrypt(enc, dec, bs, c, p[bs..]);
      assert (c + t)[..bs] == c && (c + t)[bs..] == t;
      assert dec(c) == x;
      XorTwice(p[..bs], iv);
      assert p == p[..bs] + p[bs..];
    }
  }

  /** Only the whole blocks matter. */
  lemma {:induction false} WholeBlocks(f: Cipher, bs: nat, iv: seq<bv8>, d: seq<bv8>, k: nat)
    requires Sized(f, bs) && |iv| == bs && k <= |d| && Rest(k, bs) == 0 && |d| - k < bs
    ensures Encrypted(f, bs, iv, d) == Encrypted(f, bs, iv, d[..k])
    ensures Decrypted(f, bs, iv, d) == Decrypted(f, bs, iv, d[..k])
    ensures Carried(bs, iv, d) == Carried(bs, iv, d[..k])
  {
    EncryptedAppend(f, bs, iv, d[..k], d[k..]);
    DecryptedAppend(f, bs, iv, d[..k], d[k..]);
    CarriedAppend(bs, iv, d[..k], d[k..]);
    assert d[..k] + d[k..] == d;
    hide Xor;
    var c := Encrypted(f, bs, iv, d[..k]);
    assert c + [] == c && Decrypted(f, bs, iv, d[..k]) + [] == Decrypted(f, bs, iv, d[..k]);
  }
}
