/** The four loops of crypto/cbc.c and their drivers. */
module CbcMode {
  import opened Cbc
  import opened Division

  // ---- blocks in memory ----

  /** Outside of [i, i + n) the array is as it was. */
  twostate predicate Elsewhere(a: array<bv8>, i: nat, n: nat)
    requires i + n <= a.Length
    reads a
  {
    a[..i] == old(a[..i]) && a[i + n..] == old(a[i + n..])
  }

  /** memcpy */
  method Copy(a: array<bv8>, i: nat, block: seq<bv8>)
    requires i + |block| <= a.Length
    modifies a
    ensures a[i..i + |block|] == block && Elsewhere(a, i, |block|)
  {
    forall k | 0 <= k < |block| { a[i + k] := block[k]; }
  }

  /** xor_byte; the wider forms compute the same. */
  method XorBlock(a: array<bv8>, i: nat, b: array<bv8>, j: nat, bs: nat)
    requires bs > 0 && i + bs <= a.Length && j + bs <= b.Length && (a == b ==> i + bs <= j || j + bs <= i)
    modifies a
    ensures a[i..i + bs] == Xor(old(a[i..i + bs]), old(b[j..j + bs])) && Elsewhere(a, i, bs)
  {
    var k: nat := 0;
    ghost var x, y := a[..], b[j..j + bs];
    while true
      invariant k < bs
      invariant forall m :: 0 <= m < a.Length ==> a[m] == if i <= m < i + k then x[m] ^ y[m - i] else x[m]
      invariant forall m :: j + k <= m < j + bs ==> b[m] == y[m - j]
      decreases bs - k
    {
      a[i + k] := a[i + k] ^ b[j + k];
      k := k + 1;
      if k == bs { break; }
    }
    assert a[..i] == x[..i] && a[i + bs..] == x[i + bs..];
    XorIs(a[..], x, y, i, bs);
  }

  lemma XorIs(a: seq<bv8>, x: seq<bv8>, y: seq<bv8>, i: nat, bs: nat)
    requires |a| == |x| && i + bs <= |a| && |y| == bs
    requires forall m :: i <= m < i + bs ==> a[m] == x[m] ^ y[m - i]
    ensures a[i..i + bs] == Xor(x[i..i + bs], y)
  {
    var r := Xor(x[i..i + bs], y);
    forall k | 0 <= k < bs ensures a[i..i + bs][k] == r[k] {
      assert a[i + k] == x[i + k] ^ y[i + k - i];
    }
  }

  // ---- one block on ----

  /** The state of an encrypting loop: `done` is the cipher text of the first `at` bytes of
      p, and v its last block. */
  ghost predicate Encrypting(enc: Cipher, bs: nat, iv: seq<bv8>, p: seq<bv8>, at: nat, done: seq<bv8>, v: seq<bv8>)
    requires Sized(enc, bs) && |iv| == bs && at <= |p|
  {
    && |v| == bs
    && Encrypted(enc, bs, iv, p) == done + Encrypted(enc, bs, v, p[at..])
    && Carried(bs, iv, Encrypted(enc, bs, iv, p)) == Carried(bs, v, Encrypted(enc, bs, v, p[at..]))
  }

  lemma EncryptStart(enc: Cipher, bs: nat, iv: seq<bv8>, p: seq<bv8>)
    requires Sized(enc, bs) && |iv| == bs
    ensures Encrypting(enc, bs, iv, p, 0, [], iv)
  {
    assert p[0..] == p;
  }

  lemma EncryptStep(enc: Cipher, bs: nat, iv: seq<bv8>, p: seq<bv8>, at: nat, done: seq<bv8>, v: seq<bv8>)
    requires Sized(enc, bs) && |iv| == bs && at + bs <= |p| && Encrypting(enc, bs, iv, p, at, done, v)
    ensures var c := enc(Xor(p[at..at + bs], v)); |c| == bs && Encrypting(enc, bs, iv, p, at + bs, done + c, c)
  {
    var c := enc(Xor(p[at..at + bs], v));
    assert p[at..][..bs] == p[at..at + bs] && p[at..][bs..] == p[at + bs..];
    var t := Encrypted(enc, bs, c, p[at + bs..]);
    assert Encrypted(enc, bs, v, p[at..]) == c + t;
    assert (c + t)[..bs] == c && (c + t)[bs..] == t;
    assert done + (c + t) == done + c + t;
    hide Xor;
  }

  lemma EncryptEnd(enc: Cipher, bs: nat, iv: seq<bv8>, p: seq<bv8>, at: nat, done: seq<bv8>, v: seq<bv8>)
    requires Sized(enc, bs) && |iv| == bs && at <= |p| < at + bs && Encrypting(enc, bs, iv, p, at, done, v)
    ensures done == Encrypted(enc, bs, iv, p) && v == Carried(bs, iv, done)
  {
  }

  /** The same for a decrypting loop; v is the last block of cipher text. */
  ghost predicate Decrypting(dec: Cipher, bs: nat, iv: seq<bv8>, c: seq<bv8>, at: nat, done: seq<bv8>, v: seq<bv8>)
    requires Sized(dec, bs) && |iv| == bs && at <= |c|
  {
    && |v| == bs
    && Decrypted(dec, bs, iv, c) == done + Decrypted(dec, bs, v, c[at..])
    && Carried(bs, iv, c) == Carried(bs, v, c[at..])
  }

  lemma DecryptStart(dec: Cipher, bs: nat, iv: seq<bv8>, c: seq<bv8>)
    requires Sized(dec, bs) && |iv| == bs
    ensures Decrypting(dec, bs, iv, c, 0, [], iv)
  {
    assert c[0..] == c;
  }

  lemma DecryptStep(dec: Cipher, bs: nat, iv: seq<bv8>, c: seq<bv8>, at: nat, done: seq<bv8>, v: seq<bv8>)
    requires Sized(dec, bs) && |iv| == bs && at + bs <= |c| && Decrypting(dec, bs, iv, c, at, done, v)
    ensures var b := c[at..at + bs]; |dec(b)| == bs && Decrypting(dec, bs, iv, c, at + bs, done + Xor(dec(b), v), b)
  {
    DecryptOne(dec, bs, v, c, at);
    var b := c[at..at + bs];
    hide Decrypted, Carried;
    assert done + (Xor(dec(b), v) + Decrypted(dec, bs, b, c[at + bs..])) ==
           done + Xor(dec(b), v) + Decrypted(dec, bs, b, c[at + bs..]);
  }

  lemma DecryptOne(dec: Cipher, bs: nat, v: seq<bv8>, c: seq<bv8>, at: nat)
    requires Sized(dec, bs) && |v| == bs && at + bs <= |c|
    ensures var b := c[at..at + bs];
            && |dec(b)| == bs && Decrypted(dec, bs, v, c[at..]) == Xor(dec(b), v) + Decrypted(dec, bs, b, c[at + bs..])
            && Carried(bs, v, c[at..]) == Carried(bs, b, c[at + bs..])
  {
    assert c[at..][..bs] == c[at..at + bs] && c[at..][bs..] == c[at + bs..];
    hide Xor;
  }

  lemma DecryptEnd(dec: Cipher, bs: nat, iv: seq<bv8>, c: seq<bv8>, at: nat, done: seq<bv8>, v: seq<bv8>)
    requires Sized(dec, bs) && |iv| == bs && at <= |c| < at + bs && Decrypting(dec, bs, iv, c, at, done, v)
    ensures done == Decrypted(dec, bs, iv, c) && v == Carried(bs, iv, c)
  {
  }

  lemma Ahead(s: seq<bv8>, t: seq<bv8>, length: nat, at: nat, bs: nat)
    requires |s| == |t| && at + bs <= length <= |s| && s[at..] == t[at..]
    ensures s[at..at + bs] == t[..length][at..at + bs] && s[at + bs..] == t[at + bs..]
  {
    assert s[at..at + bs] == s[at..][..bs] && t[..length][at..at + bs] == t[at..][..bs];
    assert s[at + bs..] == s[at..][bs..] && t[at + bs..] == t[at..][bs..];
  }

  lemma Within(s: seq<bv8>, length: nat, at: nat, bs: nat)
    requires at + bs <= length <= |s|
    ensures s[..length][at..at + bs] == s[at..at + bs]
  {
  }

  lemma Behind(s: seq<bv8>, t: seq<bv8>, m: nat, end: nat)
    requires m <= end <= |s| == |t| && s[m..] == t[m..]
    ensures s[m..end] == t[m..end] && s[end..] == t[end..]
  {
    assert s[m..end] == s[m..][..end - m] && t[m..end] == t[m..][..end - m];
    assert s[end..] == s[m..][end - m..] && t[end..] == t[m..][end - m..];
  }

  lemma All(s: seq<bv8>, n: nat)
    requires |s| == n
    ensures s[0..n] == s && s[..n] == s
  {
  }

  // ---- segments ----

  /** How the walk presents the data: the length of the segment at a position, and whether
      source and destination are the same memory there. */
  datatype Walk = Walk(size: nat -> nat, inplace: nat -> bool)

  /** A segment has at least one block. */
  function SegmentLength(size: nat, left: nat, bs: nat): (n: nat)
    requires bs <= left
    ensures bs <= n <= left
  {
    if size < bs then bs else if size > left then left else size
  }

  /** The walk maps a segment. */
  method Map(data: seq<bv8>) returns (a: array<bv8>)
    ensures fresh(a) && a[..] == data && a[..|data|] == data
  {
    a := new bv8[|data|](i requires 0 <= i < |data| => data[i]);
  }

  lemma EncryptPiece(enc: Cipher, bs: nat, iv: seq<bv8>, p: seq<bv8>, at: nat, n: nat, left: nat, done: seq<bv8>,
                     v: seq<bv8>)
    requires Sized(enc, bs) && |iv| == bs && bs <= n && at + n <= |p| && left == Rest(n, bs)
    requires Encrypting(enc, bs, iv, p, at, done, v)
    ensures left < bs && Rest(|p| - at - (n - left), bs) == Rest(|p| - at, bs)
    ensures var c := Encrypted(enc, bs, v, p[at..at + n]);
            Encrypting(enc, bs, iv, p, at + (n - left), done + c, Carried(bs, v, c))
  {
    Pieces(enc, bs, v, p[at..], n, left);
    hide Xor, Rest, Encrypted, Carried;
    assert p[at..][..n] == p[at..at + n] && p[at..][n - left..] == p[at + (n - left)..];
    var c, k := Encrypted(enc, bs, v, p[at..at + n]), at + (n - left);
    var w := Carried(bs, v, c);
    assert done + (c + Encrypted(enc, bs, w, p[k..])) == done + c + Encrypted(enc, bs, w, p[k..]);
  }

  lemma DecryptPiece(dec: Cipher, bs: nat, iv: seq<bv8>, p: seq<bv8>, at: nat, n: nat, left: nat, done: seq<bv8>,
                     v: seq<bv8>)
    requires Sized(dec, bs) && |iv| == bs && bs <= n && at + n <= |p| && left == Rest(n, bs)
    requires Decrypting(dec, bs, iv, p, at, done, v)
    ensures left < bs && Rest(|p| - at - (n - left), bs) == Rest(|p| - at, bs)
    ensures Decrypting(dec, bs, iv, p, at + (n - left), done + Decrypted(dec, bs, v, p[at..at + n]),
                       Carried(bs, v, p[at..at + n]))
  {
    Pieces(dec, bs, v, p[at..], n, left);
    hide Xor, Rest, Decrypted, Carried;
    assert p[at..][..n] == p[at..at + n] && p[at..][n - left..] == p[at + (n - left)..];
    var c, k := Decrypted(dec, bs, v, p[at..at + n]), at + (n - left);
    var w := Carried(bs, v, p[at..at + n]);
    assert done + (c + Decrypted(dec, bs, w, p[k..])) == done + c + Decrypted(dec, bs, w, p[k..]);
  }

  /** The whole blocks among the first n bytes can be done first. */
  lemma Pieces(f: Cipher, bs: nat, v: seq<bv8>, d: seq<bv8>, n: nat, left: nat)
    requires Sized(f, bs) && |v| == bs && bs <= n <= |d| && left == Rest(n, bs)
    ensures left < bs && Rest(|d| - (n - left), bs) == Rest(|d|, bs)
    ensures var c := Encrypted(f, bs, v, d[..n]);
            && Encrypted(f, bs, v, d) == c + Encrypted(f, bs, Carried(bs, v, c), d[n - left..])
            && Carried(bs, v, Encrypted(f, bs, v, d)) ==
               Carried(bs, Carried(bs, v, c), Encrypted(f, bs, Carried(bs, v, c), d[n - left..]))
    ensures var w := Carried(bs, v, d[..n]);
            && Decrypted(f, bs, v, d) == Decrypted(f, bs, v, d[..n]) + Decrypted(f, bs, w, d[n - left..])
            && Carried(bs, v, d) == Carried(bs, w, d[n - left..])
  {
    hide Xor, Rest, Encrypted, Decrypted, Carried;
    RestIs(n, bs);
    RestMeans(n, bs);
    var k := n - left;
    RestAfter(|d|, k, bs);
    WholeBlocks(f, bs, v, d[..n], k);
    assert d[..n][..k] == d[..k] && d[..k] + d[k..] == d;
    EncryptedAppend(f, bs, v, d[..k], d[k..]);
    EncryptedLength(f, bs, v, d[..k]);
    DecryptedAppend(f, bs, v, d[..k], d[k..]);
    CarriedAppend(bs, v, d[..k], d[k..]);
    var c := Encrypted(f, bs, v, d[..k]);
    assert |c| == k;
    CarriedAppend(bs, v, c, Encrypted(f, bs, Carried(bs, v, c), d[k..]));
  }

  lemma {:induction false} RestAfter(n: nat, k: nat, bs: nat)
    requires bs > 0 && k <= n && Rest(k, bs) == 0
    ensures Rest(n - k, bs) == Rest(n, bs)
  {
    RestIs(k, bs);
    if k >= bs {
      RestIs(n, bs);
      RestAfter(n - bs, k - bs, bs);
    }
    hide Rest;
  }

  class Context {
    const bs: nat
    const encrypt: Cipher
    const decrypt: Cipher
    /** walk->iv */
    const iv: array<bv8>

    ghost predicate Valid() { bs > 0 && Sized(encrypt, bs) && Sized(decrypt, bs) && iv.Length == bs }

    constructor (bs: nat, encrypt: Cipher, decrypt: Cipher)
      requires Sized(encrypt, bs) && Sized(decrypt, bs)
      ensures Valid() && this.bs == bs && this.encrypt == encrypt && this.decrypt == decrypt && fresh(iv)
    {
      this.bs, this.encrypt, this.decrypt, iv := bs, encrypt, decrypt, new bv8[bs];
    }

    method SaveIv(block: seq<bv8>)
      requires Valid() && |block| == bs
      modifies iv
      ensures iv[..] == block
    {
      Copy(iv, 0, block);
      All(iv[..], bs);
    }

    /** One turn of the loop of crypto_cbc_encrypt_segment. */
    method SealInto(dst: array<bv8>, at: nat, src: array<bv8>)
      requires Valid() && at + bs <= src.Length && at + bs <= dst.Length && src != dst && iv != src && iv != dst
      modifies dst, iv
      ensures iv[..] == encrypt(Xor(src[at..at + bs], old(iv[..])))
      ensures dst[..at + bs] == old(dst[..at]) + iv[..]
    {
      hide Xor;
      ghost var v, b, before := iv[..], src[at..at + bs], dst[..at];
      All(v, bs);
      XorBlock(iv, 0, src, at, bs);
      All(iv[..], bs);
      XorSame(b, v);
      var c := encrypt(iv[..]);
      assert |c| == bs;
      Copy(dst, at, c);
      assert dst[..at + bs] == dst[..at] + dst[at..at + bs];
      Copy(iv, 0, c);
      All(iv[..], bs);
    }

    /** crypto_cbc_encrypt_segment */
    method EncryptSegment(src: array<bv8>, dst: array<bv8>, length: nat) returns (nbytes: nat)
      requires Valid() && bs <= length <= src.Length && length <= dst.Length && src != dst && iv != src && iv != dst
      modifies dst, iv
      ensures nbytes == Rest(length, bs) < bs
      ensures dst[..length - nbytes] == Encrypted(encrypt, bs, old(iv[..]), src[..length])
      ensures iv[..] == Carried(bs, old(iv[..]), dst[..length - nbytes])
    {
      hide Xor, Rest, Encrypting, Sized;
      ghost var iv0, p := iv[..], src[..length];
      var at: nat := 0;
      nbytes := length;
      EncryptStart(encrypt, bs, iv0, p);
      while true
        invariant bs <= nbytes && at + nbytes == length && Rest(nbytes, bs) == Rest(length, bs)
        invariant Encrypting(encrypt, bs, iv0, p, at, dst[..at], iv[..])
        decreases nbytes
      {
        EncryptStep(encrypt, bs, iv0, p, at, dst[..at], iv[..]);
        RestIs(nbytes, bs);
        Within(src[..], length, at, bs);
        SealInto(dst, at, src);
        nbytes, at := nbytes - bs, at + bs;
        if nbytes < bs { break; }
      }
      RestIs(nbytes, bs);
      EncryptEnd(encrypt, bs, iv0, p, at, dst[..at], iv[..]);
    }

    /** One turn of the loop of crypto_cbc_encrypt_inplace. */
    method SealBlock(src: array<bv8>, at: nat, b: array<bv8>, j: nat, ghost v: seq<bv8>)
      requires Valid() && at + bs <= src.Length && j + bs <= b.Length && (b == src ==> j + bs <= at)
      requires b[j..j + bs] == v && |v| == bs
      modifies src
      ensures src[at..at + bs] == encrypt(Xor(old(src[at..at + bs]), v))
      ensures src[..at + bs] == old(src[..at]) + src[at..at + bs] && src[at + bs..] == old(src[at + bs..])
    {
      hide Xor;
      XorBlock(src, at, b, j, bs);
      var c := encrypt(src[at..at + bs]);
      assert |c| == bs;
      Copy(src, at, c);
      assert src[..at + bs] == src[..at] + src[at..at + bs];
    }

    /** crypto_cbc_encrypt_inplace; the IV is a pointer to the block encrypted last. */
    method EncryptInplace(src: array<bv8>, length: nat) returns (nbytes: nat)
      requires Valid() && bs <= length <= src.Length && iv != src
      modifies src, iv
      ensures nbytes == Rest(length, bs) < bs
      ensures src[..length - nbytes] == Encrypted(encrypt, bs, old(iv[..]), old(src[..length]))
      ensures src[length - nbytes..] == old(src[length - nbytes..])
      ensures iv[..] == Carried(bs, old(iv[..]), src[..length - nbytes])
    {
      hide Xor, Rest, Encrypting, Sized;
      ghost var iv0, v, p, tail := iv[..], iv[..], src[..length], src[..];
      var at: nat, ivBuf, ivAt: nat := 0, iv, 0;
      nbytes := length;
      EncryptStart(encrypt, bs, iv0, p);
      All(iv[..], bs);
      while true
        invariant bs <= nbytes && at + nbytes == length && Rest(nbytes, bs) == Rest(length, bs)
        invariant src[at..] == tail[at..]
        invariant (ivBuf == iv && ivAt == 0) || (ivBuf == src && ivAt + bs == at)
        invariant |v| == bs && ivBuf[ivAt..ivAt + bs] == v
        invariant Encrypting(encrypt, bs, iv0, p, at, src[..at], v)
        decreases nbytes
      {
        EncryptStep(encrypt, bs, iv0, p, at, src[..at], v);
        RestIs(nbytes, bs);
        Ahead(src[..], tail, length, at, bs);
        SealBlock(src, at, ivBuf, ivAt, v);
        ivBuf, ivAt, v := src, at, encrypt(Xor(p[at..at + bs], v));
        nbytes, at := nbytes - bs, at + bs;
        if nbytes < bs { break; }
      }
      RestIs(nbytes, bs);
      EncryptEnd(encrypt, bs, iv0, p, at, src[..at], v);
      SaveIv(ivBuf[ivAt..ivAt + bs]);
    }

    /** One turn of the loop of crypto_cbc_decrypt_segment. */
    method OpenBlock(dst: array<bv8>, at: nat, src: array<bv8>, b: array<bv8>, j: nat, ghost v: seq<bv8>)
      requires Valid() && at + bs <= dst.Length && at + bs <= src.Length && src != dst && b != dst
      requires j + bs <= b.Length && b[j..j + bs] == v && |v| == bs
      modifies dst
      ensures dst[..at + bs] == old(dst[..at]) + Xor(decrypt(src[at..at + bs]), v)
    {
      hide Xor;
      var d := decrypt(src[at..at + bs]);
      assert |d| == bs;
      Copy(dst, at, d);
      XorBlock(dst, at, b, j, bs);
      assert dst[..at + bs] == dst[..at] + dst[at..at + bs];
    }

    /** crypto_cbc_decrypt_segment; the IV is a pointer to the block decrypted last. */
    method DecryptSegment(src: array<bv8>, dst: array<bv8>, length: nat) returns (nbytes: nat)
      requires Valid() && bs <= length <= src.Length && length <= dst.Length && src != dst && iv != src && iv != dst
      modifies dst, iv
      ensures nbytes == Rest(length, bs) < bs
      ensures dst[..length - nbytes] == Decrypted(decrypt, bs, old(iv[..]), src[..length])
      ensures iv[..] == Carried(bs, old(iv[..]), src[..length])
    {
      hide Xor, Rest, Decrypting, Sized;
      ghost var iv0, v, c := iv[..], iv[..], src[..length];
      var at: nat, ivBuf, ivAt: nat := 0, iv, 0;
      nbytes := length;
      DecryptStart(decrypt, bs, iv0, c);
      All(iv[..], bs);
      while true
        invariant bs <= nbytes && at + nbytes == length && Rest(nbytes, bs) == Rest(length, bs)
        invariant (ivBuf == iv && ivAt == 0) || (ivBuf == src && ivAt + bs == at)
        invariant |v| == bs && ivBuf[ivAt..ivAt + bs] == v
        invariant Decrypting(decrypt, bs, iv0, c, at, dst[..at], v)
        decreases nbytes
      {
        DecryptStep(decrypt, bs, iv0, c, at, dst[..at], v);
        RestIs(nbytes, bs);
        Within(src[..], length, at, bs);
        OpenBlock(dst, at, src, ivBuf, ivAt, v);
        ivBuf, ivAt, v := src, at, c[at..at + bs];
        nbytes, at := nbytes - bs, at + bs;
        if nbytes < bs { break; }
      }
      RestIs(nbytes, bs);
      DecryptEnd(decrypt, bs, iv0, c, at, dst[..at], v);
      SaveIv(ivBuf[ivAt..ivAt + bs]);
    }

    /** crypto_cbc_decrypt_inplace: from the last block to the first, so that the block
        before is still cipher text. */
    method DecryptInplace(src: array<bv8>, length: nat) returns (nbytes: nat)
      requires Valid() && bs <= length <= src.Length && iv != src
      modifies src, iv
      ensures nbytes == Rest(length, bs) < bs
      ensures src[..length - nbytes] == Decrypted(decrypt, bs, old(iv[..]), old(src[..length]))
      ensures src[length - nbytes..] == old(src[length - nbytes..])
      ensures iv[..] == Carried(bs, old(iv[..]), old(src[..length]))
    {
      hide Xor, Rest, Decrypted, Carried;
      var firstIv := new bv8[bs];
      Copy(firstIv, 0, iv[..]);
      ghost var v, c := iv[..], src[..];
      All(firstIv[..], bs);
      RestIs(length, bs);
      RestMeans(length, bs);
      nbytes := length;
      ghost var end: nat := length - Rest(length, bs);
      var at: nat := length - Rest(length, bs) - bs;
      LastCarried(decrypt, bs, v, c, length, at);
      Copy(iv, 0, src[at..at + bs]);
      All(iv[..], bs);
      ghost var last := iv[..];
      Ends(decrypt, bs, c[at..at + bs], []);
      while true
        invariant bs <= nbytes && nbytes == at + bs + Rest(length, bs) && Rest(nbytes, bs) == Rest(length, bs)
        invariant at + bs <= end && firstIv[0..bs] == v && iv[..] == last
        invariant src[..at + bs] == c[..at + bs] && src[end..] == c[end..]
        invariant src[at + bs..end] == Decrypted(decrypt, bs, c[at..at + bs], c[at + bs..end])
        decreases nbytes
      {
        BackStep(nbytes, at, bs, Rest(length, bs));
        DecryptBlock(src, at, c, end);
        nbytes := nbytes - bs;
        if nbytes < bs { break; }
        PointBack(src[..], c, at, bs);
        XorBackwards(src, at, src, at - bs, c[at - bs..at], c, end);
        at := at - bs;
      }
      XorBackwards(src, 0, firstIv, 0, v, c, end);
      assert c[0..end] == c[..end] && src[0..end] == src[..end];
      Whole(decrypt, bs, v, c, length, end);
    }

    /** crypto_cbc_encrypt: the result and the IV do not depend on the segments of the walk;
        -EINVAL (false) if bytes are left over. */
    method Encrypt(data: seq<bv8>, walk: Walk) returns (out: seq<bv8>, ok: bool)
      requires Valid()
      modifies iv
      ensures out == Encrypted(encrypt, bs, old(iv[..]), data)
      ensures iv[..] == Carried(bs, old(iv[..]), out) && ok == (Rest(|data|, bs) == 0)
    {
      hide Xor, Rest, Encrypting;
      ghost var iv0 := iv[..];
      var at: nat := 0;
      out := [];
      EncryptStart(encrypt, bs, iv0, data);
      while |data| - at >= bs
        invariant at <= |data| && Rest(|data| - at, bs) == Rest(|data|, bs)
        invariant Encrypting(encrypt, bs, iv0, data, at, out, iv[..])
        decreases |data| - at
      {
        var n := SegmentLength(walk.size(at), |data| - at, bs);
        var src := Map(data[at..at + n]);
        ghost var v, done := iv[..], out;
        var left, piece;
        if walk.inplace(at) {
          left := EncryptInplace(src, n);
          piece := src[..n - left];
        } else {
          var dst := new bv8[n];
          left := EncryptSegment(src, dst, n);
          piece := dst[..n - left];
        }
        EncryptPiece(encrypt, bs, iv0, data, at, n, left, done, v);
        out, at := out + piece, at + (n - left);
      }
      RestIs(|data| - at, bs);
      EncryptEnd(encrypt, bs, iv0, data, at, out, iv[..]);
      ok := at == |data|;
    }

    /** crypto_cbc_decrypt */
    method Decrypt(data: seq<bv8>, walk: Walk) returns (out: seq<bv8>, ok: bool)
      requires Valid()
      modifies iv
      ensures out == Decrypted(decrypt, bs, old(iv[..]), data)
      ensures iv[..] == Carried(bs, old(iv[..]), data) && ok == (Rest(|data|, bs) == 0)
    {
      hide Xor, Rest, Decrypting;
      ghost var iv0 := iv[..];
      var at: nat := 0;
      out := [];
      DecryptStart(decrypt, bs, iv0, data);
      while |data| - at >= bs
        invariant at <= |data| && Rest(|data| - at, bs) == Rest(|data|, bs)
        invariant Decrypting(decrypt, bs, iv0, data, at, out, iv[..])
        decreases |data| - at
      {
        var n := SegmentLength(walk.size(at), |data| - at, bs);
        var src := Map(data[at..at + n]);
        ghost var v, done := iv[..], out;
        var left, piece;
        if walk.inplace(at) {
          left := DecryptInplace(src, n);
          piece := src[..n - left];
        } else {
          var dst := new bv8[n];
          left := DecryptSegment(src, dst, n);
          piece := dst[..n - left];
        }
        DecryptPiece(decrypt, bs, iv0, data, at, n, left, done, v);
        out, at := out + piece, at + (n - left);
      }
      RestIs(|data| - at, bs);
      DecryptEnd(decrypt, bs, iv0, data, at, out, iv[..]);
      ok := at == |data|;
    }

    /** The block is decrypted, but not yet XORed with the cipher text before it. */
    method DecryptBlock(src: array<bv8>, at: nat, ghost c: seq<bv8>, ghost end: nat)
      requires Valid() && at + bs <= end <= src.Length == |c| && src[..at + bs] == c[..at + bs]
      modifies src
      ensures src[at..at + bs] == decrypt(c[at..at + bs]) && src[..at] == c[..at]
      ensures src[at + bs..end] == old(src[at + bs..end]) && src[end..] == old(src[end..])
    {
      assert src[at..at + bs] == src[..at + bs][at..] == c[at..at + bs];
      assert src[..at] == src[..at + bs][..at] == c[..at];
      ghost var s := src[..];
      var d := decrypt(src[at..at + bs]);
      assert |d| == bs;
      Copy(src, at, d);
      Behind(src[..], s, at + bs, end);
    }

    /** The XOR that completes a block. */
    method XorBackwards(src: array<bv8>, at: nat, b: array<bv8>, j: nat, ghost v: seq<bv8>, ghost c: seq<bv8>,
                        ghost end: nat)
      requires Valid() && at + bs <= end <= src.Length == |c| && j + bs <= b.Length && (b == src ==> j + bs <= at)
      requires src[at..at + bs] == decrypt(c[at..at + bs]) && b[j..j + bs] == v && |v| == bs && src[..at] == c[..at]
      requires src[at + bs..end] == Decrypted(decrypt, bs, c[at..at + bs], c[at + bs..end])
      modifies src
      ensures src[at..end] == Decrypted(decrypt, bs, v, c[at..end]) && src[..at] == c[..at]
      ensures src[end..] == old(src[end..])
    {
      hide Xor, Decrypted;
      ghost var s := src[..];
      XorBlock(src, at, b, j, bs);
      Behind(src[..], s, at + bs, end);
      assert src[at..end] == src[at..at + bs] + src[at + bs..end];
      DecryptOne(decrypt, bs, v, c[..end], at);
      assert c[..end][at..at + bs] == c[at..at + bs] && c[..end][at..] == c[at..end]
             && c[..end][at + bs..] == c[at + bs..end];
    }
  }

  lemma PointBack(s: seq<bv8>, c: seq<bv8>, at: nat, bs: nat)
    requires bs <= at <= |s| == |c| && s[..at] == c[..at]
    ensures s[at - bs..at] == c[at - bs..at]
  {
    assert s[at - bs..at] == s[..at][at - bs..] && c[at - bs..at] == c[..at][at - bs..];
  }

  lemma LastCarried(f: Cipher, bs: nat, iv: seq<bv8>, c: seq<bv8>, length: nat, at: nat)
    requires Sized(f, bs) && |iv| == bs && bs <= length <= |c| && at == length - Rest(length, bs) - bs
    ensures Carried(bs, iv, c[..length]) == c[at..at + bs]
  {
    RestIs(length, bs);
    RestMeans(length, bs);
    CarriedAppend(bs, iv, c[..at], c[at..length]);
    assert c[..at] + c[at..length] == c[..length];
    assert c[at..length][..bs] == c[at..at + bs] && |c[at..length][bs..]| < bs;
    Ends(f, bs, c[at..at + bs], c[at..length][bs..]);
  }

  lemma Whole(f: Cipher, bs: nat, iv: seq<bv8>, c: seq<bv8>, length: nat, end: nat)
    requires Sized(f, bs) && |iv| == bs <= length <= |c| && end == length - Rest(length, bs)
    ensures Decrypted(f, bs, iv, c[..length]) == Decrypted(f, bs, iv, c[..end])
  {
    RestIs(length, bs);
    RestMeans(length, bs);
    WholeBlocks(f, bs, iv, c[..length], end);
    assert c[..length][..end] == c[..end];
  }

  lemma BackStep(n: nat, at: nat, bs: nat, rest: nat)
    requires bs > 0 && n == at + bs + rest && Rest(n, bs) == rest
    ensures Rest(n - bs, bs) == rest
    ensures if n - bs < bs then at == 0 else at >= bs
  {
    RestIs(n, bs);
    RestIs(n - bs, bs);
    if n - bs >= bs { RestIs(n - bs - bs, bs); }
    hide Rest;
  }

  lemma RestMeans(n: nat, bs: nat)
    requires 0 < bs <= n
    ensures Rest(n, bs) + bs <= n && Rest(n - Rest(n, bs), bs) == 0 && Rest(n - Rest(n, bs) - bs, bs) == 0
  {
    var q: int, r: int := n / bs, n % bs;
    assert n == bs * q + r;
    RestIs(n, bs);
    Multiple(bs, q);
    Divides(n - r, bs, q, 0);
    RestIs(n - r, bs);
  }

  lemma Ends(f: Cipher, bs: nat, iv: seq<bv8>, rest: seq<bv8>)
    requires Sized(f, bs) && |iv| == bs && |rest| < bs
    ensures Encrypted(f, bs, iv, rest) == [] && Decrypted(f, bs, iv, rest) == []
    ensures Carried(bs, iv, rest) == iv && Carried(bs, iv, []) == iv
  {
  }

  lemma XorSame(a: seq<bv8>, b: seq<bv8>)
    requires |a| == |b|
    ensures Xor(a, b) == Xor(b, a)
  {
    forall i | 0 <= i < |a| ensures a[i] ^ b[i] == b[i] ^ a[i] {
      XorBytes(a[i], b[i]);
    }
  }

  lemma XorBytes(x: bv8, y: bv8)
    ensures x ^ y == y ^ x
  {
  }
}
