/** HMAC over MD5 (crypto/hmac.c) computes the keyed hash of section 2 of RFC 2104. */
module Hmac {
  import opened Bytes
  import opened Md5Padding
  import opened Digests
  import Md5

  // ---- RFC 2104 ----

  /** The key, hashed if it is longer than a block, filled with zeros. */
  function KeyBlock(f: Compression, key: seq<bv8>): (r: seq<bv8>)
    ensures |r| == 64
  {
    var k := if |key| > 64 then Md5Padding.Digest(f, key) else key;
    k + Zeros(64 - |k|)
  }

  function XorAll(b: seq<bv8>, c: bv8): (r: seq<bv8>)
    ensures |r| == |b|
  {
    seq(|b|, i requires 0 <= i < |b| => b[i] ^ c)
  }

  function Inner(f: Compression, key: seq<bv8>): seq<bv8> { XorAll(KeyBlock(f, key), 0x36) }

  function Outer(f: Compression, key: seq<bv8>): seq<bv8> { XorAll(KeyBlock(f, key), 0x5c) }

  function Mac(f: Compression, key: seq<bv8>, text: seq<bv8>): seq<bv8> {
    Md5Padding.Digest(f, Outer(f, key) + Md5Padding.Digest(f, Inner(f, key) + text))
  }

  // ---- buffers as scatterlists ----

  /** What surrounds a buffer in memory. */
  datatype Place = Place(before: seq<bv8>, after: seq<bv8>)

  /** sg_init_one */
  function SgInitOne(place: Place, length: nat): Entry {
    Entry(|place.before| / 4096, |place.before| % 4096, length)
  }

  lemma OneEntry(place: Place, buffer: seq<bv8>)
    ensures var memory, e := place.before + buffer + place.after, SgInitOne(place, |buffer|);
            ListOk(memory, [e]) && Gather(memory, [e]) == buffer && Gather(memory, [e])[..|buffer|] == buffer
  {
    var memory, e := place.before + buffer + place.after, SgInitOne(place, |buffer|);
    assert Address(e) == |place.before|;
    assert EntryOk(memory, e);
    assert Gather(memory, [e][1..]) == [];
    assert memory[Address(e)..Address(e) + |buffer|] == buffer;
  }

  /** More memory behind does not change what a scatterlist holds. */
  lemma {:induction false} GatherMore(memory: seq<bv8>, more: seq<bv8>, sg: seq<Entry>)
    requires ListOk(memory, sg)
    ensures ListOk(memory + more, sg) && Gather(memory + more, sg) == Gather(memory, sg)
  {
    forall i | 0 <= i < |sg| ensures EntryOk(memory + more, sg[i]) {
      assert EntryOk(memory, sg[i]);
    }
    if sg != [] {
      assert EntryOk(memory, sg[0]);
      GatherMore(memory, more, sg[1..]);
      var a, b := Address(sg[0]), Address(sg[0]) + sg[0].length;
      assert (memory + more)[a..b] == memory[a..b];
    }
  }

  // ---- hmac.c ----

  class Context {
    const child: Md5.Context
    const align: nat
    /** ipad, opad and digest, one behind the other */
    const pads: array<bv8>

    ghost predicate Shape()
      reads this
    {
      pads.Length == 144 && child.block.Length == 64 && pads != child.block && align > 0
    }

    /** hmac_setkey was called with the key. */
    ghost predicate Keyed(key: seq<bv8>)
      reads this, pads
    {
      Shape() && pads[..64] == Inner(child.compress, key) && pads[64..128] == Outer(child.compress, key)
    }

    /** A message is being authenticated, and the text so far is given. */
    ghost predicate Running(key: seq<bv8>, text: seq<bv8>)
      reads this, pads, child, child.block
    {
      Keyed(key) && child.Valid() && child.message == Inner(child.compress, key) + text
    }

    constructor (f: Compression, align: nat)
      requires align > 0
      ensures Shape() && child.compress == f && fresh(child) && fresh(child.block) && fresh(pads)
    {
      child := new Md5.Context(f);
      this.align, pads := align, new bv8[144];
    }

    method Copy(at: nat, data: seq<bv8>)
      requires at + |data| <= pads.Length
      modifies pads
      ensures pads[..at] == old(pads[..at]) && pads[at..at + |data|] == data
      ensures pads[at + |data|..] == old(pads[at + |data|..])
    {
      forall i | 0 <= i < |data| { pads[at + i] := data[i]; }
    }

    /** hmac_setkey */
    method SetKey(key: seq<bv8>, place: Place)
      requires Shape()
      modifies pads, child, child.block
      ensures Keyed(key)
    {
      hide Md5Padding.Digest, ListOk, Gather;
      var inkey := key;
      if |key| > 64 {
        OneEntry(place, key);
        var digest := Digests.Digest(child, place.before + key + place.after, [SgInitOne(place, |key|)], |key|, align);
        Copy(128, digest);
        inkey := pads[128..144];
      }
      Copy(0, inkey);
      Copy(|inkey|, Zeros(64 - |inkey|));
      var k := pads[..64];
      assert pads[..64] == pads[..|inkey|] + pads[|inkey|..64];
      assert k == KeyBlock(child.compress, key);
      Copy(64, k);
      assert pads[64..64 + 64] == k;
      XorPads(key);
    }

    /** The loop at the end of hmac_setkey. */
    method XorPads(ghost key: seq<bv8>)
      requires Shape() && pads[..64] == KeyBlock(child.compress, key) && pads[64..128] == KeyBlock(child.compress, key)
      modifies pads
      ensures Keyed(key)
    {
      hide KeyBlock, Md5.Context.Valid;
      var i := 0;
      ghost var k := KeyBlock(child.compress, key);
      while i < 64
        invariant 0 <= i <= 64
        invariant forall j :: 0 <= j < i ==> pads[j] == k[j] ^ 0x36 && pads[64 + j] == k[j] ^ 0x5c
        invariant forall j :: i <= j < 64 ==> pads[j] == k[j] && pads[64 + j] == k[j]
      {
        pads[i] := pads[i] ^ 0x36;
        pads[64 + i] := pads[64 + i] ^ 0x5c;
        i := i + 1;
      }
    }

    /** hmac_init */
    method Init(ghost key: seq<bv8>, place: Place)
      requires Keyed(key)
      modifies child, child.block
      ensures Running(key, [])
    {
      hide Inner, Outer, Gather, ListOk;
      child.Init();
      OneEntry(place, pads[..64]);
      Digests.Update(child, place.before + pads[..64] + place.after, [SgInitOne(place, 64)], 64, align);
      assert child.message == Inner(child.compress, key) + [];
    }

    /** hmac_update */
    method Update(ghost key: seq<bv8>, ghost text: seq<bv8>, memory: seq<bv8>, sg: seq<Entry>, nbytes: nat)
      requires Running(key, text) && ListOk(memory, sg) && nbytes <= |Gather(memory, sg)|
      modifies child, child.block
      ensures Running(key, text + Gather(memory, sg)[..nbytes])
    {
      hide Inner, Outer, Gather, ListOk;
      Digests.Update(child, memory, sg, nbytes, align);
    }

    /** hmac_final: opad and the inner digest are hashed as one buffer. */
    method Final(ghost key: seq<bv8>, ghost text: seq<bv8>, place: Place) returns (out: seq<bv8>)
      requires Running(key, text)
      modifies pads, child, child.block
      ensures out == Mac(child.compress, key, text) && Keyed(key)
    {
      hide Inner, Outer, Md5Padding.Digest;
      var digest := child.Final();
      out := HashOuter(key, digest, place);
    }

    method HashOuter(ghost key: seq<bv8>, digest: seq<bv8>, place: Place) returns (out: seq<bv8>)
      requires Keyed(key) && |digest| == 16
      modifies pads, child, child.block
      ensures Keyed(key) && out == Md5Padding.Digest(child.compress, Outer(child.compress, key) + digest)
    {
      hide Inner, Outer, Md5Padding.Digest, Gather, ListOk;
      ghost var before := pads[..128];
      Copy(128, digest);
      assert pads[..64] == before[..64] && pads[64..128] == before[64..];
      assert pads[64..] == pads[64..128] + digest;
      OneEntry(place, pads[64..]);
      out := Digests.Digest(child, place.before + pads[64..] + place.after, [SgInitOne(place, 80)], 80, align);
    }

    /** hmac_digest: ipad is chained in front of the caller's scatterlist. */
    method Digest(ghost key: seq<bv8>, memory: seq<bv8>, sg: seq<Entry>, nbytes: nat, place: Place)
        returns (out: seq<bv8>)
      requires Keyed(key) && ListOk(memory, sg) && nbytes <= |Gather(memory, sg)|
      modifies pads, child, child.block
      ensures out == Mac(child.compress, key, Gather(memory, sg)[..nbytes]) && Keyed(key)
    {
      hide Inner, Outer, Md5Padding.Digest, Gather, ListOk;
      var ipad := Place(memory, []);
      Chained(memory, pads[..64], sg, nbytes);
      var digest := Digests.Digest(child, memory + pads[..64], [SgInitOne(ipad, 64)] + sg, nbytes + 64, align);
      out := HashOuter(key, digest, place);
    }
  }

  lemma Chained(memory: seq<bv8>, buffer: seq<bv8>, sg: seq<Entry>, n: nat)
    requires ListOk(memory, sg) && n <= |Gather(memory, sg)|
    ensures var all, list := memory + buffer, [SgInitOne(Place(memory, []), |buffer|)] + sg;
            && ListOk(all, list) && n + |buffer| <= |Gather(all, list)|
            && Gather(all, list)[..n + |buffer|] == buffer + Gather(memory, sg)[..n]
  {
    var all, e := memory + buffer, SgInitOne(Place(memory, []), |buffer|);
    var list := [e] + sg;
    GatherMore(memory, buffer, sg);
    assert all + [] == all;
    OneEntry(Place(memory, []), buffer);
    FirstEntry(all, e, sg);
    hide Gather, ListOk, SgInitOne;
    assert (buffer + Gather(all, sg))[..n + |buffer|] == buffer + Gather(memory, sg)[..n];
  }

  lemma FirstEntry(memory: seq<bv8>, e: Entry, sg: seq<Entry>)
    requires ListOk(memory, [e]) && ListOk(memory, sg)
    ensures ListOk(memory, [e] + sg) && Gather(memory, [e] + sg) == Gather(memory, [e]) + Gather(memory, sg)
  {
    var list := [e] + sg;
    assert EntryOk(memory, [e][0]);
    forall i | 0 <= i < |list| ensures EntryOk(memory, list[i]) {
      if i > 0 { assert list[i] == sg[i - 1]; }
    }
    assert list[1..] == sg && Gather(memory, [e][1..]) == [];
  }
}
