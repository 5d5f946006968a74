/** Feeding a scatterlist to a digest page by page (crypto/digest.c). */
module Digests {
  import opened Bytes
  import opened Md5Padding
  import Md5

  const PAGE: nat := 4096

  /** A scatterlist entry: `length` bytes from `offset` into the first page on. */
  datatype Entry = Entry(page: nat, offset: nat, length: nat)

  function Start(page: nat): nat { page * 4096 }

  function Address(e: Entry): nat { Start(e.page) + e.offset }

  predicate EntryOk(memory: seq<bv8>, e: Entry) {
    e.offset <= PAGE && Address(e) + e.length <= |memory|
  }

  /** The entries, in the order of scatterwalk_sg_next, lie in memory. */
  predicate ListOk(memory: seq<bv8>, sg: seq<Entry>) {
    forall i :: 0 <= i < |sg| ==> EntryOk(memory, sg[i])
  }

  /** The bytes of a scatterlist. */
  function Gather(memory: seq<bv8>, sg: seq<Entry>): seq<bv8>
    requires ListOk(memory, sg)
  {
    if sg == [] then []
    else memory[Address(sg[0])..Address(sg[0]) + sg[0].length] + Gather(memory, sg[1..])
  }

  /** crypto_kmap: one page. */
  function Mapped(memory: seq<bv8>, page: nat): (r: seq<bv8>)
    requires Start(page) <= |memory|
    ensures |r| <= PAGE
  {
    if Start(page) + PAGE <= |memory| then memory[Start(page)..Start(page) + PAGE] else memory[Start(page)..]
  }

  lemma SliceSlice(s: seq<bv8>, a: nat, b: nat, p: nat, q: nat)
    requires a <= b <= |s| && p <= q && a + q <= b
    ensures s[a..b][p..q] == s[a + p..a + q]
  {
    var x, y := s[a..b][p..q], s[a + p..a + q];
    forall k | 0 <= k < q - p ensures x[k] == y[k] {
      assert x[k] == s[a..b][p + k];
    }
  }

  /** Bytes of a mapped page go on with bytes of memory. */
  lemma MappedBytes(m: seq<bv8>, memory: seq<bv8>, page: nat, offset: nat, p: nat, n: nat)
    requires offset <= p && p + n <= PAGE && Start(page) + p + n <= |memory|
    ensures p + n <= |Mapped(memory, page)|
    ensures var base := Start(page);
            m + memory[base + offset..base + p] + Mapped(memory, page)[p..p + n] ==
                m + memory[base + offset..base + p + n]
  {
    hide Mapped;
    var base := Start(page);
    var top := MappedIs(memory, page);
    SliceSlice(memory, base, top, p, p + n);
    Extend(m, memory, base + offset, base + p, base + p + n);
  }

  lemma MappedIs(memory: seq<bv8>, page: nat) returns (top: nat)
    requires Start(page) <= |memory|
    ensures Start(page) <= top <= |memory| && Mapped(memory, page) == memory[Start(page)..top]
    ensures top == Start(page) + PAGE || top == |memory| <= Start(page) + PAGE
  {
    top := if Start(page) + PAGE <= |memory| then Start(page) + PAGE else |memory|;
  }

  /** The bytes before the next aligned one: `alignmask + 1 - (offset & alignmask)`. */
  function ToAlign(offset: nat, align: nat): nat
    requires align > 0
  {
    align - offset % align
  }

  function Min(a: nat, b: nat): nat { if a < b then a else b }

  lemma Extend(m: seq<bv8>, memory: seq<bv8>, a: nat, b: nat, c: nat)
    requires a <= b <= c <= |memory|
    ensures m + memory[a..b] + memory[b..c] == m + memory[a..c]
  {
    assert memory[a..c] == memory[a..b] + memory[b..c];
  }

  /** One turn of the inner loop of update2: what one page holds of an entry, an unaligned
      start separately.  Nothing is read from beyond the mapped page. */
  method UpdatePage(d: Md5.Context, memory: seq<bv8>, page: nat, offset: nat, align: nat, l: nat) returns (done: nat)
    requires d.Valid() && offset <= PAGE && Start(page) + offset + l <= |memory| && align > 0
    modifies d, d.block
    ensures d.Valid() && done <= l && offset + done <= PAGE && (done == l || offset + done == PAGE)
    ensures d.message == old(d.message) + memory[Start(page) + offset..Start(page) + offset + done]
  {
    hide Md5.Context.Valid, Mapped, ToAlign, Start;
    var bytesFromPage := Min(l, PAGE - offset);
    var src, p: nat := Mapped(memory, page), offset;
    ghost var base: nat, m := Start(page), d.message;
    done := bytesFromPage;
    assert d.message == m + memory[base + offset..base + p];
    if offset % align != 0 {
      var bytes := Min(ToAlign(offset, align), bytesFromPage);
      MappedBytes(m, memory, page, offset, p, bytes);
      d.Update(src[p..p + bytes]);
      p, bytesFromPage := p + bytes, bytesFromPage - bytes;
    }
    MappedBytes(m, memory, page, offset, p, bytesFromPage);
    d.Update(src[p..p + bytesFromPage]);
  }

  /** The inner loop of update2: the first l bytes of an entry. */
  method UpdateEntry(d: Md5.Context, memory: seq<bv8>, e: Entry, align: nat, length: nat)
    requires d.Valid() && EntryOk(memory, e) && length <= e.length && align > 0
    modifies d, d.block
    ensures d.Valid() && d.message == old(d.message) + memory[Address(e)..Address(e) + length]
  {
    hide Md5Padding.Iterate, Min;
    ghost var m, a := d.message, Address(e);
    var page: nat, offset: nat, l: nat := e.page, e.offset, length;
    while true
      invariant d.Valid() && l <= length && offset <= PAGE && Start(page) + offset == a + (length - l)
      invariant d.message == m + memory[a..a + (length - l)]
      decreases l, if offset == PAGE then 1 else 0
    {
      ghost var at: nat := a + (length - l);
      var done := UpdatePage(d, memory, page, offset, align, l);
      Extend(m, memory, a, at, at + done);
      offset, page, l := 0, page + 1, l - done;
      if l == 0 { break; }
    }
  }

  lemma GatherPrefix(m: seq<bv8>, memory: seq<bv8>, sg: seq<Entry>, n: nat)
    requires ListOk(memory, sg) && 0 < n <= |Gather(memory, sg)|
    ensures sg != [] && EntryOk(memory, sg[0]) && ListOk(memory, sg[1..])
    ensures var k := Min(sg[0].length, n);
            && n - k <= |Gather(memory, sg[1..])|
            && m + Gather(memory, sg)[..n] == m + memory[Address(sg[0])..Address(sg[0]) + k]
               + Gather(memory, sg[1..])[..n - k]
  {
    assert EntryOk(memory, sg[0]);
    var k := Min(sg[0].length, n);
    assert Gather(memory, sg)[..n] == memory[Address(sg[0])..Address(sg[0]) + k] + Gather(memory, sg[1..])[..n - k];
  }

  /** update2: the message goes on with the first nbytes of the scatterlist, wherever its
      entries lie in memory and whatever the alignment. */
  method Update(d: Md5.Context, memory: seq<bv8>, list: seq<Entry>, nbytes: nat, align: nat)
    requires d.Valid() && ListOk(memory, list) && nbytes <= |Gather(memory, list)| && align > 0
    modifies d, d.block
    ensures d.Valid() && d.message == old(d.message) + Gather(memory, list)[..nbytes]
  {
    hide Gather, ListOk, EntryOk, Md5.Context.Valid;
    if nbytes == 0 { return; }
    ghost var m := d.message + Gather(memory, list)[..nbytes];
    var sg, left := list, nbytes;
    while true
      invariant d.Valid() && ListOk(memory, sg) && 0 < left <= |Gather(memory, sg)|
      invariant d.message + Gather(memory, sg)[..left] == m
      decreases |sg|
    {
      GatherPrefix(d.message, memory, sg, left);
      var l := Min(sg[0].length, left);
      left := left - l;
      UpdateEntry(d, memory, sg[0], align, l);
      if left == 0 { break; }
      sg := sg[1..];
    }
  }

  /** digest of digest.c */
  method Digest(d: Md5.Context, memory: seq<bv8>, list: seq<Entry>, nbytes: nat, align: nat) returns (out: seq<bv8>)
    requires d.block.Length == 64 && ListOk(memory, list) && nbytes <= |Gather(memory, list)| && align > 0
    modifies d, d.block
    ensures out == Md5Padding.Digest(d.compress, Gather(memory, list)[..nbytes])
  {
    hide Md5Padding.Digest, Gather, ListOk;
    d.Init();
    Update(d, memory, list, nbytes, align);
    assert d.message == Gather(memory, list)[..nbytes];
    out := d.Final();
  }
}
