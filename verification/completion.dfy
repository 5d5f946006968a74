/** Partial completion of a request (__end_that_request_first and req_bio_endio of
    ll_rw_blk.c): completing n bytes takes exactly the first n bytes off the request. */
module Completion {

  import opened Lists

  /** A bio_vec. */
  datatype Vec = Vec(page: nat, offset: nat, len: nat)

  /** bi_size, bi_idx, bi_io_vec and the BIO_UPTODATE flag. */
  datatype Bio = Bio(id: nat, size: nat, idx: nat, vecs: seq<Vec>, uptodate: bool)

  /** A call of bio_endio. */
  datatype Ending = Ending(id: nat, error: int)

  /** One byte of memory. */
  datatype Place = Place(page: nat, pos: nat)

  const EIO := 5

  // ---- what remains to be transferred ----

  function VecBytes(v: Vec): (r: seq<Place>)
    ensures |r| == v.len
  {
    seq(v.len, i requires 0 <= i < v.len => Place(v.page, v.offset + i))
  }

  function VecsBytes(vs: seq<Vec>): seq<Place> { if vs == [] then [] else VecBytes(vs[0]) + VecsBytes(vs[1..]) }

  /** bi_size is the number of bytes behind bi_idx. */
  predicate BioOk(b: Bio) { b.idx <= |b.vecs| && b.size == |VecsBytes(b.vecs[b.idx..])| }

  predicate ChainOk(bios: seq<Bio>) { forall i :: 0 <= i < |bios| ==> BioOk(bios[i]) }

  function Remaining(bios: seq<Bio>): seq<Place>
    requires ChainOk(bios)
  {
    if bios == [] then [] else VecsBytes(bios[0].vecs[bios[0].idx..]) + Remaining(bios[1..])
  }

  function Ids(bios: seq<Bio>): seq<nat> { seq(|bios|, i requires 0 <= i < |bios| => bios[i].id) }

  // ---- completion, as a function ----

  /** The vectors behind idx, with n bytes taken off; nothing is skipped once n is 0. */
  function Advance(vecs: seq<Vec>, idx: nat, n: nat): (nat, seq<Vec>)
    requires idx <= |vecs| && n <= |VecsBytes(vecs[idx..])|
    decreases |vecs| - idx
  {
    if n == 0 || idx == |vecs| then (idx, vecs)
    else if vecs[idx].len > n then (idx, vecs[idx := Vec(vecs[idx].page, vecs[idx].offset + n, vecs[idx].len - n)])
    else
      assert vecs[idx..][1..] == vecs[idx + 1..];
      Advance(vecs, idx + 1, n - vecs[idx].len)
  }

  /** req_bio_endio: the error of an earlier part is not forgotten. */
  function ErrorOf(b: Bio, error: int): int { if error != 0 then error else if b.uptodate then 0 else -EIO }

  function PartlyDone(b: Bio, n: nat, error: int): Bio
    requires BioOk(b) && n < b.size
  {
    if n == 0 then b
    else
      var (idx, vecs) := Advance(b.vecs, b.idx, n);
      b.(size := b.size - n, idx := idx, vecs := vecs, uptodate := b.uptodate && error == 0)
  }

  /** The bios that are left. */
  function Complete(bios: seq<Bio>, n: nat, error: int): seq<Bio>
    requires ChainOk(bios)
  {
    if bios == [] then []
    else if n < bios[0].size then [PartlyDone(bios[0], n, error)] + bios[1..]
    else if n == bios[0].size then bios[1..]
    else Complete(bios[1..], n - bios[0].size, error)
  }

  /** The bios that are ended, in order. */
  function Endings(bios: seq<Bio>, n: nat, error: int): seq<Ending>
    requires ChainOk(bios)
  {
    if bios == [] || n < bios[0].size then []
    else
      var e := Ending(bios[0].id, ErrorOf(bios[0], error));
      if n == bios[0].size then [e] else [e] + Endings(bios[1..], n - bios[0].size, error)
  }

  // ---- completion is exact ----

  lemma {:induction false} AdvanceIs(vecs: seq<Vec>, idx: nat, n: nat)
    requires idx <= |vecs| && n <= |VecsBytes(vecs[idx..])|
    ensures var (i, vs) := Advance(vecs, idx, n);
            i <= |vs| && VecsBytes(vs[i..]) == VecsBytes(vecs[idx..])[n..]
    decreases |vecs| - idx
  {
    if n == 0 || idx == |vecs| {
    } else {
      var v := vecs[idx];
      assert vecs[idx..] == [v] + vecs[idx + 1..];
      var rest := VecsBytes(vecs[idx + 1..]);
      if v.len > n {
        var w := Vec(v.page, v.offset + n, v.len - n);
        var us := vecs[idx := w];
        assert us[idx..] == [w] + vecs[idx + 1..];
        assert VecBytes(w) == VecBytes(v)[n..];
        assert (VecBytes(v) + rest)[n..] == VecBytes(v)[n..] + rest;
      } else {
        AdvanceIs(vecs, idx + 1, n - v.len);
        assert (VecBytes(v) + rest)[n..] == rest[n - v.len..];
      }
    }
  }

  lemma PartlyDoneIs(b: Bio, n: nat, error: int)
    requires BioOk(b) && n < b.size
    ensures var c := PartlyDone(b, n, error);
            BioOk(c) && VecsBytes(c.vecs[c.idx..]) == VecsBytes(b.vecs[b.idx..])[n..] && c.size == b.size - n
            && c.id == b.id
  {
    AdvanceIs(b.vecs, b.idx, n);
    hide VecsBytes, Advance;
  }

  function Least(a: nat, b: nat): nat { if a < b then a else b }

  /** The first n bytes are gone, and all others are still there. */
  lemma {:induction false} CompleteIsExact(bios: seq<Bio>, n: nat, error: int)
    requires ChainOk(bios)
    ensures ChainOk(Complete(bios, n, error))
    ensures Remaining(Complete(bios, n, error)) == Remaining(bios)[Least(n, |Remaining(bios)|)..]
  {
    hide VecsBytes;
    if bios != [] {
      var b := bios[0];
      assert BioOk(b);
      var head, rest := VecsBytes(b.vecs[b.idx..]), Remaining(bios[1..]);
      if n < b.size {
        PartlyDoneIs(b, n, error);
        var c := PartlyDone(b, n, error);
        assert ([c] + bios[1..])[1..] == bios[1..];
        assert (head + rest)[n..] == head[n..] + rest;
      } else {
        if n > b.size { CompleteIsExact(bios[1..], n - b.size, error); }
        assert (head + rest)[Least(n, |head + rest|)..] == rest[Least(n - b.size, |rest|)..];
      }
    }
  }

  /** The bios ended and the bios left are the chain, in order: each bio is ended once, when
      its last byte is. */
  lemma {:induction false} EndedInOrder(bios: seq<Bio>, n: nat, error: int)
    requires ChainOk(bios)
    ensures var es := Endings(bios, n, error);
            Ids(bios) == seq(|es|, i requires 0 <= i < |es| => es[i].id) + Ids(Complete(bios, n, error))
  {
    hide BioOk, PartlyDone;
    if bios != [] {
      var b := bios[0];
      if n < b.size {
        SameId(b, n, error);
      } else {
        if n > b.size { EndedInOrder(bios[1..], n - b.size, error); }
        assert Ids(bios) == [b.id] + Ids(bios[1..]);
      }
    }
  }

  lemma SameId(b: Bio, n: nat, error: int)
    requires BioOk(b) && n < b.size
    ensures PartlyDone(b, n, error).id == b.id
  {
  }

  predicate NonEmpty(bios: seq<Bio>) { forall i :: 0 <= i < |bios| ==> bios[i].size > 0 }

  /** Bios always have bytes, so the chain is used up exactly when its bytes are. */
  lemma {:induction false} DoneWhenEmpty(bios: seq<Bio>, n: nat, error: int)
    requires ChainOk(bios) && NonEmpty(bios)
    ensures Complete(bios, n, error) == [] <==> n >= |Remaining(bios)|
    ensures NonEmpty(Complete(bios, n, error))
  {
    hide VecsBytes, Advance;
    if bios != [] {
      assert BioOk(bios[0]);
      if n > bios[0].size { DoneWhenEmpty(bios[1..], n - bios[0].size, error); }
      if n == bios[0].size { SomeBytes(bios[1..]); }
    }
  }

  lemma SomeBytes(bios: seq<Bio>)
    requires ChainOk(bios) && NonEmpty(bios)
    ensures bios == [] <==> |Remaining(bios)| == 0
  {
    hide VecsBytes;
    if bios != [] { assert BioOk(bios[0]); }
  }

  /** Completing a bytes and then b bytes leaves the same bytes as completing a + b. */
  lemma CompleteTwice(bios: seq<Bio>, a: nat, b: nat, error: int, error': int, both: int)
    requires ChainOk(bios)
    ensures ChainOk(Complete(bios, a, error)) && ChainOk(Complete(Complete(bios, a, error), b, error'))
            && ChainOk(Complete(bios, a + b, both))
    ensures Remaining(Complete(Complete(bios, a, error), b, error')) == Remaining(Complete(bios, a + b, both))
  {
    hide Complete, Remaining, ChainOk;
    CompleteIsExact(bios, a, error);
    CompleteIsExact(Complete(bios, a, error), b, error');
    CompleteIsExact(bios, a + b, both);
    var r := Remaining(bios);
    assert r[Least(a, |r|)..][Least(b, |r| - Least(a, |r|))..] == r[Least(a + b, |r|)..];
  }

  // ---- the error with which a bio ends ----

  /** A call of __end_that_request_first. */
  datatype Call = Call(n: nat, error: int)

  /** All calls of bio_endio, over several partial completions. */
  function AllEndings(bios: seq<Bio>, calls: seq<Call>): seq<Ending>
    requires ChainOk(bios)
    decreases |calls|
  {
    if calls == [] then [] else
      CompleteIsExact(bios, calls[0].n, calls[0].error);
      Endings(bios, calls[0].n, calls[0].error)
      + AllEndings(Complete(bios, calls[0].n, calls[0].error), calls[1..])
  }

  /** Where the k-th bio begins in the bytes of the request. */
  function Offset(bios: seq<Bio>, k: nat): nat
    requires k <= |bios|
  {
    if k == 0 then 0 else bios[0].size + Offset(bios[1..], k - 1)
  }

  /** A bio occupies the bytes from lo to hi of those that are left.  The call that completes
      its last byte ends it: with the error of that call; else with -EIO if an earlier call
      completed some of its bytes with an error. */
  function Reported(calls: seq<Call>, lo: nat, hi: nat, failed: bool): Option<int> {
    if calls == [] then None else
      var n, error := calls[0].n, calls[0].error;
      if hi <= n then Some(if error != 0 then error else if failed then -5 else 0)
      else Reported(calls[1..], if n < lo then lo - n else 0, hi - n, failed || (error != 0 && lo < n))
  }

  /** What one call does to the k-th bio. */
  lemma {:induction false} OneCall(bios: seq<Bio>, n: nat, error: int, k: nat)
    requires ChainOk(bios) && NonEmpty(bios) && k < |bios|
    ensures var es, cs := Endings(bios, n, error), Complete(bios, n, error);
            var lo := Offset(bios, k);
            var hi := lo + bios[k].size;
            && |es| + |cs| == |bios|
            && if hi <= n then
                 && k < |es|
                 && es[k] == Ending(bios[k].id, if error != 0 then error else if bios[k].uptodate then 0 else -5)
               else
                 && |es| <= k && cs[k - |es|].id == bios[k].id
                 && cs[k - |es|].uptodate == (bios[k].uptodate && (error == 0 || n <= lo))
                 && Offset(cs, k - |es|) == (if n < lo then lo - n else 0)
                 && cs[k - |es|].size == hi - (if n < lo then lo else n)
  {
    hide VecsBytes, Advance;
    var b := bios[0];
    if n < b.size {
      HeadCall(bios, n, error, k);
    } else if n == b.size {
      if k > 0 { assert bios[1..][k - 1] == bios[k]; }
    } else {
      if k > 0 { OneCall(bios[1..], n - b.size, error, k - 1); }
      Counts(bios[1..], n - b.size, error);
    }
  }

  lemma {:induction false} Counts(bios: seq<Bio>, n: nat, error: int)
    requires ChainOk(bios)
    ensures |Endings(bios, n, error)| + |Complete(bios, n, error)| == |bios|
  {
    hide BioOk, PartlyDone;
    if bios != [] && n > bios[0].size { Counts(bios[1..], n - bios[0].size, error); }
  }

  lemma HeadCall(bios: seq<Bio>, n: nat, error: int, k: nat)
    requires ChainOk(bios) && k < |bios| && n < bios[0].size
    ensures var cs := Complete(bios, n, error);
            var lo := Offset(bios, k);
            && |cs| == |bios| && cs[k].id == bios[k].id
            && cs[k].uptodate == (bios[k].uptodate && (error == 0 || n <= lo))
            && Offset(cs, k) == (if n < lo then lo - n else 0)
            && cs[k].size == lo + bios[k].size - (if n < lo then lo else n)
            && Endings(bios, n, error) == []
  {
    hide VecsBytes, Advance, BioOk;
    assert BioOk(bios[0]);
    var cs := Complete(bios, n, error);
    assert cs[1..] == bios[1..];
  }

  /** Over any calls, each bio is ended when its last byte is completed, and an error is
      reported if any of its bytes failed. */
  lemma {:induction false} ErrorReported(bios: seq<Bio>, calls: seq<Call>, k: nat)
    requires ChainOk(bios) && NonEmpty(bios) && k < |bios|
    ensures var es := AllEndings(bios, calls);
            var r := Reported(calls, Offset(bios, k), Offset(bios, k) + bios[k].size, !bios[k].uptodate);
            match r
            case Some(error) => k < |es| && es[k] == Ending(bios[k].id, error)
            case None => |es| <= k
    decreases |calls|
  {
    if calls != [] {
      var n, error := calls[0].n, calls[0].error;
      OneCall(bios, n, error, k);
      CompleteIsExact(bios, n, error);
      DoneWhenEmpty(bios, n, error);
      hide Endings, Complete, Offset, ChainOk, NonEmpty;
      var es, cs := Endings(bios, n, error), Complete(bios, n, error);
      if k >= |es| { ErrorReported(cs, calls[1..], k - |es|); }
    }
  }

  // ---- the loop ----

  /** The part of `struct request` that completion updates: the chain of bios, and the calls
      of bio_endio. */
  class Request {
    var bios: seq<Bio>
    var ended: seq<Ending>

    constructor (chain: seq<Bio>)
      ensures bios == chain && ended == []
    {
      bios, ended := chain, [];
    }

    /** `__end_that_request_first`, for a request that is not the barrier's proxy: false
        when the request is done. */
    method EndFirst(error: int, n: nat) returns (more: bool)
      requires ChainOk(bios)
      modifies this
      ensures bios == Complete(old(bios), n, error) && ended == old(ended) + Endings(old(bios), n, error)
      ensures more <==> bios != []
      ensures ChainOk(bios) && Remaining(bios) == Remaining(old(bios))[Least(n, |Remaining(old(bios))|)..]
    {
      hide VecsBytes, Remaining;
      CompleteIsExact(bios, n, error);
      var nrBytes: nat := n;
      assert ended + Endings(bios, nrBytes, error) == old(ended) + Endings(old(bios), n, error);
      while bios != []
        invariant ChainOk(bios) && Complete(bios, nrBytes, error) == Complete(old(bios), n, error)
        invariant ended + Endings(bios, nrBytes, error) == old(ended) + Endings(old(bios), n, error)
        decreases |bios|
      {
        var bio := bios[0];
        assert BioOk(bio);
        if nrBytes < bio.size {
          var idx, bytes, left := AdvanceBio(bio, nrBytes);
          if bytes > 0 { UpdateHead(idx, left, nrBytes, error); }
          return true;
        }
        // req_bio_endio ends the bio
        var e := Ending(bio.id, ErrorOf(bio, error));
        ghost var rest := if nrBytes == bio.size then [] else Endings(bios[1..], nrBytes - bio.size, error);
        assert ended + ([e] + rest) == (ended + [e]) + rest;
        ended := ended + [e];
        bios := bios[1..];
        nrBytes := nrBytes - bio.size;
        if bios != [] && nrBytes == 0 { return true; }
      }
      return false;
    }

    /** Stepping over the vectors of the first bio: the new index, the bytes completed, and
        the bytes completed of the vector at the new index. */
    method AdvanceBio(bio: Bio, nrBytes: nat) returns (idx: nat, bytes: nat, left: nat)
      requires BioOk(bio) && nrBytes < bio.size
      ensures bytes == nrBytes && idx < |bio.vecs| && left <= bio.vecs[idx].len
      ensures nrBytes > 0 ==> Advance(bio.vecs, bio.idx, nrBytes) == (idx, Shorten(bio.vecs, idx, left))
    {
      hide VecsBytes;
      idx, bytes, left := bio.idx, 0, nrBytes;
      BytesStep(bio.vecs, idx);
      while true
        invariant idx < |bio.vecs| && bytes + left == nrBytes && left < |VecsBytes(bio.vecs[idx..])|
        invariant nrBytes > 0 ==> left > 0 && Advance(bio.vecs, bio.idx, nrBytes) == Advance(bio.vecs, idx, left)
        decreases |bio.vecs| - idx
      {
        BytesStep(bio.vecs, idx);
        var len := bio.vecs[idx].len;
        if len > left {
          bytes := bytes + left;
          break;
        }
        BytesStep(bio.vecs, idx + 1);
        bytes := bytes + len;
        left := left - len;
        idx := idx + 1;
        if left == 0 {
          SameVecs(bio.vecs, idx);
          break;
        }
      }
    }

    method UpdateHead(idx: nat, left: nat, n: nat, error: int)
      requires bios != [] && BioOk(bios[0]) && 0 < n < bios[0].size && idx < |bios[0].vecs|
               && left <= bios[0].vecs[idx].len
      requires Advance(bios[0].vecs, bios[0].idx, n) == (idx, Shorten(bios[0].vecs, idx, left))
      modifies this`bios
      ensures bios == [PartlyDone(old(bios[0]), n, error)] + old(bios)[1..]
    {
      hide VecsBytes, Advance, Shorten;
      var b := bios[0];
      var vecs := Shorten(b.vecs, idx, left);
      bios := [b.(size := b.size - n, idx := idx, vecs := vecs, uptodate := b.uptodate && error == 0)] + bios[1..];
    }
  }

  /** bv_offset += n, bv_len -= n */
  function Shorten(vecs: seq<Vec>, idx: nat, n: nat): seq<Vec>
    requires idx < |vecs| && n <= vecs[idx].len
  {
    vecs[idx := Vec(vecs[idx].page, vecs[idx].offset + n, vecs[idx].len - n)]
  }

  lemma SameVecs(vecs: seq<Vec>, idx: nat)
    requires idx < |vecs|
    ensures Shorten(vecs, idx, 0) == vecs
  {
  }

  lemma BytesStep(vecs: seq<Vec>, idx: nat)
    requires idx <= |vecs|
    ensures |VecsBytes(vecs[idx..])| == if idx == |vecs| then 0 else vecs[idx].len + |VecsBytes(vecs[idx + 1..])|
  {
    if idx < |vecs| { assert vecs[idx..][1..] == vecs[idx + 1..]; }
  }
}
