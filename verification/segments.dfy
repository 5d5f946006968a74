/** Segment counting and scatterlist mapping (ll_rw_blk.c): blk_rq_map_sg never writes more
    entries than blk_recalc_rq_segments counted for the same request. */
module Segments {
  import opened Lists

  datatype Bvec = Bvec(page: nat, offset: nat, len: nat)

  /** The limits of a queue, and the BIOVEC_ tests as arbitrary predicates. */
  datatype Limits = Limits(
    cluster: bool, maxSegmentSize: nat,
    high: Bvec -> bool, physMergeable: (Bvec, Bvec) -> bool, segBoundary: (Bvec, Bvec) -> bool,
    virtMergeable: (Bvec, Bvec) -> bool, virtOversize: nat -> bool, virtStartSize: Bvec -> nat)

  // ---- blk_recalc_rq_segments ----

  /** Its local variables. */
  datatype Count = Count(phys: nat, hw: nat, segSize: nat, hwSize: nat, highPrev: bool)

  /** bv may continue the segment of size `size` that ends with prev. */
  predicate Continues(q: Limits, size: nat, prev: Bvec, bv: Bvec) {
    q.cluster && size + bv.len <= q.maxSegmentSize && q.physMergeable(prev, bv) && q.segBoundary(prev, bv)
  }

  function CountStep(q: Limits, c: Count, prev: Option<Bvec>, bv: Bvec): Count
    requires prev.None? ==> c.highPrev
  {
    var high := q.high(bv);
    var breaks := high || c.highPrev;
    if !breaks && Continues(q, c.segSize, prev.value, bv) && !q.virtOversize(c.hwSize + bv.len) then
      c.(segSize := c.segSize + bv.len, hwSize := c.hwSize + bv.len)
    else
      // the jump to new_hw_segment skips the test for virtual merging
      var sameHw := !breaks && !Continues(q, c.segSize, prev.value, bv)
                    && q.virtMergeable(prev.value, bv) && !q.virtOversize(c.hwSize + bv.len);
      Count(c.phys + 1, if sameHw then c.hw else c.hw + 1, bv.len,
            if sameHw then c.hwSize + bv.len else q.virtStartSize(bv) + bv.len, high)
  }

  function Previous(bvs: seq<Bvec>, i: nat): Option<Bvec>
    requires i <= |bvs|
  {
    if i == 0 then None else Some(bvs[i - 1])
  }

  /** After the first n bvecs. */
  function CountUpTo(q: Limits, bvs: seq<Bvec>, n: nat): (c: Count)
    requires n <= |bvs|
    ensures n == 0 ==> c.highPrev
    ensures c.hw <= c.phys <= n
  {
    if n == 0 then Count(0, 0, 0, 0, true) else CountStep(q, CountUpTo(q, bvs, n - 1), Previous(bvs, n - 1), bvs[n - 1])
  }

  /** `blk_recalc_rq_segments`, for the bvecs of a request with at least one bio. */
  method RecalcSegments(q: Limits, bvs: seq<Bvec>) returns (physSegments: nat, hwSegments: nat)
    ensures physSegments == CountUpTo(q, bvs, |bvs|).phys && hwSegments == CountUpTo(q, bvs, |bvs|).hw
    ensures hwSegments <= physSegments <= |bvs|
    ensures forall phys: set<nat>, hw: set<nat> :: Begin(q, bvs, |bvs|, phys, hw) ==>
                physSegments == |phys| && hwSegments == |hw|
  {
    CountsSegments(q, bvs);
    hide Begin;
    var segSize: nat, hwSegSize: nat, highPrev := 0, 0, true;
    physSegments, hwSegments := 0, 0;
    for i := 0 to |bvs|
      invariant CountUpTo(q, bvs, i) == Count(physSegments, hwSegments, segSize, hwSegSize, highPrev)
    {
      var bv := bvs[i];
      var high := q.high(bv);
      var newHw := high || highPrev;
      if !newHw && q.cluster && segSize + bv.len <= q.maxSegmentSize
         && q.physMergeable(bvs[i - 1], bv) && q.segBoundary(bvs[i - 1], bv)
      {
        if !q.virtOversize(hwSegSize + bv.len) {
          segSize := segSize + bv.len;
          hwSegSize := hwSegSize + bv.len;
          continue;
        }
        newHw := true;
      }
      if !newHw && q.virtMergeable(bvs[i - 1], bv) && !q.virtOversize(hwSegSize + bv.len) {
        hwSegSize := hwSegSize + bv.len;
      } else {
        hwSegSize := q.virtStartSize(bv) + bv.len;
        hwSegments := hwSegments + 1;
      }
      physSegments := physSegments + 1;
      segSize := bv.len;
      highPrev := high;
    }
  }

  // ---- blk_rq_map_sg ----

  /** A scatterlist entry: the bvecs first .. first + count - 1. */
  datatype Entry = Entry(first: nat, count: nat, length: nat)

  function MapStep(q: Limits, sg: seq<Entry>, bvs: seq<Bvec>, i: nat): seq<Entry>
    requires i < |bvs| && (i > 0 ==> sg != [])
  {
    var n := |sg| - 1;
    if i > 0 && Continues(q, sg[n].length, bvs[i - 1], bvs[i])
    then sg[n := Entry(sg[n].first, sg[n].count + 1, sg[n].length + bvs[i].len)]
    else sg + [Entry(i, 1, bvs[i].len)]
  }

  function MapUpTo(q: Limits, bvs: seq<Bvec>, n: nat): (sg: seq<Entry>)
    requires n <= |bvs|
    ensures n > 0 <==> sg != []
  {
    if n == 0 then [] else MapStep(q, MapUpTo(q, bvs, n - 1), bvs, n - 1)
  }

  function Bytes(bvs: seq<Bvec>, lo: nat, hi: nat): nat
    requires lo <= hi <= |bvs|
  {
    if lo == hi then 0 else Bytes(bvs, lo, hi - 1) + bvs[hi - 1].len
  }

  /** The entries are runs of bvecs that follow each other without gaps, each run is one
      piece of memory for the queue, and the lengths are right. */
  predicate Tiles(q: Limits, bvs: seq<Bvec>, sg: seq<Entry>, n: nat)
    requires n <= |bvs|
  {
    && (sg == [] <==> n == 0)
    && (sg != [] ==> sg[0].first == 0 && sg[|sg| - 1].first + sg[|sg| - 1].count == n)
    && (forall i :: 0 <= i < |sg| - 1 ==> sg[i].first + sg[i].count == sg[i + 1].first)
    && (forall i :: 0 <= i < |sg| ==> EntryOk(q, bvs, sg[i], n))
  }

  predicate EntryOk(q: Limits, bvs: seq<Bvec>, e: Entry, n: nat)
    requires n <= |bvs|
  {
    && e.count > 0 && e.first + e.count <= n && e.length == Bytes(bvs, e.first, e.first + e.count)
    && (e.count > 1 ==> e.length <= q.maxSegmentSize)
    && forall k :: e.first < k < e.first + e.count ==> Joined(q, bvs, k)
  }

  /** bvec k continues bvec k - 1 in memory. */
  predicate Joined(q: Limits, bvs: seq<Bvec>, k: nat)
    requires 0 < k < |bvs|
  {
    q.cluster && q.physMergeable(bvs[k - 1], bvs[k]) && q.segBoundary(bvs[k - 1], bvs[k])
  }

  lemma EntryLater(q: Limits, bvs: seq<Bvec>, e: Entry, n: nat, m: nat)
    requires n <= m <= |bvs| && EntryOk(q, bvs, e, n)
    ensures EntryOk(q, bvs, e, m)
  {
  }

  lemma EntryGrows(q: Limits, bvs: seq<Bvec>, e: Entry, i: nat)
    requires 0 < i < |bvs| && EntryOk(q, bvs, e, i) && e.first + e.count == i
             && Continues(q, e.length, bvs[i - 1], bvs[i])
    ensures EntryOk(q, bvs, Entry(e.first, e.count + 1, e.length + bvs[i].len), i + 1)
  {
  }

  lemma EntryStarts(q: Limits, bvs: seq<Bvec>, i: nat)
    requires i < |bvs|
    ensures EntryOk(q, bvs, Entry(i, 1, bvs[i].len), i + 1)
  {
    assert Bytes(bvs, i, i) == 0;
  }

  lemma StepTiles(q: Limits, bvs: seq<Bvec>, sg: seq<Entry>, i: nat)
    requires i < |bvs| && Tiles(q, bvs, sg, i)
    ensures Tiles(q, bvs, MapStep(q, sg, bvs, i), i + 1)
  {
    hide EntryOk;
    var t := MapStep(q, sg, bvs, i);
    var n := |sg| - 1;
    EntryStarts(q, bvs, i);
    if i > 0 && Continues(q, sg[n].length, bvs[i - 1], bvs[i]) { EntryGrows(q, bvs, sg[n], i); }
    forall k | 0 <= k < |t| ensures EntryOk(q, bvs, t[k], i + 1) {
      if k < |sg| { EntryLater(q, bvs, sg[k], i, i + 1); }
    }
  }

  lemma {:induction false} MapTiles(q: Limits, bvs: seq<Bvec>, n: nat)
    requires n <= |bvs|
    ensures Tiles(q, bvs, MapUpTo(q, bvs, n), n)
  {
    hide Tiles, MapStep;
    if n > 0 {
      MapTiles(q, bvs, n - 1);
      StepTiles(q, bvs, MapUpTo(q, bvs, n - 1), n - 1);
    } else {
      NothingTiles(q, bvs);
    }
  }

  lemma NothingTiles(q: Limits, bvs: seq<Bvec>)
    ensures Tiles(q, bvs, [], 0)
  {
  }

  /** Entry i could not have been longer: what begins the next one is somewhere else in memory,
      or would be too much. */
  predicate MaximalAt(q: Limits, bvs: seq<Bvec>, sg: seq<Entry>, i: nat)
    requires i + 1 < |sg|
  {
    var k := sg[i + 1].first;
    0 < k < |bvs| && (!Joined(q, bvs, k) || sg[i].length + bvs[k].len > q.maxSegmentSize)
  }

  predicate Maximal(q: Limits, bvs: seq<Bvec>, sg: seq<Entry>) {
    forall i :: 0 <= i < |sg| - 1 ==> MaximalAt(q, bvs, sg, i)
  }

  lemma {:induction false} MapMaximal(q: Limits, bvs: seq<Bvec>, n: nat)
    requires n <= |bvs|
    ensures Maximal(q, bvs, MapUpTo(q, bvs, n))
  {
    if n > 0 {
      MapMaximal(q, bvs, n - 1);
      MapTiles(q, bvs, n - 1);
      MaximalStep(q, bvs, MapUpTo(q, bvs, n - 1), n - 1);
      hide Tiles, MapStep, Maximal;
    }
  }

  lemma MaximalStep(q: Limits, bvs: seq<Bvec>, sg: seq<Entry>, i: nat)
    requires i < |bvs| && Tiles(q, bvs, sg, i) && Maximal(q, bvs, sg)
    ensures Maximal(q, bvs, MapStep(q, sg, bvs, i))
  {
    hide EntryOk;
    var t := MapStep(q, sg, bvs, i);
    forall j | 0 <= j < |t| - 1 ensures MaximalAt(q, bvs, t, j) {
      if j + 1 < |sg| { assert MaximalAt(q, bvs, sg, j) && t[j] == sg[j] && t[j + 1].first == sg[j + 1].first; }
    }
  }

  // ---- where the counted segments begin ----

  ghost predicate LastBefore(starts: set<nat>, k: nat, s: nat) {
    s in starts && s < k && forall x :: x in starts && x < k ==> x <= s
  }

  predicate HighPage(q: Limits, bvs: seq<Bvec>, k: nat)
    requires 0 < k < |bvs|
  {
    q.high(bvs[k - 1]) || q.high(bvs[k])
  }

  /** Bvec k is somewhere else in memory, or makes the segment that began with s too long. */
  predicate Breaks(q: Limits, bvs: seq<Bvec>, k: nat, s: nat)
    requires s < k < |bvs|
  {
    !Joined(q, bvs, k) || Bytes(bvs, s, k + 1) > q.maxSegmentSize
  }

  /** The hardware segment that began with h would be too long. */
  predicate Oversize(q: Limits, bvs: seq<Bvec>, k: nat, h: nat)
    requires h < k < |bvs|
  {
    q.virtOversize(q.virtStartSize(bvs[h]) + Bytes(bvs, h, k + 1))
  }

  ghost predicate BeginsAt(q: Limits, bvs: seq<Bvec>, k: nat, phys: set<nat>, hw: set<nat>)
    requires 0 < k < |bvs|
  {
    forall s: nat, h: nat :: LastBefore(phys, k, s) && LastBefore(hw, k, h) ==>
        && (k in phys <==> HighPage(q, bvs, k) || Oversize(q, bvs, k, h) || Breaks(q, bvs, k, s))
        && (k in hw <==> HighPage(q, bvs, k) || Oversize(q, bvs, k, h)
                         || (Breaks(q, bvs, k, s) && !q.virtMergeable(bvs[k - 1], bvs[k])))
  }

  /** The physical segments of the first n bvecs begin at phys, the hardware ones at hw. */
  ghost predicate Begin(q: Limits, bvs: seq<Bvec>, n: nat, phys: set<nat>, hw: set<nat>)
    requires n <= |bvs|
  {
    && (forall k :: k in phys || k in hw ==> k < n)
    && (n > 0 ==> 0 in phys && 0 in hw)
    && forall k :: 0 < k < n ==> BeginsAt(q, bvs, k, phys, hw)
  }

  /** The last segments of the first n bvecs begin at s and h, and c is counted. */
  ghost predicate Counted(q: Limits, bvs: seq<Bvec>, n: nat, phys: set<nat>, hw: set<nat>, c: Count)
    requires n <= |bvs|
  {
    && c.phys == |phys| && c.hw == |hw|
    && (n == 0 ==> c.highPrev)
    && (n > 0 ==> c.highPrev == q.high(bvs[n - 1]))
    && forall s: nat, h: nat :: LastBefore(phys, n, s) && LastBefore(hw, n, h) ==>
           c.segSize == Bytes(bvs, s, n) && c.hwSize == q.virtStartSize(bvs[h]) + Bytes(bvs, h, n)
  }

  lemma {:induction false} HasLast(starts: set<nat>, k: nat) returns (s: nat)
    requires 0 in starts && k > 0
    ensures LastBefore(starts, k, s)
  {
    if k - 1 in starts { s := k - 1; } else { s := HasLast(starts, k - 1); }
  }

  lemma LastOfFewer(starts: set<nat>, k: nat, n: nat, s: nat)
    requires k <= n
    ensures LastBefore(starts - {n}, k, s) <==> LastBefore(starts, k, s)
  {
    assert forall x :: x in starts - {n} <==> x in starts && x != n;
    assert forall x :: x in starts && x < k ==> x in starts - {n};
  }

  lemma FewerAt(q: Limits, bvs: seq<Bvec>, k: nat, n: nat, phys: set<nat>, hw: set<nat>)
    requires 0 < k < n && k < |bvs|
    ensures BeginsAt(q, bvs, k, phys - {n}, hw - {n}) <==> BeginsAt(q, bvs, k, phys, hw)
  {
    forall s: nat ensures LastBefore(phys - {n}, k, s) <==> LastBefore(phys, k, s) { LastOfFewer(phys, k, n, s); }
    forall h: nat ensures LastBefore(hw - {n}, k, h) <==> LastBefore(hw, k, h) { LastOfFewer(hw, k, n, h); }
    hide LastBefore, Breaks, Oversize, HighPage;
  }

  lemma BeginFewer(q: Limits, bvs: seq<Bvec>, n: nat, phys: set<nat>, hw: set<nat>)
    requires n < |bvs| && Begin(q, bvs, n + 1, phys, hw)
    ensures Begin(q, bvs, n, phys - {n}, hw - {n})
  {
    hide BeginsAt;
    forall k | 0 < k < n ensures BeginsAt(q, bvs, k, phys - {n}, hw - {n}) { FewerAt(q, bvs, k, n, phys, hw); }
  }

  /** The step of the counter does what the begin of a segment at bvec n asks for. */
  lemma StepCounts(q: Limits, bvs: seq<Bvec>, n: nat, c: Count, s: nat, h: nat)
    requires 0 < n < |bvs| && s < n && h < n && c.highPrev == q.high(bvs[n - 1])
    requires c.segSize == Bytes(bvs, s, n) && c.hwSize == q.virtStartSize(bvs[h]) + Bytes(bvs, h, n)
    ensures var t := CountStep(q, c, Some(bvs[n - 1]), bvs[n]);
            var begins := HighPage(q, bvs, n) || Oversize(q, bvs, n, h) || Breaks(q, bvs, n, s);
            var hwBegins := HighPage(q, bvs, n) || Oversize(q, bvs, n, h)
                            || (Breaks(q, bvs, n, s) && !q.virtMergeable(bvs[n - 1], bvs[n]));
            && t.phys == c.phys + (if begins then 1 else 0) && t.hw == c.hw + (if hwBegins then 1 else 0)
            && t.segSize == Bytes(bvs, if begins then n else s, n + 1)
            && t.hwSize == (if hwBegins then q.virtStartSize(bvs[n]) + Bytes(bvs, n, n + 1)
                            else q.virtStartSize(bvs[h]) + Bytes(bvs, h, n + 1))
            && t.highPrev == q.high(bvs[n])
  {
    assert Bytes(bvs, n, n) == 0;
  }

  /** Wherever the segments begin, the counter counts them: its two numbers are determined by
      the places at which a segment must begin. */
  lemma {:induction false} CountIs(q: Limits, bvs: seq<Bvec>, n: nat, phys: set<nat>, hw: set<nat>)
    requires n <= |bvs| && Begin(q, bvs, n, phys, hw)
    ensures Counted(q, bvs, n, phys, hw, CountUpTo(q, bvs, n))
  {
    if n == 0 {
      assert phys == {} && hw == {};
    } else if n == 1 {
      assert phys == {0} && hw == {0};
      assert Bytes(bvs, 0, 0) == 0 && Bytes(bvs, 0, 1) == bvs[0].len;
    } else {
      var m: nat := n - 1;
      BeginFewer(q, bvs, m, phys, hw);
      CountIs(q, bvs, m, phys - {m}, hw - {m});
      var s := HasLast(phys, m);
      var h := HasLast(hw, m);
      LastOfFewer(phys, m, m, s);
      LastOfFewer(hw, m, m, h);
      StepCounts(q, bvs, m, CountUpTo(q, bvs, m), s, h);
      CountedOn(q, bvs, m, phys, hw, s, h);
    }
  }

  lemma SizeWith(starts: set<nat>, m: nat)
    ensures |starts| == |starts - {m}| + if m in starts then 1 else 0
  {
    if m in starts { assert starts == (starts - {m}) + {m}; } else { assert starts == starts - {m}; }
  }

  lemma CountedOn(q: Limits, bvs: seq<Bvec>, m: nat, phys: set<nat>, hw: set<nat>, s: nat, h: nat)
    requires 0 < m < |bvs| && Begin(q, bvs, m + 1, phys, hw) && LastBefore(phys, m, s) && LastBefore(hw, m, h)
    requires var c, t := CountUpTo(q, bvs, m), CountUpTo(q, bvs, m + 1);
             var begins := HighPage(q, bvs, m) || Oversize(q, bvs, m, h) || Breaks(q, bvs, m, s);
             var hwBegins := HighPage(q, bvs, m) || Oversize(q, bvs, m, h)
                             || (Breaks(q, bvs, m, s) && !q.virtMergeable(bvs[m - 1], bvs[m]));
             && c.phys == |phys - {m}| && c.hw == |hw - {m}|
             && t.phys == c.phys + (if begins then 1 else 0) && t.hw == c.hw + (if hwBegins then 1 else 0)
             && t.segSize == Bytes(bvs, if begins then m else s, m + 1)
             && t.hwSize == (if hwBegins then q.virtStartSize(bvs[m]) + Bytes(bvs, m, m + 1)
                             else q.virtStartSize(bvs[h]) + Bytes(bvs, h, m + 1))
             && t.highPrev == q.high(bvs[m])
    ensures Counted(q, bvs, m + 1, phys, hw, CountUpTo(q, bvs, m + 1))
  {
    assert BeginsAt(q, bvs, m, phys, hw);
    SizeWith(phys, m);
    SizeWith(hw, m);
    hide Breaks, Oversize, HighPage, CountUpTo, Bytes;
    LastNow(phys, m, m + 1, s);
    LastNow(hw, m, m + 1, h);
    hide LastBefore;
  }

  lemma LastNow(starts: set<nat>, m: nat, n: nat, s: nat)
    requires LastBefore(starts, m, s) && n == m + 1
    ensures forall r: nat :: LastBefore(starts, n, r) <==> r == if m in starts then m else s
  {
  }

  lemma {:induction false} BeginExists(q: Limits, bvs: seq<Bvec>, n: nat) returns (phys: set<nat>, hw: set<nat>)
    requires n <= |bvs|
    ensures Begin(q, bvs, n, phys, hw)
  {
    if n == 0 {
      phys, hw := {}, {};
    } else if n == 1 {
      phys, hw := {0}, {0};
    } else {
      var m: nat := n - 1;
      phys, hw := BeginExists(q, bvs, m);
      var s := HasLast(phys, m);
      var h := HasLast(hw, m);
      var breaks, high := Breaks(q, bvs, m, s), HighPage(q, bvs, m) || Oversize(q, bvs, m, h);
      var p := if high || breaks then phys + {m} else phys;
      var w := if high || (breaks && !q.virtMergeable(bvs[m - 1], bvs[m])) then hw + {m} else hw;
      BeginMore(q, bvs, m, phys, hw, p, w);
      OneLast(phys, p, m, s);
      OneLast(hw, w, m, h);
      phys, hw := p, w;
    }
  }

  lemma OneLast(starts: set<nat>, more: set<nat>, m: nat, s: nat)
    requires LastBefore(starts, m, s) && (more == starts || more == starts + {m})
    ensures forall r: nat :: LastBefore(more, m, r) <==> r == s
  {
  }

  lemma BeginMore(q: Limits, bvs: seq<Bvec>, m: nat, phys: set<nat>, hw: set<nat>, p: set<nat>, w: set<nat>)
    requires 0 < m < |bvs| && Begin(q, bvs, m, phys, hw)
    requires (p == phys || p == phys + {m}) && (w == hw || w == hw + {m})
    ensures forall k :: 0 < k < m ==> BeginsAt(q, bvs, k, p, w)
  {
    hide BeginsAt;
    assert p - {m} == phys - {m} && w - {m} == hw - {m};
    forall k | 0 < k < m ensures BeginsAt(q, bvs, k, p, w) {
      FewerAt(q, bvs, k, m, phys, hw);
      FewerAt(q, bvs, k, m, p, w);
    }
  }

  /** What blk_recalc_rq_segments counts: there are places where the segments begin, and it
      counts them. */
  lemma CountsSegments(q: Limits, bvs: seq<Bvec>)
    ensures exists phys: set<nat>, hw: set<nat> :: Begin(q, bvs, |bvs|, phys, hw)
    ensures forall phys: set<nat>, hw: set<nat> :: Begin(q, bvs, |bvs|, phys, hw) ==>
                CountUpTo(q, bvs, |bvs|).phys == |phys| && CountUpTo(q, bvs, |bvs|).hw == |hw|
  {
    var phys, hw := BeginExists(q, bvs, |bvs|);
    hide Begin, Counted, CountUpTo;
    forall phys: set<nat>, hw: set<nat> | Begin(q, bvs, |bvs|, phys, hw)
      ensures CountUpTo(q, bvs, |bvs|).phys == |phys| && CountUpTo(q, bvs, |bvs|).hw == |hw| {
      CountIs(q, bvs, |bvs|, phys, hw);
      CountedNumbers(q, bvs, |bvs|, phys, hw, CountUpTo(q, bvs, |bvs|));
    }
  }

  lemma CountedNumbers(q: Limits, bvs: seq<Bvec>, n: nat, phys: set<nat>, hw: set<nat>, c: Count)
    requires n <= |bvs| && Counted(q, bvs, n, phys, hw, c)
    ensures c.phys == |phys| && c.hw == |hw|
  {
  }

  // ---- greedy stays ahead ----

  /** The mapping has fewer entries, or as many and the last one is not longer. */
  predicate Ahead(sg: seq<Entry>, c: Count) {
    |sg| < c.phys || (|sg| == c.phys && (sg == [] || sg[|sg| - 1].length <= c.segSize))
  }

  /** The counter breaks a segment wherever the mapping does, and more often: it also breaks
      at high pages and at oversize hardware segments. */
  lemma {:induction false} MapStaysAhead(q: Limits, bvs: seq<Bvec>, n: nat)
    requires n <= |bvs|
    ensures Ahead(MapUpTo(q, bvs, n), CountUpTo(q, bvs, n))
  {
    if n > 0 {
      MapStaysAhead(q, bvs, n - 1);
    }
  }

  /** For every list of bvecs and all limits and merge tests. */
  lemma MapFits(q: Limits, bvs: seq<Bvec>)
    ensures |MapUpTo(q, bvs, |bvs|)| <= CountUpTo(q, bvs, |bvs|).phys
  {
    MapStaysAhead(q, bvs, |bvs|);
  }

  /** `blk_rq_map_sg`, into a list with room for the counted segments. */
  method MapSg(q: Limits, bvs: seq<Bvec>, sglist: array<Entry>) returns (nsegs: nat)
    requires sglist.Length >= CountUpTo(q, bvs, |bvs|).phys
    modifies sglist
    ensures nsegs <= CountUpTo(q, bvs, |bvs|).phys
    ensures sglist[..nsegs] == MapUpTo(q, bvs, |bvs|)
    ensures Tiles(q, bvs, sglist[..nsegs], |bvs|) && Maximal(q, bvs, sglist[..nsegs])
  {
    hide Tiles, Maximal, MapUpTo, CountUpTo, Continues;
    nsegs := 0;
    MapNone(q, bvs);
    for i := 0 to |bvs|
      invariant nsegs <= sglist.Length && sglist[..nsegs] == MapUpTo(q, bvs, i)
    {
      ghost var sg := sglist[..nsegs];
      var n := nsegs - 1;
      MapNext(q, bvs, i);
      MapRoom(q, bvs, i + 1);
      if i > 0 && Continues(q, sglist[n].length, bvs[i - 1], bvs[i]) {
        sglist[n] := Entry(sglist[n].first, sglist[n].count + 1, sglist[n].length + bvs[i].len);
      } else {
        sglist[nsegs] := Entry(i, 1, bvs[i].len);
        nsegs := nsegs + 1;
      }
      assert sglist[..nsegs] == MapStep(q, sg, bvs, i);
    }
    MapFits(q, bvs);
    MapTiles(q, bvs, |bvs|);
    MapMaximal(q, bvs, |bvs|);
  }

  lemma MapNone(q: Limits, bvs: seq<Bvec>)
    ensures MapUpTo(q, bvs, 0) == []
  {
  }

  lemma MapNext(q: Limits, bvs: seq<Bvec>, i: nat)
    requires i < |bvs|
    ensures MapUpTo(q, bvs, i + 1) == MapStep(q, MapUpTo(q, bvs, i), bvs, i)
  {
  }

  /** There is room for the entries so far. */
  lemma MapRoom(q: Limits, bvs: seq<Bvec>, n: nat)
    requires n <= |bvs|
    ensures |MapUpTo(q, bvs, n)| <= CountUpTo(q, bvs, |bvs|).phys
  {
    MapStaysAhead(q, bvs, n);
    CountGrows(q, bvs, n);
  }

  lemma {:induction false} CountGrows(q: Limits, bvs: seq<Bvec>, n: nat)
    requires n <= |bvs|
    ensures CountUpTo(q, bvs, n).phys <= CountUpTo(q, bvs, |bvs|).phys
    decreases |bvs| - n
  {
    if n < |bvs| { CountGrows(q, bvs, n + 1); }
  }
}
