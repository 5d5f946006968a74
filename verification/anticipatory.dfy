/** The anticipatory I/O scheduler (as-iosched.c): the cached next request of a direction is
    the one that as_choose_req prefers to every other request of the whole sort list. */
module Anticipatory {
  import opened Lists
  import opened SortedTree

  datatype Dir = Sync | Async

  function Other(d: Dir): Dir { if d == Sync then Async else Sync }

  /** sort_list, next_rq and last_sector of one direction. */
  datatype Side = Side(tree: seq<nat>, next: Option<nat>, last: nat)

  /** `out` are the requests moved to the dispatch queue, `gone` those merged away. */
  datatype State = State(rqs: map<nat, Rq<Dir>>, sync: Side, async: Side, out: seq<nat>, gone: set<nat>) {
    function At(d: Dir): Side { if d == Sync then sync else async }
    function With(d: Dir, q: Side): State { if d == Sync then this.(sync := q) else this.(async := q) }
  }

  const MAXBACK := 1024 * 1024
  const BACK_PENALTY := 2

  // ---- as_choose_req ----

  /** Too far behind the head to seek back. */
  predicate Wraps(last: nat, s: nat) { s < last && s + MAXBACK < last }

  function Distance(last: nat, s: nat): nat { if s >= last then s - last else (last - s) * BACK_PENALTY }

  /** The head at `last` rather goes to s1 than to s2. */
  predicate Prefers(last: nat, s1: nat, s2: nat) {
    if !Wraps(last, s1) && Wraps(last, s2) then true
    else if !Wraps(last, s2) && Wraps(last, s1) then false
    else if Wraps(last, s1) then s1 <= s2
    else if Distance(last, s1) < Distance(last, s2) then true
    else if Distance(last, s2) < Distance(last, s1) then false
    else s1 >= s2
  }

  /** as_choose_req */
  function Choose(rqs: map<nat, Rq<Dir>>, last: nat, a: Option<nat>, b: Option<nat>): Option<nat>
    requires (a.Some? ==> a.value in rqs) && (b.Some? ==> b.value in rqs)
  {
    if a.None? || a == b then b
    else if b.None? then a
    else if Prefers(last, rqs[a.value].sector, rqs[b.value].sector) then a else b
  }

  /** as_find_next_rq: the better one of the neighbours in sector order, where the first
      request follows the last. */
  function FindNext(rqs: map<nat, Rq<Dir>>, t: seq<nat>, last: nat, x: nat): Option<nat>
    requires x in t && forall y :: y in t ==> y in rqs
  {
    var next := if Latter(t, x).Some? then Latter(t, x) else if t[0] != x then Some(t[0]) else None;
    Choose(rqs, last, next, Former(t, x))
  }

  /** Behind the head, but not out of reach. */
  predicate Reachable(last: nat, s: nat) { s < last <= s + 0x10_0000 }

  /** What makes s no worse than o: ahead of the head the lower sector is the nearer one,
      behind it the higher one; a seek back counts twice; and a sector out of reach only
      yields to those within reach and to lower ones. */
  predicate Nearest(last: nat, s: nat, o: nat) {
    && (last <= s && last <= o ==> s <= o)
    && (last <= s && Reachable(last, o) ==> s - last <= 2 * (last - o))
    && (Reachable(last, s) && last <= o ==> 2 * (last - s) < o - last)
    && (Reachable(last, s) && Reachable(last, o) ==> o <= s)
    && (s + 0x10_0000 < last ==> o + 0x10_0000 < last && s <= o)
  }

  lemma PrefersIs(last: nat, s: nat, o: nat)
    ensures Prefers(last, s, o) <==> Nearest(last, s, o)
  {
  }

  /** Of two requests at different sectors, the nearest is chosen, in either order; of two at
      one sector, the first. */
  lemma ChooseNearest(rqs: map<nat, Rq<Dir>>, last: nat, a: nat, b: nat)
    requires a in rqs && b in rqs && a != b
    ensures Choose(rqs, last, Some(a), Some(b)) ==
            if Nearest(last, rqs[a].sector, rqs[b].sector) then Some(a) else Some(b)
    ensures rqs[a].sector != rqs[b].sector ==>
            Choose(rqs, last, Some(b), Some(a)) == Choose(rqs, last, Some(a), Some(b))
    ensures Choose(rqs, last, Some(a), None) == Some(a) == Choose(rqs, last, None, Some(a))
  {
    PrefersIs(last, rqs[a].sector, rqs[b].sector);
    PrefersIs(last, rqs[b].sector, rqs[a].sector);
    hide Prefers;
  }

  /** A request a at distance f ahead of the head, and b at distance g behind it: a is chosen
      if and only if it is not more than twice as far, or b is out of reach. */
  lemma ChooseAhead(rqs: map<nat, Rq<Dir>>, last: nat, a: nat, b: nat, f: nat, g: nat)
    requires a in rqs && b in rqs && 0 < g <= last && rqs[a].sector == last + f && rqs[b].sector == last - g
    ensures var r := if f <= 2 * g || g > 0x10_0000 then Some(a) else Some(b);
            Choose(rqs, last, Some(a), Some(b)) == r && Choose(rqs, last, Some(b), Some(a)) == r
  {
  }

  /** Preference is a strict total order on different sectors. */
  lemma PrefersOrder(last: nat, s1: nat, s2: nat, s3: nat)
    ensures s1 != s2 ==> (Prefers(last, s1, s2) <==> !Prefers(last, s2, s1))
    ensures Prefers(last, s1, s2) && Prefers(last, s2, s3) ==> Prefers(last, s1, s3)
    ensures Prefers(last, s1, s1)
  {
  }

  /** No request of t is preferred to r. */
  predicate Best(rqs: map<nat, Rq<Dir>>, t: seq<nat>, last: nat, r: nat)
    requires forall y :: y in t ==> y in rqs
  {
    r in t && forall y :: y in t ==> Prefers(last, rqs[r].sector, rqs[y].sector)
  }

  /** The cached next request is the best one, and there is none only if nothing is queued. */
  predicate NextOk(rqs: map<nat, Rq<Dir>>, q: Side)
    requires forall y :: y in q.tree ==> y in rqs
  {
    (q.next.None? <==> q.tree == []) && (q.next.Some? ==> Best(rqs, q.tree, q.last, q.next.value))
  }

  function End(rqs: map<nat, Rq<Dir>>, x: nat): nat
    requires x in rqs
  {
    rqs[x].sector + rqs[x].sectors
  }

  predicate NoOverlap(rqs: map<nat, Rq<Dir>>, t: seq<nat>)
    requires forall y :: y in t ==> y in rqs
  {
    forall i, j :: 0 <= i < j < |t| ==> End(rqs, t[i]) <= rqs[t[j]].sector
  }

  predicate SideOk(rqs: map<nat, Rq<Dir>>, d: Dir, q: Side) {
    Sorted(rqs, d, q.tree) && NoOverlap(rqs, q.tree) && NextOk(rqs, q)
  }

  // ---- the neighbour search is globally optimal ----

  /** Everything above x is in front of the head and everything below it is behind; or all
      of the list is out of reach behind the head and x is its first request. */
  predicate Splits(rqs: map<nat, Rq<Dir>>, t: seq<nat>, k: nat, last: nat)
    requires k < |t| && forall y :: y in t ==> y in rqs
  {
    || ((forall j :: k < j < |t| ==> rqs[t[j]].sector >= last) && (forall j :: 0 <= j < k ==> rqs[t[j]].sector < last))
    || (k == 0 && forall j :: 0 <= j < |t| ==> Wraps(last, rqs[t[j]].sector))
  }

  /** The neighbours of x hold the best of the other requests. */
  lemma NeighborBeats(rqs: map<nat, Rq<Dir>>, d: Dir, t: seq<nat>, x: nat, last: nat, j: nat)
    requires Sorted(rqs, d, t) && x in t && Splits(rqs, t, IndexOf(t, x), last) && j < |t| && t[j] != x
    ensures var r := FindNext(rqs, t, last, x);
            r.Some? && r.value in t && r.value != x && Prefers(last, rqs[r.value].sector, rqs[t[j]].sector)
  {
    var k := IndexOf(t, x);
    var s := rqs[t[j]].sector;
    var next := if k + 1 < |t| then k + 1 else 0;
    if k > 0 {
      PrefersOrder(last, rqs[t[next]].sector, rqs[t[k - 1]].sector, s);
      PrefersOrder(last, rqs[t[k - 1]].sector, rqs[t[next]].sector, s);
    }
    if j > k {
      assert j == k + 1 || rqs[t[k + 1]].sector < s;
    } else {
      assert j == k - 1 || s < rqs[t[k - 1]].sector;
      assert j == 0 || rqs[t[0]].sector < s;
    }
  }

  /** FindNext finds the best request of the list without x. */
  lemma FindNextBest(rqs: map<nat, Rq<Dir>>, d: Dir, t: seq<nat>, x: nat, last: nat)
    requires Sorted(rqs, d, t) && x in t && Splits(rqs, t, IndexOf(t, x), last)
    ensures Sorted(rqs, d, Without(t, x))
    ensures NextOk(rqs, Side(Without(t, x), FindNext(rqs, t, last, x), last))
  {
    RemoveTree(rqs, d, t, x);
    var u := Without(t, x);
    var r := FindNext(rqs, t, last, x);
    hide Without, FindNext, Prefers;
    assert forall y :: y in u <==> y in Elems(u);
    forall y | y in u ensures r.Some? && r.value in u && Prefers(last, rqs[r.value].sector, rqs[y].sector) {
      var j := IndexOf(t, y);
      NeighborBeats(rqs, d, t, x, last, j);
      assert r.value in Elems(t);
    }
    if u == [] { NoneLeft(rqs, d, t, x, last); } else { assert u[0] in u; }
  }

  lemma NoneLeft(rqs: map<nat, Rq<Dir>>, d: Dir, t: seq<nat>, x: nat, last: nat)
    requires Sorted(rqs, d, t) && x in t && Without(t, x) == []
    ensures FindNext(rqs, t, last, x).None?
  {
    SortedDistinct(rqs, d, t);
    WithoutElems(t, x);
    assert |t| == 1;
  }

  /** Removing the best request leaves its neighbours around the head. */
  lemma BestSplits(rqs: map<nat, Rq<Dir>>, d: Dir, t: seq<nat>, x: nat, last: nat)
    requires Sorted(rqs, d, t) && Best(rqs, t, last, x)
    ensures Splits(rqs, t, IndexOf(t, x), last)
  {
    var k := IndexOf(t, x);
    if Wraps(last, rqs[x].sector) {
      forall j | 0 <= j < |t| ensures Wraps(last, rqs[t[j]].sector) { assert t[j] in t; }
      assert t[0] in t;
    } else {
      forall j | k < j < |t| ensures rqs[t[j]].sector >= last { assert t[j] in t; }
      forall j | 0 <= j < k ensures rqs[t[j]].sector < last { assert t[j] in t; }
    }
  }

  /** The head is right behind x: the other requests do not overlap it. */
  lemma EndSplits(rqs: map<nat, Rq<Dir>>, d: Dir, t: seq<nat>, x: nat)
    requires Sorted(rqs, d, t) && NoOverlap(rqs, t) && x in t
    ensures Splits(rqs, t, IndexOf(t, x), End(rqs, x))
  {
    var k := IndexOf(t, x);
    assert forall j :: k < j < |t| ==> End(rqs, t[k]) <= rqs[t[j]].sector;
    assert forall j :: 0 <= j < k ==> rqs[t[j]].sector < rqs[t[k]].sector;
  }

  lemma WithoutNoOverlap(rqs: map<nat, Rq<Dir>>, d: Dir, t: seq<nat>, x: nat)
    requires Sorted(rqs, d, t) && NoOverlap(rqs, t) && x in t
    ensures (forall y :: y in Without(t, x) ==> y in rqs) && NoOverlap(rqs, Without(t, x))
  {
    WithoutSubset(t, x);
    WithoutIs(t, x);
    CutNoOverlap(rqs, t, IndexOf(t, x));
    hide Without, NoOverlap;
  }

  lemma CutNoOverlap(rqs: map<nat, Rq<Dir>>, t: seq<nat>, k: nat)
    requires (forall y :: y in t ==> y in rqs) && NoOverlap(rqs, t) && k < |t|
    ensures var u := t[..k] + t[k + 1..]; (forall y :: y in u ==> y in rqs) && NoOverlap(rqs, u)
  {
    var u := t[..k] + t[k + 1..];
    forall i, j | 0 <= i < j < |u| ensures End(rqs, u[i]) <= rqs[u[j]].sector {
      var a, b := if i < k then i else i + 1, if j < k then j else j + 1;
      assert u[i] == t[a] && u[j] == t[b];
    }
  }

  // ---- the operations ----

  predicate Queued(s: State, x: nat) { x in s.rqs && x in s.At(s.rqs[x].dir).tree }

  predicate AllKnown(s: State) { Known(s.rqs, Sync, s.sync.tree) && Known(s.rqs, Async, s.async.tree) }

  /** as_remove_queued_request, on one direction */
  function RemoveSide(rqs: map<nat, Rq<Dir>>, q: Side, x: nat): Side
    requires x in q.tree && forall y :: y in q.tree ==> y in rqs
  {
    Side(Without(q.tree, x), if q.next == Some(x) then FindNext(rqs, q.tree, q.last, x) else q.next, q.last)
  }

  /** as_move_to_dispatch: the head moves behind x before the next request is looked for. */
  function MoveToDispatch(s: State, x: nat): State
    requires AllKnown(s) && Queued(s, x)
  {
    var d := s.rqs[x].dir;
    var q := s.At(d).(last := End(s.rqs, x));
    var q := q.(next := FindNext(s.rqs, q.tree, q.last, x));
    s.With(d, RemoveSide(s.rqs, q, x)).(out := s.out + [x])
  }

  lemma MovedKnown(s: State, x: nat)
    requires AllKnown(s) && Queued(s, x)
    ensures AllKnown(MoveToDispatch(s, x)) && MoveToDispatch(s, x).rqs == s.rqs
    ensures |MoveToDispatch(s, x).At(s.rqs[x].dir).tree| < |s.At(s.rqs[x].dir).tree|
  {
    WithoutSubset(s.At(s.rqs[x].dir).tree, x);
  }

  /** as_add_rq_rb: a request already at this sector is dispatched at once. */
  function AddTree(s: State, x: nat): State
    requires AllKnown(s) && x in s.rqs
    decreases |s.At(s.rqs[x].dir).tree|
  {
    var d := s.rqs[x].dir;
    var q := s.At(d);
    match Find(s.rqs, d, q.tree, s.rqs[x].sector)
    case Some(alias) =>
      MovedKnown(s, alias);
      AddTree(MoveToDispatch(s, alias), x)
    case None =>
      var k := Place(s.rqs, d, q.tree, s.rqs[x].sector);
      s.With(d, q.(tree := q.tree[..k] + [x] + q.tree[k..]))
  }

  /** as_add_request, with as_update_rq; the anticipation state is not modelled. */
  function AddRequest(s: State, x: nat, rq: Rq<Dir>): State
    requires AllKnown(s) && x !in s.rqs && NextKnown(s)
  {
    AddTreeKnown(s.(rqs := s.rqs[x := rq]), x);
    var s := AddTree(s.(rqs := s.rqs[x := rq]), x);
    var q := s.At(rq.dir);
    s.With(rq.dir, q.(next := Choose(s.rqs, q.last, Some(x), q.next)))
  }

  lemma {:induction false} AddTreeKnown(s: State, x: nat)
    requires AllKnown(s) && x in s.rqs && NextKnown(s)
    ensures AddTree(s, x).rqs == s.rqs && NextKnown(AddTree(s, x)) && AddTree(s, x).gone == s.gone
    decreases |s.At(s.rqs[x].dir).tree|
  {
    hide MoveToDispatch, Place;
    match Find(s.rqs, s.rqs[x].dir, s.At(s.rqs[x].dir).tree, s.rqs[x].sector)
    case Some(alias) =>
      MovedKnown(s, alias);
      MovedNext(s, alias);
      AddTreeKnown(MoveToDispatch(s, alias), x);
    case None =>
  }

  lemma MovedNext(s: State, x: nat)
    requires AllKnown(s) && Queued(s, x) && NextKnown(s)
    ensures NextKnown(MoveToDispatch(s, x)) && MoveToDispatch(s, x).gone == s.gone
  {
    hide Without;
  }

  predicate NextKnown(s: State) {
    (s.sync.next.Some? ==> s.sync.next.value in s.rqs) && (s.async.next.Some? ==> s.async.next.value in s.rqs)
  }

  /** A bio is added behind the request. */
  function BackMerge(s: State, x: nat, n: nat): State
    requires x in s.rqs
  {
    s.(rqs := s.rqs[x := s.rqs[x].(sectors := s.rqs[x].sectors + n)])
  }

  /** as_merged_request after n sectors were put in front: x is taken out of the sort list and
      put back at its new place.  next_rq is not looked for again. */
  function FrontMerge(s: State, x: nat, n: nat): State
    requires AllKnown(s) && Queued(s, x) && n <= s.rqs[x].sector
  {
    WithoutSubset(s.At(s.rqs[x].dir).tree, x);
    AddTree(TakenOut(s, x, n), x)
  }

  /** Without x, which already starts earlier. */
  function TakenOut(s: State, x: nat, n: nat): State
    requires AllKnown(s) && Queued(s, x) && n <= s.rqs[x].sector
  {
    var d := s.rqs[x].dir;
    s.(rqs := s.rqs[x := Grown(s.rqs[x], n)]).With(d, s.At(d).(tree := Without(s.At(d).tree, x)))
  }

  function Grown(rq: Rq<Dir>, n: nat): Rq<Dir>
    requires n <= rq.sector
  {
    rq.(sector := rq.sector - n, sectors := rq.sectors + n)
  }

  /** attempt_merge, then as_merged_requests: x takes over y, which starts where x ends. */
  function MergeRequests(s: State, x: nat, y: nat): State
    requires AllKnown(s) && x != y && Queued(s, x) && Queued(s, y) && s.rqs[x].dir == s.rqs[y].dir
  {
    var d := s.rqs[x].dir;
    var s := s.With(d, RemoveSide(s.rqs, s.At(d), y)).(gone := s.gone + {y});
    s.(rqs := s.rqs[x := s.rqs[x].(sectors := s.rqs[x].sectors + s.rqs[y].sectors)])
  }

  // ---- every operation keeps the best request cached ----

  /** Every request is in exactly one place. */
  predicate PlacesOk(s: State, hole: set<nat>) {
    && Distinct(s.out)
    && s.rqs.Keys == Elems(s.sync.tree) + Elems(s.async.tree) + Elems(s.out) + s.gone + hole
    && Elems(s.sync.tree) !! Elems(s.async.tree) !! Elems(s.out) !! s.gone !! hole
  }

  predicate QueuesOk(s: State) { SideOk(s.rqs, Sync, s.sync) && SideOk(s.rqs, Async, s.async) }

  predicate Inv(s: State) { QueuesOk(s) && PlacesOk(s, {}) }

  lemma InvKnown(s: State)
    requires QueuesOk(s)
    ensures AllKnown(s) && NextKnown(s)
  {
    hide Prefers;
  }

  /** The requests that are left. */
  lemma MoveSide(rqs: map<nat, Rq<Dir>>, d: Dir, q: Side, x: nat)
    requires Sorted(rqs, d, q.tree) && NoOverlap(rqs, q.tree) && x in q.tree
    ensures var p := q.(last := End(rqs, x));
            SideOk(rqs, d, RemoveSide(rqs, p.(next := FindNext(rqs, p.tree, p.last, x)), x))
    ensures Elems(Without(q.tree, x)) == Elems(q.tree) - {x}
  {
    EndSplits(rqs, d, q.tree, x);
    FindNextBest(rqs, d, q.tree, x, End(rqs, x));
    WithoutNoOverlap(rqs, d, q.tree, x);
    RemoveTree(rqs, d, q.tree, x);
    FindNextOther(rqs, q.tree, x, End(rqs, x));
    hide Without, FindNext, Sorted, NoOverlap, NextOk;
  }

  lemma FindNextOther(rqs: map<nat, Rq<Dir>>, t: seq<nat>, x: nat, last: nat)
    requires x in t && (forall y :: y in t ==> y in rqs) && Distinct(t)
    ensures FindNext(rqs, t, last, x) != Some(x)
  {
  }

  /** as_move_to_dispatch, of any request. */
  lemma MoveKeeps(s: State, x: nat, hole: set<nat>)
    requires QueuesOk(s) && PlacesOk(s, hole) && AllKnown(s) && Queued(s, x)
    ensures QueuesOk(MoveToDispatch(s, x)) && PlacesOk(MoveToDispatch(s, x), hole)
    ensures Elems(MoveToDispatch(s, x).At(s.rqs[x].dir).tree) == Elems(s.At(s.rqs[x].dir).tree) - {x}
  {
    var d := s.rqs[x].dir;
    MoveSide(s.rqs, d, s.At(d), x);
    hide SideOk, Without, FindNext;
    MovePlaces(s, x, MoveToDispatch(s, x), hole);
  }

  lemma MovePlaces(s: State, x: nat, t: State, hole: set<nat>)
    requires PlacesOk(s, hole) && Queued(s, x) && t.rqs == s.rqs && t.gone == s.gone && t.out == s.out + [x]
    requires var d := s.rqs[x].dir; Elems(t.At(d).tree) == Elems(s.At(d).tree) - {x} && t.At(Other(d)) == s.At(Other(d))
    ensures PlacesOk(t, hole)
  {
    ElemsAppend(s.out, [x]);
    assert x in Elems(s.At(s.rqs[x].dir).tree);
    assert x !in Elems(s.out);
    assert Elems([x]) == {x};
  }

  /** as_remove_queued_request: the head stays where it is. */
  lemma RemoveKeeps(rqs: map<nat, Rq<Dir>>, d: Dir, q: Side, x: nat)
    requires SideOk(rqs, d, q) && x in q.tree
    ensures SideOk(rqs, d, RemoveSide(rqs, q, x)) && Elems(RemoveSide(rqs, q, x).tree) == Elems(q.tree) - {x}
  {
    WithoutNoOverlap(rqs, d, q.tree, x);
    RemoveTree(rqs, d, q.tree, x);
    hide Without, FindNext, Sorted, NoOverlap;
    if q.next == Some(x) {
      BestSplits(rqs, d, q.tree, x, q.last);
      FindNextBest(rqs, d, q.tree, x, q.last);
    } else {
      StillBest(rqs, q, Without(q.tree, x), x);
    }
  }

  lemma StillBest(rqs: map<nat, Rq<Dir>>, q: Side, u: seq<nat>, x: nat)
    requires (forall y :: y in q.tree ==> y in rqs) && NextOk(rqs, q) && q.next != Some(x) && x in q.tree
    requires Elems(u) == Elems(q.tree) - {x}
    ensures (forall y :: y in u ==> y in rqs) && NextOk(rqs, q.(tree := u))
  {
    assert forall y :: y in u <==> y in Elems(u);
    assert q.next.value in u;
    hide Prefers;
  }

  // ---- adding ----

  /** rq overlaps nothing, except that a request at its own sector will be dispatched. */
  predicate Fits(rqs: map<nat, Rq<Dir>>, t: seq<nat>, rq: Rq<Dir>)
    requires forall y :: y in t ==> y in rqs
  {
    forall y :: y in t ==>
        rqs[y].sector == rq.sector || End(rqs, y) <= rq.sector || rq.sector + rq.sectors <= rqs[y].sector
  }

  lemma InsertNoOverlap(rqs: map<nat, Rq<Dir>>, d: Dir, t: seq<nat>, x: nat)
    requires Sorted(rqs, d, t) && NoOverlap(rqs, t) && x in rqs && Fits(rqs, t, rqs[x])
    requires Find(rqs, d, t, rqs[x].sector).None?
    ensures var k := Place(rqs, d, t, rqs[x].sector);
            var u := t[..k] + [x] + t[k..];
            (forall y :: y in u ==> y in rqs) && NoOverlap(rqs, u)
  {
    var k := Place(rqs, d, t, rqs[x].sector);
    Apart(rqs, d, t, x, k);
    PutNoOverlap(rqs, t, k, x);
    hide Place, Find, Sorted, Fits, NoOverlap;
  }

  lemma PutNoOverlap(rqs: map<nat, Rq<Dir>>, t: seq<nat>, k: nat, x: nat)
    requires (forall y :: y in t ==> y in rqs) && NoOverlap(rqs, t) && k <= |t| && x in rqs
    requires forall i :: 0 <= i < k ==> End(rqs, t[i]) <= rqs[x].sector
    requires forall i :: k <= i < |t| ==> End(rqs, x) <= rqs[t[i]].sector
    ensures var u := t[..k] + [x] + t[k..]; (forall y :: y in u ==> y in rqs) && NoOverlap(rqs, u)
  {
    var u := t[..k] + [x] + t[k..];
    forall i, j | 0 <= i < j < |u| ensures End(rqs, u[i]) <= rqs[u[j]].sector {
      var a, b := if i < k then i else i - 1, if j < k then j else j - 1;
      assert (i != k ==> u[i] == t[a]) && (j != k ==> u[j] == t[b]);
    }
  }

  lemma Apart(rqs: map<nat, Rq<Dir>>, d: Dir, t: seq<nat>, x: nat, k: nat)
    requires Sorted(rqs, d, t) && x in rqs && Fits(rqs, t, rqs[x]) && Find(rqs, d, t, rqs[x].sector).None?
    requires k == Place(rqs, d, t, rqs[x].sector)
    ensures forall i :: 0 <= i < k ==> End(rqs, t[i]) <= rqs[x].sector
    ensures forall i :: k <= i < |t| ==> End(rqs, x) <= rqs[t[i]].sector
  {
    forall i | 0 <= i < k ensures End(rqs, t[i]) <= rqs[x].sector { assert t[i] in t; }
    forall i | k <= i < |t| ensures End(rqs, x) <= rqs[t[i]].sector {
      assert t[i] in t;
      assert rqs[t[k]].sector > rqs[x].sector;
    }
  }

  /** as_update_rq: the better one of the new request and the old best. */
  lemma ChooseBest(rqs: map<nat, Rq<Dir>>, q: Side, x: nat, u: seq<nat>)
    requires (forall y :: y in q.tree ==> y in rqs) && NextOk(rqs, q) && x in rqs && Elems(u) == Elems(q.tree) + {x}
    requires forall y :: y in q.tree ==> rqs[y].sector != rqs[x].sector
    ensures (forall y :: y in u ==> y in rqs)
            && NextOk(rqs, q.(tree := u, next := Choose(rqs, q.last, Some(x), q.next)))
  {
    hide Prefers;
    assert forall y :: y in u <==> y in Elems(u);
    assert x in u;
    PrefersOrder(q.last, rqs[x].sector, rqs[x].sector, rqs[x].sector);
    if q.next.Some? {
      var p := q.next.value;
      forall y | y in u ensures Prefers(q.last, rqs[x].sector, rqs[p].sector) ==>
          Prefers(q.last, rqs[x].sector, rqs[y].sector) {
        if y != x { PrefersOrder(q.last, rqs[x].sector, rqs[p].sector, rqs[y].sector); }
      }
      PrefersOrder(q.last, rqs[x].sector, rqs[p].sector, rqs[p].sector);
    } else {
      assert forall y :: y in u ==> y == x;
    }
  }

  lemma InsertSide(rqs: map<nat, Rq<Dir>>, d: Dir, q: Side, x: nat)
    requires SideOk(rqs, d, q) && x in rqs && rqs[x].dir == d && Fits(rqs, q.tree, rqs[x])
    requires Find(rqs, d, q.tree, rqs[x].sector).None?
    ensures var k := Place(rqs, d, q.tree, rqs[x].sector);
            var u := q.tree[..k] + [x] + q.tree[k..];
            Elems(u) == Elems(q.tree) + {x}
            && SideOk(rqs, d, q.(tree := u, next := Choose(rqs, q.last, Some(x), q.next)))
  {
    InsertTree(rqs, d, q.tree, x);
    InsertNoOverlap(rqs, d, q.tree, x);
    var k := Place(rqs, d, q.tree, rqs[x].sector);
    var u := q.tree[..k] + [x] + q.tree[k..];
    OtherSectors(rqs, d, q.tree, x);
    ChooseBest(rqs, q, x, u);
    hide Sorted, NoOverlap, NextOk, Choose, Place, Find;
  }

  lemma OtherSectors(rqs: map<nat, Rq<Dir>>, d: Dir, t: seq<nat>, x: nat)
    requires Sorted(rqs, d, t) && x in rqs && Find(rqs, d, t, rqs[x].sector).None?
    ensures forall y :: y in t ==> rqs[y].sector != rqs[x].sector
  {
    var k := Place(rqs, d, t, rqs[x].sector);
    forall y | y in t ensures rqs[y].sector != rqs[x].sector {
      var i := IndexOf(t, y);
      if i >= k { assert rqs[t[k]].sector > rqs[x].sector; }
    }
  }

  /** as_update_rq's cache update. */
  function Updated(s: State, x: nat): State
    requires x in s.rqs && NextKnown(s)
  {
    var d := s.rqs[x].dir;
    var q := s.At(d);
    s.With(d, q.(next := Choose(s.rqs, q.last, Some(x), q.next)))
  }

  lemma {:induction false} AddTreeKeeps(s: State, x: nat)
    requires QueuesOk(s) && PlacesOk(s, {x}) && AllKnown(s) && NextKnown(s) && x in s.rqs
    requires Fits(s.rqs, s.At(s.rqs[x].dir).tree, s.rqs[x])
    ensures AddTree(s, x).rqs == s.rqs && NextKnown(AddTree(s, x))
    ensures QueuesOk(Updated(AddTree(s, x), x)) && PlacesOk(AddTree(s, x), {})
    decreases |s.At(s.rqs[x].dir).tree|
  {
    hide MoveToDispatch, Place, SideOk, Choose;
    AddTreeKnown(s, x);
    var d := s.rqs[x].dir;
    match Find(s.rqs, d, s.At(d).tree, s.rqs[x].sector)
    case Some(alias) =>
      MovedKnown(s, alias);
      MovedNext(s, alias);
      MoveKeeps(s, alias, {x});
      FitsSubset(s.rqs, s.At(d).tree, MoveToDispatch(s, alias).At(d).tree, s.rqs[x]);
      AddTreeKeeps(MoveToDispatch(s, alias), x);
    case None =>
      InsertSide(s.rqs, d, s.At(d), x);
      InsertPlaces(s, x, AddTree(s, x));
  }

  lemma FitsSubset(rqs: map<nat, Rq<Dir>>, t: seq<nat>, u: seq<nat>, rq: Rq<Dir>)
    requires (forall y :: y in t ==> y in rqs) && Fits(rqs, t, rq) && Elems(u) <= Elems(t)
    ensures (forall y :: y in u ==> y in rqs) && Fits(rqs, u, rq)
  {
    assert forall y :: y in u ==> y in Elems(u);
  }

  lemma InsertPlaces(s: State, x: nat, t: State)
    requires PlacesOk(s, {x}) && x in s.rqs && t.rqs == s.rqs && t.gone == s.gone && t.out == s.out
    requires var d := s.rqs[x].dir; Elems(t.At(d).tree) == Elems(s.At(d).tree) + {x} && t.At(Other(d)) == s.At(Other(d))
    ensures PlacesOk(t, {})
  {
    hide Elems;
  }

  lemma AddKeeps(s: State, x: nat, rq: Rq<Dir>)
    requires Inv(s) && x !in s.rqs && AllKnown(s) && NextKnown(s) && Fits(s.rqs, s.At(rq.dir).tree, rq)
    ensures Inv(AddRequest(s, x, rq))
  {
    hide SideOk, PlacesOk, AddTree, Choose;
    var t := s.(rqs := s.rqs[x := rq]);
    NewRequest(s, x, rq, t);
    AddTreeKeeps(t, x);
    AddTreeKnown(t, x);
    PlacesSame(AddTree(t, x), AddRequest(s, x, rq), {});
  }

  lemma PlacesSame(s: State, t: State, hole: set<nat>)
    requires PlacesOk(s, hole) && t.rqs.Keys == s.rqs.Keys && t.out == s.out && t.gone == s.gone
    requires t.sync.tree == s.sync.tree && t.async.tree == s.async.tree
    ensures PlacesOk(t, hole)
  {
    hide Elems;
  }

  lemma NewRequest(s: State, x: nat, rq: Rq<Dir>, t: State)
    requires Inv(s) && x !in s.rqs && AllKnown(s) && NextKnown(s) && Fits(s.rqs, s.At(rq.dir).tree, rq)
             && t == s.(rqs := s.rqs[x := rq])
    ensures QueuesOk(t) && PlacesOk(t, {x}) && AllKnown(t) && NextKnown(t) && Fits(t.rqs, t.At(rq.dir).tree, rq)
  {
    SideSame(s.rqs, t.rqs, Sync, s.sync, x);
    SideSame(s.rqs, t.rqs, Async, s.async, x);
    InvKnown(t);
    hide SideOk, Elems;
  }

  /** A change of x only matters to the list that holds x, if its length changes. */
  lemma SideSame(rqs: map<nat, Rq<Dir>>, rqs': map<nat, Rq<Dir>>, d: Dir, q: Side, x: nat)
    requires SideOk(rqs, d, q) && rqs'.Keys >= rqs.Keys && (forall y :: y in rqs && y != x ==> rqs'[y] == rqs[y])
    requires x in q.tree ==> rqs'[x].sector == rqs[x].sector && rqs'[x].dir == rqs[x].dir && NoOverlap(rqs', q.tree)
    ensures SideOk(rqs', d, q)
  {
    hide Prefers;
    assert forall i :: 0 <= i < |q.tree| ==> q.tree[i] in q.tree;
  }

  // ---- merging ----

  /** The request can grow by n sectors without reaching the next one. */
  predicate Room(s: State, x: nat, n: nat)
    requires AllKnown(s) && x in s.rqs
  {
    forall y :: y in s.At(s.rqs[x].dir).tree ==>
        s.rqs[y].sector <= s.rqs[x].sector || End(s.rqs, x) + n <= s.rqs[y].sector
  }

  lemma GrownNoOverlap(rqs: map<nat, Rq<Dir>>, d: Dir, t: seq<nat>, x: nat, rq: Rq<Dir>)
    requires Sorted(rqs, d, t) && NoOverlap(rqs, t) && x in rqs && rq.sector == rqs[x].sector
    requires forall y :: y in t ==> rqs[y].sector <= rq.sector || rq.sector + rq.sectors <= rqs[y].sector
    ensures NoOverlap(rqs[x := rq], t)
  {
    forall i, j | 0 <= i < j < |t| ensures End(rqs[x := rq], t[i]) <= rqs[x := rq][t[j]].sector {
      assert t[i] in t && t[j] in t;
      assert End(rqs, t[i]) <= rqs[t[j]].sector;
    }
  }

  lemma BackMergeKeeps(s: State, x: nat, n: nat)
    requires Inv(s) && AllKnown(s) && Queued(s, x) && Room(s, x, n)
    ensures Inv(BackMerge(s, x, n))
  {
    hide Elems, Prefers;
    var t := BackMerge(s, x, n);
    GrownNoOverlap(s.rqs, s.rqs[x].dir, s.At(s.rqs[x].dir).tree, x, t.rqs[x]);
    SideSame(s.rqs, t.rqs, Sync, s.sync, x);
    SideSame(s.rqs, t.rqs, Async, s.async, x);
    assert t.rqs.Keys == s.rqs.Keys;
    PlacesSame(s, t, {});
  }

  lemma ForgetPlaces(s: State, y: nat, t: State)
    requires PlacesOk(s, {}) && Queued(s, y) && t.rqs.Keys == s.rqs.Keys && t.out == s.out && t.gone == s.gone + {y}
    requires var d := s.rqs[y].dir; Elems(t.At(d).tree) == Elems(s.At(d).tree) - {y} && t.At(Other(d)) == s.At(Other(d))
    ensures PlacesOk(t, {})
  {
    assert y in Elems(s.At(s.rqs[y].dir).tree);
    hide Elems;
  }

  /** In sector order, y comes right behind x. */
  lemma JoinRoom(rqs: map<nat, Rq<Dir>>, d: Dir, t: seq<nat>, x: nat, y: nat)
    requires Sorted(rqs, d, t) && NoOverlap(rqs, t) && x in t && y in t && x != y && rqs[y].sector == End(rqs, x)
    ensures forall z :: z in t && z != y ==> rqs[z].sector <= rqs[x].sector || End(rqs, y) <= rqs[z].sector
  {
    var i, j := IndexOf(t, x), IndexOf(t, y);
    forall z | z in t && z != y ensures rqs[z].sector <= rqs[x].sector || End(rqs, y) <= rqs[z].sector {
      var k := IndexOf(t, z);
      if k > j { assert End(rqs, t[j]) <= rqs[t[k]].sector; }
      assert i < k ==> End(rqs, t[i]) <= rqs[t[k]].sector;
      assert k < j ==> rqs[t[k]].sector < rqs[t[j]].sector;
    }
  }

  lemma MergeKeeps(s: State, x: nat, y: nat)
    requires Inv(s) && AllKnown(s) && x != y && Queued(s, x) && Queued(s, y) && s.rqs[x].dir == s.rqs[y].dir
    requires s.rqs[y].sector == End(s.rqs, x)
    ensures Inv(MergeRequests(s, x, y))
  {
    hide PlacesOk, NoOverlap, Sorted, NextOk, RemoveSide;
    var d := s.rqs[x].dir;
    var p := RemoveSide(s.rqs, s.At(d), y);
    var t := MergeRequests(s, x, y);
    RemoveKeeps(s.rqs, d, s.At(d), y);
    assert x in Elems(s.At(d).tree);
    JoinGrown(s.rqs, d, s.At(d), x, y, p.tree);
    MergedQueues(s, x, p, t);
    assert t.rqs.Keys == s.rqs.Keys;
    ForgetPlaces(s, y, t);
  }

  lemma JoinGrown(rqs: map<nat, Rq<Dir>>, d: Dir, q: Side, x: nat, y: nat, u: seq<nat>)
    requires x in rqs && y in rqs
    requires Sorted(rqs, d, q.tree) && NoOverlap(rqs, q.tree) && x in q.tree && y in q.tree && x != y
             && rqs[y].sector == End(rqs, x)
    requires Sorted(rqs, d, u) && NoOverlap(rqs, u) && Elems(u) == Elems(q.tree) - {y}
    ensures NoOverlap(rqs[x := rqs[x].(sectors := rqs[x].sectors + rqs[y].sectors)], u)
  {
    hide Sorted, NoOverlap;
    JoinRoom(rqs, d, q.tree, x, y);
    assert forall z :: z in u ==> z in Elems(u);
    GrownNoOverlap(rqs, d, u, x, rqs[x].(sectors := rqs[x].sectors + rqs[y].sectors));
  }

  lemma MergedQueues(s: State, x: nat, p: Side, t: State)
    requires Inv(s) && AllKnown(s) && Queued(s, x) && x in t.rqs
             && t.rqs == s.rqs[x := s.rqs[x].(sectors := t.rqs[x].sectors)]
    requires SideOk(s.rqs, s.rqs[x].dir, p) && NoOverlap(t.rqs, p.tree)
    requires t.At(s.rqs[x].dir) == p && t.At(Other(s.rqs[x].dir)) == s.At(Other(s.rqs[x].dir))
    ensures QueuesOk(t)
  {
    var d := s.rqs[x].dir;
    NotInOther(s, x);
    hide SideOk, PlacesOk;
    SideSame(s.rqs, t.rqs, d, p, x);
    SideSame(s.rqs, t.rqs, Other(d), s.At(Other(d)), x);
  }

  lemma NotInOther(s: State, x: nat)
    requires AllKnown(s) && Queued(s, x)
    ensures x !in s.At(Other(s.rqs[x].dir)).tree
  {
  }

  // ---- front merges ----

  /** A stale next_rq of the list without x stays the best with x exactly if it is preferred
      to x. */
  lemma StaleNext(rqs: map<nat, Rq<Dir>>, q: Side, x: nat, u: seq<nat>)
    requires (forall y :: y in q.tree ==> y in rqs) && NextOk(rqs, q) && x in rqs && Elems(u) == Elems(q.tree) + {x}
    ensures (forall y :: y in u ==> y in rqs) && (q.next.Some? ==> q.next.value in rqs)
    ensures NextOk(rqs, q.(tree := u)) <==> q.next.Some? && Prefers(q.last, rqs[q.next.value].sector, rqs[x].sector)
  {
    hide Prefers;
    assert forall y :: y in u <==> y in Elems(u);
    assert x in u;
  }

  /** If next_rq itself is x, it stays the best exactly if it is preferred to the neighbour
      that as_find_next_rq would put in its place. */
  lemma NextGrows(rqs: map<nat, Rq<Dir>>, rqs': map<nat, Rq<Dir>>, d: Dir, q: Side, t: seq<nat>)
    requires Sorted(rqs, d, q.tree) && NextOk(rqs, q) && q.next.Some? && Elems(t) == Elems(q.tree)
    requires q.next.value in rqs' && rqs' == rqs[q.next.value := rqs'[q.next.value]]
    ensures var x := q.next.value;
            var r := FindNext(rqs, q.tree, q.last, x);
            && (forall y :: y in t ==> y in rqs') && (r.Some? ==> r.value in rqs)
            && (Best(rqs', t, q.last, x) <==> r.None? || Prefers(q.last, rqs'[x].sector, rqs[r.value].sector))
  {
    var x := q.next.value;
    var sector := rqs'[x].sector;
    BestSplits(rqs, d, q.tree, x, q.last);
    FindNextBest(rqs, d, q.tree, x, q.last);
    RemoveTree(rqs, d, q.tree, x);
    var r := FindNext(rqs, q.tree, q.last, x);
    var u := Without(q.tree, x);
    hide Prefers, FindNext, Without, Sorted;
    assert forall y :: y in u <==> y in Elems(u);
    assert forall y :: y in t <==> y in Elems(t);
    PrefersOrder(q.last, sector, sector, sector);
    if r.Some? {
      assert r.value in u;
      forall y | y in u && Prefers(q.last, sector, rqs[r.value].sector) ensures Prefers(q.last, sector, rqs[y].sector) {
        PrefersOrder(q.last, sector, rqs[r.value].sector, rqs[y].sector);
      }
    } else {
      assert u == [];
    }
  }

  /** When a front merge leaves the best request in next_rq: what is there at the end is
      preferred to the grown request, or is the grown request and preferred to its
      neighbours.  If another request already starts at the new sector it is dispatched, and
      as_find_next_rq does not see x then. */
  predicate FrontOk(s: State, x: nat, n: nat)
    requires AllKnown(s) && NextKnown(s) && Queued(s, x) && n <= s.rqs[x].sector
  {
    var d := s.rqs[x].dir;
    var q, sector := s.At(d), s.rqs[x].sector - n;
    WithoutSubset(q.tree, x);
    var rest := Without(q.tree, x);
    match Find(s.rqs, d, rest, sector)
    case Some(alias) =>
      var last := End(s.rqs, alias);
      var r := FindNext(s.rqs, rest, last, alias);
      r.Some? && r.value in s.rqs && Prefers(last, s.rqs[r.value].sector, sector)
    case None =>
      if q.next == Some(x) then
        var r := FindNext(s.rqs, q.tree, q.last, x);
        r.None? || (r.value in s.rqs && Prefers(q.last, sector, s.rqs[r.value].sector))
      else q.next.Some? && Prefers(q.last, s.rqs[q.next.value].sector, sector)
  }

  /** The bio in front overlaps nothing, except perhaps a request at its own sector. */
  predicate FrontRoom(s: State, x: nat, n: nat)
    requires AllKnown(s) && Queued(s, x) && n <= s.rqs[x].sector
  {
    WithoutSubset(s.At(s.rqs[x].dir).tree, x);
    Fits(s.rqs, Without(s.At(s.rqs[x].dir).tree, x), Grown(s.rqs[x], n))
  }

  /** The rest of the list does not notice that x has grown. */
  lemma RestSame(rqs: map<nat, Rq<Dir>>, rqs': map<nat, Rq<Dir>>, d: Dir, q: Side, x: nat)
    requires Sorted(rqs, d, q.tree) && NoOverlap(rqs, q.tree) && x in q.tree
    requires x in rqs' && rqs' == rqs[x := rqs'[x]]
    ensures var u := Without(q.tree, x);
            && Elems(u) == Elems(q.tree) - {x} && x !in u && Sorted(rqs, d, u) && Sorted(rqs', d, u)
            && NoOverlap(rqs', u)
  {
    RemoveTree(rqs, d, q.tree, x);
    WithoutNoOverlap(rqs, d, q.tree, x);
    hide Without;
    NotIn(Without(q.tree, x), x);
    SameOrder(rqs, rqs', d, Without(q.tree, x), x);
  }

  lemma NotIn(u: seq<nat>, x: nat)
    requires x !in Elems(u)
    ensures x !in u
  {
  }

  lemma SameOrder(rqs: map<nat, Rq<Dir>>, rqs': map<nat, Rq<Dir>>, d: Dir, u: seq<nat>, x: nat)
    requires Sorted(rqs, d, u) && NoOverlap(rqs, u) && x !in u && x in rqs' && rqs' == rqs[x := rqs'[x]]
    ensures Sorted(rqs', d, u) && NoOverlap(rqs', u)
  {
    assert forall i :: 0 <= i < |u| ==> u[i] in u;
  }

  lemma {:induction false} SamePlace(rqs: map<nat, Rq<Dir>>, rqs': map<nat, Rq<Dir>>, d: Dir, t: seq<nat>, sector: nat)
    requires Known(rqs, d, t) && Known(rqs', d, t) && forall y :: y in t ==> rqs'[y] == rqs[y]
    ensures Place(rqs', d, t, sector) == Place(rqs, d, t, sector) && Find(rqs', d, t, sector) == Find(rqs, d, t, sector)
  {
    if t != [] { SamePlace(rqs, rqs', d, t[1..], sector); }
  }

  lemma SameNext(rqs: map<nat, Rq<Dir>>, rqs': map<nat, Rq<Dir>>, t: seq<nat>, last: nat, x: nat)
    requires x in t && forall y :: y in t ==> y in rqs && y in rqs' && rqs'[y] == rqs[y]
    ensures FindNext(rqs', t, last, x) == FindNext(rqs, t, last, x)
    ensures FindNext(rqs, t, last, x).Some? ==> FindNext(rqs, t, last, x).value in t
  {
  }

  /** The side after a front merge without an alias. */
  lemma FrontSide(rqs: map<nat, Rq<Dir>>, rqs': map<nat, Rq<Dir>>, d: Dir, q: Side, x: nat, u: seq<nat>)
    requires SideOk(rqs, d, q) && x in q.tree && x in rqs' && rqs' == rqs[x := rqs'[x]] && Elems(u) == Elems(q.tree)
    ensures q.next.Some? && q.next.value in rqs && forall y :: y in u ==> y in rqs'
    ensures var r := FindNext(rqs, q.tree, q.last, x);
            && (r.Some? ==> r.value in rqs)
            && (NextOk(rqs', q.(tree := u)) <==>
                if q.next == Some(x) then r.None? || Prefers(q.last, rqs'[x].sector, rqs[r.value].sector)
                else Prefers(q.last, rqs[q.next.value].sector, rqs'[x].sector))
  {
    SameNext(rqs, rqs, q.tree, q.last, x);
    assert forall y :: y in u <==> y in Elems(u);
    assert forall y :: y in q.tree <==> y in Elems(q.tree);
    assert u != [];
    if q.next == Some(x) {
      NextGrows(rqs, rqs', d, q, u);
    } else {
      var rest := Without(q.tree, x);
      RestSame(rqs, rqs', d, q, x);
      StillBest(rqs, q, rest, x);
      hide Prefers, FindNext, Without, Sorted, NoOverlap;
      assert NextOk(rqs', q.(tree := rest)) by { NextSame(rqs, rqs', q.(tree := rest), x); }
      StaleNext(rqs', q.(tree := rest), x, u);
    }
  }

  lemma NextSame(rqs: map<nat, Rq<Dir>>, rqs': map<nat, Rq<Dir>>, q: Side, x: nat)
    requires (forall y :: y in q.tree ==> y in rqs && y in rqs') && x !in q.tree && x in rqs'
             && rqs' == rqs[x := rqs'[x]]
    requires NextOk(rqs, q)
    ensures NextOk(rqs', q)
  {
    hide Prefers;
  }

  /** x goes into the list of q, which does not have its sector. */
  lemma PutSide(rqs: map<nat, Rq<Dir>>, d: Dir, q: Side, x: nat)
    requires Sorted(rqs, d, q.tree) && NoOverlap(rqs, q.tree) && x in rqs && rqs[x].dir == d
             && Fits(rqs, q.tree, rqs[x])
    requires Find(rqs, d, q.tree, rqs[x].sector).None?
    ensures var k := Place(rqs, d, q.tree, rqs[x].sector);
            var u := q.tree[..k] + [x] + q.tree[k..];
            && Elems(u) == Elems(q.tree) + {x} && Sorted(rqs, d, u) && NoOverlap(rqs, u)
  {
    InsertTree(rqs, d, q.tree, x);
    InsertNoOverlap(rqs, d, q.tree, x);
    hide Sorted, NoOverlap, Place, Find;
  }

  lemma PutIs(s: State, x: nat)
    requires AllKnown(s) && x in s.rqs
    requires Find(s.rqs, s.rqs[x].dir, s.At(s.rqs[x].dir).tree, s.rqs[x].sector).None?
    ensures var d := s.rqs[x].dir;
            var q := s.At(d);
            var k := Place(s.rqs, d, q.tree, s.rqs[x].sector);
            AddTree(s, x) == s.With(d, q.(tree := q.tree[..k] + [x] + q.tree[k..]))
  {
    hide MoveToDispatch, Place;
  }

  /** What is known when x has been taken out. */
  lemma OutKnown(s: State, x: nat, n: nat)
    requires Inv(s) && AllKnown(s) && NextKnown(s) && Queued(s, x) && n <= s.rqs[x].sector && FrontRoom(s, x, n)
    ensures var t, d := TakenOut(s, x, n), s.rqs[x].dir;
            && AllKnown(t) && x in t.rqs && t.rqs[x].dir == d && Sorted(t.rqs, d, t.At(d).tree)
            && NoOverlap(t.rqs, t.At(d).tree)
            && Fits(t.rqs, t.At(d).tree, t.rqs[x]) && PlacesOk(t, {x})
            && Elems(t.At(d).tree) == Elems(s.At(d).tree) - {x}
            && SideOk(t.rqs, Other(d), t.At(Other(d))) && x !in t.At(d).tree
            && Find(t.rqs, d, t.At(d).tree, t.rqs[x].sector) == Find(s.rqs, d, t.At(d).tree, t.rqs[x].sector)
  {
    var d := s.rqs[x].dir;
    var t, q := TakenOut(s, x, n), s.At(d);
    RestSame(s.rqs, t.rqs, d, q, x);
    hide Without;
    WithoutPlaces(s, x, t);
    NotInOther(s, x);
    SideSame(s.rqs, t.rqs, Other(d), s.At(Other(d)), x);
    SamePlace(s.rqs, t.rqs, d, t.At(d).tree, t.rqs[x].sector);
  }

  lemma WithoutPlaces(s: State, x: nat, t: State)
    requires PlacesOk(s, {}) && Queued(s, x) && t.rqs.Keys == s.rqs.Keys && t.out == s.out && t.gone == s.gone
    requires var d := s.rqs[x].dir; Elems(t.At(d).tree) == Elems(s.At(d).tree) - {x} && t.At(Other(d)) == s.At(Other(d))
    ensures PlacesOk(t, {x})
  {
    assert x in Elems(s.At(s.rqs[x].dir).tree);
    hide Elems;
  }

  /** The order, the places and the other direction do not suffer from a front merge; the
      best request stays cached if and only if FrontOk says so. */
  lemma FrontMergeKeeps(s: State, x: nat, n: nat)
    requires Inv(s) && AllKnown(s) && NextKnown(s) && Queued(s, x) && n <= s.rqs[x].sector && FrontRoom(s, x, n)
    ensures PlacesOk(FrontMerge(s, x, n), {})
    ensures Inv(FrontMerge(s, x, n)) <==> FrontOk(s, x, n)
  {
    hide SideOk, PlacesOk, Find, MoveToDispatch, AddTree, FrontOk;
    var d, t := s.rqs[x].dir, TakenOut(s, x, n);
    OutKnown(s, x, n);
    match Find(t.rqs, d, t.At(d).tree, t.rqs[x].sector)
    case Some(alias) => FrontAlias(s, x, n, alias);
    case None => FrontNoAlias(s, x, n);
  }

  lemma FrontNoAlias(s: State, x: nat, n: nat)
    requires Inv(s) && AllKnown(s) && NextKnown(s) && Queued(s, x) && n <= s.rqs[x].sector && FrontRoom(s, x, n)
    requires var t, d := TakenOut(s, x, n), s.rqs[x].dir;
             Known(t.rqs, d, t.At(d).tree) && Find(t.rqs, d, t.At(d).tree, t.rqs[x].sector).None?
    ensures PlacesOk(FrontMerge(s, x, n), {})
    ensures Inv(FrontMerge(s, x, n)) <==> FrontOk(s, x, n)
  {
    hide Inv, SideOk, NoOverlap, Sorted, AddTree, Find, Place, FindNext, Prefers, Fits, PlacesOk, FrontOk, FrontRoom,
         TakenOut, NextOk;
    OutKnown(s, x, n);
    var d, t := s.rqs[x].dir, TakenOut(s, x, n);
    var r := t.At(d);
    PutSide(t.rqs, d, r, x);
    PutIs(t, x);
    var k := Place(t.rqs, d, r.tree, t.rqs[x].sector);
    FrontMergeIs(s, x, n);
    InsertPlaces(t, x, FrontMerge(s, x, n));
    InvIs(FrontMerge(s, x, n), d);
    FrontOkNoAlias(s, x, n, r.tree[..k] + [x] + r.tree[k..]);
    SideIs(t.rqs, d, FrontMerge(s, x, n).At(d));
  }

  lemma TakenOutIs(s: State, x: nat, n: nat)
    requires AllKnown(s) && Queued(s, x) && n <= s.rqs[x].sector
    ensures var t, d := TakenOut(s, x, n), s.rqs[x].dir;
            && t.rqs == s.rqs[x := Grown(s.rqs[x], n)] && t.rqs[x].sector == s.rqs[x].sector - n
            && t.At(d) == s.At(d).(tree := Without(s.At(d).tree, x))
  {
    hide Without;
  }

  lemma RestKnown(s: State, x: nat)
    requires AllKnown(s) && Queued(s, x)
    ensures var d := s.rqs[x].dir;
            var rest := Without(s.At(d).tree, x);
            Known(s.rqs, d, rest) && x !in s.At(Other(d)).tree
  {
    WithoutSubset(s.At(s.rqs[x].dir).tree, x);
    hide Without;
  }

  lemma SideIs(rqs: map<nat, Rq<Dir>>, d: Dir, q: Side)
    requires Sorted(rqs, d, q.tree) && NoOverlap(rqs, q.tree)
    ensures SideOk(rqs, d, q) <==> NextOk(rqs, q)
  {
    hide Sorted, NoOverlap, NextOk;
  }

  lemma FrontOkNoAlias(s: State, x: nat, n: nat, u: seq<nat>)
    requires Inv(s) && AllKnown(s) && NextKnown(s) && Queued(s, x) && n <= s.rqs[x].sector && FrontRoom(s, x, n)
    requires var t, d := TakenOut(s, x, n), s.rqs[x].dir;
             && Known(t.rqs, d, t.At(d).tree) && Find(t.rqs, d, t.At(d).tree, t.rqs[x].sector).None?
             && Elems(u) == Elems(t.At(d).tree) + {x}
    ensures var t, d := TakenOut(s, x, n), s.rqs[x].dir;
            && (forall y :: y in u ==> y in t.rqs)
            && (FrontOk(s, x, n) <==> NextOk(t.rqs, t.At(d).(tree := u)))
  {
    hide SideOk, NoOverlap, Sorted, Find, FindNext, Prefers, Fits, PlacesOk, Without, NextOk, TakenOut, FrontRoom;
    OutKnown(s, x, n);
    TakenOutIs(s, x, n);
    RestKnown(s, x);
    var d, t := s.rqs[x].dir, TakenOut(s, x, n);
    assert x in Elems(s.At(d).tree);
    assert Elems(u) == Elems(s.At(d).tree);
    InvIs(s, d);
    FrontSide(s.rqs, t.rqs, d, s.At(d), x, u);
    assert t.At(d).(tree := u) == s.At(d).(tree := u);
  }

  lemma FrontAlias(s: State, x: nat, n: nat, alias: nat)
    requires Inv(s) && AllKnown(s) && NextKnown(s) && Queued(s, x) && n <= s.rqs[x].sector && FrontRoom(s, x, n)
    requires var t, d := TakenOut(s, x, n), s.rqs[x].dir;
             Known(t.rqs, d, t.At(d).tree) && Find(t.rqs, d, t.At(d).tree, t.rqs[x].sector) == Some(alias)
    ensures PlacesOk(FrontMerge(s, x, n), {})
    ensures Inv(FrontMerge(s, x, n)) <==> FrontOk(s, x, n)
  {
    hide Inv, SideOk, NoOverlap, Sorted, AddTree, MoveToDispatch, Find, FindNext, Prefers, Fits, PlacesOk, FrontOk,
         FrontRoom, TakenOut;
    OutKnown(s, x, n);
    var d, t := s.rqs[x].dir, TakenOut(s, x, n);
    AliasMoved(t, x, alias);
    var m := MoveToDispatch(t, alias);
    AddStale(m, x);
    AliasStep(t, x, alias);
    FrontMergeIs(s, x, n);
    InvIs(FrontMerge(s, x, n), d);
    FrontOkAlias(s, x, n, alias);
  }

  lemma FrontMergeIs(s: State, x: nat, n: nat)
    requires AllKnown(s) && Queued(s, x) && n <= s.rqs[x].sector
    ensures var t := TakenOut(s, x, n);
            x in t.rqs && t.rqs[x].dir == s.rqs[x].dir && AllKnown(t) && FrontMerge(s, x, n) == AddTree(t, x)
  {
    WithoutSubset(s.At(s.rqs[x].dir).tree, x);
    hide AddTree, Without;
  }

  lemma InvIs(s: State, d: Dir)
    ensures Inv(s) <==> SideOk(s.rqs, d, s.At(d)) && SideOk(s.rqs, Other(d), s.At(Other(d))) && PlacesOk(s, {})
  {
    hide SideOk, PlacesOk;
  }

  lemma FrontOkAlias(s: State, x: nat, n: nat, alias: nat)
    requires Inv(s) && AllKnown(s) && NextKnown(s) && Queued(s, x) && n <= s.rqs[x].sector && FrontRoom(s, x, n)
    requires var t, d := TakenOut(s, x, n), s.rqs[x].dir;
             Known(t.rqs, d, t.At(d).tree) && Find(t.rqs, d, t.At(d).tree, t.rqs[x].sector) == Some(alias)
    ensures var t, d := TakenOut(s, x, n), s.rqs[x].dir;
            var last := End(t.rqs, alias);
            var r := FindNext(t.rqs, t.At(d).tree, last, alias);
            && (r.Some? ==> r.value in t.rqs)
            && (FrontOk(s, x, n) <==> r.Some? && Prefers(last, t.rqs[r.value].sector, t.rqs[x].sector))
  {
    hide Inv, SideOk, NoOverlap, Sorted, Find, FindNext, Prefers, Fits, PlacesOk, Without, Elems, TakenOut, FrontRoom;
    OutKnown(s, x, n);
    TakenOutIs(s, x, n);
    RestKnown(s, x);
    var d, t := s.rqs[x].dir, TakenOut(s, x, n);
    assert forall y :: y in t.At(d).tree ==> t.rqs[y] == s.rqs[y];
    SameNext(s.rqs, t.rqs, t.At(d).tree, End(t.rqs, alias), alias);
  }

  lemma AliasStep(s: State, x: nat, alias: nat)
    requires AllKnown(s) && x in s.rqs
    requires var d := s.rqs[x].dir; Find(s.rqs, d, s.At(d).tree, s.rqs[x].sector) == Some(alias)
    ensures Queued(s, alias) && AllKnown(MoveToDispatch(s, alias)) && MoveToDispatch(s, alias).rqs == s.rqs
    ensures AddTree(s, x) == AddTree(MoveToDispatch(s, alias), x)
  {
    MovedKnown(s, alias);
    hide MoveToDispatch, Place;
  }

  /** The alias is dispatched while x is in no list. */
  lemma AliasMoved(s: State, x: nat, alias: nat)
    requires AllKnown(s) && x in s.rqs && PlacesOk(s, {x})
    requires var d := s.rqs[x].dir;
             && Sorted(s.rqs, d, s.At(d).tree) && NoOverlap(s.rqs, s.At(d).tree) && Fits(s.rqs, s.At(d).tree, s.rqs[x])
             && Find(s.rqs, d, s.At(d).tree, s.rqs[x].sector) == Some(alias)
    ensures Queued(s, alias)
    ensures var d, m := s.rqs[x].dir, MoveToDispatch(s, alias);
            var q := s.At(d);
            && AllKnown(m) && m.rqs == s.rqs && m.At(Other(d)) == s.At(Other(d)) && PlacesOk(m, {x})
            && SideOk(m.rqs, d, m.At(d)) && Fits(m.rqs, m.At(d).tree, m.rqs[x])
            && Find(m.rqs, d, m.At(d).tree, m.rqs[x].sector).None?
            && m.At(d).last == End(s.rqs, alias) && m.At(d).next == FindNext(s.rqs, q.tree, End(s.rqs, alias), alias)
  {
    var d := s.rqs[x].dir;
    var q, m := s.At(d), MoveToDispatch(s, alias);
    MoveSide(s.rqs, d, q, alias);
    SortedDistinct(s.rqs, d, q.tree);
    FindNextOther(s.rqs, q.tree, alias, End(s.rqs, alias));
    NoSecond(s.rqs, d, q.tree, alias, s.rqs[x].sector);
    MovedKnown(s, alias);
    hide SideOk, Without, FindNext, Sorted, NoOverlap, Find;
    MovePlaces(s, alias, m, {x});
    FitsSubset(s.rqs, q.tree, m.At(d).tree, s.rqs[x]);
  }

  /** x goes back into its list, next_rq stays. */
  lemma AddStale(s: State, x: nat)
    requires AllKnown(s) && x in s.rqs && PlacesOk(s, {x})
    requires var d := s.rqs[x].dir;
             && SideOk(s.rqs, d, s.At(d)) && Fits(s.rqs, s.At(d).tree, s.rqs[x])
             && Find(s.rqs, d, s.At(d).tree, s.rqs[x].sector).None?
    ensures var d, t := s.rqs[x].dir, AddTree(s, x);
            var next := s.At(d).next;
            && t.rqs == s.rqs && t.At(Other(d)) == s.At(Other(d)) && PlacesOk(t, {})
            && (next.Some? ==> next.value in s.rqs)
            && (SideOk(t.rqs, d, t.At(d)) <==>
                next.Some? && Prefers(s.At(d).last, s.rqs[next.value].sector, s.rqs[x].sector))
  {
    var d := s.rqs[x].dir;
    var q := s.At(d);
    PutSide(s.rqs, d, q, x);
    PutIs(s, x);
    var k := Place(s.rqs, d, q.tree, s.rqs[x].sector);
    StaleNext(s.rqs, q, x, q.tree[..k] + [x] + q.tree[k..]);
    hide Sorted, NoOverlap, NextOk, AddTree, Find, Place, Prefers, Elems;
    InsertPlaces(s, x, AddTree(s, x));
  }

  /** No other request has the sector of the alias. */
  lemma NoSecond(rqs: map<nat, Rq<Dir>>, d: Dir, t: seq<nat>, alias: nat, sector: nat)
    requires Sorted(rqs, d, t) && alias in t && rqs[alias].sector == sector
    ensures var u := Without(t, alias); Known(rqs, d, u) && Find(rqs, d, u, sector).None?
  {
    RemoveTree(rqs, d, t, alias);
    var u := Without(t, alias);
    hide Without;
    forall y | y in u ensures rqs[y].sector != sector {
      assert y in Elems(u);
      var i, j := IndexOf(t, y), IndexOf(t, alias);
    }
  }

  // ---- runs ----

  datatype Event =
    | Add(id: nat, rq: Rq<Dir>)
    | GrowBack(id: nat, n: nat)
    | GrowFront(id: nat, n: nat)
    | Join(id: nat, other: nat)
    | Move(id: nat)

  /** Whatever the anticipation decides, a dispatch moves some queued request.  Front merges
      are those after which next_rq is still the best. */
  predicate Enabled(s: State, e: Event)
    requires AllKnown(s) && NextKnown(s)
  {
    match e
    case Add(x, rq) => x !in s.rqs && Fits(s.rqs, s.At(rq.dir).tree, rq)
    case GrowBack(x, n) => Queued(s, x) && Room(s, x, n)
    case GrowFront(x, n) => Queued(s, x) && n <= s.rqs[x].sector && FrontRoom(s, x, n) && FrontOk(s, x, n)
    case Join(x, y) => x != y && Queued(s, x) && Queued(s, y) && s.rqs[x].dir == s.rqs[y].dir
    && s.rqs[y].sector == End(s.rqs, x)
    case Move(x) => Queued(s, x)
  }

  function Step(s: State, e: Event): State
    requires AllKnown(s) && NextKnown(s) && Enabled(s, e)
  {
    match e
    case Add(x, rq) => AddRequest(s, x, rq)
    case GrowBack(x, n) => BackMerge(s, x, n)
    case GrowFront(x, n) => FrontMerge(s, x, n)
    case Join(x, y) => MergeRequests(s, x, y)
    case Move(x) => MoveToDispatch(s, x)
  }

  lemma StepKeeps(s: State, e: Event)
    requires Inv(s) && AllKnown(s) && NextKnown(s) && Enabled(s, e)
    ensures Inv(Step(s, e))
  {
    hide QueuesOk, PlacesOk, AddRequest, BackMerge, FrontMerge, MergeRequests, MoveToDispatch, FrontOk, FrontRoom;
    match e
    case Add(x, rq) => AddKeeps(s, x, rq);
    case GrowBack(x, n) => BackMergeKeeps(s, x, n);
    case GrowFront(x, n) => FrontMergeKeeps(s, x, n);
    case Join(x, y) => MergeKeeps(s, x, y);
    case Move(x) => MoveKeeps(s, x, {});
  }

  /** s leads to t by some events. */
  ghost predicate Reaches(s: State, es: seq<Event>, t: State)
    decreases |es|
  {
    if es == [] then s == t
    else AllKnown(s) && NextKnown(s) && Enabled(s, es[0]) && Reaches(Step(s, es[0]), es[1..], t)
  }

  function Initial(): State { State(map[], Side([], None, 0), Side([], None, 0), [], {}) }

  lemma InitialInv()
    ensures Inv(Initial())
  {
  }

  lemma {:induction false} RunKeeps(s: State, es: seq<Event>, t: State)
    requires Inv(s) && Reaches(s, es, t)
    ensures Inv(t)
    decreases |es|
  {
    hide Inv, Step, Enabled, AllKnown, NextKnown;
    if es != [] {
      StepKeeps(s, es[0]);
      RunKeeps(Step(s, es[0]), es[1..], t);
    }
  }

  /** next_rq is queued and nearest to the head, or nothing is queued. */
  predicate NextNearest(rqs: map<nat, Rq<Dir>>, q: Side)
    requires forall y :: y in q.tree ==> y in rqs
  {
    && (q.next.None? <==> q.tree == [])
    && (q.next.Some? ==> q.next.value in q.tree
                         && forall y :: y in q.tree ==> Nearest(q.last, rqs[q.next.value].sector, rqs[y].sector))
  }

  /** Over every run, next_rq is nearest to the head among all queued requests of its
      direction. */
  lemma RunOptimal(s: State, es: seq<Event>, t: State)
    requires Inv(s) && Reaches(s, es, t)
    ensures AllKnown(t) && forall d :: NextNearest(t.rqs, t.At(d))
  {
    RunKeeps(s, es, t);
    InvKnown(t);
    NextIsNearest(t.rqs, t.sync);
    NextIsNearest(t.rqs, t.async);
    hide Sorted, NoOverlap, NextOk, NextNearest, PlacesOk, NextKnown;
    assert forall d :: t.At(d) == t.sync || t.At(d) == t.async;
  }

  lemma NextIsNearest(rqs: map<nat, Rq<Dir>>, q: Side)
    requires (forall y :: y in q.tree ==> y in rqs) && NextOk(rqs, q)
    ensures NextNearest(rqs, q)
  {
    hide Prefers, Nearest;
    if q.next.Some? {
      forall y | y in q.tree ensures Nearest(q.last, rqs[q.next.value].sector, rqs[y].sector) {
        PrefersIs(q.last, rqs[q.next.value].sector, rqs[y].sector);
      }
    }
  }

  // ---- where the head is ----

  /** Where the last request of direction d in the dispatch queue ends. */
  function HeadOf(rqs: map<nat, Rq<Dir>>, d: Dir, out: seq<nat>): nat {
    if out == [] then 0 else
      var x := out[|out| - 1];
      if x in rqs && rqs[x].dir == d then rqs[x].sector + rqs[x].sectors else HeadOf(rqs, d, out[..|out| - 1])
  }

  predicate Heads(s: State) { forall d :: s.At(d).last == HeadOf(s.rqs, d, s.out) }

  /** Requests that are not in the dispatch queue may change. */
  lemma {:induction false} HeadSame(rqs: map<nat, Rq<Dir>>, rqs': map<nat, Rq<Dir>>, d: Dir, out: seq<nat>)
    requires forall y :: y in out ==> (y in rqs <==> y in rqs') && (y in rqs ==> rqs'[y] == rqs[y])
    ensures HeadOf(rqs', d, out) == HeadOf(rqs, d, out)
  {
    if out != [] { HeadSame(rqs, rqs', d, out[..|out| - 1]); }
  }

  lemma MoveHeads(s: State, x: nat)
    requires AllKnown(s) && Queued(s, x) && Heads(s)
    ensures Heads(MoveToDispatch(s, x))
  {
    hide Without, FindNext;
    var t := MoveToDispatch(s, x);
    assert t.out[..|s.out|] == s.out;
    assert t.At(Other(s.rqs[x].dir)).last == s.At(Other(s.rqs[x].dir)).last;
  }

  lemma {:induction false} AddTreeHeads(s: State, x: nat)
    requires AllKnown(s) && x in s.rqs && Heads(s)
    ensures Heads(AddTree(s, x))
    decreases |s.At(s.rqs[x].dir).tree|
  {
    hide MoveToDispatch, Place, HeadOf;
    match Find(s.rqs, s.rqs[x].dir, s.At(s.rqs[x].dir).tree, s.rqs[x].sector)
    case Some(alias) =>
      MovedKnown(s, alias);
      MoveHeads(s, alias);
      AddTreeHeads(MoveToDispatch(s, alias), x);
    case None =>
  }

  /** The heads stay, and with them the requests that are in the dispatch queue. */
  lemma HeadsSame(s: State, x: nat, t: State)
    requires Heads(s) && t.out == s.out && x !in s.out && s.rqs.Keys + {x} >= t.rqs.Keys >= s.rqs.Keys
    requires forall y :: y in s.rqs && y != x ==> t.rqs[y] == s.rqs[y]
    requires t.sync.last == s.sync.last && t.async.last == s.async.last
    ensures Heads(t)
  {
    HeadSame(s.rqs, t.rqs, Sync, s.out);
    HeadSame(s.rqs, t.rqs, Async, s.out);
    hide HeadOf;
    assert forall d :: t.At(d) == t.sync || t.At(d) == t.async;
  }

  lemma NotOut(s: State, x: nat)
    requires Inv(s)
    ensures x !in s.rqs || Queued(s, x) ==> x !in s.out
  {
    hide QueuesOk;
    assert x in s.out ==> x in Elems(s.out);
    if Queued(s, x) { assert x in Elems(s.At(s.rqs[x].dir).tree); }
  }

  lemma StepHeads(s: State, e: Event)
    requires Inv(s) && AllKnown(s) && NextKnown(s) && Enabled(s, e) && Heads(s)
    ensures Heads(Step(s, e))
  {
    NotOut(s, e.id);
    hide Inv, AddTree, Choose, MoveToDispatch, Without, FindNext, Heads, FrontOk, FrontRoom, Room, Fits;
    match e
    case Add(x, rq) =>
      var t := s.(rqs := s.rqs[x := rq]);
      HeadsSame(s, x, t);
      AddTreeKnown(t, x);
      AddTreeHeads(t, x);
      LastsSame(AddTree(t, x), AddRequest(s, x, rq));
    case GrowBack(x, n) => HeadsSame(s, x, BackMerge(s, x, n));
    case GrowFront(x, n) =>
      FrontMergeIs(s, x, n);
      TakenOutIs(s, x, n);
      HeadsSame(s, x, TakenOut(s, x, n));
      AddTreeHeads(TakenOut(s, x, n), x);
    case Join(x, y) => HeadsSame(s, x, MergeRequests(s, x, y));
    case Move(x) => MoveHeads(s, x);
  }

  lemma LastsSame(s: State, t: State)
    requires Heads(s) && t.out == s.out && t.rqs == s.rqs
    requires t.sync.last == s.sync.last && t.async.last == s.async.last
    ensures Heads(t)
  {
    assert forall d :: t.At(d).last == s.At(d).last;
    hide HeadOf;
  }

  /** Over every run, the head of a direction is where its last dispatched request ends. */
  lemma {:induction false} RunHeads(s: State, es: seq<Event>, t: State)
    requires Inv(s) && Heads(s) && Reaches(s, es, t)
    ensures Heads(t)
    decreases |es|
  {
    hide Inv, Step, Enabled, AllKnown, NextKnown, Heads;
    if es != [] {
      StepKeeps(s, es[0]);
      StepHeads(s, es[0]);
      RunHeads(Step(s, es[0]), es[1..], t);
    }
  }

  // ---- no sector is lost ----

  /** A front or back merge covers what the request and the bio covered; a joined request
      covers what both covered; no other request changes. */
  lemma StepCovers(s: State, e: Event, z: nat)
    requires Inv(s) && AllKnown(s) && NextKnown(s) && Enabled(s, e) && z in s.rqs
    ensures var t := Step(s, e);
            && z in t.rqs && t.rqs[z].dir == s.rqs[z].dir
            && t.rqs[z].sector == s.rqs[z].sector - (if e.GrowFront? && e.id == z then e.n else 0)
            && End(t.rqs, z) == if e.GrowBack? && e.id == z then End(s.rqs, z) + e.n
                                else if e.Join? && e.id == z then End(s.rqs, e.other) else End(s.rqs, z)
  {
    hide Inv, AddTree, Choose, MoveToDispatch, Without, FindNext, FrontOk, FrontRoom, Room, Fits;
    match e
    case Add(x, rq) => AddTreeKnown(s.(rqs := s.rqs[x := rq]), x);
    case GrowBack(x, n) =>
    case GrowFront(x, n) =>
      FrontMergeIs(s, x, n);
      TakenOutIs(s, x, n);
      AddTreeRqs(TakenOut(s, x, n), x);
    case Join(x, y) =>
    case Move(x) => MovedKnown(s, x);
  }

  lemma {:induction false} AddTreeRqs(s: State, x: nat)
    requires AllKnown(s) && x in s.rqs
    ensures AddTree(s, x).rqs == s.rqs
    decreases |s.At(s.rqs[x].dir).tree|
  {
    hide MoveToDispatch, Place;
    match Find(s.rqs, s.rqs[x].dir, s.At(s.rqs[x].dir).tree, s.rqs[x].sector)
    case Some(alias) =>
      MovedKnown(s, alias);
      AddTreeRqs(MoveToDispatch(s, alias), x);
    case None =>
  }

  // ---- a front merge that spoils the choice ----

  /** Two requests, at 110 and 120, and the head at 100. */
  const EXAMPLE: map<nat, Rq<Dir>> := map[0 := Rq(110, 8, Sync, 0), 1 := Rq(120, 8, Sync, 0)]
  const GROWN: map<nat, Rq<Dir>> := map[0 := Rq(50, 68, Sync, 0), 1 := Rq(120, 8, Sync, 0)]

  /** A front merge that grows behind the head can spoil the choice: the request at 110 was
      the best, and is not when it starts at 50. */
  lemma FrontMergeCanSpoil()
    ensures NextOk(EXAMPLE, Side([0, 1], Some(0), 100))
    ensures Sorted(GROWN, Sync, [0, 1]) && NoOverlap(GROWN, [0, 1]) && !NextOk(GROWN, Side([0, 1], Some(0), 100))
  {
    ExamplePreferences();
    hide Prefers;
    assert 1 in [0, 1];
    assert forall y :: y in [0, 1] ==> y == 0 || y == 1;
  }

  lemma ExamplePreferences()
    ensures Prefers(100, 110, 120) && Prefers(100, 110, 110) && !Prefers(100, 50, 120)
  {
  }

  /** Requests at 50 and 58, eight sectors each. */
  const NEIGHBORS := State(map[0 := Rq(50, 8, Sync, 0), 1 := Rq(58, 8, Sync, 0)], Side([0, 1], Some(0), 0),
                           Side([], None, 0), [], {})

  /** A bio at 50 in front of the request at 58 sends the one at 50 away, and next_rq with
      it: the list is not empty, and yet next_rq is NULL. */
  lemma FrontMergeCanLose()
    ensures Inv(NEIGHBORS) && AllKnown(NEIGHBORS) && NextKnown(NEIGHBORS) && Queued(NEIGHBORS, 1)
    ensures FrontRoom(NEIGHBORS, 1, 8) && !FrontOk(NEIGHBORS, 1, 8)
    ensures FrontMerge(NEIGHBORS, 1, 8).sync == Side([1], None, 58)
  {
    NeighborsOk();
    NeighborTaken();
    var t := TakenOut(NEIGHBORS, 1, 8);
    hide Inv, TakenOut, Without, FrontMerge, MoveToDispatch, AddTree, Prefers;
    FrontMergeIs(NEIGHBORS, 1, 8);
    AliasStep(t, 1, 0);
    NeighborGone(t);
    var m := MoveToDispatch(t, 0);
    assert Place(m.rqs, Sync, [], 50) == 0;
    PutIs(m, 1);
    assert [][..0] + [1] + [][0..] == [1];
  }

  /** The request at 58 is out of the list and starts at 50 now. */
  lemma NeighborTaken()
    ensures AllKnown(NEIGHBORS) && Queued(NEIGHBORS, 1) && Without(NEIGHBORS.sync.tree, 1) == [0]
    ensures var t := TakenOut(NEIGHBORS, 1, 8);
            && t.sync == Side([0], Some(0), 0) && t.rqs == map[0 := Rq(50, 8, Sync, 0), 1 := Rq(50, 16, Sync, 0)]
            && AllKnown(t) && Find(t.rqs, Sync, [0], 50) == Some(0) && Find(NEIGHBORS.rqs, Sync, [0], 50) == Some(0)
  {
    assert Without([0, 1], 1) == [0] by { assert Without([1], 1) == []; }
    var t := TakenOut(NEIGHBORS, 1, 8);
    assert Place(t.rqs, Sync, [0], 50) == 0;
    assert Place(NEIGHBORS.rqs, Sync, [0], 50) == 0;
  }

  /** The request at 50 is dispatched, and no other is in the list. */
  lemma NeighborGone(t: State)
    requires t.sync == Side([0], Some(0), 0) && t.rqs == map[0 := Rq(50, 8, Sync, 0), 1 := Rq(50, 16, Sync, 0)]
    requires AllKnown(t)
    ensures MoveToDispatch(t, 0).sync == Side([], None, 58) && MoveToDispatch(t, 0).rqs == t.rqs
    ensures FindNext(NEIGHBORS.rqs, [0], 58, 0).None?
  {
    assert IndexOf([0], 0) == 0;
  }

  lemma NeighborsOk()
    ensures Inv(NEIGHBORS) && AllKnown(NEIGHBORS) && NextKnown(NEIGHBORS)
  {
    NearFirst();
    hide Prefers;
    assert 0 in [0, 1] && 1 in [0, 1];
    assert Elems([0, 1]) == {0, 1} && Elems<nat>([]) == {};
    assert Best(NEIGHBORS.rqs, [0, 1], 0, 0);
  }

  lemma NearFirst()
    ensures Prefers(0, 50, 58) && Prefers(0, 50, 50)
  {
  }
}
