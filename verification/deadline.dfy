/** The deadline I/O scheduler (deadline-iosched.c): the sorted trees, the FIFO lists and the
    counters agree in every reachable state, and reads cannot starve writes for longer
    than (writes_starved + 1) * max(1, fifo_batch) dispatches. */
module Deadline {
  import opened Lists
  import opened SortedTree

  datatype Dir = Read | Write

  function Other(d: Dir): Dir { if d == Read then Write else Read }

  /** An array indexed by direction. */
  datatype Pair<T> = Pair(r: T, w: T) {
    function At(d: Dir): T { if d == Read then r else w }
    function With(d: Dir, v: T): Pair<T> { if d == Read then this.(r := v) else this.(w := v) }
  }

  /** sort_list, fifo_list and next_rq of one direction; requests are known by number. */
  datatype Side = Side(tree: seq<nat>, fifo: seq<nat>, next: Option<nat>)

  /** The tunables of deadline_data; writes_starved is a signed 32-bit int. */
  datatype Config = Config(fifoBatch: nat, writesStarved: int, expire: Pair<nat>)

  /** `starved >= writes_starved` compares unsigned numbers. */
  function Unsigned(n: int): nat
    requires -0x8000_0000 <= n < 0x8000_0000
  {
    if n < 0 then n + 0x1_0000_0000 else n
  }

  /** deadline_data, the requests, and where the requests that left went: `out` is the
      dispatch queue in order, `gone` those merged away. */
  datatype State = State(
    rqs: map<nat, Rq<Dir>>, side: Pair<Side>, batching: nat, starved: nat, last: nat, now: nat, out: seq<nat>,
        gone: set<nat>)

  predicate ConfigOk(c: Config) { -0x8000_0000 <= c.writesStarved < 0x8000_0000 }

  // ---- the operations ----

  predicate Queued(s: State, x: nat) { x in s.rqs && x in s.side.At(s.rqs[x].dir).tree }

  /** rq_fifo_clear, and deadline_del_rq_rb */
  function RemoveSide(q: Side, x: nat): Side
    requires x in q.tree
  {
    Side(Without(q.tree, x), Without(q.fifo, x), if q.next == Some(x) then Latter(q.tree, x) else q.next)
  }

  /** deadline_remove_request */
  function RemoveRequest(s: State, x: nat): State
    requires Queued(s, x)
  {
    var d := s.rqs[x].dir;
    s.(side := s.side.With(d, RemoveSide(s.side.At(d), x)))
  }

  /** deadline_move_request */
  function MoveRequest(s: State, x: nat): State
    requires Queued(s, x)
  {
    var d := s.rqs[x].dir;
    var q, o := s.side.At(d), s.side.At(Other(d));
    var side := s.side.With(Other(d), o.(next := None)).With(d, q.(next := Latter(q.tree, x)));
    RemoveRequest(s.(side := side, last := s.rqs[x].sector + s.rqs[x].sectors, out := s.out + [x]), x)
  }

  predicate AllKnown(s: State) { Known(s.rqs, Read, s.side.r.tree) && Known(s.rqs, Write, s.side.w.tree) }

  /** deadline_add_rq_rb: a request already at this sector is dispatched at once. */
  function AddTree(s: State, x: nat): State
    requires AllKnown(s) && x in s.rqs
    decreases |s.side.At(s.rqs[x].dir).tree|
  {
    var d := s.rqs[x].dir;
    var q := s.side.At(d);
    match Find(s.rqs, d, q.tree, s.rqs[x].sector)
    case Some(alias) =>
      MovedKnown(s, alias);
      AddTree(MoveRequest(s, alias), x)
    case None =>
      var k := Place(s.rqs, d, q.tree, s.rqs[x].sector);
      s.(side := s.side.With(d, q.(tree := q.tree[..k] + [x] + q.tree[k..])))
  }

  lemma MovedKnown(s: State, x: nat)
    requires AllKnown(s) && Queued(s, x)
    ensures AllKnown(MoveRequest(s, x)) && MoveRequest(s, x).rqs == s.rqs
    ensures |MoveRequest(s, x).side.At(s.rqs[x].dir).tree| < |s.side.At(s.rqs[x].dir).tree|
  {
    WithoutSubset(s.side.At(s.rqs[x].dir).tree, x);
  }

  /** deadline_add_request, at time `now` */
  function AddRequest(c: Config, s: State, x: nat, rq: Rq<Dir>, now: nat): State
    requires AllKnown(s) && x !in s.rqs
  {
    var rq := rq.(time := now + c.expire.At(rq.dir));
    var s := AddTree(s.(rqs := s.rqs[x := rq], now := now), x);
    var q := s.side.At(rq.dir);
    s.(side := s.side.With(rq.dir, q.(fifo := q.fifo + [x])))
  }

  /** A bio is added behind the request: only its length changes. */
  function BackMerge(s: State, x: nat, n: nat): State
    requires x in s.rqs
  {
    s.(rqs := s.rqs[x := s.rqs[x].(sectors := s.rqs[x].sectors + n)])
  }

  /** A bio is added in front; deadline_merged_request then repositions the request. */
  function FrontMerge(s: State, x: nat, n: nat): State
    requires AllKnown(s) && Queued(s, x) && n <= s.rqs[x].sector
  {
    var d := s.rqs[x].dir;
    var q := s.side.At(d);
    var rq := s.rqs[x].(sector := s.rqs[x].sector - n, sectors := s.rqs[x].sectors + n);
    WithoutSubset(q.tree, x);
    AddTree(s.(rqs := s.rqs[x := rq], side := s.side.With(d, q.(tree := Without(q.tree, x)))), x)
  }

  /** attempt_merge lengthens req; deadline_merged_requests then forgets next. */
  function MergeRequests(s: State, x: nat, y: nat): State
    requires x != y && Queued(s, x) && Queued(s, y) && s.rqs[x].dir == s.rqs[y].dir
  {
    var d := s.rqs[x].dir;
    var q := s.side.At(d);
    var earlier := x in q.fifo && y in q.fifo && s.rqs[y].time < s.rqs[x].time;
    var rq := s.rqs[x].(sectors := s.rqs[x].sectors + s.rqs[y].sectors,
                        time := if earlier then s.rqs[y].time else s.rqs[x].time);
    var s := s.(rqs := s.rqs[x := rq],
                side := s.side.With(d, q.(fifo := if earlier then MoveBehind(q.fifo, x, y) else q.fifo)));
    RemoveRequest(s, y).(gone := s.gone + {y})
  }

  // ---- dispatch ----

  predicate Ready(q: Side) { (q.next.Some? ==> q.next.value in q.tree) && (q.fifo != [] ==> q.fifo[0] in q.tree) }

  /** What deadline_dispatch_requests relies on. */
  predicate CanDispatch(s: State) { AllKnown(s) && Ready(s.side.r) && Ready(s.side.w) }

  /** The request of a running batch. */
  function BatchRequest(s: State): Option<nat> { if s.side.w.next.Some? then s.side.w.next else s.side.r.next }

  /** `batching` after the test for a sequential request. */
  function BatchCount(c: Config, s: State): nat
    requires CanDispatch(s)
  {
    var rq := BatchRequest(s);
    if rq.Some? && s.last != s.rqs[rq.value].sector then s.batching + c.fifoBatch else s.batching
  }

  predicate InBatch(c: Config, s: State)
    requires CanDispatch(s)
  {
    BatchRequest(s).Some? && BatchCount(c, s) < c.fifoBatch
  }

  /** The direction of a new batch. */
  function StartDir(c: Config, s: State): Option<Dir>
    requires ConfigOk(c)
  {
    if s.side.r.fifo != [] && !(s.side.w.fifo != [] && s.starved >= Unsigned(c.writesStarved)) then Some(Read)
    else if s.side.w.fifo != [] then Some(Write)
    else None
  }

  /** The first request of a new batch: the oldest, if it has expired or there is no next
      request in sector order. */
  function StartRequest(s: State, d: Dir, now: nat): nat
    requires CanDispatch(s) && s.side.At(d).fifo != []
  {
    var q := s.side.At(d);
    if now > s.rqs[q.fifo[0]].time || q.next.None? then q.fifo[0] else q.next.value
  }

  /** `starved` after a new batch in direction d: counted when reads go before waiting
      writes, cleared for a write batch. */
  function StarvedAfter(s: State, d: Dir): nat {
    if d == Write then 0 else if s.side.w.fifo != [] then s.starved + 1 else s.starved
  }

  /** deadline_dispatch_requests: the new state and the request handed out. */
  function Dispatch(c: Config, s: State, now: nat): (r: (State, Option<nat>))
    requires ConfigOk(c) && CanDispatch(s)
  {
    var s0 := s.(now := now, batching := BatchCount(c, s));
    if InBatch(c, s) then
      var x := BatchRequest(s).value;
      (MoveRequest(s0.(batching := s0.batching + 1), x), Some(x))
    else match StartDir(c, s)
      case None => (s0, None)
      case Some(d) =>
        var x := StartRequest(s, d, now);
        (MoveRequest(s0.(batching := 1, starved := StarvedAfter(s, d)), x), Some(x))
  }

  // ---- the invariant ----

  /** The FIFO is in order of expiry. */
  predicate FifoOk(rqs: map<nat, Rq<Dir>>, f: seq<nat>, limit: nat) {
    && Distinct(f) && (forall i :: 0 <= i < |f| ==> f[i] in rqs && rqs[f[i]].time <= limit)
    && forall i, j :: 0 <= i < j < |f| ==> rqs[f[i]].time <= rqs[f[j]].time
  }

  /** Tree and FIFO hold the same requests, and the next request is one of them; a request
      on its way in may be in either. */
  predicate Agree(q: Side, hole: set<nat>) {
    && Elems(q.tree) - hole == Elems(q.fifo) - hole
    && (q.next.Some? ==> q.next.value in Elems(q.tree) + hole)
  }

  predicate SideOk(rqs: map<nat, Rq<Dir>>, d: Dir, q: Side, limit: nat, hole: set<nat>) {
    Sorted(rqs, d, q.tree) && FifoOk(rqs, q.fifo, limit) && Agree(q, hole)
  }

  /** Both directions; only one of them has a next request. */
  predicate QueuesOk(c: Config, s: State, d: Dir, hole: set<nat>) {
    && SideOk(s.rqs, d, s.side.At(d), s.now + c.expire.At(d), hole)
    && SideOk(s.rqs, Other(d), s.side.At(Other(d)), s.now + c.expire.At(Other(d)), {})
    && (s.side.r.next.None? || s.side.w.next.None?)
  }

  /** Every request is in exactly one place: a tree, the dispatch queue, or merged away. */
  predicate PlacesOk(s: State, hole: set<nat>) {
    && Distinct(s.out)
    && s.rqs.Keys == Elems(s.side.r.tree) + Elems(s.side.w.tree) + Elems(s.out) + s.gone + hole
    && Elems(s.side.r.tree) !! Elems(s.side.w.tree) !! Elems(s.out) !! s.gone !! hole
  }

  function Batch(c: Config): nat { if c.fifoBatch < 1 then 1 else c.fifoBatch }

  predicate CountsOk(c: Config, s: State) {
    ConfigOk(c) && s.starved <= Unsigned(c.writesStarved) && s.batching <= Batch(c)
  }

  predicate Inv(c: Config, s: State) { QueuesOk(c, s, Read, {}) && PlacesOk(s, {}) && CountsOk(c, s) }

  // ---- one direction ----

  lemma RemoveFifo(rqs: map<nat, Rq<Dir>>, f: seq<nat>, limit: nat, x: nat)
    requires FifoOk(rqs, f, limit)
    ensures FifoOk(rqs, Without(f, x), limit) && Elems(Without(f, x)) == Elems(f) - {x}
  {
    WithoutElems(f, x);
    if x in f {
      WithoutIs(f, x);
      CutFifo(rqs, f, limit, IndexOf(f, x));
    } else {
      WithoutNothing(f, x);
    }
    hide Without;
  }

  lemma CutFifo(rqs: map<nat, Rq<Dir>>, f: seq<nat>, limit: nat, k: nat)
    requires FifoOk(rqs, f, limit) && k < |f|
    ensures FifoOk(rqs, f[..k] + f[k + 1..], limit)
  {
    var g := f[..k] + f[k + 1..];
    assert forall i :: 0 <= i < |g| ==> g[i] == f[if i < k then i else i + 1];
  }

  lemma RemoveSideKeeps(rqs: map<nat, Rq<Dir>>, d: Dir, q: Side, limit: nat, hole: set<nat>, x: nat)
    requires SideOk(rqs, d, q, limit, hole) && x in q.tree && x !in hole
    ensures SideOk(rqs, d, RemoveSide(q, x), limit, hole) && Elems(RemoveSide(q, x).tree) == Elems(q.tree) - {x}
  {
    RemoveTree(rqs, d, q.tree, x);
    RemoveFifo(rqs, q.fifo, limit, x);
    hide Without, Latter, Sorted, FifoOk;
    var p := RemoveSide(q, x);
    assert Elems(p.tree) - hole == (Elems(q.tree) - hole) - {x} && Elems(p.fifo) - hole == (Elems(q.fifo) - hole) - {x};
  }

  // ---- deadline_move_request ----

  lemma MoveKeeps(c: Config, s: State, d: Dir, x: nat, hole: set<nat>)
    requires QueuesOk(c, s, d, hole) && Queued(s, x) && s.rqs[x].dir == d && x !in hole
    ensures QueuesOk(c, MoveRequest(s, x), d, hole)
    ensures var t := MoveRequest(s, x);
            && Elems(t.side.At(d).tree) == Elems(s.side.At(d).tree) - {x}
            && Elems(t.side.At(d).fifo) == Elems(s.side.At(d).fifo) - {x}
            && t.side.At(Other(d)) == s.side.At(Other(d)).(next := None)
  {
    hide Without, Latter, Sorted, FifoOk;
    var q := s.side.At(d);
    RemoveTree(s.rqs, d, q.tree, x);
    var p := q.(next := Latter(q.tree, x));
    RemoveSideKeeps(s.rqs, d, p, s.now + c.expire.At(d), hole, x);
    RemoveFifo(s.rqs, q.fifo, s.now + c.expire.At(d), x);
  }

  lemma MovePlaces(c: Config, s: State, d: Dir, x: nat, hole: set<nat>)
    requires PlacesOk(s, hole) && Queued(s, x) && s.rqs[x].dir == d
    requires Sorted(s.rqs, d, s.side.At(d).tree)
    ensures PlacesOk(MoveRequest(s, x), hole)
  {
    RemoveTree(s.rqs, d, s.side.At(d).tree, x);
    ElemsAppend(s.out, [x]);
    hide Without, Latter, Sorted;
    assert x in Elems(s.side.At(d).tree);
    assert x !in Elems(s.out);
  }

  // ---- deadline_add_rq_rb ----

  lemma {:induction false} AddTreeKeeps(c: Config, s: State, d: Dir, x: nat)
    requires QueuesOk(c, s, d, {x}) && AllKnown(s) && x in s.rqs && s.rqs[x].dir == d && x !in s.side.At(d).tree
    requires PlacesOk(s, {x})
    ensures QueuesOk(c, AddTree(s, x), d, {x}) && PlacesOk(AddTree(s, x), {})
    ensures var t := AddTree(s, x);
            x in t.side.At(d).tree && (x in Elems(t.side.At(d).fifo) <==> x in Elems(s.side.At(d).fifo))
    ensures AddTree(s, x).rqs == s.rqs && AddTree(s, x).now == s.now
    ensures AddTree(s, x).starved == s.starved && AddTree(s, x).batching == s.batching
    decreases |s.side.At(d).tree|
  {
    var q := s.side.At(d);
    hide Sorted, FifoOk, Place, MoveRequest;
    match Find(s.rqs, d, q.tree, s.rqs[x].sector)
    case Some(alias) =>
      MovedKnown(s, alias);
      MoveKeeps(c, s, d, alias, {x});
      MovePlaces(c, s, d, alias, {x});
      MovedFields(s, alias);
      assert x !in Elems(q.tree);
      assert forall y :: y in MoveRequest(s, alias).side.At(d).tree ==>
             y in Elems(MoveRequest(s, alias).side.At(d).tree);
      AddTreeKeeps(c, MoveRequest(s, alias), d, x);
    case None =>
      InsertedKeeps(c, s, d, x);
  }

  lemma MovedFields(s: State, x: nat)
    requires Queued(s, x)
    ensures var t := MoveRequest(s, x);
            t.rqs == s.rqs && t.now == s.now && t.starved == s.starved && t.batching == s.batching && t.gone == s.gone
  {
  }

  lemma InsertedKeeps(c: Config, s: State, d: Dir, x: nat)
    requires QueuesOk(c, s, d, {x}) && AllKnown(s) && x in s.rqs && s.rqs[x].dir == d && PlacesOk(s, {x})
    requires Find(s.rqs, d, s.side.At(d).tree, s.rqs[x].sector).None?
    ensures QueuesOk(c, AddTree(s, x), d, {x}) && PlacesOk(AddTree(s, x), {}) && x in AddTree(s, x).side.At(d).tree
  {
    hide Sorted, FifoOk, Find, Elems, PlacesOk;
    var q := s.side.At(d);
    InsertTree(s.rqs, d, q.tree, x);
    InsertedPlaces(s, d, x, AddTree(s, x));
    InElems(AddTree(s, x).side.At(d).tree, x);
  }

  lemma InElems(t: seq<nat>, x: nat)
    ensures x in t <==> x in Elems(t)
  {
  }

  lemma InsertedPlaces(s: State, d: Dir, x: nat, t: State)
    requires PlacesOk(s, {x}) && t.rqs == s.rqs && t.out == s.out && t.gone == s.gone
    requires Elems(t.side.At(d).tree) == Elems(s.side.At(d).tree) + {x} && t.side.At(Other(d)) == s.side.At(Other(d))
    ensures PlacesOk(t, {})
  {
    hide Elems;
  }

  // ---- the events ----

  /** Only x may be new or have a new length or sector; it is in neither tree. */
  predicate OnlyChanges(rqs: map<nat, Rq<Dir>>, rqs': map<nat, Rq<Dir>>, x: nat) {
    && rqs.Keys + {x} == rqs'.Keys
    && forall y :: y in rqs && y != x ==> rqs'[y] == rqs[y]
  }

  lemma SortedChange(rqs: map<nat, Rq<Dir>>, rqs': map<nat, Rq<Dir>>, d: Dir, t: seq<nat>, x: nat)
    requires Sorted(rqs, d, t) && OnlyChanges(rqs, rqs', x)
    requires x in t ==> rqs'[x].sector == rqs[x].sector && rqs'[x].dir == rqs[x].dir
    ensures Sorted(rqs', d, t)
  {
    assert forall i :: 0 <= i < |t| ==> t[i] in t;
  }

  lemma FifoChange(rqs: map<nat, Rq<Dir>>, rqs': map<nat, Rq<Dir>>, f: seq<nat>, limit: nat, limit': nat, x: nat)
    requires FifoOk(rqs, f, limit) && OnlyChanges(rqs, rqs', x) && limit <= limit'
    requires x in f ==> rqs'[x].time == rqs[x].time
    ensures FifoOk(rqs', f, limit')
  {
    assert forall i :: 0 <= i < |f| ==> f[i] in f;
  }

  lemma SideChange(rqs: map<nat, Rq<Dir>>, rqs': map<nat, Rq<Dir>>, d: Dir, q: Side, limit: nat, limit': nat,
                   hole: set<nat>, x: nat)
    requires SideOk(rqs, d, q, limit, hole) && OnlyChanges(rqs, rqs', x) && limit <= limit'
    requires x in q.tree || x in q.fifo ==>
             x in rqs && rqs'[x].sector == rqs[x].sector && rqs'[x].dir == rqs[x].dir && rqs'[x].time == rqs[x].time
    ensures SideOk(rqs', d, q, limit', hole)
  {
    SortedChange(rqs, rqs', d, q.tree, x);
    FifoChange(rqs, rqs', q.fifo, limit, limit', x);
    hide Sorted, FifoOk, OnlyChanges;
  }

  lemma NotThere(c: Config, s: State, d: Dir, x: nat)
    requires QueuesOk(c, s, d, {}) && x !in s.rqs
    ensures x !in s.side.r.tree && x !in s.side.w.tree && x !in Elems(s.side.r.fifo) && x !in Elems(s.side.w.fifo)
  {
  }

  lemma QueuesKnown(c: Config, s: State, d: Dir, hole: set<nat>)
    requires QueuesOk(c, s, d, hole)
    ensures AllKnown(s)
  {
  }

  /** One direction is like the other when no request is on its way. */
  lemma Turn(c: Config, s: State, d: Dir)
    requires QueuesOk(c, s, Read, {})
    ensures QueuesOk(c, s, d, {})
  {
    hide SideOk;
  }

  lemma TurnBack(c: Config, s: State, d: Dir)
    requires QueuesOk(c, s, d, {})
    ensures QueuesOk(c, s, Read, {})
  {
    hide SideOk;
  }

  lemma AddKeeps(c: Config, s: State, x: nat, rq: Rq<Dir>, now: nat)
    requires Inv(c, s) && x !in s.rqs && now >= s.now
    ensures AllKnown(s) && Inv(c, AddRequest(c, s, x, rq, now))
  {
    hide QueuesOk, AddTree, AllKnown, PlacesOk;
    var d := rq.dir;
    Turn(c, s, d);
    QueuesKnown(c, s, d, {});
    NotThere(c, s, d, x);
    var rq' := rq.(time := now + c.expire.At(d));
    var t := s.(rqs := s.rqs[x := rq'], now := now);
    NewRequest(c, s, x, rq', t);
    QueuesKnown(c, t, d, {x});
    AddTreeKeeps(c, t, d, x);
    AppendFifo(c, AddTree(t, x), d, x);
    TurnBack(c, AddRequest(c, s, x, rq, now), d);
  }

  lemma NewRequest(c: Config, s: State, x: nat, rq: Rq<Dir>, t: State)
    requires QueuesOk(c, s, rq.dir, {}) && PlacesOk(s, {}) && x !in s.rqs
             && t == s.(rqs := s.rqs[x := rq], now := t.now)
    requires t.now >= s.now
    ensures QueuesOk(c, t, rq.dir, {x}) && PlacesOk(t, {x}) && x !in t.side.At(rq.dir).tree
  {
    var d, e := rq.dir, Other(rq.dir);
    NotThere(c, s, d, x);
    SideChange(s.rqs, t.rqs, d, s.side.At(d), s.now + c.expire.At(d), t.now + c.expire.At(d), {}, x);
    SideChange(s.rqs, t.rqs, e, s.side.At(e), s.now + c.expire.At(e), t.now + c.expire.At(e), {}, x);
    AddedQueues(c, s, x, rq, t);
    hide SideOk, PlacesOk;
  }

  lemma AgreeWider(q: Side, hole: set<nat>)
    requires Agree(q, {})
    ensures Agree(q, hole)
  {
    assert Elems(q.tree) - {} == Elems(q.tree) && Elems(q.fifo) - {} == Elems(q.fifo);
  }

  lemma PlacesNew(s: State, x: nat, t: State)
    requires PlacesOk(s, {}) && x !in s.rqs && t.rqs.Keys == s.rqs.Keys + {x}
    requires t.side == s.side && t.out == s.out && t.gone == s.gone
    ensures PlacesOk(t, {x})
  {
    hide Elems;
  }

  lemma AddedQueues(c: Config, s: State, x: nat, rq: Rq<Dir>, t: State)
    requires QueuesOk(c, s, rq.dir, {}) && PlacesOk(s, {}) && x !in s.rqs
             && t == s.(rqs := s.rqs[x := rq], now := t.now)
    requires SideOk(t.rqs, rq.dir, t.side.At(rq.dir), t.now + c.expire.At(rq.dir), {})
    requires SideOk(t.rqs, Other(rq.dir), t.side.At(Other(rq.dir)), t.now + c.expire.At(Other(rq.dir)), {})
    ensures QueuesOk(c, t, rq.dir, {x}) && PlacesOk(t, {x})
  {
    PlacesNew(s, x, t);
    AgreeWider(t.side.At(rq.dir), {x});
    hide Sorted, FifoOk, Agree, PlacesOk;
  }

  lemma FifoAppend(rqs: map<nat, Rq<Dir>>, f: seq<nat>, limit: nat, x: nat)
    requires FifoOk(rqs, f, limit) && x in rqs && rqs[x].time == limit && x !in f
    ensures FifoOk(rqs, f + [x], limit)
  {
  }

  /** list_add_tail */
  lemma AppendFifo(c: Config, u: State, d: Dir, x: nat)
    requires QueuesOk(c, u, d, {x}) && PlacesOk(u, {}) && x in u.rqs && x in u.side.At(d).tree
    requires x !in Elems(u.side.At(d).fifo) && u.rqs[x].time == u.now + c.expire.At(d)
    ensures var q := u.side.At(d);
            var v := u.(side := u.side.With(d, q.(fifo := q.fifo + [x])));
            QueuesOk(c, v, d, {}) && PlacesOk(v, {})
  {
    var q := u.side.At(d);
    ElemsAppend(q.fifo, [x]);
    FifoAppend(u.rqs, q.fifo, u.now + c.expire.At(d), x);
    AppendAgrees(q, x);
    hide Sorted, FifoOk, Agree;
  }

  lemma AppendAgrees(q: Side, x: nat)
    requires Agree(q, {x}) && x in q.tree && x !in Elems(q.fifo)
    ensures Agree(q.(fifo := q.fifo + [x]), {})
  {
    ElemsAppend(q.fifo, [x]);
    assert x in Elems(q.tree);
    assert Elems([x]) == {x};
    assert Elems(q.tree) == (Elems(q.tree) - {x}) + {x};
  }

  lemma ElemIn(s: State, d: Dir, x: nat)
    requires x in s.side.At(d).tree
    ensures x in Elems(s.side.At(d).tree)
  {
  }

  /** A queued request is in the tree of its own direction only. */
  lemma OneTree(c: Config, s: State, d: Dir, x: nat)
    requires QueuesOk(c, s, d, {}) && Queued(s, x) && s.rqs[x].dir == d
    ensures x in s.side.At(d).fifo && x !in s.side.At(Other(d)).tree && x !in s.side.At(Other(d)).fifo
  {
    ElemIn(s, d, x);
    assert x in Elems(s.side.At(d).fifo) by { assert Elems(s.side.At(d).tree) - {} == Elems(s.side.At(d).tree); }
    var o := s.side.At(Other(d));
    assert Elems(o.tree) - {} == Elems(o.tree) && Elems(o.fifo) - {} == Elems(o.fifo);
    assert x !in Elems(o.tree);
  }

  lemma PlacesSame(s: State, t: State, hole: set<nat>)
    requires PlacesOk(s, hole) && t.rqs.Keys == s.rqs.Keys && t.out == s.out && t.gone == s.gone
    requires Elems(t.side.r.tree) == Elems(s.side.r.tree) && Elems(t.side.w.tree) == Elems(s.side.w.tree)
    ensures PlacesOk(t, hole)
  {
  }

  lemma BackMergeKeeps(c: Config, s: State, x: nat, n: nat)
    requires Inv(c, s) && x in s.rqs
    ensures Inv(c, BackMerge(s, x, n))
  {
    hide SideOk, PlacesOk, OnlyChanges;
    var t := BackMerge(s, x, n);
    Lengthened(s.rqs, x, n);
    SideChange(s.rqs, t.rqs, Read, s.side.r, s.now + c.expire.r, s.now + c.expire.r, {}, x);
    SideChange(s.rqs, t.rqs, Write, s.side.w, s.now + c.expire.w, s.now + c.expire.w, {}, x);
    PlacesSame(s, t, {});
  }

  lemma Lengthened(rqs: map<nat, Rq<Dir>>, x: nat, n: nat)
    requires x in rqs
    ensures OnlyChanges(rqs, rqs[x := rqs[x].(sectors := rqs[x].sectors + n)], x)
  {
  }

  lemma FrontMergeKeeps(c: Config, s: State, x: nat, n: nat)
    requires Inv(c, s) && Queued(s, x) && n <= s.rqs[x].sector
    ensures AllKnown(s) && Inv(c, FrontMerge(s, x, n))
  {
    hide SideOk, PlacesOk, AddTree, Sorted, FifoOk, Agree;
    var d := s.rqs[x].dir;
    Turn(c, s, d);
    QueuesKnown(c, s, d, {});
    var rq := s.rqs[x].(sector := s.rqs[x].sector - n, sectors := s.rqs[x].sectors + n);
    var q := s.side.At(d);
    var t := s.(rqs := s.rqs[x := rq], side := s.side.With(d, q.(tree := Without(q.tree, x))));
    TakenOut(c, s, d, x, t);
    QueuesKnown(c, t, d, {x});
    OneTree(c, s, d, x);
    AddTreeKeeps(c, t, d, x);
    Closed(c, AddTree(t, x), d, x);
    TurnBack(c, AddTree(t, x), d);
  }

  /** elv_rb_del, with the request's new sector. */
  lemma TakenOut(c: Config, s: State, d: Dir, x: nat, t: State)
    requires QueuesOk(c, s, d, {}) && PlacesOk(s, {}) && Queued(s, x) && s.rqs[x].dir == d
    requires OnlyChanges(s.rqs, t.rqs, x) && t.rqs[x].dir == d && t.rqs[x].time == s.rqs[x].time
    requires t == s.(rqs := t.rqs, side := s.side.With(d, s.side.At(d).(tree := Without(s.side.At(d).tree, x))))
    ensures QueuesOk(c, t, d, {x}) && PlacesOk(t, {x}) && x !in t.side.At(d).tree
  {
    hide Sorted, FifoOk, Without;
    var q := s.side.At(d);
    var e := Other(d);
    OneTree(c, s, d, x);
    RemoveTree(s.rqs, d, q.tree, x);
    var u := Without(q.tree, x);
    assert x !in u by { assert x !in Elems(u); }
    SortedChange(s.rqs, t.rqs, d, u, x);
    FifoChange(s.rqs, t.rqs, q.fifo, s.now + c.expire.At(d), s.now + c.expire.At(d), x);
    SideChange(s.rqs, t.rqs, e, s.side.At(e), s.now + c.expire.At(e), s.now + c.expire.At(e), {}, x);
    TakenAgrees(q, x);
    TakenPlaces(s, d, x, t);
  }

  lemma TakenAgrees(q: Side, x: nat)
    requires Agree(q, {}) && x in q.tree && Elems(Without(q.tree, x)) == Elems(q.tree) - {x}
    ensures Agree(q.(tree := Without(q.tree, x)), {x})
  {
    assert Elems(q.tree) - {} == Elems(q.tree) && Elems(q.fifo) - {} == Elems(q.fifo);
  }

  lemma TakenPlaces(s: State, d: Dir, x: nat, t: State)
    requires PlacesOk(s, {}) && x in s.side.At(d).tree && x in s.rqs && t.rqs.Keys == s.rqs.Keys + {x}
    requires t.out == s.out && t.gone == s.gone && t.side.At(Other(d)) == s.side.At(Other(d))
    requires Elems(t.side.At(d).tree) == Elems(s.side.At(d).tree) - {x}
    ensures PlacesOk(t, {x})
  {
    ElemIn(s, d, x);
    hide Elems;
  }

  /** With x in both the tree and the FIFO, nothing is on its way. */
  lemma Closed(c: Config, s: State, d: Dir, x: nat)
    requires QueuesOk(c, s, d, {x}) && x in s.side.At(d).tree && x in Elems(s.side.At(d).fifo)
    ensures QueuesOk(c, s, d, {})
  {
    hide Sorted, FifoOk;
    ElemIn(s, d, x);
    var q := s.side.At(d);
    assert Elems(q.tree) == (Elems(q.tree) - {x}) + {x} && Elems(q.fifo) == (Elems(q.fifo) - {x}) + {x};
  }

  /** Moving a request behind one that expires earlier, and giving it that time. */
  lemma MoveBehindKeeps(rqs: map<nat, Rq<Dir>>, rqs': map<nat, Rq<Dir>>, f: seq<nat>, limit: nat, x: nat, y: nat)
    requires FifoOk(rqs, f, limit) && x != y && x in f && y in f && OnlyChanges(rqs, rqs', x)
             && rqs'[x].time == rqs[y].time
    ensures FifoOk(rqs', MoveBehind(f, x, y), limit) && Elems(MoveBehind(f, x, y)) == Elems(f)
  {
    hide Without;
    RemoveFifo(rqs, f, limit, x);
    var g := Without(f, x);
    WithoutOther(f, x, y);
    var k := IndexOf(g, y);
    assert x !in g by { assert x !in Elems(g); }
    FifoChange(rqs, rqs', g, limit, limit, x);
    InsertBehind(rqs', g, limit, x, k);
    InsertElems(g, k + 1, x);
    assert x in Elems(f);
  }

  lemma InsertBehind(rqs: map<nat, Rq<Dir>>, g: seq<nat>, limit: nat, x: nat, k: nat)
    requires FifoOk(rqs, g, limit) && k < |g| && x in rqs && x !in g && rqs[x].time == rqs[g[k]].time
    ensures FifoOk(rqs, g[..k + 1] + [x] + g[k + 1..], limit)
  {
    var h := g[..k + 1] + [x] + g[k + 1..];
    assert forall i :: 0 <= i < |h| ==> h[i] == if i <= k then g[i] else if i == k + 1 then x else g[i - 1];
  }

  lemma MergedSide(rqs: map<nat, Rq<Dir>>, rqs': map<nat, Rq<Dir>>, d: Dir, q: Side, limit: nat, x: nat, y: nat,
                   earlier: bool)
    requires SideOk(rqs, d, q, limit, {}) && x != y && x in q.tree && x in q.fifo && y in q.fifo
             && OnlyChanges(rqs, rqs', x)
    requires rqs'[x].sector == rqs[x].sector && rqs'[x].dir == rqs[x].dir
             && rqs'[x].time == if earlier then rqs[y].time else rqs[x].time
    ensures SideOk(rqs', d, q.(fifo := if earlier then MoveBehind(q.fifo, x, y) else q.fifo), limit, {})
  {
    hide Sorted, FifoOk, OnlyChanges, MoveBehind;
    SortedChange(rqs, rqs', d, q.tree, x);
    if earlier {
      MoveBehindKeeps(rqs, rqs', q.fifo, limit, x, y);
    } else {
      FifoChange(rqs, rqs', q.fifo, limit, limit, x);
    }
  }

  lemma MergeKeeps(c: Config, s: State, x: nat, y: nat)
    requires Inv(c, s) && x != y && Queued(s, x) && Queued(s, y) && s.rqs[x].dir == s.rqs[y].dir
    ensures Inv(c, MergeRequests(s, x, y))
  {
    hide SideOk, PlacesOk, OnlyChanges, RemoveSide, MoveBehind;
    var d := s.rqs[x].dir;
    var e := Other(d);
    Turn(c, s, d);
    OneTree(c, s, d, x);
    OneTree(c, s, d, y);
    var q := s.side.At(d);
    var earlier := x in q.fifo && y in q.fifo && s.rqs[y].time < s.rqs[x].time;
    var rq := s.rqs[x].(sectors := s.rqs[x].sectors + s.rqs[y].sectors,
                        time := if earlier then s.rqs[y].time else s.rqs[x].time);
    var t := s.(rqs := s.rqs[x := rq],
                side := s.side.With(d, q.(fifo := if earlier then MoveBehind(q.fifo, x, y) else q.fifo)));
    OneChanged(s.rqs, x, rq);
    MergedSide(s.rqs, t.rqs, d, q, s.now + c.expire.At(d), x, y, earlier);
    SideChange(s.rqs, t.rqs, e, s.side.At(e), s.now + c.expire.At(e), s.now + c.expire.At(e), {}, x);
    PlacesSame(s, t, {});
    ForgetKeeps(c, t, d, y);
    TurnBack(c, MergeRequests(s, x, y), d);
  }

  lemma OneChanged(rqs: map<nat, Rq<Dir>>, x: nat, rq: Rq<Dir>)
    requires x in rqs
    ensures OnlyChanges(rqs, rqs[x := rq], x) && rqs[x := rq].Keys == rqs.Keys
  {
  }

  lemma ForgetKeeps(c: Config, s: State, d: Dir, y: nat)
    requires QueuesOk(c, s, d, {}) && PlacesOk(s, {}) && Queued(s, y) && s.rqs[y].dir == d
    ensures var t := RemoveRequest(s, y).(gone := s.gone + {y}); QueuesOk(c, t, d, {}) && PlacesOk(t, {})
  {
    hide Sorted, FifoOk, RemoveSide, Agree;
    var q := s.side.At(d);
    RemoveSideKeeps(s.rqs, d, q, s.now + c.expire.At(d), {}, y);
    RemoveNext(q, y, {});
    ElemIn(s, d, y);
    assert y !in s.gone;
  }

  lemma RemoveNext(q: Side, y: nat, hole: set<nat>)
    requires y in q.tree
    ensures q.next.None? ==> RemoveSide(q, y).next.None?
  {
  }

  // ---- dispatch ----

  lemma InvCanDispatch(c: Config, s: State)
    requires Inv(c, s)
    ensures ConfigOk(c) && CanDispatch(s)
    ensures forall d :: Elems(s.side.At(d).tree) == Elems(s.side.At(d).fifo)
    ensures forall d :: s.side.At(d).tree == [] <==> s.side.At(d).fifo == []
  {
    SideReady(s.rqs, Read, s.side.r, s.now + c.expire.r);
    SideReady(s.rqs, Write, s.side.w, s.now + c.expire.w);
    hide Sorted, FifoOk;
    QueuesKnown(c, s, Read, {});
  }

  lemma SideReady(rqs: map<nat, Rq<Dir>>, d: Dir, q: Side, limit: nat)
    requires SideOk(rqs, d, q, limit, {})
    ensures Ready(q) && Elems(q.tree) == Elems(q.fifo) && (q.tree == [] <==> q.fifo == [])
  {
    assert Elems(q.tree) - {} == Elems(q.tree) && Elems(q.fifo) - {} == Elems(q.fifo);
    assert forall x :: x in q.tree <==> x in Elems(q.tree);
    assert forall x :: x in q.fifo <==> x in Elems(q.fifo);
    if q.tree != [] { assert q.tree[0] in q.fifo; }
    if q.fifo != [] { assert q.fifo[0] in q.tree; }
    hide Sorted, FifoOk;
  }

  /** The choice is a queued request. */
  lemma ChoiceQueued(c: Config, s: State, now: nat)
    requires ConfigOk(c) && CanDispatch(s)
    ensures BatchRequest(s).Some? ==> Queued(s, BatchRequest(s).value)
    ensures forall d :: s.side.At(d).fifo != [] ==>
            Queued(s, StartRequest(s, d, now)) && s.rqs[StartRequest(s, d, now)].dir == d
  {
  }

  lemma DispatchKeeps(c: Config, s: State, now: nat)
    requires Inv(c, s) && now >= s.now
    ensures ConfigOk(c) && CanDispatch(s) && Inv(c, Dispatch(c, s, now).0)
  {
    hide QueuesOk, PlacesOk, CanDispatch, InBatch, StartRequest, MoveRequest;
    InvCanDispatch(c, s);
    ChoiceQueued(c, s, now);
    if InBatch(c, s) {
      InBatchCount(c, s);
      var x := BatchRequest(s).value;
      MovedInv(c, s, s.(now := now, batching := BatchCount(c, s) + 1), x);
    } else {
      match StartDir(c, s)
      case None =>
        NothingQueued(c, s);
        LaterInv(c, s, s.(now := now));
      case Some(d) =>
        MovedInv(c, s, s.(now := now, batching := 1, starved := StarvedAfter(s, d)), StartRequest(s, d, now));
    }
  }

  lemma InBatchCount(c: Config, s: State)
    requires ConfigOk(c) && CanDispatch(s) && InBatch(c, s)
    ensures BatchRequest(s).Some? && BatchCount(c, s) == s.batching && s.batching < c.fifoBatch
            && s.last == s.rqs[BatchRequest(s).value].sector
  {
  }

  lemma LaterInv(c: Config, s: State, t: State)
    requires QueuesOk(c, s, Read, {}) && PlacesOk(s, {}) && t.now >= s.now
    requires t == s.(now := t.now, batching := t.batching, starved := t.starved)
    ensures QueuesOk(c, t, Read, {}) && PlacesOk(t, {})
  {
    hide Sorted;
  }

  lemma MovedInv(c: Config, s: State, t: State, x: nat)
    requires QueuesOk(c, s, Read, {}) && PlacesOk(s, {}) && t.now >= s.now && CountsOk(c, t)
    requires t == s.(now := t.now, batching := t.batching, starved := t.starved) && Queued(s, x)
    ensures Inv(c, MoveRequest(t, x))
  {
    hide QueuesOk, PlacesOk, MoveRequest;
    var d := s.rqs[x].dir;
    LaterInv(c, s, t);
    Turn(c, t, d);
    TreeSorted(c, t, d);
    MoveKeeps(c, t, d, x, {});
    MovePlaces(c, t, d, x, {});
    MovedFields(t, x);
    TurnBack(c, MoveRequest(t, x), d);
  }

  lemma TreeSorted(c: Config, s: State, d: Dir)
    requires QueuesOk(c, s, d, {})
    ensures Sorted(s.rqs, d, s.side.At(d).tree)
  {
  }

  /** deadline_dispatch_requests returns 0 only when nothing is queued. */
  lemma NothingQueued(c: Config, s: State)
    requires Inv(c, s) && CanDispatch(s) && !InBatch(c, s)
    ensures StartDir(c, s).None? <==> s.side.r.tree == [] && s.side.w.tree == []
    ensures StartDir(c, s).None? ==> BatchRequest(s).None?
  {
    InvCanDispatch(c, s);
    hide Inv, InBatch;
  }

  // ---- runs ----

  datatype Event =
    | Add(id: nat, rq: Rq<Dir>, when: nat)
    | GrowBack(id: nat, n: nat)
    | GrowFront(id: nat, n: nat)
    | Join(id: nat, next: nat)
    | Hand(when: nat)

  /** The block layer only merges queued requests, of one direction, and time goes on. */
  predicate Enabled(s: State, e: Event) {
    match e
    case Add(x, _, when) => x !in s.rqs && when >= s.now
    case GrowBack(x, _) => Queued(s, x)
    case GrowFront(x, n) => Queued(s, x) && n <= s.rqs[x].sector
    case Join(x, y) => x != y && Queued(s, x) && Queued(s, y) && s.rqs[x].dir == s.rqs[y].dir
    case Hand(when) => when >= s.now
  }

  function Step(c: Config, s: State, e: Event): State
    requires ConfigOk(c) && CanDispatch(s) && Enabled(s, e)
  {
    match e
    case Add(x, rq, when) => AddRequest(c, s, x, rq, when)
    case GrowBack(x, n) => BackMerge(s, x, n)
    case GrowFront(x, n) => FrontMerge(s, x, n)
    case Join(x, y) => MergeRequests(s, x, y)
    case Hand(when) => Dispatch(c, s, when).0
  }

  function Initial(): State {
    State(map[], Pair(Side([], [], None), Side([], [], None)), 0, 0, 0, 0, [], {})
  }

  lemma InitialInv(c: Config)
    requires ConfigOk(c)
    ensures Inv(c, Initial())
  {
  }

  /** Every operation keeps the structures in agreement. */
  lemma StepKeeps(c: Config, s: State, e: Event)
    requires Inv(c, s) && Enabled(s, e)
    ensures ConfigOk(c) && CanDispatch(s) && Inv(c, Step(c, s, e))
  {
    InvCanDispatch(c, s);
    hide Inv, CanDispatch, AddRequest, BackMerge, FrontMerge, MergeRequests, Dispatch;
    match e
    case Add(x, rq, when) => AddKeeps(c, s, x, rq, when);
    case GrowBack(x, n) => BackMergeKeeps(c, s, x, n);
    case GrowFront(x, n) => FrontMergeKeeps(c, s, x, n);
    case Join(x, y) => MergeKeeps(c, s, x, y);
    case Hand(when) => DispatchKeeps(c, s, when);
  }

  /** Every event of the run is possible when it happens. */
  ghost predicate RunOk(c: Config, s: State, es: seq<Event>)
    requires Inv(c, s)
    decreases |es|
  {
    es == [] || (Enabled(s, es[0]) && (StepKeeps(c, s, es[0]); RunOk(c, Step(c, s, es[0]), es[1..])))
  }

  ghost function Run(c: Config, s: State, es: seq<Event>): State
    requires Inv(c, s) && RunOk(c, s, es)
    decreases |es|
  {
    if es == [] then s else
      StepKeeps(c, s, es[0]);
      Run(c, Step(c, s, es[0]), es[1..])
  }

  lemma {:induction false} RunKeeps(c: Config, s: State, es: seq<Event>)
    requires Inv(c, s) && RunOk(c, s, es)
    ensures Inv(c, Run(c, s, es))
    decreases |es|
  {
    hide Inv, Step, Enabled;
    if es != [] {
      StepKeeps(c, s, es[0]);
      RunKeeps(c, Step(c, s, es[0]), es[1..]);
    }
  }

  // ---- reads do not starve writes ----

  /** How many more reads can be handed out before a write, while writes wait: the rest of
      the batch, and a full batch for each time that reads may still go first. */
  function Patience(c: Config, s: State): nat
    requires CountsOk(c, s)
  {
    Rest(c, s) + (Unsigned(c.writesStarved) - s.starved) * Batch(c)
  }

  function Rest(c: Config, s: State): nat { if s.batching < c.fifoBatch then c.fifoBatch - s.batching else 0 }

  lemma PatienceBound(c: Config, s: State)
    requires CountsOk(c, s)
    ensures Patience(c, s) <= (Unsigned(c.writesStarved) + 1) * Batch(c)
  {
    var w, m := Unsigned(c.writesStarved), Batch(c);
    assert (w - s.starved) * m <= w * m;
    assert (w + 1) * m == w * m + m;
  }

  /** The request handed out by a dispatch is a read. */
  predicate HandsRead(c: Config, s: State, e: Event)
    requires ConfigOk(c) && CanDispatch(s)
  {
    e.Hand? && var r := Dispatch(c, s, e.when).1; r.Some? && r.value in s.rqs && s.rqs[r.value].dir == Read
  }

  lemma ReadCosts(c: Config, s: State, e: Event)
    requires Inv(c, s) && Enabled(s, e) && s.side.w.fifo != []
    ensures ConfigOk(c) && CanDispatch(s)
    ensures HandsRead(c, s, e) ==> CountsOk(c, Step(c, s, e)) && Patience(c, Step(c, s, e)) < Patience(c, s)
  {
    InvCanDispatch(c, s);
    StepKeeps(c, s, e);
    if HandsRead(c, s, e) {
      hide CanDispatch, Queued, MoveRequest, InBatch, StartRequest, QueuesOk, PlacesOk, Patience;
      ChoiceQueued(c, s, e.when);
      if InBatch(c, s) {
        InBatchCount(c, s);
        MovedFields(s.(now := e.when, batching := s.batching + 1), BatchRequest(s).value);
        OneLess(c, s, Step(c, s, e));
      } else {
        StartedRead(c, s, e.when);
        MovedFields(s.(now := e.when, batching := 1, starved := s.starved + 1), StartRequest(s, Read, e.when));
        OneBatchLess(c, s, Step(c, s, e));
      }
    }
  }

  lemma OneLess(c: Config, s: State, t: State)
    requires CountsOk(c, s) && CountsOk(c, t) && s.batching < c.fifoBatch
    requires t.batching == s.batching + 1 && t.starved == s.starved
    ensures Patience(c, t) < Patience(c, s)
  {
  }

  /** A new batch of reads, while writes wait, is paid for with one count of `starved`. */
  lemma StartedRead(c: Config, s: State, now: nat)
    requires Inv(c, s) && ConfigOk(c) && CanDispatch(s) && !InBatch(c, s) && s.side.w.fifo != []
    requires var r := Dispatch(c, s, now).1; r.Some? && r.value in s.rqs && s.rqs[r.value].dir == Read
    ensures StartDir(c, s) == Some(Read) && s.starved < Unsigned(c.writesStarved)
    ensures Dispatch(c, s, now).0 == MoveRequest(s.(now := now, batching := 1, starved := s.starved + 1),
                                                 StartRequest(s, Read, now))
  {
    ChoiceQueued(c, s, now);
    hide Inv, CanDispatch, Queued, MoveRequest, InBatch;
  }

  lemma OneBatchLess(c: Config, s: State, t: State)
    requires CountsOk(c, s) && CountsOk(c, t) && t.batching == 1 && t.starved == s.starved + 1
    ensures Patience(c, t) < Patience(c, s)
  {
    var w, m := Unsigned(c.writesStarved), Batch(c);
    assert (w - s.starved) * m == (w - t.starved) * m + m;
  }

  predicate SameCounts(s: State, t: State) { t.batching == s.batching && t.starved == s.starved }

  /** Only dispatches touch the counters. */
  lemma OthersFree(c: Config, s: State, e: Event)
    requires Inv(c, s) && Enabled(s, e) && !e.Hand?
    ensures ConfigOk(c) && CanDispatch(s) && SameCounts(s, Step(c, s, e))
  {
    InvCanDispatch(c, s);
    hide CanDispatch, AddRequest, FrontMerge, MergeRequests, Inv;
    match e
    case Add(x, rq, when) => AddCounts(c, s, x, rq, when);
    case GrowBack(x, n) =>
    case GrowFront(x, n) => FrontMergeCounts(s, x, n);
    case Join(x, y) => MergeCounts(s, x, y);
  }

  lemma AddCounts(c: Config, s: State, x: nat, rq: Rq<Dir>, now: nat)
    requires AllKnown(s) && x !in s.rqs
    ensures SameCounts(s, AddRequest(c, s, x, rq, now))
  {
    hide AddTree;
    AddTreeCounts(s.(rqs := s.rqs[x := rq.(time := now + c.expire.At(rq.dir))], now := now), x);
  }

  lemma MergeCounts(s: State, x: nat, y: nat)
    requires x != y && Queued(s, x) && Queued(s, y) && s.rqs[x].dir == s.rqs[y].dir
    ensures SameCounts(s, MergeRequests(s, x, y))
  {
  }

  lemma FrontMergeCounts(s: State, x: nat, n: nat)
    requires AllKnown(s) && Queued(s, x) && n <= s.rqs[x].sector
    ensures SameCounts(s, FrontMerge(s, x, n))
  {
    hide AddTree;
    var d := s.rqs[x].dir;
    var q := s.side.At(d);
    var rq := s.rqs[x].(sector := s.rqs[x].sector - n, sectors := s.rqs[x].sectors + n);
    WithoutSubset(q.tree, x);
    AddTreeCounts(s.(rqs := s.rqs[x := rq], side := s.side.With(d, q.(tree := Without(q.tree, x)))), x);
  }

  lemma {:induction false} AddTreeCounts(s: State, x: nat)
    requires AllKnown(s) && x in s.rqs
    ensures SameCounts(s, AddTree(s, x))
    decreases |s.side.At(s.rqs[x].dir).tree|
  {
    hide MoveRequest, Place;
    match Find(s.rqs, s.rqs[x].dir, s.side.At(s.rqs[x].dir).tree, s.rqs[x].sector)
    case Some(alias) =>
      MovedKnown(s, alias);
      MovedFields(s, alias);
      AddTreeCounts(MoveRequest(s, alias), x);
    case None =>
  }

  /** Writes wait at every dispatch of the run, and every dispatch hands out a read. */
  ghost predicate Starving(c: Config, s: State, es: seq<Event>)
    requires Inv(c, s) && RunOk(c, s, es)
    decreases |es|
  {
    es == [] || (
      StepKeeps(c, s, es[0]);
      && (es[0].Hand? ==> s.side.w.fifo != [] && HandsRead(c, s, es[0]))
      && Starving(c, Step(c, s, es[0]), es[1..]))
  }

  function Hands(es: seq<Event>): nat { if es == [] then 0 else Hands(es[1..]) + if es[0].Hand? then 1 else 0 }

  lemma {:induction false} StarvingIsShort(c: Config, s: State, es: seq<Event>)
    requires Inv(c, s) && RunOk(c, s, es) && Starving(c, s, es)
    ensures Hands(es) <= Patience(c, s)
    decreases |es|
  {
    hide Step, Enabled, HandsRead, Patience, QueuesOk, PlacesOk;
    if es != [] {
      StepKeeps(c, s, es[0]);
      StarvingIsShort(c, Step(c, s, es[0]), es[1..]);
      if es[0].Hand? {
        ReadCosts(c, s, es[0]);
      } else {
        OthersFree(c, s, es[0]);
        SamePatience(c, s, Step(c, s, es[0]));
      }
    }
  }

  lemma SamePatience(c: Config, s: State, t: State)
    requires CountsOk(c, s) && CountsOk(c, t) && s.batching == t.batching && s.starved == t.starved
    ensures Patience(c, t) == Patience(c, s)
  {
  }

  /** The starvation bound: from any reachable state, and whatever is added or merged in
      between, a waiting write is handed out after at most this many dispatches. */
  lemma StarvationBound(c: Config, s: State, es: seq<Event>)
    requires Inv(c, s) && RunOk(c, s, es) && Starving(c, s, es)
    ensures Hands(es) <= (Unsigned(c.writesStarved) + 1) * Batch(c)
  {
    StarvingIsShort(c, s, es);
    PatienceBound(c, s);
  }

  /** A new batch that does not begin with the oldest request has no expired request in its
      direction. */
  lemma NothingExpired(c: Config, s: State, d: Dir, now: nat, x: nat)
    requires Inv(c, s) && CanDispatch(s) && s.side.At(d).fifo != [] && StartRequest(s, d, now) != s.side.At(d).fifo[0]
    requires x in s.side.At(d).tree
    ensures x in s.rqs && s.rqs[x].time >= now
  {
    Turn(c, s, d);
    ElemIn(s, d, x);
    var q := s.side.At(d);
    assert Elems(q.tree) - {} == Elems(q.tree) && Elems(q.fifo) - {} == Elems(q.fifo);
    assert x in q.fifo by { assert x in Elems(q.fifo); }
    var i :| 0 <= i < |q.fifo| && q.fifo[i] == x;
    hide Sorted;
  }
}
