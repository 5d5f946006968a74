/** The CFQ I/O scheduler (cfq-iosched.c): the sort lists, the FIFOs, the on_rr flags, the
    service tree with its cached first node, and the counter of busy queues agree in every
    reachable state. */
module Cfq {
  import opened Lists
  import opened SortedTree

  datatype Class = RealTime | BestEffort | Idle

  /** The fields of a cfq_queue that are kept in agreement; `key` and `kind` place it in the
      service tree. */
  datatype Queue = Queue(sort: seq<nat>, fifo: seq<nat>, next: Option<nat>, onRr: bool, key: int, kind: Class)

  /** A request's queue is its `dir`; `sync` and `meta` are request flags. */
  type Requests = map<nat, Rq<nat>>

  /** cfq_data, with the service tree in order; `left` is its cached first node. */
  datatype State = State(
    rqs: Requests, sync: set<nat>, meta: set<nat>, queues: map<nat, Queue>,
    service: seq<nat>, left: Option<nat>, busy: nat, last: nat, out: seq<nat>, gone: set<nat>)

  /** Tunables of the choice between requests. */
  datatype Config = Config(backMax: nat, backPenalty: nat)

  // ---- the red-black tree of queues ----

  datatype Tree = Leaf | Node(l: Tree, x: nat, r: Tree)

  function Inorder(t: Tree): seq<nat> {
    match t
    case Leaf => []
    case Node(l, x, r) => Inorder(l) + [x] + Inorder(r)
  }

  /** The walk of cfq_service_tree_add: the tree with q linked below a leaf, and `left`,
      which is cleared by every step to the right. */
  function Link(t: Tree, goLeft: nat -> bool, q: nat): (Tree, bool) {
    match t
    case Leaf => (Node(Leaf, q, Leaf), true)
    case Node(l, x, r) =>
      if goLeft(x) then (Node(Link(l, goLeft, q).0, x, r), Link(l, goLeft, q).1)
      else (Node(l, x, Link(r, goLeft, q).0), false)
  }

  /** Where the walk ends, in order. */
  function LinkPlace(t: Tree, goLeft: nat -> bool): (k: nat)
    ensures k <= |Inorder(t)|
  {
    match t
    case Leaf => 0
    case Node(l, x, r) => if goLeft(x) then LinkPlace(l, goLeft) else |Inorder(l)| + 1 + LinkPlace(r, goLeft)
  }

  /** Whatever the shape of the tree and the order of its keys, `left` says exactly whether
      the new node comes first. */
  lemma {:induction false} LinkIs(t: Tree, goLeft: nat -> bool, q: nat)
    ensures var k := LinkPlace(t, goLeft);
            && Inorder(Link(t, goLeft, q).0) == Inorder(t)[..k] + [q] + Inorder(t)[k..]
            && (Link(t, goLeft, q).1 <==> k == 0)
  {
    match t
    case Leaf =>
    case Node(l, x, r) =>
      if goLeft(x) {
        LinkIs(l, goLeft, q);
        var k := LinkPlace(l, goLeft);
        assert Inorder(t)[..k] == Inorder(l)[..k];
        assert Inorder(t)[k..] == Inorder(l)[k..] + ([x] + Inorder(r));
      } else {
        LinkIs(r, goLeft, q);
        LinkRight(Inorder(l) + [x], Inorder(r), LinkPlace(r, goLeft));
      }
  }

  lemma LinkRight(a: seq<nat>, b: seq<nat>, k: nat)
    requires k <= |b|
    ensures (a + b)[..|a| + k] == a + b[..k] && (a + b)[|a| + k..] == b[k..]
  {
  }

  // ---- cfq_choose_req, cfq_find_next_rq ----

  predicate Wraps(c: Config, last: nat, s: nat) { s < last && s + c.backMax * 2 < last }

  function Distance(c: Config, last: nat, s: nat): nat {
    if s >= last then s - last else if Wraps(c, last, s) then 0 else (last - s) * c.backPenalty
  }

  /** cfq_choose_req, for two requests. */
  predicate First(c: Config, s: State, a: nat, b: nat)
    requires a in s.rqs && b in s.rqs
  {
    if (a in s.sync) != (b in s.sync) then a in s.sync
    else if (a in s.meta) != (b in s.meta) then a in s.meta
    else
      var s1, s2 := s.rqs[a].sector, s.rqs[b].sector;
      if Wraps(c, s.last, s1) != Wraps(c, s.last, s2) then Wraps(c, s.last, s2)
      else if Wraps(c, s.last, s1) then s1 <= s2
      else if Distance(c, s.last, s1) != Distance(c, s.last, s2) then Distance(c, s.last, s1) < Distance(c, s.last, s2)
      else s1 >= s2
  }

  function Choose(c: Config, s: State, a: Option<nat>, b: Option<nat>): (r: Option<nat>)
    requires (a.Some? ==> a.value in s.rqs) && (b.Some? ==> b.value in s.rqs)
    ensures (r == a || r == b) && (r.None? ==> a.None? && b.None?)
  {
    if a.None? || a == b then b else if b.None? then a else if First(c, s, a.value, b.value) then a else b
  }

  function FindNext(c: Config, s: State, t: seq<nat>, x: nat): Option<nat>
    requires x in t && forall y :: y in t ==> y in s.rqs
  {
    var next := if Latter(t, x).Some? then Latter(t, x) else if t[0] != x then Some(t[0]) else None;
    Choose(c, s, next, Former(t, x))
  }

  // ---- the service tree ----

  /** The order of the walk: real time before the others, idle behind them, then the key. */
  predicate GoesLeft(s: State, q: nat, key: int, other: nat)
    requires q in s.queues
  {
    if other !in s.queues then false else
      var a, b := s.queues[q].kind, s.queues[other].kind;
      if (a == RealTime) != (b == RealTime) then a == RealTime
      else if (a == Idle) != (b == Idle) then b == Idle
      else key < s.queues[other].key
  }

  /** cfq_rb_erase */
  function Erase(s: State, q: nat): State {
    s.(left := if s.left == Some(q) then None else s.left, service := Without(s.service, q))
  }

  /** cfq_service_tree_add: `key` is the new rb_key, and `shape` the shape that the tree
      happens to have. */
  function ServiceAdd(s: State, q: nat, key: int, shape: seq<nat> -> Tree): State
    requires q in s.queues
  {
    if q in s.service && key == s.queues[q].key then s
    else
      var s := if q in s.service then Erase(s, q) else s;
      var goLeft := (other: nat) => GoesLeft(s, q, key, other);
      var (tree, left) := Link(shape(s.service), goLeft, q);
      s.(service := Inorder(tree), left := if left then Some(q) else s.left,
         queues := s.queues[q := s.queues[q].(key := key)])
  }

  /** cfq_rb_first */
  function FirstQueue(s: State): Option<nat> {
    if s.left.Some? then s.left else if s.service != [] then Some(s.service[0]) else None
  }

  /** cfq_add_cfqq_rr */
  function AddRr(s: State, q: nat, key: int, shape: seq<nat> -> Tree): State
    requires q in s.queues
  {
    ServiceAdd(s.(queues := s.queues[q := s.queues[q].(onRr := true)], busy := s.busy + 1), q, key, shape)
  }

  /** cfq_del_cfqq_rr */
  function DelRr(s: State, q: nat): State
    requires q in s.queues
  {
    var s := s.(queues := s.queues[q := s.queues[q].(onRr := false)]);
    var s := if q in s.service then Erase(s, q) else s;
    s.(busy := if s.busy > 0 then s.busy - 1 else 0)
  }

  // ---- requests ----

  predicate Queued(s: State, x: nat) { x in s.rqs && s.rqs[x].dir in s.queues && x in s.queues[s.rqs[x].dir].sort }

  predicate AllKnown(s: State) {
    forall q :: q in s.queues ==>
        Known(s.rqs, q, s.queues[q].sort) && (s.queues[q].next.Some? ==> s.queues[q].next.value in s.rqs)
  }

  /** cfq_remove_request, with cfq_del_rq_rb */
  function Remove(c: Config, s: State, x: nat): State
    requires AllKnown(s) && Queued(s, x)
  {
    var q := s.rqs[x].dir;
    var cfqq := s.queues[q];
    var cfqq := Queue(Without(cfqq.sort, x), Without(cfqq.fifo, x),
                      if cfqq.next == Some(x) then FindNext(c, s, cfqq.sort, x) else cfqq.next,
                      cfqq.onRr, cfqq.key, cfqq.kind);
    var s := s.(queues := s.queues[q := cfqq]);
    if cfqq.onRr && cfqq.sort == [] then DelRr(s, q) else s
  }

  /** cfq_dispatch_insert */
  function DispatchInsert(c: Config, s: State, x: nat): State
    requires AllKnown(s) && Queued(s, x)
  {
    Remove(c, s, x).(out := s.out + [x])
  }

  // ---- the invariant ----

  predicate LeftOk(s: State) { s.left.Some? ==> s.service != [] && s.left.value == s.service[0] }

  /** The service tree holds the queues that are on_rr, and busy_queues counts them. */
  predicate ServiceOk(s: State) {
    && Distinct(s.service) && s.busy == |s.service| && LeftOk(s)
    && (forall q :: q in s.service ==> q in s.queues)
    && forall q :: q in s.queues ==> (s.queues[q].onRr <==> q in s.service)
  }

  /** One queue; a request on its way in is in `hole`. */
  predicate QueueOk(rqs: Requests, q: nat, cfqq: Queue, hole: set<nat>) {
    && Sorted(rqs, q, cfqq.sort) && Distinct(cfqq.fifo)
    && Elems(cfqq.sort) - hole == Elems(cfqq.fifo) - hole
    && (cfqq.next.Some? ==> cfqq.next.value in Elems(cfqq.sort) + hole)
    && (cfqq.sort != [] ==> cfqq.next.Some? && cfqq.onRr)
    && (hole == {} && cfqq.sort == [] ==> cfqq.next.None? && !cfqq.onRr)
  }

  /** All queues; only queue q has a request on its way. */
  predicate QueuesOk(s: State, q: nat, hole: set<nat>) {
    forall r :: r in s.queues ==> QueueOk(s.rqs, r, s.queues[r], if r == q then hole else {})
  }

  predicate Agrees(s: State) { ServiceOk(s) && forall q :: q in s.queues ==> QueueOk(s.rqs, q, s.queues[q], {}) }

  // ---- the service tree keeps its first node ----

  lemma EraseOk(s: State, q: nat)
    requires Distinct(s.service) && LeftOk(s) && q in s.service
    ensures var t := Erase(s, q);
            Distinct(t.service) && LeftOk(t) && Elems(t.service) == Elems(s.service) - {q}
            && |t.service| == |s.service| - 1
  {
    WithoutElems(s.service, q);
    WithoutIs(s.service, q);
  }

  /** `shape` gives some tree for every order of queues: all that rebalancing promises. */
  ghost predicate Balances(shape: seq<nat> -> Tree) { forall u :: Inorder(shape(u)) == u }

  lemma LinkOk(s: State, q: nat, goLeft: nat -> bool, shape: seq<nat> -> Tree)
    requires Distinct(s.service) && LeftOk(s) && q !in s.service && Balances(shape)
    ensures var (tree, left) := Link(shape(s.service), goLeft, q);
            var t := s.(service := Inorder(tree), left := if left then Some(q) else s.left);
            Distinct(t.service) && LeftOk(t) && Elems(t.service) == Elems(s.service) + {q}
            && |t.service| == |s.service| + 1
  {
    LinkIs(shape(s.service), goLeft, q);
    var k := LinkPlace(shape(s.service), goLeft);
    InsertElems(s.service, k, q);
    InsertDistinct(s.service, k, q);
  }

  /** The queues after an operation that only changes queue q. */
  predicate OnlyQueue(s: State, t: State, q: nat) {
    q in s.queues && q in t.queues && t.queues == s.queues[q := t.queues[q]] && t.rqs == s.rqs
  }

  lemma ServiceAddOk(s: State, q: nat, key: int, shape: seq<nat> -> Tree)
    requires Distinct(s.service) && LeftOk(s) && q in s.queues && Balances(shape)
    ensures var t := ServiceAdd(s, q, key, shape);
            && Distinct(t.service) && LeftOk(t) && Elems(t.service) == Elems(s.service) + {q}
            && |t.service| == |s.service| + (if q in s.service then 0 else 1) && t.busy == s.busy
            && OnlyQueue(s, t, q) && t.queues[q] == s.queues[q].(key := t.queues[q].key) && t.out == s.out
            && t.gone == s.gone
  {
    if q in s.service && key == s.queues[q].key {
      assert q in Elems(s.service);
      assert s.queues == s.queues[q := s.queues[q]];
    } else {
      var e := if q in s.service then Erase(s, q) else s;
      if q in s.service { EraseOk(s, q); }
      assert q in e.service <==> q in Elems(e.service);
      LinkOk(e, q, (other: nat) => GoesLeft(e, q, key, other), shape);
    }
    hide Distinct, Erase, Link, GoesLeft, Inorder, LeftOk;
  }

  lemma ElemsService(s: State)
    ensures forall q :: q in s.service <==> q in Elems(s.service)
  {
  }

  /** cfq_resort_rr_list, and the preemption's move to the front. */
  lemma ResortOk(s: State, q: nat, key: int, shape: seq<nat> -> Tree)
    requires ServiceOk(s) && q in s.queues && s.queues[q].onRr && Balances(shape)
    ensures ServiceOk(ServiceAdd(s, q, key, shape))
  {
    ServiceAddOk(s, q, key, shape);
    ElemsService(s);
    ElemsService(ServiceAdd(s, q, key, shape));
    hide ServiceAdd, Elems, Distinct, LeftOk;
  }

  lemma AddRrOk(s: State, q: nat, key: int, shape: seq<nat> -> Tree)
    requires ServiceOk(s) && q in s.queues && !s.queues[q].onRr && Balances(shape)
    ensures ServiceOk(AddRr(s, q, key, shape))
    ensures var t := AddRr(s, q, key, shape);
            && OnlyQueue(s, t, q) && t.queues[q] == s.queues[q].(onRr := true, key := t.queues[q].key)
            && t.out == s.out && t.gone == s.gone
  {
    var e := s.(queues := s.queues[q := s.queues[q].(onRr := true)], busy := s.busy + 1);
    ServiceAddOk(e, q, key, shape);
    ElemsService(s);
    ElemsService(ServiceAdd(e, q, key, shape));
    hide ServiceAdd, Elems, Distinct, LeftOk;
  }

  lemma DelRrOk(s: State, q: nat)
    requires ServiceOk(s) && q in s.queues && s.queues[q].onRr
    ensures ServiceOk(DelRr(s, q)) && OnlyQueue(s, DelRr(s, q), q)
            && DelRr(s, q).queues[q] == s.queues[q].(onRr := false)
  {
    var e := s.(queues := s.queues[q := s.queues[q].(onRr := false)]);
    EraseOk(e, q);
    ElemsService(s);
    ElemsService(Erase(e, q));
    hide Distinct, Elems, LeftOk;
  }

  // ---- cfq_remove_request ----

  lemma FindNextIs(c: Config, s: State, q: nat, t: seq<nat>, x: nat)
    requires Sorted(s.rqs, q, t) && x in t
    ensures var r := FindNext(c, s, t, x);
            (r.None? <==> Without(t, x) == []) && (r.Some? ==> r.value in Elems(t) - {x})
  {
    SortedDistinct(s.rqs, q, t);
    WithoutElems(t, x);
    if |t| > 1 {
      assert t[0] != t[1];
      assert t[0] in t && t[1] in t;
    }
    hide Choose, Without;
  }

  /** The queue that x leaves. */
  function RemoveQueue(c: Config, s: State, cfqq: Queue, x: nat): Queue
    requires x in cfqq.sort && forall y :: y in cfqq.sort ==> y in s.rqs
  {
    Queue(Without(cfqq.sort, x), Without(cfqq.fifo, x),
          if cfqq.next == Some(x) then FindNext(c, s, cfqq.sort, x) else cfqq.next, cfqq.onRr, cfqq.key, cfqq.kind)
  }

  lemma RemoveQueueOk(c: Config, s: State, q: nat, cfqq: Queue, hole: set<nat>, x: nat)
    requires QueueOk(s.rqs, q, cfqq, hole) && x in cfqq.sort && x !in hole
    ensures var r := RemoveQueue(c, s, cfqq, x);
            QueueOk(s.rqs, q, if r.sort == [] then r.(onRr := false) else r, hole)
    ensures Elems(Without(cfqq.sort, x)) == Elems(cfqq.sort) - {x}
            && Elems(Without(cfqq.fifo, x)) == Elems(cfqq.fifo) - {x}
  {
    RemoveTree(s.rqs, q, cfqq.sort, x);
    WithoutElems(cfqq.fifo, x);
    FindNextIs(c, s, q, cfqq.sort, x);
    hide Without, FindNext, Sorted, Distinct;
    var r := RemoveQueue(c, s, cfqq, x);
    assert Elems(r.sort) - hole == (Elems(cfqq.sort) - hole) - {x}
           && Elems(r.fifo) - hole == (Elems(cfqq.fifo) - hole) - {x};
    assert cfqq.sort != [];
    assert r.sort == [] ==> Elems(r.sort) == {};
  }

  lemma QueuesKnown(s: State, q: nat, hole: set<nat>)
    requires QueuesOk(s, q, hole) && hole <= s.rqs.Keys
    ensures AllKnown(s)
  {
    hide Distinct;
  }

  /** Removing x: its queue leaves the service tree with its last request. */
  lemma RemoveOk(c: Config, s: State, x: nat, hole: set<nat>)
    requires AllKnown(s) && Queued(s, x) && x !in hole && ServiceOk(s) && QueuesOk(s, s.rqs[x].dir, hole)
    ensures var q, t := s.rqs[x].dir, Remove(c, s, x);
            && ServiceOk(t) && QueuesOk(t, q, hole) && OnlyQueue(s, t, q)
            && Elems(t.queues[q].sort) == Elems(s.queues[q].sort) - {x}
            && Elems(t.queues[q].fifo) == Elems(s.queues[q].fifo) - {x}
            && |t.queues[q].sort| < |s.queues[q].sort| && t.out == s.out && t.gone == s.gone
  {
    var q := s.rqs[x].dir;
    var cfqq := s.queues[q];
    assert QueueOk(s.rqs, q, cfqq, hole);
    RemoveQueueOk(c, s, q, cfqq, hole, x);
    WithoutSubset(cfqq.sort, x);
    var r := RemoveQueue(c, s, cfqq, x);
    var u := s.(queues := s.queues[q := r]);
    SameService(s, u, q);
    hide QueueOk, FindNext, Without, ServiceOk;
    if r.onRr && r.sort == [] {
      DelRrOk(u, q);
    }
    RemoveIs(c, s, x);
    OthersOk(s, Remove(c, s, x), q, hole);
  }

  lemma RemoveIs(c: Config, s: State, x: nat)
    requires AllKnown(s) && Queued(s, x)
    ensures var q := s.rqs[x].dir;
            var r := RemoveQueue(c, s, s.queues[q], x);
            var u := s.(queues := s.queues[q := r]);
            Remove(c, s, x) == if r.onRr && r.sort == [] then DelRr(u, q) else u
  {
    hide FindNext, Without, DelRr;
  }

  lemma SameService(s: State, t: State, q: nat)
    requires ServiceOk(s) && q in s.queues && q in t.queues && t == s.(queues := s.queues[q := t.queues[q]])
    requires t.queues[q].onRr == s.queues[q].onRr
    ensures ServiceOk(t)
  {
  }

  /** The other queues are as they were. */
  lemma OthersOk(s: State, t: State, q: nat, hole: set<nat>)
    requires QueuesOk(s, q, hole) && OnlyQueue(s, t, q) && QueueOk(t.rqs, q, t.queues[q], hole)
    ensures QueuesOk(t, q, hole)
  {
    hide QueueOk;
  }

  // ---- cfq_add_rq_rb ----

  function InsertSort(s: State, q: nat, x: nat): State
    requires q in s.queues && x in s.rqs && Known(s.rqs, q, s.queues[q].sort)
  {
    var t := s.queues[q].sort;
    var k := Place(s.rqs, q, t, s.rqs[x].sector);
    s.(queues := s.queues[q := s.queues[q].(sort := t[..k] + [x] + t[k..])])
  }

  lemma RemovedKnown(c: Config, s: State, x: nat)
    requires AllKnown(s) && Queued(s, x)
    ensures var t := DispatchInsert(c, s, x);
            AllKnown(t) && t.rqs == s.rqs && s.rqs[x].dir in t.queues
            && |t.queues[s.rqs[x].dir].sort| < |s.queues[s.rqs[x].dir].sort|
  {
    WithoutSubset(s.queues[s.rqs[x].dir].sort, x);
    hide FindNext;
  }

  /** The first part of cfq_add_rq_rb: requests already at this sector are dispatched. */
  function ClearSector(c: Config, s: State, x: nat): State
    requires AllKnown(s) && x in s.rqs && s.rqs[x].dir in s.queues
    decreases |s.queues[s.rqs[x].dir].sort|
  {
    var q := s.rqs[x].dir;
    match Find(s.rqs, q, s.queues[q].sort, s.rqs[x].sector)
    case Some(alias) =>
      RemovedKnown(c, s, alias);
      ClearSector(c, DispatchInsert(c, s, alias), x)
    case None => s
  }

  lemma {:induction false} ClearKnown(c: Config, s: State, x: nat)
    requires AllKnown(s) && x in s.rqs && s.rqs[x].dir in s.queues
    ensures var t := ClearSector(c, s, x);
            && AllKnown(t) && t.rqs == s.rqs && s.rqs[x].dir in t.queues
            && Find(t.rqs, s.rqs[x].dir, t.queues[s.rqs[x].dir].sort, s.rqs[x].sector).None?
    decreases |s.queues[s.rqs[x].dir].sort|
  {
    hide DispatchInsert, Place;
    var q := s.rqs[x].dir;
    match Find(s.rqs, q, s.queues[q].sort, s.rqs[x].sector)
    case Some(alias) =>
      RemovedKnown(c, s, alias);
      ClearKnown(c, DispatchInsert(c, s, alias), x);
    case None =>
  }

  /** cfq_add_rq_rb */
  function AddRqRb(c: Config, s: State, x: nat, key: int, shape: seq<nat> -> Tree): State
    requires AllKnown(s) && x in s.rqs && s.rqs[x].dir in s.queues
  {
    var q := s.rqs[x].dir;
    ClearKnown(c, s, x);
    var s := InsertSort(ClearSector(c, s, x), q, x);
    var s := if !s.queues[q].onRr then AddRr(s, q, key, shape) else s;
    var next := s.queues[q].next;
    s.(queues := s.queues[q := s.queues[q].(next := Choose(c, s, next, Some(x)))])
  }

  lemma DispatchOk(c: Config, s: State, x: nat, hole: set<nat>)
    requires AllKnown(s) && Queued(s, x) && x !in hole && ServiceOk(s) && QueuesOk(s, s.rqs[x].dir, hole)
    ensures var q, t := s.rqs[x].dir, DispatchInsert(c, s, x);
            && ServiceOk(t) && QueuesOk(t, q, hole) && OnlyQueue(s, t, q)
            && Elems(t.queues[q].sort) == Elems(s.queues[q].sort) - {x}
            && Elems(t.queues[q].fifo) == Elems(s.queues[q].fifo) - {x}
            && |t.queues[q].sort| < |s.queues[q].sort| && t.out == s.out + [x] && t.gone == s.gone
  {
    RemoveOk(c, s, x, hole);
    hide Remove, QueueOk, Elems, Distinct;
  }

  lemma {:induction false} ClearOk(c: Config, s: State, x: nat)
    requires AllKnown(s) && x in s.rqs && s.rqs[x].dir in s.queues && ServiceOk(s) && QueuesOk(s, s.rqs[x].dir, {x})
    requires x !in s.queues[s.rqs[x].dir].sort
    ensures var q, t := s.rqs[x].dir, ClearSector(c, s, x);
            && ServiceOk(t) && QueuesOk(t, q, {x}) && OnlyQueue(s, t, q) && x !in Elems(t.queues[q].sort)
            && (x in Elems(t.queues[q].fifo) <==> x in Elems(s.queues[q].fifo))
    decreases |s.queues[s.rqs[x].dir].sort|
  {
    hide DispatchInsert, Place, ServiceOk, QueueOk;
    var q := s.rqs[x].dir;
    match Find(s.rqs, q, s.queues[q].sort, s.rqs[x].sector)
    case Some(alias) =>
      var t := DispatchInsert(c, s, alias);
      RemovedKnown(c, s, alias);
      DispatchOk(c, s, alias, {x});
      assert x !in t.queues[q].sort by { assert x !in Elems(t.queues[q].sort); }
      ClearOk(c, t, x);
      assert ClearSector(c, s, x) == ClearSector(c, t, x);
    case None =>
      assert s.queues == s.queues[q := s.queues[q]];
  }

  /** x has been inserted into the sort list, and the queue is on the service tree. */
  lemma InsertedQueue(c: Config, s: State, q: nat, x: nat, r: Queue, next: Option<nat>)
    requires q in s.queues && x in s.rqs && s.rqs[x].dir == q && QueueOk(s.rqs, q, s.queues[q], {x})
             && x !in Elems(s.queues[q].sort)
    requires Find(s.rqs, q, s.queues[q].sort, s.rqs[x].sector).None?
    requires r == InsertSort(s, q, x).queues[q].(onRr := true, next := next, key := r.key)
    requires next == Some(x) || (next.Some? && next == s.queues[q].next)
    ensures QueueOk(s.rqs, q, r, {x}) && x in Elems(r.sort) && next.value in Elems(r.sort)
  {
    InsertTree(s.rqs, q, s.queues[q].sort, x);
    hide Sorted, Find, Place, Distinct;
  }

  lemma AddRqRbOk(c: Config, s: State, x: nat, key: int, shape: seq<nat> -> Tree)
    requires AllKnown(s) && x in s.rqs && s.rqs[x].dir in s.queues && ServiceOk(s) && QueuesOk(s, s.rqs[x].dir, {x})
    requires x !in s.queues[s.rqs[x].dir].sort && Balances(shape)
    ensures var q, t := s.rqs[x].dir, AddRqRb(c, s, x, key, shape);
            && ServiceOk(t) && QueuesOk(t, q, {x}) && OnlyQueue(s, t, q)
            && x in Elems(t.queues[q].sort) && t.queues[q].next.Some?
            && t.queues[q].next.value in Elems(t.queues[q].sort)
            && (x in Elems(t.queues[q].fifo) <==> x in Elems(s.queues[q].fifo))
  {
    hide ServiceOk, QueueOk, Place, Find, AddRr, ClearSector, Choose;
    var q := s.rqs[x].dir;
    ClearKnown(c, s, x);
    ClearOk(c, s, x);
    var e := ClearSector(c, s, x);
    NextIn(e, q, x);
    var f := InsertSort(e, q, x);
    SameService(e, f, q);
    if !f.queues[q].onRr { AddRrOk(f, q, key, shape); }
    var g := if !f.queues[q].onRr then AddRr(f, q, key, shape) else f;
    ChooseOne(c, g, g.queues[q].next, x);
    var next := Choose(c, g, g.queues[q].next, Some(x));
    var t := AddRqRb(c, s, x, key, shape);
    assert t == g.(queues := g.queues[q := g.queues[q].(next := next)]);
    SameService(g, t, q);
    InsertedQueue(c, e, q, x, t.queues[q], next);
    OthersOk(e, t, q, {x});
  }

  lemma ChooseOne(c: Config, s: State, a: Option<nat>, x: nat)
    requires x in s.rqs && (a.Some? ==> a.value in s.rqs)
    ensures var r := Choose(c, s, a, Some(x)); r == Some(x) || (r.Some? && r == a)
  {
    hide First;
  }

  lemma NextIn(s: State, q: nat, x: nat)
    requires QueuesOk(s, q, {x}) && q in s.queues && x in s.rqs
    ensures QueueOk(s.rqs, q, s.queues[q], {x}) && (s.queues[q].next.Some? ==> s.queues[q].next.value in s.rqs)
  {
  }

  // ---- the operations ----

  /** cfq_get_queue makes a queue without requests. */
  function NewQueue(s: State, q: nat, kind: Class): State {
    s.(queues := s.queues[q := Queue([], [], None, false, 0, kind)])
  }

  /** cfq_insert_request */
  function Insert(c: Config, s: State, x: nat, rq: Rq<nat>, key: int, shape: seq<nat> -> Tree): State
    requires AllKnown(s) && x !in s.rqs && rq.dir in s.queues
  {
    var s := AddRqRb(c, s.(rqs := s.rqs[x := rq]), x, key, shape);
    s.(queues := s.queues[rq.dir := s.queues[rq.dir].(fifo := s.queues[rq.dir].fifo + [x])])
  }

  /** cfq_reposition_rq_rb, after a bio of n sectors was put in front. */
  function FrontMerge(c: Config, s: State, x: nat, n: nat, key: int, shape: seq<nat> -> Tree): State
    requires AllKnown(s) && Queued(s, x) && n <= s.rqs[x].sector
  {
    var q := s.rqs[x].dir;
    var rq := s.rqs[x].(sector := s.rqs[x].sector - n, sectors := s.rqs[x].sectors + n);
    WithoutSubset(s.queues[q].sort, x);
    AddRqRb(c, s.(rqs := s.rqs[x := rq], queues := s.queues[q := s.queues[q].(sort := Without(s.queues[q].sort, x))]),
            x, key, shape)
  }

  function BackMerge(s: State, x: nat, n: nat): State
    requires x in s.rqs
  {
    s.(rqs := s.rqs[x := s.rqs[x].(sectors := s.rqs[x].sectors + n)])
  }

  /** cfq_merged_requests: `older` says that y was queued before x. */
  function MergeRequests(c: Config, s: State, x: nat, y: nat, older: bool): State
    requires AllKnown(s) && x != y && Queued(s, x) && Queued(s, y) && s.rqs[x].dir == s.rqs[y].dir
  {
    var q := s.rqs[x].dir;
    var f := s.queues[q].fifo;
    var f := if older && x in f && y in f then MoveBehind(f, x, y) else f;
    var s := s.(queues := s.queues[q := s.queues[q].(fifo := f)]);
    var s := Remove(c, s, y).(gone := s.gone + {y});
    s.(rqs := s.rqs[x := s.rqs[x].(sectors := s.rqs[x].sectors + s.rqs[y].sectors)])
  }

  // ---- every operation keeps the agreement ----

  lemma AgreesQueues(s: State, q: nat)
    ensures Agrees(s) <==> ServiceOk(s) && QueuesOk(s, q, {})
  {
    hide QueueOk, ServiceOk;
  }

  /** Nothing is on its way any more. */
  lemma Closed(s: State, q: nat, x: nat)
    requires ServiceOk(s) && QueuesOk(s, q, {x}) && q in s.queues
    requires var r := s.queues[q];
             x in Elems(r.sort) && x in Elems(r.fifo) && r.next.Some? && r.next.value in Elems(r.sort)
    ensures Agrees(s)
  {
    hide Sorted, Distinct, ServiceOk;
    var r := s.queues[q];
    assert QueueOk(s.rqs, q, r, {x});
    assert Elems(r.sort) == (Elems(r.sort) - {x}) + {x} && Elems(r.fifo) == (Elems(r.fifo) - {x}) + {x};
    assert r.sort != [];
    assert QueueOk(s.rqs, q, r, {});
    AgreesQueues(s, q);
    hide QueueOk;
  }

  lemma NewQueueOk(s: State, q: nat, kind: Class)
    requires Agrees(s) && q !in s.queues
    ensures Agrees(NewQueue(s, q, kind))
  {
    hide Elems, Sorted;
    assert Elems<nat>([]) == {} by { EmptyElems(); }
    assert Sorted(s.rqs, q, []) by { EmptySorted(s.rqs, q); }
  }

  lemma EmptyElems()
    ensures Elems<nat>([]) == {}
  {
  }

  lemma EmptySorted(rqs: Requests, q: nat)
    ensures Sorted(rqs, q, [])
  {
  }

  /** A queue does not notice a change of x unless x's sector in its own sort list changes. */
  lemma QueueChange(rqs: Requests, rqs': Requests, q: nat, r: Queue, hole: set<nat>, x: nat)
    requires QueueOk(rqs, q, r, hole) && rqs'.Keys >= rqs.Keys && forall y :: y in rqs && y != x ==> rqs'[y] == rqs[y]
    requires x in r.sort ==> rqs'[x].sector == rqs[x].sector && rqs'[x].dir == rqs[x].dir
    ensures QueueOk(rqs', q, r, hole)
  {
    assert forall i :: 0 <= i < |r.sort| ==> r.sort[i] in r.sort;
  }

  /** A new request is nowhere yet. */
  lemma NewRequest(s: State, x: nat, rq: Rq<nat>, t: State)
    requires Agrees(s) && x !in s.rqs && rq.dir in s.queues && t == s.(rqs := s.rqs[x := rq])
    ensures ServiceOk(t) && QueuesOk(t, rq.dir, {x}) && x !in t.queues[rq.dir].sort
            && x !in Elems(t.queues[rq.dir].fifo)
  {
    hide Sorted, Distinct;
    forall r | r in s.queues ensures QueueOk(t.rqs, r, t.queues[r], {}) && QueueOk(t.rqs, r, t.queues[r], {x}) {
      assert QueueOk(s.rqs, r, s.queues[r], {});
      SortedKnown(s.rqs, r, s.queues[r].sort);
      QueueChange(s.rqs, t.rqs, r, s.queues[r], {}, x);
      Wider(t.rqs, r, t.queues[r], x);
    }
    var r := s.queues[rq.dir];
    SortedKnown(s.rqs, rq.dir, r.sort);
    NoneHole(r);
  }

  lemma SortedKnown(rqs: Requests, q: nat, t: seq<nat>)
    requires Sorted(rqs, q, t)
    ensures forall y :: y in t ==> y in rqs
    ensures forall y :: y in Elems(t) ==> y in rqs
  {
  }

  lemma NoneHole(r: Queue)
    requires Elems(r.sort) - {} == Elems(r.fifo) - {}
    ensures Elems(r.sort) == Elems(r.fifo)
  {
    assert Elems(r.sort) - {} == Elems(r.sort) && Elems(r.fifo) - {} == Elems(r.fifo);
  }

  lemma Wider(rqs: Requests, q: nat, r: Queue, x: nat)
    requires QueueOk(rqs, q, r, {})
    ensures QueueOk(rqs, q, r, {x})
  {
    NoneHole(r);
    hide Sorted, Distinct;
  }

  lemma InsertOk(c: Config, s: State, x: nat, rq: Rq<nat>, key: int, shape: seq<nat> -> Tree)
    requires Agrees(s) && x !in s.rqs && rq.dir in s.queues && AllKnown(s) && Balances(shape)
    ensures Agrees(Insert(c, s, x, rq, key, shape))
  {
    hide ServiceOk, QueueOk, AddRqRb;
    var q := rq.dir;
    var t := s.(rqs := s.rqs[x := rq]);
    NewRequest(s, x, rq, t);
    QueuesKnown(t, q, {x});
    AddRqRbOk(c, t, x, key, shape);
    var u := AddRqRb(c, t, x, key, shape);
    var v := Insert(c, s, x, rq, key, shape);
    assert QueueOk(u.rqs, q, u.queues[q], {x});
    AppendOk(u, q, x, v);
  }

  /** list_add_tail */
  lemma AppendOk(s: State, q: nat, x: nat, t: State)
    requires ServiceOk(s) && QueuesOk(s, q, {x}) && q in s.queues && x !in Elems(s.queues[q].fifo)
    requires var r := s.queues[q]; x in Elems(r.sort) && r.next.Some? && r.next.value in Elems(r.sort)
    requires t == s.(queues := s.queues[q := s.queues[q].(fifo := s.queues[q].fifo + [x])])
    ensures Agrees(t)
  {
    hide Sorted, ServiceOk;
    var r := s.queues[q];
    assert QueueOk(s.rqs, q, r, {x});
    ElemsAppend(r.fifo, [x]);
    assert Elems([x]) == {x};
    assert QueueOk(s.rqs, q, t.queues[q], {x});
    hide QueueOk;
    OthersOk(s, t, q, {x});
    SameService(s, t, q);
    Closed(t, q, x);
  }

  /** elv_rb_del, with the request's new sector. */
  lemma TakenOut(s: State, q: nat, x: nat, t: State)
    requires Agrees(s) && Queued(s, x) && s.rqs[x].dir == q && x in t.rqs && t.rqs == s.rqs[x := t.rqs[x]]
             && t.rqs[x].dir == q
    requires t == s.(rqs := t.rqs, queues := s.queues[q := s.queues[q].(sort := Without(s.queues[q].sort, x))])
    ensures ServiceOk(t) && QueuesOk(t, q, {x}) && x !in t.queues[q].sort && x in Elems(t.queues[q].fifo)
  {
    hide Distinct, Without, Sorted;
    var r := s.queues[q];
    assert QueueOk(s.rqs, q, r, {});
    NoneHole(r);
    assert x in Elems(r.sort);
    RemoveTree(s.rqs, q, r.sort, x);
    var u := Without(r.sort, x);
    assert x !in u by { assert x !in Elems(u); }
    SortedChange(s.rqs, t.rqs, q, u, x);
    assert QueueOk(t.rqs, q, t.queues[q], {x});
    hide QueueOk;
    forall e | e in t.queues && e != q ensures QueueOk(t.rqs, e, t.queues[e], {}) {
      OtherQueue(s, e, x);
      QueueChange(s.rqs, t.rqs, e, s.queues[e], {}, x);
    }
  }

  lemma SortedChange(rqs: Requests, rqs': Requests, q: nat, t: seq<nat>, x: nat)
    requires Sorted(rqs, q, t) && x !in t && forall y :: y in rqs && y != x ==> y in rqs' && rqs'[y] == rqs[y]
    ensures Sorted(rqs', q, t)
  {
    assert forall i :: 0 <= i < |t| ==> t[i] in t;
  }

  lemma OtherQueue(s: State, e: nat, x: nat)
    requires Agrees(s) && e in s.queues && x in s.rqs && s.rqs[x].dir != e
    ensures QueueOk(s.rqs, e, s.queues[e], {}) && x !in s.queues[e].sort
  {
  }

  lemma FrontMergeOk(c: Config, s: State, x: nat, n: nat, key: int, shape: seq<nat> -> Tree)
    requires Agrees(s) && AllKnown(s) && Queued(s, x) && n <= s.rqs[x].sector && Balances(shape)
    ensures Agrees(FrontMerge(c, s, x, n, key, shape))
  {
    hide ServiceOk, QueueOk, AddRqRb, Without;
    var q := s.rqs[x].dir;
    var rq := s.rqs[x].(sector := s.rqs[x].sector - n, sectors := s.rqs[x].sectors + n);
    var t := s.(rqs := s.rqs[x := rq], queues := s.queues[q := s.queues[q].(sort := Without(s.queues[q].sort, x))]);
    TakenOut(s, q, x, t);
    QueuesKnown(t, q, {x});
    AddRqRbOk(c, t, x, key, shape);
    Closed(AddRqRb(c, t, x, key, shape), q, x);
  }

  lemma BackMergeOk(s: State, x: nat, n: nat)
    requires Agrees(s) && x in s.rqs
    ensures Agrees(BackMerge(s, x, n))
  {
    hide QueueOk;
    var t := BackMerge(s, x, n);
    forall q | q in t.queues ensures QueueOk(t.rqs, q, t.queues[q], {}) {
      QueueChange(s.rqs, t.rqs, q, s.queues[q], {}, x);
    }
  }

  lemma FifoMoved(s: State, q: nat, f: seq<nat>, t: State)
    requires Agrees(s) && q in s.queues && Distinct(f) && Elems(f) == Elems(s.queues[q].fifo)
    requires t == s.(queues := s.queues[q := s.queues[q].(fifo := f)])
    ensures Agrees(t)
  {
    hide Sorted, Elems, ServiceOk;
    assert QueueOk(s.rqs, q, s.queues[q], {});
    assert QueueOk(t.rqs, q, t.queues[q], {});
    hide QueueOk;
    AgreesQueues(s, q);
    SameService(s, t, q);
    OthersOk(s, t, q, {});
    AgreesQueues(t, q);
  }

  lemma MergeOk(c: Config, s: State, x: nat, y: nat, older: bool)
    requires Agrees(s) && AllKnown(s) && x != y && Queued(s, x) && Queued(s, y) && s.rqs[x].dir == s.rqs[y].dir
    ensures Agrees(MergeRequests(c, s, x, y, older))
  {
    hide ServiceOk, QueueOk, Remove, MoveBehind, Elems, Distinct;
    var q := s.rqs[x].dir;
    var f := s.queues[q].fifo;
    var g := if older && x in f && y in f then MoveBehind(f, x, y) else f;
    FifoDistinct(s, q);
    if older && x in f && y in f { MoveBehindElems(f, x, y); }
    var t := s.(queues := s.queues[q := s.queues[q].(fifo := g)]);
    FifoMoved(s, q, g, t);
    AgreesQueues(t, q);
    RemoveOk(c, t, y, {});
    var u := Remove(c, t, y);
    AgreesQueues(u, q);
    Forget(u, y);
    BackMergeOk(u.(gone := s.gone + {y}), x, s.rqs[y].sectors);
  }

  lemma FifoDistinct(s: State, q: nat)
    requires Agrees(s) && q in s.queues
    ensures Distinct(s.queues[q].fifo)
  {
    assert QueueOk(s.rqs, q, s.queues[q], {});
    hide Sorted, Distinct, Elems;
  }

  lemma Forget(s: State, y: nat)
    requires Agrees(s)
    ensures Agrees(s.(gone := s.gone + {y}))
  {
    hide QueueOk;
  }

  lemma DispatchAgrees(c: Config, s: State, x: nat)
    requires Agrees(s) && AllKnown(s) && Queued(s, x)
    ensures Agrees(DispatchInsert(c, s, x))
  {
    hide ServiceOk, QueueOk, DispatchInsert, Elems;
    AgreesQueues(s, s.rqs[x].dir);
    DispatchOk(c, s, x, {});
    AgreesQueues(DispatchInsert(c, s, x), s.rqs[x].dir);
  }

  /** Key and class do not matter to the agreement. */
  lemma SameButKey(s: State, t: State, q: nat)
    requires Agrees(s) && OnlyQueue(s, t, q) && ServiceOk(t)
    requires t.queues[q] == s.queues[q].(key := t.queues[q].key, kind := t.queues[q].kind)
    ensures Agrees(t)
  {
    hide Sorted, Elems, Distinct, ServiceOk;
    assert QueueOk(s.rqs, q, s.queues[q], {});
    assert QueueOk(t.rqs, q, t.queues[q], {});
    hide QueueOk;
    AgreesQueues(s, q);
    OthersOk(s, t, q, {});
    AgreesQueues(t, q);
  }

  lemma ResortAgrees(s: State, q: nat, key: int, shape: seq<nat> -> Tree)
    requires Agrees(s) && q in s.queues && s.queues[q].onRr && Balances(shape)
    ensures Agrees(ServiceAdd(s, q, key, shape))
  {
    hide QueueOk, ServiceAdd, Elems;
    ResortOk(s, q, key, shape);
    ServiceAddOk(s, q, key, shape);
    SameButKey(s, ServiceAdd(s, q, key, shape), q);
  }

  /** cfq_prio_boost and cfq_init_prio_data change the class in place. */
  function Reclass(s: State, q: nat, kind: Class): State
    requires q in s.queues
  {
    s.(queues := s.queues[q := s.queues[q].(kind := kind)])
  }

  lemma ReclassAgrees(s: State, q: nat, kind: Class)
    requires Agrees(s) && q in s.queues
    ensures Agrees(Reclass(s, q, kind))
  {
    hide QueueOk;
    SameService(s, Reclass(s, q, kind), q);
    SameButKey(s, Reclass(s, q, kind), q);
  }

  // ---- every request is in one place ----

  /** The requests in some sort list. */
  ghost function AllQueued(s: State): set<nat> { set q, x | q in s.queues && x in s.queues[q].sort :: x }

  /** Every request is queued, has been dispatched once, or was merged away; a request on its
      way in is in `hole`. */
  ghost predicate PlacesOk(s: State, hole: set<nat>) {
    && Distinct(s.out)
    && s.rqs.Keys == AllQueued(s) + Elems(s.out) + s.gone + hole
    && AllQueued(s) !! Elems(s.out) !! s.gone !! hole
  }

  lemma PlacesSame(s: State, t: State, hole: set<nat>)
    requires PlacesOk(s, hole) && t.rqs.Keys == s.rqs.Keys && t.out == s.out && t.gone == s.gone
    requires forall q :: q in s.queues ==> q in t.queues && t.queues[q].sort == s.queues[q].sort
    requires forall q :: q in t.queues && q !in s.queues ==> t.queues[q].sort == []
    ensures PlacesOk(t, hole)
  {
    assert AllQueued(t) == AllQueued(s);
    hide AllQueued, Elems, Distinct;
  }

  /** x is in no sort list but that of its queue. */
  lemma LeavesList(s: State, t: State, q: nat, x: nat)
    requires AllKnown(s) && OnlyQueue(s, t, q) && x in s.queues[q].sort
    requires Elems(t.queues[q].sort) == Elems(s.queues[q].sort) - {x}
    ensures x in AllQueued(s) && AllQueued(t) == AllQueued(s) - {x}
  {
    forall y ensures y in AllQueued(t) <==> y in AllQueued(s) && y != x {
      InList(s, t, q, y);
    }
  }

  lemma InList(s: State, t: State, q: nat, y: nat)
    requires OnlyQueue(s, t, q)
    ensures y in AllQueued(s) <==>
            y in Elems(s.queues[q].sort) || exists r :: r in s.queues && r != q && y in s.queues[r].sort
    ensures y in AllQueued(t) <==>
            y in Elems(t.queues[q].sort) || exists r :: r in s.queues && r != q && y in s.queues[r].sort
  {
    forall r | r != q ensures (r in t.queues <==> r in s.queues) && (r in s.queues ==> t.queues[r] == s.queues[r]) {
    }
  }

  lemma EntersList(s: State, t: State, q: nat, x: nat)
    requires OnlyQueue(s, t, q) && Elems(t.queues[q].sort) == Elems(s.queues[q].sort) + {x}
    ensures AllQueued(t) == AllQueued(s) + {x}
  {
    forall y ensures y in AllQueued(t) <==> y in AllQueued(s) || y == x {
      InList(s, t, q, y);
    }
  }

  lemma DispatchPlaces(c: Config, s: State, x: nat, hole: set<nat>)
    requires AllKnown(s) && Queued(s, x) && x !in hole && ServiceOk(s) && QueuesOk(s, s.rqs[x].dir, hole)
    requires PlacesOk(s, hole)
    ensures PlacesOk(DispatchInsert(c, s, x), hole)
  {
    DispatchOk(c, s, x, hole);
    var t := DispatchInsert(c, s, x);
    hide DispatchInsert, ServiceOk, QueueOk;
    LeavesList(s, t, s.rqs[x].dir, x);
    MovesOut(s, t, x, hole);
  }

  lemma MovesOut(s: State, t: State, x: nat, hole: set<nat>)
    requires PlacesOk(s, hole) && x in AllQueued(s) && AllQueued(t) == AllQueued(s) - {x}
    requires t.rqs == s.rqs && t.gone == s.gone && t.out == s.out + [x]
    ensures PlacesOk(t, hole)
  {
    hide AllQueued;
    ElemsAppend(s.out, [x]);
    assert Elems([x]) == {x};
    assert x !in Elems(s.out);
  }

  /** The requests that are dispatched to make room are placed, too. */
  lemma {:induction false} ClearPlaces(c: Config, s: State, x: nat)
    requires AllKnown(s) && x in s.rqs && s.rqs[x].dir in s.queues && ServiceOk(s) && QueuesOk(s, s.rqs[x].dir, {x})
    requires x !in s.queues[s.rqs[x].dir].sort && PlacesOk(s, {x})
    ensures PlacesOk(ClearSector(c, s, x), {x})
    decreases |s.queues[s.rqs[x].dir].sort|
  {
    hide DispatchInsert, Place, ServiceOk, QueueOk, PlacesOk;
    var q := s.rqs[x].dir;
    match Find(s.rqs, q, s.queues[q].sort, s.rqs[x].sector)
    case Some(alias) =>
      var t := DispatchInsert(c, s, alias);
      RemovedKnown(c, s, alias);
      DispatchOk(c, s, alias, {x});
      DispatchPlaces(c, s, alias, {x});
      assert x !in t.queues[q].sort by { assert x !in Elems(t.queues[q].sort); }
      ClearPlaces(c, t, x);
    case None =>
  }

  /** cfq_add_rq_rb places x in its sort list. */
  lemma AddRqRbPlaces(c: Config, s: State, x: nat, key: int, shape: seq<nat> -> Tree)
    requires AllKnown(s) && x in s.rqs && s.rqs[x].dir in s.queues && ServiceOk(s) && QueuesOk(s, s.rqs[x].dir, {x})
    requires x !in s.queues[s.rqs[x].dir].sort && Balances(shape) && PlacesOk(s, {x})
    ensures PlacesOk(AddRqRb(c, s, x, key, shape), {})
  {
    hide ServiceOk, QueueOk, Place, Find, AddRr, ClearSector, Choose, PlacesOk;
    var q := s.rqs[x].dir;
    ClearKnown(c, s, x);
    ClearOk(c, s, x);
    ClearPlaces(c, s, x);
    var e := ClearSector(c, s, x);
    NextIn(e, q, x);
    var f := InsertSort(e, q, x);
    SameService(e, f, q);
    QueueSorted(e.rqs, q, e.queues[q], {x});
    InsertedElems(e, q, x);
    if !f.queues[q].onRr { AddRrOk(f, q, key, shape); }
    var t := AddRqRb(c, s, x, key, shape);
    EntersList(e, t, q, x);
    Arrives(e, t, x);
  }

  lemma QueueSorted(rqs: Requests, q: nat, r: Queue, hole: set<nat>)
    requires QueueOk(rqs, q, r, hole)
    ensures Sorted(rqs, q, r.sort)
  {
  }

  lemma InsertedElems(s: State, q: nat, x: nat)
    requires q in s.queues && x in s.rqs && s.rqs[x].dir == q && Sorted(s.rqs, q, s.queues[q].sort)
    requires Find(s.rqs, q, s.queues[q].sort, s.rqs[x].sector).None?
    ensures var t := InsertSort(s, q, x); OnlyQueue(s, t, q) && Elems(t.queues[q].sort) == Elems(s.queues[q].sort) + {x}
  {
    InsertTree(s.rqs, q, s.queues[q].sort, x);
    hide Sorted, Find, Place, Elems;
  }

  lemma Arrives(s: State, t: State, x: nat)
    requires PlacesOk(s, {x}) && AllQueued(t) == AllQueued(s) + {x}
    requires t.rqs == s.rqs && t.gone == s.gone && t.out == s.out
    ensures PlacesOk(t, {})
  {
    hide AllQueued, Elems, Distinct;
  }

  lemma InsertPlaces(c: Config, s: State, x: nat, rq: Rq<nat>, key: int, shape: seq<nat> -> Tree)
    requires Agrees(s) && x !in s.rqs && rq.dir in s.queues && AllKnown(s) && Balances(shape) && PlacesOk(s, {})
    ensures PlacesOk(Insert(c, s, x, rq, key, shape), {})
  {
    hide ServiceOk, QueueOk, AddRqRb;
    var t := s.(rqs := s.rqs[x := rq]);
    NewRequest(s, x, rq, t);
    QueuesKnown(t, rq.dir, {x});
    NewPlace(s, x, t);
    hide PlacesOk;
    AddRqRbOk(c, t, x, key, shape);
    AddRqRbPlaces(c, t, x, key, shape);
    PlacesSame(AddRqRb(c, t, x, key, shape), Insert(c, s, x, rq, key, shape), {});
  }

  lemma NewPlace(s: State, x: nat, t: State)
    requires PlacesOk(s, {}) && x !in s.rqs && x in t.rqs && t == s.(rqs := s.rqs[x := t.rqs[x]])
    ensures PlacesOk(t, {x})
  {
    assert AllQueued(t) == AllQueued(s);
    hide AllQueued, Elems, Distinct;
  }

  lemma FrontMergePlaces(c: Config, s: State, x: nat, n: nat, key: int, shape: seq<nat> -> Tree)
    requires Agrees(s) && AllKnown(s) && Queued(s, x) && n <= s.rqs[x].sector && Balances(shape) && PlacesOk(s, {})
    ensures PlacesOk(FrontMerge(c, s, x, n, key, shape), {})
  {
    hide ServiceOk, QueueOk, AddRqRb, Without, PlacesOk, Elems, Distinct;
    var q := s.rqs[x].dir;
    var rq := s.rqs[x].(sector := s.rqs[x].sector - n, sectors := s.rqs[x].sectors + n);
    var t := s.(rqs := s.rqs[x := rq],
                queues := s.queues[q := s.queues[q].(sort := Without(s.queues[q].sort, x))]);
    TakenOut(s, q, x, t);
    QueuesKnown(t, q, {x});
    TakenPlaces(s, q, x, t);
    AddRqRbPlaces(c, t, x, key, shape);
  }

  lemma TakenPlaces(s: State, q: nat, x: nat, t: State)
    requires Agrees(s) && AllKnown(s) && Queued(s, x) && s.rqs[x].dir == q && PlacesOk(s, {})
    requires x in t.rqs && t.rqs == s.rqs[x := t.rqs[x]]
    requires t == s.(rqs := t.rqs, queues := s.queues[q := s.queues[q].(sort := Without(s.queues[q].sort, x))])
    ensures PlacesOk(t, {x})
  {
    var u := s.(queues := t.queues);
    SortedWithout(s, q, x);
    hide Elems, Distinct, Without, QueueOk, ServiceOk;
    LeavesList(s, u, q, x);
    assert AllQueued(t) == AllQueued(u) && t.rqs.Keys == s.rqs.Keys;
    hide AllQueued;
  }

  lemma SortedWithout(s: State, q: nat, x: nat)
    requires Agrees(s) && q in s.queues && x in s.queues[q].sort
    ensures Elems(Without(s.queues[q].sort, x)) == Elems(s.queues[q].sort) - {x}
  {
    assert QueueOk(s.rqs, q, s.queues[q], {});
    RemoveTree(s.rqs, q, s.queues[q].sort, x);
    hide Sorted, Distinct, Without;
  }

  lemma MergePlaces(c: Config, s: State, x: nat, y: nat, older: bool)
    requires Agrees(s) && AllKnown(s) && x != y && Queued(s, x) && Queued(s, y) && s.rqs[x].dir == s.rqs[y].dir
    requires PlacesOk(s, {})
    ensures PlacesOk(MergeRequests(c, s, x, y, older), {})
  {
    hide ServiceOk, QueueOk, Remove, MoveBehind, Elems, Distinct, PlacesOk;
    var q := s.rqs[x].dir;
    var f := s.queues[q].fifo;
    var g := if older && x in f && y in f then MoveBehind(f, x, y) else f;
    FifoDistinct(s, q);
    if older && x in f && y in f { MoveBehindElems(f, x, y); }
    var t := s.(queues := s.queues[q := s.queues[q].(fifo := g)]);
    FifoMoved(s, q, g, t);
    PlacesSame(s, t, {});
    AgreesQueues(t, q);
    RemoveOk(c, t, y, {});
    var u := Remove(c, t, y);
    LeavesList(t, u, q, y);
    var v := MergeRequests(c, s, x, y, older);
    assert v == u.(gone := s.gone + {y}, rqs := v.rqs);
    MergesAway(t, u, v, y);
  }

  lemma MergesAway(s: State, u: State, t: State, y: nat)
    requires PlacesOk(s, {}) && y in AllQueued(s) && AllQueued(u) == AllQueued(s) - {y} && t.queues == u.queues
    requires t.rqs.Keys == s.rqs.Keys && t.gone == s.gone + {y} && t.out == s.out
    ensures PlacesOk(t, {})
  {
    assert AllQueued(t) == AllQueued(u);
    hide AllQueued, Elems, Distinct;
  }

  ghost predicate Inv(s: State) { Agrees(s) && PlacesOk(s, {}) }

  // ---- runs ----

  datatype Event =
    | Create(q: nat, kind: Class)
    | Add(id: nat, rq: Rq<nat>, isSync: bool, isMeta: bool, key: int, shape: seq<nat> -> Tree)
    | GrowFront(id: nat, n: nat, key: int, shape: seq<nat> -> Tree)
    | GrowBack(id: nat, n: nat)
    | Join(id: nat, other: nat, older: bool)
    | Move(id: nat)
    | Resort(q: nat, key: int, shape: seq<nat> -> Tree)
    | Boost(q: nat, kind: Class)
    | Peek
    | Seek(position: nat)

  /** elv_rb_latter_request only offers requests of the same sort list for a merge, and only
      a queue that is on_rr is resorted. */
  ghost predicate Enabled(s: State, e: Event) {
    match e
    case Create(q, _) => q !in s.queues
    case Add(x, rq, _, _, _, shape) => x !in s.rqs && rq.dir in s.queues && Balances(shape)
    case GrowFront(x, n, _, shape) => Queued(s, x) && n <= s.rqs[x].sector && Balances(shape)
    case GrowBack(x, _) => Queued(s, x)
    case Join(x, y, _) => x != y && Queued(s, x) && Queued(s, y) && s.rqs[x].dir == s.rqs[y].dir
    case Move(x) => Queued(s, x)
    case Resort(q, _, shape) => q in s.queues && s.queues[q].onRr && Balances(shape)
    case Boost(q, _) => q in s.queues
    case Peek => true
    case Seek(_) => true
  }

  function Flagged(s: State, x: nat, isSync: bool, isMeta: bool): State {
    s.(sync := if isSync then s.sync + {x} else s.sync, meta := if isMeta then s.meta + {x} else s.meta)
  }

  ghost function Step(c: Config, s: State, e: Event): State
    requires AllKnown(s) && Enabled(s, e)
  {
    match e
    case Create(q, kind) => NewQueue(s, q, kind)
    case Add(x, rq, isSync, isMeta, key, shape) => Insert(c, Flagged(s, x, isSync, isMeta), x, rq, key, shape)
    case GrowFront(x, n, key, shape) => FrontMerge(c, s, x, n, key, shape)
    case GrowBack(x, n) => BackMerge(s, x, n)
    case Join(x, y, older) => MergeRequests(c, s, x, y, older)
    case Move(x) => DispatchInsert(c, s, x)
    case Resort(q, key, shape) => ServiceAdd(s, q, key, shape)
    case Boost(q, kind) => Reclass(s, q, kind)
    case Peek => s.(left := FirstQueue(s))
    case Seek(position) => s.(last := position)
  }

  lemma InvKnown(s: State)
    requires Agrees(s)
    ensures AllKnown(s)
  {
    AgreesQueues(s, 0);
    QueuesKnown(s, 0, {});
    hide QueueOk, AllKnown;
  }

  lemma FlagsAgree(s: State, t: State)
    requires Agrees(s) && t == s.(sync := t.sync, meta := t.meta, last := t.last)
    ensures Agrees(t)
  {
    hide QueueOk;
  }

  lemma PeekAgrees(s: State)
    requires Agrees(s)
    ensures Agrees(s.(left := FirstQueue(s)))
  {
    hide QueueOk;
  }

  lemma StepAgrees(c: Config, s: State, e: Event)
    requires Agrees(s) && Enabled(s, e)
    ensures AllKnown(s) && Agrees(Step(c, s, e))
  {
    InvKnown(s);
    hide Agrees, AllKnown, NewQueue, Insert, FrontMerge, BackMerge, MergeRequests, DispatchInsert, ServiceAdd,
         Reclass, FirstQueue, Balances;
    match e
    case Create(q, kind) => NewQueueOk(s, q, kind);
    case Add(x, rq, isSync, isMeta, key, shape) =>
      var t := Flagged(s, x, isSync, isMeta);
      FlagsAgree(s, t);
      InvKnown(t);
      InsertOk(c, t, x, rq, key, shape);
    case GrowFront(x, n, key, shape) => FrontMergeOk(c, s, x, n, key, shape);
    case GrowBack(x, n) => BackMergeOk(s, x, n);
    case Join(x, y, older) => MergeOk(c, s, x, y, older);
    case Move(x) => DispatchAgrees(c, s, x);
    case Resort(q, key, shape) => ResortAgrees(s, q, key, shape);
    case Boost(q, kind) => ReclassAgrees(s, q, kind);
    case Peek => PeekAgrees(s);
    case Seek(position) => FlagsAgree(s, s.(last := position));
  }

  lemma StepPlaces(c: Config, s: State, e: Event)
    requires Inv(s) && AllKnown(s) && Enabled(s, e)
    ensures PlacesOk(Step(c, s, e), {})
  {
    hide Agrees, AllKnown, PlacesOk, Insert, FrontMerge, MergeRequests, DispatchInsert, ServiceAdd, FirstQueue,
         Balances;
    match e
    case Create(q, kind) => PlacesSame(s, NewQueue(s, q, kind), {});
    case Add(x, rq, isSync, isMeta, key, shape) =>
      var t := Flagged(s, x, isSync, isMeta);
      FlagsAgree(s, t);
      InvKnown(t);
      PlacesSame(s, t, {});
      InsertPlaces(c, t, x, rq, key, shape);
    case GrowFront(x, n, key, shape) => FrontMergePlaces(c, s, x, n, key, shape);
    case GrowBack(x, n) => PlacesSame(s, BackMerge(s, x, n), {});
    case Join(x, y, older) => MergePlaces(c, s, x, y, older);
    case Move(x) => MovePlaces(c, s, x);
    case Resort(q, key, shape) => ResortPlaces(s, q, key, shape);
    case Boost(q, kind) => PlacesSame(s, Reclass(s, q, kind), {});
    case Peek => PlacesSame(s, s.(left := FirstQueue(s)), {});
    case Seek(position) => PlacesSame(s, s.(last := position), {});
  }

  lemma MovePlaces(c: Config, s: State, x: nat)
    requires Inv(s) && AllKnown(s) && Queued(s, x)
    ensures PlacesOk(DispatchInsert(c, s, x), {})
  {
    AgreesQueues(s, s.rqs[x].dir);
    hide ServiceOk, QueueOk, PlacesOk, DispatchInsert;
    DispatchPlaces(c, s, x, {});
  }

  lemma ResortPlaces(s: State, q: nat, key: int, shape: seq<nat> -> Tree)
    requires Inv(s) && q in s.queues && Balances(shape)
    ensures PlacesOk(ServiceAdd(s, q, key, shape), {})
  {
    ServiceAddOk(s, q, key, shape);
    hide ServiceAdd, QueueOk, PlacesOk;
    PlacesSame(s, ServiceAdd(s, q, key, shape), {});
  }

  /** What the methods that dispatch, resort and look at the first queue rely on. */
  lemma DispatchKeeps(c: Config, s: State, x: nat)
    requires Inv(s) && Queued(s, x)
    ensures AllKnown(s) && Inv(DispatchInsert(c, s, x))
  {
    InvKnown(s);
    hide Agrees, PlacesOk, DispatchInsert;
    DispatchAgrees(c, s, x);
    MovePlaces(c, s, x);
  }

  lemma ResortKeeps(s: State, q: nat, key: int, shape: seq<nat> -> Tree)
    requires Inv(s) && q in s.queues && s.queues[q].onRr && Balances(shape)
    ensures Inv(ServiceAdd(s, q, key, shape))
  {
    hide Agrees, PlacesOk, ServiceAdd;
    ResortAgrees(s, q, key, shape);
    ResortPlaces(s, q, key, shape);
  }

  lemma PeekKeeps(s: State)
    requires Inv(s)
    ensures Inv(s.(left := FirstQueue(s)))
  {
    hide Agrees, PlacesOk, FirstQueue;
    PeekAgrees(s);
    PlacesSame(s, s.(left := FirstQueue(s)), {});
  }

  lemma StepKeeps(c: Config, s: State, e: Event)
    requires Inv(s) && Enabled(s, e)
    ensures AllKnown(s) && Inv(Step(c, s, e))
  {
    hide Agrees, PlacesOk, AllKnown, Step, Enabled;
    StepAgrees(c, s, e);
    StepPlaces(c, s, e);
  }

  ghost predicate Reaches(c: Config, s: State, es: seq<Event>, t: State)
    decreases |es|
  {
    if es == [] then s == t else AllKnown(s) && Enabled(s, es[0]) && Reaches(c, Step(c, s, es[0]), es[1..], t)
  }

  function Initial(): State { State(map[], {}, {}, map[], [], None, 0, 0, [], {}) }

  lemma InitialInv()
    ensures Inv(Initial())
  {
  }

  /** Over every run the structures agree, and every request is in exactly one place. */
  lemma {:induction false} RunKeeps(c: Config, s: State, es: seq<Event>, t: State)
    requires Inv(s) && Reaches(c, s, es, t)
    ensures Inv(t)
    decreases |es|
  {
    hide Inv, Step, Enabled, AllKnown;
    if es != [] {
      StepKeeps(c, s, es[0]);
      RunKeeps(c, Step(c, s, es[0]), es[1..], t);
    }
  }

  /** What the agreement means for one queue: on_rr, the sort list, the service tree, the FIFO and
      next_rq agree. */
  lemma Agreement(s: State, q: nat)
    requires Agrees(s) && q in s.queues
    ensures var r := s.queues[q];
            && (r.onRr <==> r.sort != []) && (r.onRr <==> q in s.service) && (r.next.None? <==> r.sort == [])
            && Elems(r.sort) == Elems(r.fifo) && (r.next.Some? ==> r.next.value in r.sort)
    ensures s.busy == |s.service| && (s.left.Some? ==> s.service != [] && s.left.value == s.service[0])
    ensures s.service != [] ==> FirstQueue(s) == Some(s.service[0])
  {
    var r := s.queues[q];
    assert QueueOk(s.rqs, q, r, {});
    NoneHole(r);
    hide Sorted, Distinct;
  }
}
