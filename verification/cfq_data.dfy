/** cfq-iosched.c as it updates `struct cfq_data` in place: dispatching, with the checks that
    the BUG_ONs in it never fire. */
module CfqData {
  import opened Lists
  import opened SortedTree
  import opened Cfq
  import CfqRules

  class Data {
    var rqs: Requests
    var syncRqs: set<nat>
    var metaRqs: set<nat>
    var queues: map<nat, Queue>
    var service: seq<nat>
    var left: Option<nat>
    var busyQueues: nat
    var activeQueue: Option<nat>
    var lastPosition: nat
    var dispatched: seq<nat>
    var gone: set<nat>
    const config: Config

    function Abs(): State
      reads this
    {
      State(rqs, syncRqs, metaRqs, queues, service, left, busyQueues, lastPosition, dispatched, gone)
    }

    /** `cfq_init_queue` */
    constructor (c: Config)
      ensures config == c && Abs() == Initial() && Inv(Abs())
    {
      config := c;
      rqs, syncRqs, metaRqs, queues := map[], {}, {}, map[];
      service, left, busyQueues, activeQueue, lastPosition := [], None, 0, None, 0;
      dispatched, gone := [], {};
      new;
      InitialInv();
    }

    /** `cfq_rb_first`: fills the cache. */
    method RbFirst() returns (q: Option<nat>)
      modifies this`left
      ensures q == FirstQueue(old(Abs())) && Abs() == old(Abs()).(left := q)
    {
      if left.None? && service != [] { left := Some(service[0]); }
      q := left;
    }

    /** `cfq_rb_erase` */
    method RbErase(q: nat)
      modifies this`left, this`service
      ensures Abs() == Erase(old(Abs()), q)
    {
      if left == Some(q) { left := None; }
      service := Without(service, q);
    }

    /** `cfq_service_tree_add` */
    method ServiceTreeAdd(q: nat, key: int, shape: seq<nat> -> Tree)
      requires q in queues
      modifies this`left, this`service, this`queues
      ensures Abs() == ServiceAdd(old(Abs()), q, key, shape)
    {
      hide Link, Inorder, GoesLeft;
      if q in service {
        if key == queues[q].key { return; }
        RbErase(q);
      }
      var s := Abs();
      var walk := Link(shape(service), (other: nat) => GoesLeft(s, q, key, other), q);
      service := Inorder(walk.0);
      if walk.1 { left := Some(q); }
      queues := queues[q := queues[q].(key := key)];
    }

    /** `cfq_del_cfqq_rr` */
    method DelCfqqRr(q: nat)
      requires q in queues && queues[q].onRr && busyQueues > 0
      modifies this`left, this`service, this`queues, this`busyQueues
      ensures Abs() == DelRr(old(Abs()), q)
    {
      queues := queues[q := queues[q].(onRr := false)];
      if q in service { RbErase(q); }
      busyQueues := busyQueues - 1;
    }

    /** `cfq_remove_request`, `cfq_del_rq_rb` */
    method RemoveRequest(x: nat)
      requires Inv(Abs()) && Queued(Abs(), x)
      modifies this`left, this`service, this`queues, this`busyQueues
      ensures AllKnown(old(Abs())) && Abs() == Remove(config, old(Abs()), x)
    {
      InvKnown(Abs());
      hide FindNext, Without;
      var q := rqs[x].dir;
      BusyPositive(Abs(), q);
      var cfqq := queues[q];
      if cfqq.next == Some(x) {
        cfqq := cfqq.(next := FindNext(config, Abs(), cfqq.sort, x));
      }
      cfqq := cfqq.(fifo := Without(cfqq.fifo, x));
      cfqq := cfqq.(sort := Without(cfqq.sort, x));
      queues := queues[q := cfqq];
      if cfqq.onRr && cfqq.sort == [] { DelCfqqRr(q); }
    }

    /** `cfq_dispatch_insert` */
    method Dispatch(x: nat)
      requires Inv(Abs()) && Queued(Abs(), x)
      modifies this`left, this`service, this`queues, this`busyQueues, this`dispatched
      ensures AllKnown(old(Abs())) && Abs() == DispatchInsert(config, old(Abs()), x) && Inv(Abs())
    {
      InvKnown(Abs());
      DispatchKeeps(config, Abs(), x);
      hide Agrees, PlacesOk, Remove;
      RemoveRequest(x);
      dispatched := dispatched + [x];
    }

    /** `cfq_select_queue`; `sliceUsed` and `waiting` stand for the tests of the slice and of
        the idle timer, `grace` for the idle grace period.  The queue it returns has
        requests, so that the check in `__cfq_dispatch_requests` does not fail. */
    method SelectQueue(sliceUsed: bool, waiting: bool, grace: bool, key: int, shape: seq<nat> -> Tree)
        returns (r: Option<nat>)
      requires Inv(Abs()) && Balances(shape) && (activeQueue.Some? ==> activeQueue.value in queues)
      modifies this`left, this`service, this`queues, this`activeQueue
      ensures Inv(Abs()) && (activeQueue.Some? ==> activeQueue.value in queues)
      ensures r.Some? ==> r.value in queues && queues[r.value].sort != []
      ensures var active := old(activeQueue);
              if active.Some? && !sliceUsed && (old(queues[active.value].sort) != [] || waiting) then
                && r == (if old(queues[active.value].sort) != [] then active else None)
                && Abs() == old(Abs()) && activeQueue == active
              else
                && r == activeQueue && Elems(service) == Elems(old(service))
                && (CfqRules.InOrder(old(Abs())) ==> CfqRules.InOrder(Abs()))
                && r == if service == [] || (grace && queues[service[0]].kind == Idle) then None else Some(service[0])
    {
      hide Agrees, PlacesOk, QueueOk;
      if activeQueue.Some? && !sliceUsed {
        if queues[activeQueue.value].sort != [] { return activeQueue; }
        if waiting { return None; }
      }
      SliceExpired(key, shape);
      r := GetNextQueue(grace);
      activeQueue := r;
    }

    /** `cfq_slice_expired`: the active queue takes its new place. */
    method SliceExpired(key: int, shape: seq<nat> -> Tree)
      requires Inv(Abs()) && Balances(shape) && (activeQueue.Some? ==> activeQueue.value in queues)
      modifies this`left, this`service, this`queues, this`activeQueue
      ensures Inv(Abs()) && activeQueue == None && queues.Keys == old(queues.Keys)
      ensures Elems(service) == Elems(old(service))
      ensures forall q :: q in queues ==> queues[q].sort == old(queues[q].sort)
      ensures CfqRules.InOrder(old(Abs())) ==> CfqRules.InOrder(Abs())
      ensures var active := old(activeQueue);
              Abs() == if active.Some? && old(queues[active.value].onRr) then
                         ServiceAdd(old(Abs()), active.value, key, shape)
                       else old(Abs())
    {
      if activeQueue.Some? && queues[activeQueue.value].onRr {
        ResortKeeps(Abs(), activeQueue.value, key, shape);
        Agreement(Abs(), activeQueue.value);
        ServiceStays(Abs(), activeQueue.value, key, shape);
        ghost var s := Abs();
        if CfqRules.InOrder(s) { CfqRules.ServiceAddOrder(s, activeQueue.value, key, shape); }
        hide Agrees, PlacesOk, ServiceAdd, CfqRules.InOrder;
        ServiceTreeAdd(activeQueue.value, key, shape);
      }
      activeQueue := None;
    }

    /** `cfq_get_next_queue` */
    method GetNextQueue(grace: bool) returns (r: Option<nat>)
      requires Inv(Abs())
      modifies this`left
      ensures Inv(Abs())
      ensures r.Some? ==> r.value in queues && queues[r.value].sort != []
      ensures service == [] || service[0] in queues
      ensures r == if service == [] || (grace && queues[service[0]].kind == Idle) then None else Some(service[0])
      ensures Abs() == old(Abs()).(left := left)
    {
      PeekKeeps(Abs());
      FirstBusy(Abs());
      hide Agrees, PlacesOk, QueueOk;
      if service == [] { return None; }
      r := RbFirst();
      if queues[r.value].kind == Idle && grace { r := None; }
    }

    /** `__cfq_dispatch_requests`: `expired` says that the oldest request of the queue is
        served first.  At least one and at most `max` requests of the queue are dispatched,
        fewer only if no more are left. */
    method DispatchQueue(q: nat, max: nat, expired: bool) returns (count: nat)
      requires Inv(Abs()) && q in queues && queues[q].sort != []
      modifies this`left, this`service, this`queues, this`busyQueues, this`dispatched
      ensures Inv(Abs()) && q in queues && rqs == old(rqs) && queues.Keys == old(queues.Keys)
      ensures forall r :: r in queues && r != q ==> queues[r] == old(queues[r])
      ensures old(dispatched) <= dispatched && |dispatched| == |old(dispatched)| + count
      ensures Elems(dispatched[|old(dispatched)|..]) + Elems(queues[q].sort) == Elems(old(queues[q].sort))
      ensures 0 < count <= (if max > 0 then max else 1)
      ensures queues[q].sort != [] ==> count >= max
      ensures count + |queues[q].sort| == |old(queues[q].sort)|
      ensures CfqRules.Serves(config, old(Abs()), q, dispatched[|old(dispatched)|..], expired, Abs())
    {
      hide Agrees, PlacesOk, QueueOk, DispatchInsert, Elems, CfqRules.Serves;
      count := 0;
      ghost var before := dispatched;
      EmptyElems();
      assert dispatched[|before|..] == [];
      NothingServed(config, Abs(), q, expired);
      while true
        invariant Inv(Abs()) && q in queues && queues[q].sort != []
        invariant rqs == old(rqs) && queues.Keys == old(queues.Keys)
        invariant forall r :: r in queues && r != q ==> queues[r] == old(queues[r])
        invariant |dispatched| == |before| + count && before <= dispatched
        invariant Elems(dispatched[|before|..]) + Elems(queues[q].sort) == Elems(old(queues[q].sort))
        invariant CfqRules.Serves(config, old(Abs()), q, dispatched[|before|..], expired, Abs())
        invariant count == 0 || count < max
        decreases |queues[q].sort|
      {
        Agreement(Abs(), q);
        Heads(Abs(), q);
        var x := if count == 0 && expired then queues[q].fifo[0] else queues[q].next.value;
        DispatchFrom(config, Abs(), q, x);
        Appended(dispatched, before, x);
        CfqRules.ServesOne(config, old(Abs()), q, dispatched[|before|..], expired, Abs(), x);
        Dispatch(x);
        count := count + 1;
        if queues[q].sort == [] || count >= max { break; }
      }
      CountOfQueue(old(Abs()), Abs(), q);
    }

    /** `__cfq_forced_dispatch_cfqq`: its FIFO is empty in the end. */
    method ForcedDispatchQueue(q: nat) returns (count: nat)
      requires Inv(Abs()) && q in queues
      modifies this`left, this`service, this`queues, this`busyQueues, this`dispatched
      ensures Inv(Abs()) && rqs == old(rqs) && queues.Keys == old(queues.Keys)
      ensures queues[q].sort == [] && queues[q].fifo == []
      ensures forall r :: r in queues && r != q ==> queues[r] == old(queues[r])
      ensures old(dispatched) <= dispatched && |dispatched| == |old(dispatched)| + count
      ensures Elems(dispatched[|old(dispatched)|..]) == Elems(old(queues[q].sort)) && count == |old(queues[q].sort)|
      ensures CfqRules.Serves(config, old(Abs()), q, dispatched[|old(dispatched)|..], false, Abs())
    {
      hide Agrees, PlacesOk, QueueOk, DispatchInsert, Elems, CfqRules.Serves;
      count := 0;
      Agreement(Abs(), q);
      ghost var before := dispatched;
      EmptyElems();
      assert dispatched[|before|..] == [];
      NothingServed(config, Abs(), q, false);
      while queues[q].next.Some?
        invariant Inv(Abs()) && rqs == old(rqs) && queues.Keys == old(queues.Keys) && q in queues
        invariant forall r :: r in queues && r != q ==> queues[r] == old(queues[r])
        invariant before <= dispatched && |dispatched| == |before| + count
        invariant Elems(dispatched[|before|..]) + Elems(queues[q].sort) == Elems(old(queues[q].sort))
        invariant CfqRules.Serves(config, old(Abs()), q, dispatched[|before|..], false, Abs())
        invariant queues[q].next.None? <==> queues[q].sort == []
        decreases |queues[q].sort|
      {
        Agreement(Abs(), q);
        var x := queues[q].next.value;
        DispatchFrom(config, Abs(), q, x);
        Appended(dispatched, before, x);
        CfqRules.ServesOne(config, old(Abs()), q, dispatched[|before|..], false, Abs(), x);
        Dispatch(x);
        count := count + 1;
        Agreement(Abs(), q);
      }
      FifoEmpty(Abs(), q);
      assert Elems(dispatched[|before|..]) + {} == Elems(dispatched[|before|..]);
      CountOfQueue(old(Abs()), Abs(), q);
    }

    /** One pass of the loop of `cfq_forced_dispatch`. */
    method DrainFirst() returns (count: nat, done: bool)
      requires Inv(Abs())
      modifies this`left, this`service, this`queues, this`busyQueues, this`dispatched
      ensures Inv(Abs()) && rqs == old(rqs) && queues.Keys == old(queues.Keys)
      ensures old(dispatched) <= dispatched && |dispatched| == |old(dispatched)| + count
      ensures Elems(dispatched[|old(dispatched)|..]) + AllQueued(Abs()) == AllQueued(old(Abs()))
      ensures if done then FirstQueue(Abs()).None? else |Busy(Abs())| < |Busy(old(Abs()))|
    {
      hide Agrees, PlacesOk, QueueOk, Elems;
      PeekKeeps(Abs());
      FirstBusy(Abs());
      ghost var s := Abs();
      var q := RbFirst();
      if q.None? {
        EmptyElems();
        assert dispatched[|old(dispatched)|..] == [];
        SameQueued(s, Abs());
        return 0, true;
      }
      SameQueued(s, Abs());
      count := ForcedDispatchQueue(q.value);
      done := false;
      BusyLess(s, Abs(), q.value);
    }

    /** `cfq_forced_dispatch`: afterwards no queue is busy, and every request that was queued
        has been moved to the dispatch queue once. */
    method ForcedDispatch(key: int, shape: seq<nat> -> Tree) returns (count: nat)
      requires Inv(Abs()) && Balances(shape) && (activeQueue.Some? ==> activeQueue.value in queues)
      modifies this`left, this`service, this`queues, this`busyQueues, this`dispatched, this`activeQueue
      ensures Inv(Abs()) && busyQueues == 0 && rqs == old(rqs) && queues.Keys == old(queues.Keys)
      ensures forall q :: q in queues ==> queues[q].sort == []
      ensures old(dispatched) <= dispatched && |dispatched| == |old(dispatched)| + count
      ensures Elems(dispatched[|old(dispatched)|..]) == AllQueued(old(Abs()))
      ensures Distinct(dispatched) && count == |AllQueued(old(Abs()))|
    {
      hide Agrees, PlacesOk, QueueOk, Elems, FirstQueue, AllQueued, Busy;
      count := 0;
      var done := false;
      ghost var before := dispatched;
      assert dispatched[|before|..] == [];
      EmptyElems();
      while !done
        invariant Inv(Abs()) && rqs == old(rqs) && queues.Keys == old(queues.Keys) && activeQueue == old(activeQueue)
        invariant before <= dispatched && |dispatched| == |before| + count
        invariant Elems(dispatched[|before|..]) + AllQueued(Abs()) == AllQueued(old(Abs()))
        invariant done ==> FirstQueue(Abs()).None?
        decreases if done then 0 else |Busy(Abs())| + 1
      {
        ghost var mid := dispatched;
        var n;
        n, done := DrainFirst();
        count := count + n;
        assert dispatched[|before|..] == mid[|before|..] + dispatched[|mid|..];
        ElemsAppend(mid[|before|..], dispatched[|mid|..]);
      }
      NoneBusy(Abs());
      SliceExpired(key, shape);
      NoneQueued(Abs());
      OutDistinct(Abs());
      CountOf(dispatched, before, AllQueued(old(Abs())));
    }
  }

  lemma NothingServed(c: Config, s: State, q: nat, expired: bool)
    ensures CfqRules.Serves(c, s, q, [], expired, s)
  {
  }

  lemma SameQueued(s: State, t: State)
    requires s.queues == t.queues
    ensures AllQueued(s) == AllQueued(t) && Busy(s) == Busy(t)
  {
  }

  lemma InElems(s: seq<nat>)
    ensures forall x :: x in s <==> x in Elems(s)
  {
  }

  // ---- dispatched once ----

  lemma OutDistinct(s: State)
    requires Inv(s)
    ensures Distinct(s.out)
  {
    hide Agrees, Distinct;
  }

  lemma {:induction false} DistinctCount(s: seq<nat>)
    requires Distinct(s)
    ensures |Elems(s)| == |s|
  {
    if s != [] {
      DistinctCount(s[1..]);
      assert s == [s[0]] + s[1..];
      ElemsAppend([s[0]], s[1..]);
      assert Elems([s[0]]) == {s[0]} && s[0] !in Elems(s[1..]);
    }
  }

  /** A list without repetitions has grown by as many entries as it has new members. */
  lemma CountOf(t: seq<nat>, before: seq<nat>, added: set<nat>)
    requires Distinct(t) && before <= t && Elems(t[|before|..]) == added
    ensures |t| - |before| == |added|
  {
    DistinctCount(t[|before|..]);
  }

  /** What a queue has lost was dispatched, each request once. */
  lemma CountOfQueue(s: State, t: State, q: nat)
    requires Inv(s) && Inv(t) && q in s.queues && q in t.queues && s.out <= t.out && t.rqs == s.rqs
    requires Elems(t.out[|s.out|..]) + Elems(t.queues[q].sort) == Elems(s.queues[q].sort)
    ensures |t.out| - |s.out| + |t.queues[q].sort| == |s.queues[q].sort|
  {
    assert QueueOk(s.rqs, q, s.queues[q], {}) && QueueOk(t.rqs, q, t.queues[q], {});
    SortedDistinct(s.rqs, q, s.queues[q].sort);
    SortedDistinct(t.rqs, q, t.queues[q].sort);
    DistinctCount(s.queues[q].sort);
    DistinctCount(t.queues[q].sort);
    CountOf(t.out, s.out, Elems(t.out[|s.out|..]));
    NotDispatched(t, q);
    hide Sorted, Distinct, Agrees, PlacesOk;
    var out := Elems(t.out[|s.out|..]);
    assert out <= Elems(t.out);
    assert out !! Elems(t.queues[q].sort);
  }

  lemma NotDispatched(t: State, q: nat)
    requires Inv(t) && q in t.queues
    ensures Elems(t.queues[q].sort) !! Elems(t.out)
  {
    hide Agrees, Distinct;
    forall x | x in t.queues[q].sort ensures x in AllQueued(t) {
    }
  }

  ghost function Busy(s: State): set<nat> { set q | q in s.queues && s.queues[q].sort != [] }

  lemma BusyLess(s: State, t: State, q: nat)
    requires q in s.queues && s.queues.Keys == t.queues.Keys && s.queues[q].sort != [] && t.queues[q].sort == []
    requires forall r :: r in t.queues && r != q ==> t.queues[r] == s.queues[r]
    ensures |Busy(t)| < |Busy(s)|
    ensures AllQueued(s) == Elems(s.queues[q].sort) + AllQueued(t)
  {
    assert Busy(t) <= Busy(s) - {q};
    SubsetSize(Busy(t), Busy(s) - {q});
    assert q in Busy(s);
  }

  lemma {:induction false} SubsetSize(a: set<nat>, b: set<nat>)
    requires a <= b
    ensures |a| <= |b|
  {
    if a != {} {
      var x :| x in a;
      SubsetSize(a - {x}, b - {x});
    }
  }

  /** The first queue of the service tree has requests. */
  lemma FirstBusy(s: State)
    requires Inv(s)
    ensures var q := FirstQueue(s);
            (q.None? <==> s.service == []) && (q.Some? ==> q.value in s.queues && s.queues[q.value].sort != [])
  {
    if s.service != [] {
      assert s.service[0] in s.service;
      Agreement(s, s.service[0]);
    }
    hide QueueOk;
  }

  /** With an empty service tree, nothing is queued. */
  lemma NoneBusy(s: State)
    requires Inv(s) && FirstQueue(s).None?
    ensures s.busy == 0 && (forall q :: q in s.queues ==> s.queues[q].sort == []) && AllQueued(s) == {}
  {
    FirstBusy(s);
    forall q | q in s.queues ensures s.queues[q].sort == [] { Agreement(s, q); }
    hide QueueOk;
  }

  lemma NoneQueued(s: State)
    requires Inv(s) && forall q :: q in s.queues ==> s.queues[q].sort == []
    ensures s.busy == 0
  {
    FirstBusy(s);
    hide QueueOk;
  }

  lemma ServiceStays(s: State, q: nat, key: int, shape: seq<nat> -> Tree)
    requires Inv(s) && q in s.service && q in s.queues && Balances(shape)
    ensures var t := ServiceAdd(s, q, key, shape);
            Elems(t.service) == Elems(s.service) && t.queues.Keys == s.queues.Keys && forall r :: r in s.queues ==>
                t.queues[r].sort == s.queues[r].sort
  {
    ServiceAddOk(s, q, key, shape);
    assert q in Elems(s.service);
    hide ServiceAdd, QueueOk;
  }

  /** The request to serve is one of the queue's. */
  lemma Heads(s: State, q: nat)
    requires Inv(s) && q in s.queues && s.queues[q].sort != []
    ensures s.queues[q].fifo != [] && s.queues[q].fifo[0] in s.queues[q].sort
    ensures s.queues[q].next.Some? && s.queues[q].next.value in s.queues[q].sort
  {
    Agreement(s, q);
    InElems(s.queues[q].sort);
    InElems(s.queues[q].fifo);
    assert s.queues[q].sort[0] in s.queues[q].fifo;
    hide Agrees, PlacesOk;
    assert s.queues[q].fifo[0] in s.queues[q].fifo;
  }

  lemma NonemptyElems(f: seq<nat>)
    requires f != []
    ensures Elems(f) != {}
  {
    assert f[0] in Elems(f);
  }

  lemma FifoEmpty(s: State, q: nat)
    requires Inv(s) && q in s.queues && s.queues[q].sort == []
    ensures s.queues[q].fifo == []
  {
    Agreement(s, q);
    EmptyElems();
    if s.queues[q].fifo != [] { NonemptyElems(s.queues[q].fifo); }
  }

  lemma DispatchFrom(c: Config, s: State, q: nat, x: nat)
    requires Inv(s) && q in s.queues && x in s.queues[q].sort
    ensures AllKnown(s) && Queued(s, x) && s.rqs[x].dir == q
    ensures var t := DispatchInsert(c, s, x);
            && t.rqs == s.rqs && t.queues.Keys == s.queues.Keys
            && (forall r :: r in s.queues && r != q ==> t.queues[r] == s.queues[r])
            && Elems(t.queues[q].sort) == Elems(s.queues[q].sort) - {x} && x in Elems(s.queues[q].sort)
            && |t.queues[q].sort| < |s.queues[q].sort| && t.out == s.out + [x]
  {
    InvKnown(s);
    assert Known(s.rqs, q, s.queues[q].sort);
    AgreesQueues(s, q);
    DispatchOk(c, s, x, {});
    hide ServiceOk, QueueOk, DispatchInsert;
  }

  lemma Appended(t: seq<nat>, before: seq<nat>, x: nat)
    requires before <= t
    ensures Elems((t + [x])[|before|..]) == Elems(t[|before|..]) + {x} && before <= t + [x]
    ensures (t + [x])[|before|..] == t[|before|..] + [x]
  {
    assert (t + [x])[|before|..] == t[|before|..] + [x];
    ElemsAppend(t[|before|..], [x]);
    assert Elems([x]) == {x};
  }

  lemma BusyPositive(s: State, q: nat)
    requires Inv(s) && q in s.queues
    ensures s.queues[q].onRr ==> s.busy > 0
  {
  }
}
