/** as-iosched.c as it updates the sort lists and the cached next requests of `struct
    as_data` in place, proved against the functions of module Anticipatory. */
module AnticipatoryData {
  import opened Lists
  import opened SortedTree
  import opened Anticipatory

  class Data {
    var rqs: map<nat, Rq<Dir>>
    var sync: Side
    var async: Side
    var dispatched: seq<nat>
    ghost var gone: set<nat>

    ghost function Abs(): State
      reads this
    {
      State(rqs, sync, async, dispatched, gone)
    }

    constructor ()
      ensures Abs() == Initial() && Inv(Abs())
    {
      rqs, sync, async := map[], Side([], None, 0), Side([], None, 0);
      dispatched, gone := [], {};
      new;
      InitialInv();
    }

    method Get(d: Dir) returns (q: Side)
      ensures q == Abs().At(d)
    {
      q := if d == Sync then sync else async;
    }

    method Put(d: Dir, q: Side)
      modifies this`sync, this`async
      ensures Abs() == old(Abs()).With(d, q)
    {
      if d == Sync { sync := q; } else { async := q; }
    }

    /** `as_remove_queued_request` */
    method RemoveQueuedRequest(x: nat)
      requires AllKnown(Abs()) && Queued(Abs(), x)
      modifies this`sync, this`async
      ensures var d := rqs[x].dir; Abs() == old(Abs()).With(d, RemoveSide(rqs, old(Abs()).At(d), x))
    {
      hide FindNext;
      var q := Get(rqs[x].dir);
      if q.next == Some(x) { q := q.(next := FindNext(rqs, q.tree, q.last, x)); }
      q := q.(tree := Without(q.tree, x));
      Put(rqs[x].dir, q);
    }

    /** `as_move_to_dispatch` */
    method MoveToDispatch(x: nat)
      requires AllKnown(Abs()) && Queued(Abs(), x)
      modifies this`sync, this`async, this`dispatched
      ensures Abs() == Anticipatory.MoveToDispatch(old(Abs()), x)
    {
      hide FindNext, RemoveSide;
      var q := Get(rqs[x].dir);
      q := q.(last := End(rqs, x));
      q := q.(next := FindNext(rqs, q.tree, q.last, x));
      Put(rqs[x].dir, q);
      RemoveQueuedRequest(x);
      dispatched := dispatched + [x];
    }

    /** `as_add_rq_rb` */
    method AddTree(x: nat)
      requires AllKnown(Abs()) && x in rqs
      modifies this`sync, this`async, this`dispatched
      ensures Abs() == Anticipatory.AddTree(old(Abs()), x)
    {
      hide Anticipatory.MoveToDispatch;
      var d := rqs[x].dir;
      while true
        invariant AllKnown(Abs()) && rqs == old(rqs)
                  && Anticipatory.AddTree(Abs(), x) == Anticipatory.AddTree(old(Abs()), x)
        decreases |Abs().At(d).tree|
      {
        var q := Get(d);
        var alias := Find(rqs, d, q.tree, rqs[x].sector);
        if alias.None? { break; }
        MovedKnown(Abs(), alias.value);
        MoveToDispatch(alias.value);
      }
      var q := Get(d);
      var k := Place(rqs, d, q.tree, rqs[x].sector);
      Put(d, q.(tree := q.tree[..k] + [x] + q.tree[k..]));
    }

    /** `as_add_request` */
    method AddRequest(x: nat, rq: Rq<Dir>)
      requires AllKnown(Abs()) && NextKnown(Abs()) && x !in rqs
      modifies this
      ensures Abs() == Anticipatory.AddRequest(old(Abs()), x, rq)
    {
      hide Anticipatory.AddTree, Choose;
      rqs := rqs[x := rq];
      AddTreeKnown(Abs(), x);
      AddTree(x);
      // as_update_rq
      var q := Get(rq.dir);
      Put(rq.dir, q.(next := Choose(rqs, q.last, Some(x), q.next)));
    }

    /** `as_merged_request`, after a bio of n sectors was put in front. */
    method MergedRequest(x: nat, n: nat)
      requires AllKnown(Abs()) && Queued(Abs(), x) && n <= rqs[x].sector
      modifies this
      ensures Abs() == FrontMerge(old(Abs()), x, n)
    {
      hide Anticipatory.AddTree, Without;
      FrontMergeIs(Abs(), x, n);
      var d := rqs[x].dir;
      rqs := rqs[x := rqs[x].(sector := rqs[x].sector - n, sectors := rqs[x].sectors + n)];
      // as_del_rq_rb
      var q := Get(d);
      Put(d, q.(tree := Without(q.tree, x)));
      AddTree(x);
    }

    /** attempt_merge and `as_merged_requests` */
    method MergedRequests(x: nat, y: nat)
      requires AllKnown(Abs()) && x != y && Queued(Abs(), x) && Queued(Abs(), y) && rqs[x].dir == rqs[y].dir
      modifies this
      ensures Abs() == MergeRequests(old(Abs()), x, y)
    {
      hide RemoveSide;
      RemoveQueuedRequest(y);
      gone := gone + {y};
      rqs := rqs[x := rqs[x].(sectors := rqs[x].sectors + rqs[y].sectors)];
    }

    /** One of the two loops of a forced `as_dispatch_request`. */
    method Drain(d: Dir) returns (count: nat)
      requires Inv(Abs())
      modifies this`sync, this`async, this`dispatched
      ensures Inv(Abs()) && Abs().At(d).tree == [] && Abs().At(Other(d)) == old(Abs()).At(Other(d))
      ensures rqs == old(rqs) && |dispatched| == |old(dispatched)| + count && old(dispatched) <= dispatched
      ensures Elems(dispatched[|old(dispatched)|..]) == Elems(old(Abs()).At(d).tree)
      ensures count == |old(Abs()).At(d).tree|
      ensures Greedy(rqs, old(Abs()).At(d).last, dispatched[|old(dispatched)|..], {})
    {
      hide Inv, Anticipatory.MoveToDispatch, Elems, GreedyAt;
      count := 0;
      var q := Get(d);
      Drained(Abs(), d, []);
      ghost var before := dispatched;
      assert dispatched[|before|..] == [];
      while q.next.Some?
        invariant Inv(Abs()) && q == Abs().At(d) && rqs == old(rqs) && Abs().At(Other(d)) == old(Abs()).At(Other(d))
        invariant |dispatched| == |before| + count && before <= dispatched
        invariant Elems(dispatched[|before|..]) + Elems(q.tree) == Elems(old(Abs()).At(d).tree)
        invariant q.next.None? <==> q.tree == []
        invariant count + |q.tree| == |old(Abs()).At(d).tree|
        invariant Greedy(rqs, old(Abs()).At(d).last, dispatched[|before|..], Elems(q.tree))
        invariant q.last == LastAt(rqs, old(Abs()).At(d).last, dispatched[|before|..], count)
        decreases |q.tree|
      {
        ghost var s := Abs();
        NextQueued(s, d);
        MoveStep(s, d, q.next.value);
        Appended(dispatched, before, q.next.value);
        GreedyStep(s, d, old(Abs()).At(d).last, dispatched[|before|..]);
        MoveToDispatch(q.next.value);
        count := count + 1;
        q := Get(d);
        Drained(Abs(), d, q.tree);
      }
      EmptyElems();
    }

    /** `as_dispatch_request` with force: every queued request is moved to the dispatch
        queue, once. */
    method ForcedDispatch() returns (count: nat)
      requires Inv(Abs())
      modifies this`sync, this`async, this`dispatched
      ensures Inv(Abs()) && sync.tree == [] && async.tree == [] && rqs == old(rqs)
      ensures old(dispatched) <= dispatched && |dispatched| == |old(dispatched)| + count
      ensures Elems(dispatched[|old(dispatched)|..]) == Elems(old(sync.tree)) + Elems(old(async.tree))
      ensures count == |old(sync.tree)| + |old(async.tree)|
      ensures var n, m := |old(dispatched)|, |old(sync.tree)|;
              && Greedy(rqs, old(sync.last), dispatched[n..n + m], {})
              && Greedy(rqs, old(async.last), dispatched[n + m..], {})
    {
      hide Inv, Elems, Greedy;
      var n := Drain(Sync);
      ghost var first := dispatched[|old(dispatched)|..];
      var m := Drain(Async);
      ghost var second := dispatched[|old(dispatched)| + n..];
      assert dispatched[|old(dispatched)|..] == first + second;
      assert dispatched[|old(dispatched)|..|old(dispatched)| + n] == first;
      ElemsAppend(first, second);
      count := n + m;
    }
  }

  lemma EmptyElems()
    ensures Elems<nat>([]) == {}
  {
  }

  /** There is a next request exactly if there is a request. */
  lemma Drained(s: State, d: Dir, t: seq<nat>)
    requires Inv(s)
    ensures s.At(d).next.None? <==> s.At(d).tree == []
    ensures AllKnown(s) && Elems<nat>([]) == {}
  {
    InvKnown(s);
    hide PlacesOk, Sorted, NoOverlap;
  }

  lemma NextQueued(s: State, d: Dir)
    requires Inv(s) && s.At(d).next.Some?
    ensures AllKnown(s) && Queued(s, s.At(d).next.value) && s.rqs[s.At(d).next.value].dir == d
  {
    InvKnown(s);
    hide PlacesOk, NoOverlap;
  }

  lemma MoveStep(s: State, d: Dir, x: nat)
    requires Inv(s) && AllKnown(s) && Queued(s, x) && s.rqs[x].dir == d
    ensures var t := MoveToDispatch(s, x);
            && Inv(t) && t.rqs == s.rqs && t.out == s.out + [x] && t.gone == s.gone && t.At(Other(d)) == s.At(Other(d))
            && Elems(t.At(d).tree) == Elems(s.At(d).tree) - {x} && x in Elems(s.At(d).tree)
            && |t.At(d).tree| == |s.At(d).tree| - 1 && t.At(d).last == End(s.rqs, x)
  {
    MoveKeeps(s, x, {});
    WithoutSubset(s.At(d).tree, x);
    hide QueuesOk, PlacesOk;
  }

  // ---- the order of a forced dispatch ----

  /** Where the head is before u[i] is dispatched. */
  function LastAt(rqs: map<nat, Rq<Dir>>, last: nat, u: seq<nat>, i: nat): nat
    requires i <= |u|
  {
    if i > 0 && u[i - 1] in rqs then rqs[u[i - 1]].sector + rqs[u[i - 1]].sectors else last
  }

  /** u[i] is the nearest of those that come after it and of `rest`. */
  predicate GreedyAt(rqs: map<nat, Rq<Dir>>, last: nat, u: seq<nat>, i: nat, rest: set<nat>)
    requires i < |u|
  {
    u[i] in rqs
    && forall y :: (y in rest || y in u[i + 1..]) && y in rqs ==>
           Nearest(LastAt(rqs, last, u, i), rqs[u[i]].sector, rqs[y].sector)
  }

  /** Every request of u is the nearest to the head that the one before it leaves behind,
      among those that were queued. */
  predicate Greedy(rqs: map<nat, Rq<Dir>>, last: nat, u: seq<nat>, rest: set<nat>) {
    forall i :: 0 <= i < |u| ==> GreedyAt(rqs, last, u, i, rest)
  }

  lemma GreedyStep(s: State, d: Dir, last: nat, u: seq<nat>)
    requires Inv(s) && s.At(d).next.Some? && Greedy(s.rqs, last, u, Elems(s.At(d).tree))
    requires s.At(d).last == LastAt(s.rqs, last, u, |u|)
    ensures var x := s.At(d).next.value;
            && x in s.rqs && Greedy(s.rqs, last, u + [x], Elems(s.At(d).tree) - {x})
            && LastAt(s.rqs, last, u + [x], |u| + 1) == End(s.rqs, x)
  {
    NextQueued(s, d);
    RunOptimal(s, [], s);
    hide Inv, Nearest;
    var x := s.At(d).next.value;
    var v := u + [x];
    assert x in Elems(s.At(d).tree);
    forall i | 0 <= i < |v| ensures GreedyAt(s.rqs, last, v, i, Elems(s.At(d).tree) - {x}) {
      if i < |u| {
        assert GreedyAt(s.rqs, last, u, i, Elems(s.At(d).tree));
        assert v[i + 1..] == u[i + 1..] + [x];
        assert LastAt(s.rqs, last, v, i) == LastAt(s.rqs, last, u, i);
      } else {
        assert v[i + 1..] == [];
        assert NextNearest(s.rqs, s.At(d));
      }
    }
  }

  lemma Appended(t: seq<nat>, before: seq<nat>, x: nat)
    requires before <= t
    ensures Elems((t + [x])[|before|..]) == Elems(t[|before|..]) + {x} && before <= t + [x]
    ensures (t + [x])[|before|..] == t[|before|..] + [x]
  {
    assert (t + [x])[|before|..] == t[|before|..] + [x];
    ElemsAppend(t[|before|..], [x]);
    assert Elems([x]) == {x};
  }
}
