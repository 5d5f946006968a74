/** What the CFQ I/O scheduler promises, said without its own steps: which of two requests is
    served first, which request becomes next_rq, and in which order queues and requests are
    served. */
module CfqRules {
  import opened Lists
  import opened SortedTree
  import opened Cfq

  // ---- which of two requests is served first ----

  /** Behind the head, but not more than back_max KiB. */
  predicate Reachable(c: Config, last: nat, s: nat) { s < last <= s + 2 * c.backMax }

  /** s is no worse a sector than o: ahead of the head the lower one is nearer, behind it the
      higher one; the distance of a seek back is multiplied by the penalty; a sector out of
      reach only yields to those within reach and to lower ones. */
  predicate Nearest(c: Config, last: nat, s: nat, o: nat) {
    && (last <= s && last <= o ==> s <= o)
    && (last <= s && Reachable(c, last, o) ==> s - last <= (last - o) * c.backPenalty)
    && (Reachable(c, last, s) && last <= o ==> (last - s) * c.backPenalty < o - last)
    && (Reachable(c, last, s) && Reachable(c, last, o) ==> o <= s)
    && (s + 2 * c.backMax < last ==> o + 2 * c.backMax < last && s <= o)
  }

  /** Synchronous requests before asynchronous ones, then metadata before data, then the
      nearest. */
  predicate NoWorse(c: Config, s: State, a: nat, b: nat)
    requires a in s.rqs && b in s.rqs
  {
    && (b in s.sync ==> a in s.sync)
    && ((a in s.sync <==> b in s.sync) && b in s.meta ==> a in s.meta)
    && ((a in s.sync <==> b in s.sync) && (a in s.meta <==> b in s.meta) ==>
        Nearest(c, s.last, s.rqs[a].sector, s.rqs[b].sector))
  }

  lemma ScaledOrder(p: nat, x: nat, y: nat)
    requires x < y
    ensures x * p <= y * p && (p > 0 ==> x * p < y * p)
  {
    assert (y - x) * p == y * p - x * p;
  }

  /** Both behind the head. */
  lemma BothBehind(c: Config, last: nat, s: nat, o: nat)
    requires Reachable(c, last, s) && Reachable(c, last, o)
    ensures (last - s) * c.backPenalty < (last - o) * c.backPenalty ==> o < s
    ensures (last - s) * c.backPenalty == (last - o) * c.backPenalty && c.backPenalty > 0 ==> o == s
    ensures c.backPenalty == 0 ==> (last - s) * c.backPenalty == 0 == (last - o) * c.backPenalty
  {
    if s < o { ScaledOrder(c.backPenalty, last - o, last - s); }
    if o < s { ScaledOrder(c.backPenalty, last - s, last - o); }
  }

  lemma FirstIs(c: Config, s: State, a: nat, b: nat)
    requires a in s.rqs && b in s.rqs
    ensures First(c, s, a, b) <==> NoWorse(c, s, a, b)
  {
    var x, y := s.rqs[a].sector, s.rqs[b].sector;
    if Reachable(c, s.last, x) && Reachable(c, s.last, y) { BothBehind(c, s.last, x, y); }
    if Reachable(c, s.last, x) && Reachable(c, s.last, y) { BothBehind(c, s.last, y, x); }
  }

  /** cfq_choose_req takes the first one unless the second is better. */
  lemma ChooseRule(c: Config, s: State, a: nat, b: nat)
    requires a in s.rqs && b in s.rqs
    ensures Choose(c, s, Some(a), Some(b)) == if a != b && NoWorse(c, s, a, b) then Some(a) else Some(b)
    ensures s.rqs[a].sector != s.rqs[b].sector ==>
            Choose(c, s, Some(a), Some(b)) == Choose(c, s, Some(b), Some(a))
    ensures Choose(c, s, Some(a), None) == Some(a) == Choose(c, s, None, Some(a))
  {
    FirstIs(c, s, a, b);
    FirstIs(c, s, b, a);
    if s.rqs[a].sector != s.rqs[b].sector { OneNearest(c, s.last, s.rqs[a].sector, s.rqs[b].sector); }
    hide First, Nearest;
  }

  /** Of two different sectors, exactly one is the nearest. */
  lemma OneNearest(c: Config, last: nat, s: nat, o: nat)
    requires s != o
    ensures Nearest(c, last, s, o) <==> !Nearest(c, last, o, s)
  {
  }

  /** A synchronous request goes before an asynchronous one wherever they are, and a metadata
      request before other requests of its kind. */
  lemma ChooseFlags(c: Config, s: State, a: nat, b: nat)
    requires a in s.rqs && b in s.rqs
    requires (a in s.sync && b !in s.sync) || ((a in s.sync <==> b in s.sync) && a in s.meta && b !in s.meta)
    ensures Choose(c, s, Some(a), Some(b)) == Some(a) == Choose(c, s, Some(b), Some(a))
  {
  }

  /** Requests with the same flags, a at distance f ahead of the head and b at distance g
      behind it. */
  lemma ChooseAhead(c: Config, s: State, a: nat, b: nat, f: nat, g: nat)
    requires a in s.rqs && b in s.rqs && (a in s.sync <==> b in s.sync) && (a in s.meta <==> b in s.meta)
    requires 0 < g <= s.last && s.rqs[a].sector == s.last + f && s.rqs[b].sector == s.last - g
    ensures var r := if f <= g * c.backPenalty || g > 2 * c.backMax then Some(a) else Some(b);
            Choose(c, s, Some(a), Some(b)) == r && Choose(c, s, Some(b), Some(a)) == r
  {
  }

  // ---- which request becomes next_rq ----

  /** The neighbours of x in sector order; the first request follows the last. */
  predicate Follows(rqs: Requests, t: seq<nat>, x: nat, h: nat)
    requires x in rqs && forall y :: y in t ==> y in rqs
  {
    h in t && h != x
    && if rqs[h].sector > rqs[x].sector
       then forall y :: y in t ==> rqs[y].sector <= rqs[x].sector || rqs[h].sector <= rqs[y].sector
       else forall y :: y in t ==> rqs[y].sector <= rqs[x].sector && rqs[h].sector <= rqs[y].sector
  }

  predicate Precedes(rqs: Requests, t: seq<nat>, x: nat, h: nat)
    requires x in rqs && forall y :: y in t ==> y in rqs
  {
    && h in t && rqs[h].sector < rqs[x].sector
    && forall y :: y in t ==> rqs[y].sector <= rqs[h].sector || rqs[x].sector <= rqs[y].sector
  }

  /** r is one of the neighbours of x, and no worse than the other one. */
  predicate BestNeighbor(c: Config, s: State, t: seq<nat>, x: nat, r: Option<nat>)
    requires x in s.rqs && forall y :: y in t ==> y in s.rqs
  {
    match r
    case None => forall y :: y in t ==> y == x
    case Some(r) =>
      && r in t && r != x && (Follows(s.rqs, t, x, r) || Precedes(s.rqs, t, x, r))
      && forall h :: h in t && (Follows(s.rqs, t, x, h) || Precedes(s.rqs, t, x, h)) ==> NoWorse(c, s, r, h)
  }

  lemma NeighborIs(rqs: Requests, q: nat, t: seq<nat>, x: nat, h: nat)
    requires Sorted(rqs, q, t) && x in t && h in t
    ensures Follows(rqs, t, x, h) <==>
            h != x && Some(h) == if Latter(t, x).Some? then Latter(t, x) else Some(t[0])
    ensures Precedes(rqs, t, x, h) <==> Some(h) == Former(t, x)
  {
    var k, j := IndexOf(t, x), IndexOf(t, h);
    if k + 1 < |t| && j > k + 1 { assert t[k + 1] in t; }
    if k > 0 && j < k - 1 { assert t[k - 1] in t; }
    if k + 1 < |t| && j < k { assert t[k + 1] in t; }
    if k + 1 == |t| && j > 0 { assert t[0] in t; }
    forall y | y in t ensures rqs[y].sector <= rqs[x].sector || (k + 1 < |t| && rqs[t[k + 1]].sector <= rqs[y].sector) {
      var i := IndexOf(t, y);
    }
    forall y | y in t ensures rqs[x].sector <= rqs[y].sector || (k > 0 && rqs[y].sector <= rqs[t[k - 1]].sector) {
      var i := IndexOf(t, y);
    }
    forall y | y in t ensures rqs[t[0]].sector <= rqs[y].sector {
      var i := IndexOf(t, y);
    }
  }

  /** cfq_find_next_rq */
  lemma FindNextRule(c: Config, s: State, q: nat, t: seq<nat>, x: nat)
    requires Sorted(s.rqs, q, t) && x in t
    ensures BestNeighbor(c, s, t, x, FindNext(c, s, t, x))
  {
    var r := FindNext(c, s, t, x);
    var next := if Latter(t, x).Some? then Latter(t, x) else if t[0] != x then Some(t[0]) else None;
    var prev := Former(t, x);
    if next.None? { NoneElse(s.rqs, q, t, x); }
    forall h | h in t ensures
        && (Follows(s.rqs, t, x, h) <==> next == Some(h)) && (Precedes(s.rqs, t, x, h) <==> prev == Some(h)) {
      NeighborIs(s.rqs, q, t, x, h);
    }
    hide Sorted, Latter, Former, Follows, Precedes, NoWorse, First;
    if next.Some? && prev.Some? {
      FirstIs(c, s, next.value, prev.value);
      FirstIs(c, s, prev.value, next.value);
      Total(c, s, next.value, prev.value);
      Total(c, s, prev.value, next.value);
    }
    if next.Some? { Total(c, s, next.value, next.value); }
    if prev.Some? { Total(c, s, prev.value, prev.value); }
  }

  lemma NoneElse(rqs: Requests, q: nat, t: seq<nat>, x: nat)
    requires Sorted(rqs, q, t) && x in t && Latter(t, x).None? && t[0] == x
    ensures forall y :: y in t ==> y == x
  {
  }

  lemma Total(c: Config, s: State, a: nat, b: nat)
    requires a in s.rqs && b in s.rqs
    ensures NoWorse(c, s, a, b) || NoWorse(c, s, b, a)
    ensures a == b ==> NoWorse(c, s, a, b)
  {
  }

  // ---- adding ----

  predicate SameSector(s: State, x: nat, y: nat) {
    && x in s.rqs && y in s.rqs && s.rqs[x].dir in s.queues && y in s.queues[s.rqs[x].dir].sort
    && s.rqs[y].sector == s.rqs[x].sector
  }

  /** x is in its sort list in t, and next_rq is the better one of x and of what it was in s. */
  predicate Entered(c: Config, s: State, x: nat, t: State) {
    x in s.rqs
    && var q := s.rqs[x].dir;
    && q in s.queues && q in t.queues && (s.queues[q].next.Some? ==> s.queues[q].next.value in s.rqs)
    && Elems(t.queues[q].sort) == Elems(s.queues[q].sort) + {x}
    && t.queues[q].fifo == s.queues[q].fifo && t.queues[q].onRr
    && t.queues[q].next == (
         match s.queues[q].next
         case None => Some(x)
         case Some(n) => if n != x && NoWorse(c, s, n, x) then Some(n) else Some(x))
    && t.out == s.out && t.rqs == s.rqs && t.gone == s.gone
    && t.sync == s.sync && t.meta == s.meta && t.last == s.last
    && forall r :: r in s.queues && r != q ==> r in t.queues && t.queues[r] == s.queues[r]
  }

  /** A request that is at the sector of x is dispatched before x enters. */
  ghost predicate Enters(c: Config, s: State, x: nat, t: State)
    requires AllKnown(s) && x in s.rqs
  {
    && ((forall y :: !SameSector(s, x, y)) ==> Entered(c, s, x, t))
    && forall y :: SameSector(s, x, y) ==>
           Queued(s, y) && Entered(c, DispatchInsert(c, s, y), x, t)
  }

  lemma FindIs(rqs: Requests, q: nat, t: seq<nat>, y: nat)
    requires Sorted(rqs, q, t) && y in t
    ensures Find(rqs, q, t, rqs[y].sector) == Some(y)
  {
    var i := IndexOf(t, y);
  }

  /** No other request has the sector of y. */
  lemma NoSecond(rqs: Requests, q: nat, t: seq<nat>, y: nat)
    requires Sorted(rqs, q, t) && y in t
    ensures var u := Without(t, y); Known(rqs, q, u) && Find(rqs, q, u, rqs[y].sector).None?
  {
    RemoveTree(rqs, q, t, y);
    var u := Without(t, y);
    hide Without;
    forall z | z in u ensures rqs[z].sector != rqs[y].sector {
      assert z in Elems(u);
      var i, j := IndexOf(t, z), IndexOf(t, y);
    }
  }

  lemma EnteredIs(c: Config, s: State, x: nat, key: int, shape: seq<nat> -> Tree)
    requires AllKnown(s) && x in s.rqs && s.rqs[x].dir in s.queues && ServiceOk(s) && QueuesOk(s, s.rqs[x].dir, {x})
    requires x !in s.queues[s.rqs[x].dir].sort && Balances(shape)
    requires Find(s.rqs, s.rqs[x].dir, s.queues[s.rqs[x].dir].sort, s.rqs[x].sector).None?
    ensures Entered(c, s, x, AddRqRb(c, s, x, key, shape))
  {
    hide ServiceOk, QueueOk, Place, Find, AddRr, Choose, NoWorse;
    var q := s.rqs[x].dir;
    QueueSorted(s.rqs, q, s.queues[q], {x});
    InsertedElems(s, q, x);
    var f := InsertSort(s, q, x);
    SameService(s, f, q);
    if !f.queues[q].onRr {
      AddRrOk(f, q, key, shape);
      AddRrFlags(f, q, key, shape);
    }
    var g := if !f.queues[q].onRr then AddRr(f, q, key, shape) else f;
    ClearNothing(c, s, x);
    NextEntered(c, s, g, q, x);
  }

  lemma AddRrFlags(s: State, q: nat, key: int, shape: seq<nat> -> Tree)
    requires q in s.queues
    ensures var t := AddRr(s, q, key, shape); t.sync == s.sync && t.meta == s.meta && t.last == s.last && t.rqs == s.rqs
  {
    hide Link, GoesLeft, Inorder, Without;
  }

  lemma ClearNothing(c: Config, s: State, x: nat)
    requires AllKnown(s) && x in s.rqs && s.rqs[x].dir in s.queues
    requires Find(s.rqs, s.rqs[x].dir, s.queues[s.rqs[x].dir].sort, s.rqs[x].sector).None?
    ensures ClearSector(c, s, x) == s
  {
    hide DispatchInsert, Place;
  }

  lemma NextEntered(c: Config, s: State, g: State, q: nat, x: nat)
    requires x in s.rqs && g.rqs == s.rqs && g.sync == s.sync && g.meta == s.meta && g.last == s.last
    requires q in s.queues && q in g.queues && g.queues[q].next == s.queues[q].next && AllKnown(s)
    ensures var n := s.queues[q].next;
            && (n.Some? ==> n.value in s.rqs)
            && Choose(c, g, n, Some(x)) == if n.Some? && n.value != x && NoWorse(c, s, n.value, x) then n else Some(x)
  {
    var n := s.queues[q].next;
    if n.Some? {
      ChooseRule(c, g, n.value, x);
      assert NoWorse(c, g, n.value, x) <==> NoWorse(c, s, n.value, x);
    }
    hide First, NoWorse;
  }

  lemma EnterAfter(c: Config, s: State, x: nat, y: nat, key: int, shape: seq<nat> -> Tree)
    requires AllKnown(s) && x in s.rqs && s.rqs[x].dir in s.queues && ServiceOk(s) && QueuesOk(s, s.rqs[x].dir, {x})
    requires x !in s.queues[s.rqs[x].dir].sort && Balances(shape) && SameSector(s, x, y)
    ensures Queued(s, y) && Entered(c, DispatchInsert(c, s, y), x, AddRqRb(c, s, x, key, shape))
  {
    var q := s.rqs[x].dir;
    hide ServiceOk, QueueOk, Place, Find, AddRr, Choose, NoWorse, DispatchInsert, Entered;
    QueueSorted(s.rqs, q, s.queues[q], {x});
    FindIs(s.rqs, q, s.queues[q].sort, y);
    NoSecond(s.rqs, q, s.queues[q].sort, y);
    DispatchOk(c, s, y, {x});
    RemovedKnown(c, s, y);
    DispatchedSort(c, s, y);
    var t := DispatchInsert(c, s, y);
    assert x !in t.queues[q].sort by { assert x !in Elems(t.queues[q].sort); }
    EnteredIs(c, t, x, key, shape);
    ClearOne(c, s, x, y, key, shape);
  }

  lemma DispatchedSort(c: Config, s: State, y: nat)
    requires AllKnown(s) && Queued(s, y)
    ensures var q, t := s.rqs[y].dir, DispatchInsert(c, s, y);
            q in t.queues && t.queues[q].sort == Without(s.queues[q].sort, y) && t.out == s.out + [y] && t.rqs == s.rqs
  {
    hide FindNext, Without;
  }

  lemma ClearOne(c: Config, s: State, x: nat, y: nat, key: int, shape: seq<nat> -> Tree)
    requires AllKnown(s) && x in s.rqs && s.rqs[x].dir in s.queues
    requires Find(s.rqs, s.rqs[x].dir, s.queues[s.rqs[x].dir].sort, s.rqs[x].sector) == Some(y)
    requires Queued(s, y) && AllKnown(DispatchInsert(c, s, y)) && DispatchInsert(c, s, y).rqs == s.rqs
             && s.rqs[x].dir in DispatchInsert(c, s, y).queues
    ensures AddRqRb(c, s, x, key, shape) == AddRqRb(c, DispatchInsert(c, s, y), x, key, shape)
  {
    hide DispatchInsert, Place, AddRr, Choose, Find;
  }

  /** cfq_add_rq_rb */
  lemma AddRqRbRule(c: Config, s: State, x: nat, key: int, shape: seq<nat> -> Tree)
    requires AllKnown(s) && x in s.rqs && s.rqs[x].dir in s.queues && ServiceOk(s) && QueuesOk(s, s.rqs[x].dir, {x})
    requires x !in s.queues[s.rqs[x].dir].sort && Balances(shape)
    ensures Enters(c, s, x, AddRqRb(c, s, x, key, shape))
  {
    hide ServiceOk, QueueOk, Place, AddRqRb, DispatchInsert, Entered;
    var q := s.rqs[x].dir;
    forall y | SameSector(s, x, y)
      ensures Queued(s, y) && Entered(c, DispatchInsert(c, s, y), x, AddRqRb(c, s, x, key, shape)) {
      EnterAfter(c, s, x, y, key, shape);
    }
    if forall y :: !SameSector(s, x, y) {
      var r := Find(s.rqs, q, s.queues[q].sort, s.rqs[x].sector);
      assert r.Some? ==> SameSector(s, x, r.value);
      EnteredIs(c, s, x, key, shape);
    }
  }

  /** cfq_insert_request: the request also goes to the end of the FIFO. */
  ghost predicate EntersLast(c: Config, s: State, x: nat, t: State)
    requires AllKnown(s) && x in s.rqs
  {
    var q := s.rqs[x].dir;
    q in t.queues
    && var f := t.queues[q].fifo;
    && f != [] && f[|f| - 1] == x
    && Enters(c, s, x, t.(queues := t.queues[q := t.queues[q].(fifo := f[..|f| - 1])]))
  }

  lemma InsertRule(c: Config, s: State, x: nat, rq: Rq<nat>, key: int, shape: seq<nat> -> Tree)
    requires Agrees(s) && x !in s.rqs && rq.dir in s.queues && AllKnown(s) && Balances(shape)
    ensures var u := s.(rqs := s.rqs[x := rq]);
            AllKnown(u) && EntersLast(c, u, x, Insert(c, s, x, rq, key, shape))
  {
    hide ServiceOk, QueueOk, AddRqRb, Enters;
    var q := rq.dir;
    var u := s.(rqs := s.rqs[x := rq]);
    NewRequest(s, x, rq, u);
    QueuesKnown(u, q, {x});
    AddRqRbOk(c, u, x, key, shape);
    AddRqRbRule(c, u, x, key, shape);
    var v := AddRqRb(c, u, x, key, shape);
    var g := v.queues[q].fifo;
    assert (g + [x])[..|g|] == g;
    var t := Insert(c, s, x, rq, key, shape);
    assert t.(queues := t.queues[q := t.queues[q].(fifo := g)]) == v;
  }

  /** The request starts n sectors earlier and is out of its sort list. */
  function Lifted(s: State, x: nat, n: nat): State
    requires Queued(s, x) && n <= s.rqs[x].sector
  {
    var rq := s.rqs[x];
    var cfqq := s.queues[rq.dir];
    s.(rqs := s.rqs[x := Rq(rq.sector - n, n + rq.sectors, rq.dir, rq.time)],
       queues := s.queues[rq.dir := cfqq.(sort := Without(cfqq.sort, x))])
  }

  /** A front merge: the request starts earlier and is put where it belongs now. */
  lemma FrontMergeRule(c: Config, s: State, x: nat, n: nat, key: int, shape: seq<nat> -> Tree)
    requires Agrees(s) && AllKnown(s) && Queued(s, x) && n <= s.rqs[x].sector && Balances(shape)
    ensures AllKnown(Lifted(s, x, n)) && Enters(c, Lifted(s, x, n), x, FrontMerge(c, s, x, n, key, shape))
  {
    hide ServiceOk, QueueOk, AddRqRb, Without, Enters;
    var q, u := s.rqs[x].dir, Lifted(s, x, n);
    TakenOut(s, q, x, u);
    QueuesKnown(u, q, {x});
    AddRqRbRule(c, u, x, key, shape);
  }

  // ---- removing and joining ----

  /** x has left its queue; if it was next_rq, the better one of its neighbours is now. */
  ghost predicate Left(c: Config, s: State, x: nat, t: State)
    requires AllKnown(s)
  {
    Queued(s, x) && s.rqs[x].dir in t.queues
    && var q := s.rqs[x].dir;
    var a, b := s.queues[q], t.queues[q];
    && Elems(b.sort) == Elems(a.sort) - {x} && b.fifo == Without(a.fifo, x)
    && (if a.next == Some(x) then BestNeighbor(c, s, a.sort, x, b.next) else b.next == a.next)
    && (q in t.service <==> Elems(a.sort) != {x})
    && t.rqs == s.rqs && t.sync == s.sync && t.meta == s.meta && t.last == s.last && t.gone == s.gone
    && forall r :: r in s.queues && r != q ==> r in t.queues && t.queues[r] == s.queues[r]
  }

  lemma RemoveRule(c: Config, s: State, x: nat)
    requires Agrees(s) && AllKnown(s) && Queued(s, x)
    ensures Left(c, s, x, Remove(c, s, x)) && Remove(c, s, x).out == s.out
  {
    var q := s.rqs[x].dir;
    var t := Remove(c, s, x);
    AgreesQueues(s, q);
    AgreesQueues(t, q);
    RemoveOk(c, s, x, {});
    Agreement(t, q);
    InQueue(s, q);
    FindNextRule(c, s, q, s.queues[q].sort, x);
    RemovedIs(c, s, x);
    assert t.queues[q].sort == [] <==> Elems(t.queues[q].sort) == {} by { EmptyIs(t.queues[q].sort); }
    assert x in Elems(s.queues[q].sort);
    hide Agrees, QueueOk, ServiceOk, Remove, FindNext, BestNeighbor, Elems, Without;
  }

  lemma EmptyIs(t: seq<nat>)
    ensures t == [] <==> Elems(t) == {}
  {
    if t != [] { assert t[0] in Elems(t); }
  }

  lemma InQueue(s: State, q: nat)
    requires Agrees(s) && q in s.queues
    ensures Sorted(s.rqs, q, s.queues[q].sort)
  {
    assert QueueOk(s.rqs, q, s.queues[q], {});
    hide Sorted, Distinct, Elems;
  }

  lemma RemovedIs(c: Config, s: State, x: nat)
    requires AllKnown(s) && Queued(s, x)
    ensures var q, t := s.rqs[x].dir, Remove(c, s, x);
            && q in t.queues && t.queues[q].fifo == Without(s.queues[q].fifo, x)
            && t.queues[q].next == (if s.queues[q].next == Some(x) then FindNext(c, s, s.queues[q].sort, x)
                                    else s.queues[q].next)
            && t.sync == s.sync && t.meta == s.meta && t.last == s.last
  {
    hide FindNext, Without;
  }

  /** y is gone; x covers both, and stands in the FIFO where the older one stood. */
  ghost predicate Joined(c: Config, s: State, x: nat, y: nat, older: bool, t: State)
    requires AllKnown(s)
  {
    Queued(s, x) && Queued(s, y) && s.rqs[x].dir in t.queues
    && var q := s.rqs[x].dir;
    var a, b := s.queues[q], t.queues[q];
    var rest := Without(a.fifo, x);
    && t.rqs == s.rqs[x := Rq(s.rqs[x].sector, s.rqs[x].sectors + s.rqs[y].sectors, q, s.rqs[x].time)]
    && (!older ==> b.fifo == Without(a.fifo, y))
    && (older ==> y in rest && b.fifo == rest[IndexOf(rest, y) := x])
    && Elems(b.sort) == Elems(a.sort) - {y}
    && (if a.next == Some(y) then BestNeighbor(c, s, a.sort, y, b.next) else b.next == a.next)
    && t.out == s.out && t.gone == s.gone + {y}
    && forall r :: r in s.queues && r != q ==> r in t.queues && t.queues[r] == s.queues[r]
  }

  lemma MergeRule(c: Config, s: State, x: nat, y: nat, older: bool)
    requires Agrees(s) && AllKnown(s) && x != y && Queued(s, x) && Queued(s, y) && s.rqs[x].dir == s.rqs[y].dir
    ensures Joined(c, s, x, y, older, MergeRequests(c, s, x, y, older))
  {
    InFifo(s, x);
    InFifo(s, y);
    MovedAgrees(s, x, y, older);
    var u := Relisted(s, x, y, older);
    hide Agrees, AllKnown, Queued, Remove, Without, Left, Joined, MergeRequests, Relisted;
    RemoveRule(c, u, y);
    JoinedIs(c, s, x, y, older, Remove(c, u, y));
    MergeIs(c, s, x, y, older);
  }

  /** x has its place in the FIFO. */
  function Relisted(s: State, x: nat, y: nat, older: bool): State
    requires Queued(s, x) && (older ==> x != y && y in s.queues[s.rqs[x].dir].fifo)
  {
    var q := s.rqs[x].dir;
    var f := s.queues[q].fifo;
    s.(queues := s.queues[q := s.queues[q].(fifo := if older then MoveBehind(f, x, y) else f)])
  }

  lemma MovedAgrees(s: State, x: nat, y: nat, older: bool)
    requires Agrees(s) && AllKnown(s) && x != y && Queued(s, x) && Queued(s, y) && s.rqs[x].dir == s.rqs[y].dir
    requires x in s.queues[s.rqs[x].dir].fifo && y in s.queues[s.rqs[x].dir].fifo
    ensures var u := Relisted(s, x, y, older); Agrees(u) && AllKnown(u) && Queued(u, y)
  {
    var q := s.rqs[x].dir;
    var f := s.queues[q].fifo;
    FifoDistinct(s, q);
    MoveBehindElems(f, x, y);
    FifoMoved(s, q, if older then MoveBehind(f, x, y) else f, Relisted(s, x, y, older));
    hide Agrees, MoveBehind, Elems, Distinct;
  }

  lemma MergeIs(c: Config, s: State, x: nat, y: nat, older: bool)
    requires AllKnown(s) && x != y && Queued(s, x) && Queued(s, y) && s.rqs[x].dir == s.rqs[y].dir
    requires x in s.queues[s.rqs[x].dir].fifo && y in s.queues[s.rqs[x].dir].fifo
    requires AllKnown(Relisted(s, x, y, older)) && Queued(Relisted(s, x, y, older), y)
    ensures var v := Remove(c, Relisted(s, x, y, older), y);
            && x in v.rqs && y in v.rqs
            && MergeRequests(c, s, x, y, older) ==
               v.(gone := s.gone + {y},
                  rqs := v.rqs[x := v.rqs[x].(sectors := v.rqs[x].sectors + v.rqs[y].sectors)])
  {
    hide Remove, MoveBehind;
    RemovedRqs(c, Relisted(s, x, y, older), y);
  }

  lemma RemovedRqs(c: Config, s: State, x: nat)
    requires AllKnown(s) && Queued(s, x)
    ensures Remove(c, s, x).rqs == s.rqs
  {
    hide FindNext, Without;
  }

  /** x has its place in the FIFO in u, and y is out in v. */
  lemma JoinedIs(c: Config, s: State, x: nat, y: nat, older: bool, v: State)
    requires AllKnown(s) && x != y && Queued(s, x) && Queued(s, y) && s.rqs[x].dir == s.rqs[y].dir
    requires y in s.queues[s.rqs[x].dir].fifo
    requires var u := Relisted(s, x, y, older); AllKnown(u) && Left(c, u, y, v) && v.out == u.out
    ensures x in v.rqs && y in v.rqs
    ensures Joined(c, s, x, y, older, v.(gone := s.gone + {y},
                   rqs := v.rqs[x := v.rqs[x].(sectors := v.rqs[x].sectors + v.rqs[y].sectors)]))
  {
    var u := Relisted(s, x, y, older);
    var q := s.rqs[x].dir;
    MovedAndCut(s.queues[q].fifo, x, y);
    hide MoveBehind, Elems, Distinct, Without, IndexOf, BestNeighbor, AllKnown;
    if s.queues[q].next == Some(y) { SameNeighbors(c, s, u, s.queues[q].sort, y, v.queues[q].next); }
  }

  lemma SameNeighbors(c: Config, s: State, u: State, t: seq<nat>, y: nat, r: Option<nat>)
    requires y in s.rqs && u.rqs == s.rqs && u.sync == s.sync && u.meta == s.meta && u.last == s.last
    requires forall z :: z in t ==> z in s.rqs
    ensures BestNeighbor(c, u, t, y, r) <==> BestNeighbor(c, s, t, y, r)
  {
    forall a, b | a in s.rqs && b in s.rqs ensures NoWorse(c, u, a, b) <==> NoWorse(c, s, a, b) {
    }
    hide NoWorse, Follows, Precedes;
  }

  lemma InFifo(s: State, x: nat)
    requires Agrees(s) && Queued(s, x)
    ensures x in s.queues[s.rqs[x].dir].fifo
  {
    Agreement(s, s.rqs[x].dir);
    assert x in Elems(s.queues[s.rqs[x].dir].sort);
    hide Agrees;
  }

  // ---- the order in which queues are served ----

  function Rank(kind: Class): nat { match kind case RealTime => 0 case BestEffort => 1 case Idle => 2 }

  /** Real time first, idle last; within a class by the time of the next service. */
  predicate NoLater(a: Queue, b: Queue) { Rank(a.kind) < Rank(b.kind) || (a.kind == b.kind && a.key <= b.key) }

  predicate OrderedBy(queues: map<nat, Queue>, t: seq<nat>) {
    && (forall q :: q in t ==> q in queues)
    && forall i, j :: 0 <= i < j < |t| ==> NoLater(queues[t[i]], queues[t[j]])
  }

  predicate InOrder(s: State) { OrderedBy(s.queues, s.service) }

  /** Once the walk would go left of some queue, it goes left of all behind it. */
  predicate Monotone(t: seq<nat>, goLeft: nat -> bool) {
    forall i, j :: 0 <= i < j < |t| ==> goLeft(t[i]) ==> goLeft(t[j])
  }

  /** The walk goes right of the first k queues and left of the others. */
  predicate SplitAt(t: seq<nat>, goLeft: nat -> bool, k: nat) {
    forall i :: 0 <= i < |t| ==> (goLeft(t[i]) <==> k <= i)
  }

  lemma MonotoneParts(a: seq<nat>, x: nat, b: seq<nat>, goLeft: nat -> bool)
    requires Monotone(a + [x] + b, goLeft)
    ensures Monotone(a, goLeft) && Monotone(b, goLeft)
    ensures if goLeft(x) then SplitAt(b, goLeft, 0) else SplitAt(a, goLeft, |a|)
  {
    var u := a + [x] + b;
    assert u[|a|] == x;
    assert forall i :: 0 <= i < |a| ==> u[i] == a[i];
    assert forall i :: 0 <= i < |b| ==> u[|a| + 1 + i] == b[i];
  }

  lemma SplitWhole(a: seq<nat>, x: nat, b: seq<nat>, goLeft: nat -> bool, k: nat)
    requires if goLeft(x) then SplitAt(a, goLeft, k) && SplitAt(b, goLeft, 0) && k <= |a|
             else SplitAt(a, goLeft, |a|) && SplitAt(b, goLeft, k)
    ensures SplitAt(a + [x] + b, goLeft, if goLeft(x) then k else |a| + 1 + k)
  {
    var u := a + [x] + b;
    forall i | 0 <= i < |u| ensures u[i] == if i < |a| then a[i] else if i == |a| then x else b[i - |a| - 1] {
    }
  }

  /** In an ordered tree the walk ends between those it goes right of and those it goes
      left of. */
  lemma {:induction false} WalkPlace(t: Tree, goLeft: nat -> bool)
    requires Monotone(Inorder(t), goLeft)
    ensures SplitAt(Inorder(t), goLeft, LinkPlace(t, goLeft))
  {
    match t
    case Leaf =>
    case Node(l, x, r) =>
      MonotoneParts(Inorder(l), x, Inorder(r), goLeft);
      hide Monotone, SplitAt;
      if goLeft(x) { WalkPlace(l, goLeft); } else { WalkPlace(r, goLeft); }
      SplitWhole(Inorder(l), x, Inorder(r), goLeft, if goLeft(x) then LinkPlace(l, goLeft) else LinkPlace(r, goLeft));
  }

  lemma GoesLeftIs(s: State, q: nat, key: int, other: nat)
    requires q in s.queues && other in s.queues
    ensures GoesLeft(s, q, key, other) <==> !NoLater(s.queues[other], s.queues[q].(key := key))
  {
  }

  lemma GoesLeftMonotone(s: State, q: nat, key: int)
    requires q in s.queues && InOrder(s)
    ensures Monotone(s.service, (other: nat) => GoesLeft(s, q, key, other))
  {
    var t := s.service;
    forall i, j | 0 <= i < j < |t| && GoesLeft(s, q, key, t[i]) ensures GoesLeft(s, q, key, t[j]) {
      GoesLeftIs(s, q, key, t[i]);
      GoesLeftIs(s, q, key, t[j]);
      assert NoLater(s.queues[t[i]], s.queues[t[j]]);
    }
    hide GoesLeft;
  }

  lemma InsertOrdered(queues: map<nat, Queue>, t: seq<nat>, k: nat, q: nat)
    requires OrderedBy(queues, t) && k <= |t| && q in queues
    requires forall i :: 0 <= i < k ==> NoLater(queues[t[i]], queues[q])
    requires forall i :: k <= i < |t| ==> NoLater(queues[q], queues[t[i]])
    ensures OrderedBy(queues, t[..k] + [q] + t[k..])
  {
    var u := t[..k] + [q] + t[k..];
    hide NoLater;
    forall i, j | 0 <= i < j < |u| ensures NoLater(queues[u[i]], queues[u[j]]) {
      var a, b := if i <= k then i else i - 1, if j <= k then j else j - 1;
      assert (i != k ==> u[i] == t[a]) && (j != k ==> u[j] == t[b]);
    }
  }

  lemma CutOrdered(queues: map<nat, Queue>, t: seq<nat>, k: nat)
    requires OrderedBy(queues, t) && k < |t|
    ensures OrderedBy(queues, t[..k] + t[k + 1..])
  {
    var u := t[..k] + t[k + 1..];
    hide NoLater;
    forall i, j | 0 <= i < j < |u| ensures NoLater(queues[u[i]], queues[u[j]]) {
      var a, b := if i < k then i else i + 1, if j < k then j else j + 1;
      assert u[i] == t[a] && u[j] == t[b];
    }
  }

  lemma WithoutOrdered(queues: map<nat, Queue>, t: seq<nat>, q: nat)
    requires OrderedBy(queues, t)
    ensures OrderedBy(queues, Without(t, q))
  {
    if q in t {
      WithoutIs(t, q);
      CutOrdered(queues, t, IndexOf(t, q));
    } else {
      WithoutNothing(t, q);
    }
  }

  /** Queues that are not in the tree do not matter, nor does anything but class and key. */
  lemma OrderSame(queues: map<nat, Queue>, queues': map<nat, Queue>, t: seq<nat>)
    requires OrderedBy(queues, t)
    requires forall q :: q in t ==> q in queues' && queues'[q].kind == queues[q].kind && queues'[q].key == queues[q].key
    ensures OrderedBy(queues', t)
  {
    assert forall i :: 0 <= i < |t| ==> t[i] in t;
  }

  /** A walk in a tree without q. */
  lemma LinkOrdered(s: State, q: nat, key: int, shape: seq<nat> -> Tree)
    requires InOrder(s) && q in s.queues && q !in s.service && Balances(shape)
    ensures var goLeft := (other: nat) => GoesLeft(s, q, key, other);
            OrderedBy(s.queues[q := s.queues[q].(key := key)], Inorder(Link(shape(s.service), goLeft, q).0))
  {
    var goLeft := (other: nat) => GoesLeft(s, q, key, other);
    var t := s.service;
    LinkIs(shape(t), goLeft, q);
    GoesLeftMonotone(s, q, key);
    WalkPlace(shape(t), goLeft);
    var k := LinkPlace(shape(t), goLeft);
    var queues := s.queues[q := s.queues[q].(key := key)];
    OrderSame(s.queues, queues, t);
    forall i | 0 <= i < |t|
      ensures if i < k then NoLater(queues[t[i]], queues[q]) else NoLater(queues[q], queues[t[i]]) {
      assert t[i] in t;
      GoesLeftIs(s, q, key, t[i]);
    }
    hide NoLater, GoesLeft, Link, LinkPlace, Inorder;
    InsertOrdered(queues, t, k, q);
  }

  /** cfq_service_tree_add */
  lemma ServiceAddOrder(s: State, q: nat, key: int, shape: seq<nat> -> Tree)
    requires ServiceOk(s) && InOrder(s) && q in s.queues && Balances(shape)
    ensures var t := ServiceAdd(s, q, key, shape);
            InOrder(t) && q in t.queues && t.queues[q].key == key
  {
    if !(q in s.service && key == s.queues[q].key) {
      var e := if q in s.service then Erase(s, q) else s;
      if q in s.service {
        EraseOk(s, q);
        WithoutOrdered(s.queues, s.service, q);
        assert q !in e.service by { assert q !in Elems(e.service); }
      }
      LinkOrdered(e, q, key, shape);
    }
    hide Link, Inorder, GoesLeft, NoLater, OrderedBy, Without, Distinct;
  }

  /** Classes are changed without filing the queue again, so that the order is only kept if
      the queue is not in the tree, or fits where it is. */
  lemma BoostOrder(s: State, q: nat, kind: Class)
    requires ServiceOk(s) && InOrder(s) && q in s.queues
    ensures InOrder(Reclass(s, q, kind)) <==>
            forall r :: r in s.service && r != q && q in s.service ==>
                var b := s.queues[q].(kind := kind);
                && (IndexOf(s.service, r) < IndexOf(s.service, q) ==> NoLater(s.queues[r], b))
                && (IndexOf(s.service, q) < IndexOf(s.service, r) ==> NoLater(b, s.queues[r]))
  {
    hide NoLater;
    var t, queues := s.service, Reclass(s, q, kind).queues;
    if q !in t {
      assert InOrder(Reclass(s, q, kind));
    } else {
      var b := s.queues[q].(kind := kind);
      var k := IndexOf(t, q);
      forall i | 0 <= i < |t| ensures IndexOf(t, t[i]) == i && (t[i] == q <==> i == k) {
      }
      assert forall i :: 0 <= i < |t| && i != k ==> queues[t[i]] == s.queues[t[i]];
      assert queues[t[k]] == b;
    }
  }

  /** Two best-effort queues that are served at times 1 and 2. */
  const TWO := State(map[], {}, {}, map[0 := Queue([], [], None, true, 1, BestEffort),
                                        1 := Queue([], [], None, true, 2, BestEffort)],
                     [0, 1], Some(0), 2, 0, [], {})

  /** When the second one becomes a real-time queue, it still waits for the first. */
  lemma BoostCanSpoil()
    ensures ServiceOk(TWO) && InOrder(TWO) && !InOrder(Reclass(TWO, 1, RealTime))
    ensures FirstQueue(Reclass(TWO, 1, RealTime)) == Some(0)
  {
    var t := Reclass(TWO, 1, RealTime);
    assert !NoLater(t.queues[t.service[0]], t.queues[t.service[1]]);
  }

  /** The event files every queue whose class changes. */
  ghost predicate Filed(s: State, e: Event) {
    e.Boost? ==> e.q !in s.queues || !s.queues[e.q].onRr || s.queues[e.q].kind == e.kind
  }

  lemma SameOrder(s: State, t: State)
    requires InOrder(s) && t.service == s.service
    requires forall q :: q in s.service && q in s.queues ==>
                 q in t.queues && t.queues[q].kind == s.queues[q].kind && t.queues[q].key == s.queues[q].key
    ensures InOrder(t)
  {
    OrderSame(s.queues, t.queues, s.service);
    hide NoLater;
  }

  lemma RemoveOrder(c: Config, s: State, x: nat)
    requires AllKnown(s) && Queued(s, x) && InOrder(s)
    ensures InOrder(Remove(c, s, x))
  {
    WithoutOrdered(s.queues, s.service, s.rqs[x].dir);
    RemovedKeys(c, s, x);
    WithoutSubset(s.service, s.rqs[x].dir);
    hide NoLater, Remove;
    var t := Remove(c, s, x);
    OrderSame(s.queues, t.queues, t.service);
  }

  lemma RemovedKeys(c: Config, s: State, x: nat)
    requires AllKnown(s) && Queued(s, x)
    ensures var t := Remove(c, s, x);
            && (t.service == s.service || t.service == Without(s.service, s.rqs[x].dir))
            && forall q :: q in s.queues ==>
                   q in t.queues && t.queues[q].kind == s.queues[q].kind && t.queues[q].key == s.queues[q].key
  {
    hide FindNext, Without;
  }

  lemma {:induction false} ClearOrder(c: Config, s: State, x: nat)
    requires AllKnown(s) && x in s.rqs && s.rqs[x].dir in s.queues && InOrder(s)
    ensures InOrder(ClearSector(c, s, x))
    decreases |s.queues[s.rqs[x].dir].sort|
  {
    hide InOrder, Place, DispatchInsert;
    match Find(s.rqs, s.rqs[x].dir, s.queues[s.rqs[x].dir].sort, s.rqs[x].sector)
    case Some(alias) =>
      RemovedKnown(c, s, alias);
      DispatchOrder(c, s, alias);
      ClearOrder(c, DispatchInsert(c, s, alias), x);
    case None =>
  }

  lemma DispatchOrder(c: Config, s: State, x: nat)
    requires AllKnown(s) && Queued(s, x) && InOrder(s)
    ensures InOrder(DispatchInsert(c, s, x))
  {
    RemoveOrder(c, s, x);
    hide Remove, OrderedBy;
  }

  lemma AddRqRbOrder(c: Config, s: State, x: nat, key: int, shape: seq<nat> -> Tree)
    requires AllKnown(s) && x in s.rqs && s.rqs[x].dir in s.queues && ServiceOk(s) && QueuesOk(s, s.rqs[x].dir, {x})
    requires x !in s.queues[s.rqs[x].dir].sort && Balances(shape) && InOrder(s)
    ensures InOrder(AddRqRb(c, s, x, key, shape))
  {
    hide ServiceOk, QueueOk, Place, Find, ServiceAdd, ClearSector, Choose, InOrder, Balances;
    var q := s.rqs[x].dir;
    ClearKnown(c, s, x);
    ClearOk(c, s, x);
    ClearOrder(c, s, x);
    var e := ClearSector(c, s, x);
    var f := InsertSort(e, q, x);
    SameService(e, f, q);
    SameOrder(e, f);
    if !f.queues[q].onRr { AddRrOrder(f, q, key, shape); }
    var g := if !f.queues[q].onRr then AddRr(f, q, key, shape) else f;
    SameOrder(g, AddRqRb(c, s, x, key, shape));
  }

  lemma AddRrOrder(s: State, q: nat, key: int, shape: seq<nat> -> Tree)
    requires ServiceOk(s) && q in s.queues && !s.queues[q].onRr && Balances(shape) && InOrder(s)
    ensures InOrder(AddRr(s, q, key, shape)) && q in AddRr(s, q, key, shape).queues
  {
    var e := s.(queues := s.queues[q := s.queues[q].(onRr := true)], busy := s.busy + 1);
    AddRrOk(s, q, key, shape);
    SameOrder(s, e);
    LinkedOrder(e, q, key, shape);
    hide ServiceAdd, NoLater;
  }

  /** What ServiceAddOrder needs of the service tree. */
  lemma LinkedOrder(s: State, q: nat, key: int, shape: seq<nat> -> Tree)
    requires InOrder(s) && q in s.queues && q !in s.service && Balances(shape)
    ensures InOrder(ServiceAdd(s, q, key, shape))
  {
    LinkOrdered(s, q, key, shape);
    hide Link, Inorder, GoesLeft, NoLater, OrderedBy;
  }

  lemma StepOrder(c: Config, s: State, e: Event)
    requires Agrees(s) && AllKnown(s) && Enabled(s, e) && Filed(s, e) && InOrder(s)
    ensures InOrder(Step(c, s, e))
  {
    hide AllKnown, AddRqRb, Remove, ServiceAdd, FirstQueue, Balances, InOrder, ServiceOk, QueueOk;
    match e
    case Create(q, kind) => CreateOrder(s, q, kind);
    case Add(x, rq, isSync, isMeta, key, shape) =>
      var t := Flagged(s, x, isSync, isMeta);
      SameOrder(s, t);
      FlagsAgree(s, t);
      InvKnown(t);
      InsertOrder(c, t, x, rq, key, shape);
    case GrowFront(x, n, key, shape) => FrontMergeOrder(c, s, x, n, key, shape);
    case GrowBack(x, n) => SameOrder(s, BackMerge(s, x, n));
    case Join(x, y, older) => MergeOrder(c, s, x, y, older);
    case Move(x) => DispatchOrder(c, s, x);
    case Resort(q, key, shape) => ServiceAddOrder(s, q, key, shape);
    case Boost(q, kind) =>
      Agreement(s, q);
      SameOrder(s, Reclass(s, q, kind));
    case Peek => SameOrder(s, s.(left := FirstQueue(s)));
    case Seek(position) => SameOrder(s, s.(last := position));
  }

  lemma CreateOrder(s: State, q: nat, kind: Class)
    requires Agrees(s) && InOrder(s) && q !in s.queues
    ensures InOrder(NewQueue(s, q, kind))
  {
    SameOrder(s, NewQueue(s, q, kind));
    hide QueueOk;
  }

  lemma InsertOrder(c: Config, s: State, x: nat, rq: Rq<nat>, key: int, shape: seq<nat> -> Tree)
    requires Agrees(s) && x !in s.rqs && rq.dir in s.queues && AllKnown(s) && Balances(shape) && InOrder(s)
    ensures InOrder(Insert(c, s, x, rq, key, shape))
  {
    hide ServiceOk, QueueOk, AddRqRb, InOrder, Balances;
    var u := s.(rqs := s.rqs[x := rq]);
    NewRequest(s, x, rq, u);
    QueuesKnown(u, rq.dir, {x});
    SameOrder(s, u);
    AddRqRbOrder(c, u, x, key, shape);
    AddRqRbOk(c, u, x, key, shape);
    SameOrder(AddRqRb(c, u, x, key, shape), Insert(c, s, x, rq, key, shape));
  }

  lemma FrontMergeOrder(c: Config, s: State, x: nat, n: nat, key: int, shape: seq<nat> -> Tree)
    requires Agrees(s) && AllKnown(s) && Queued(s, x) && n <= s.rqs[x].sector && Balances(shape) && InOrder(s)
    ensures InOrder(FrontMerge(c, s, x, n, key, shape))
  {
    hide ServiceOk, QueueOk, AddRqRb, Without, InOrder, Balances;
    var q, u := s.rqs[x].dir, Lifted(s, x, n);
    TakenOut(s, q, x, u);
    QueuesKnown(u, q, {x});
    SameOrder(s, u);
    AddRqRbOrder(c, u, x, key, shape);
  }

  lemma MergeOrder(c: Config, s: State, x: nat, y: nat, older: bool)
    requires Agrees(s) && AllKnown(s) && x != y && Queued(s, x) && Queued(s, y) && s.rqs[x].dir == s.rqs[y].dir
    requires InOrder(s)
    ensures InOrder(MergeRequests(c, s, x, y, older))
  {
    InFifo(s, x);
    InFifo(s, y);
    MovedAgrees(s, x, y, older);
    MergeIs(c, s, x, y, older);
    hide Agrees, AllKnown, Queued, Remove, MergeRequests, InOrder, MoveBehind;
    var u := Relisted(s, x, y, older);
    SameOrder(s, u);
    RemoveOrder(c, u, y);
    SameOrder(Remove(c, u, y), MergeRequests(c, s, x, y, older));
  }

  ghost predicate ReachesFiled(c: Config, s: State, es: seq<Event>, t: State)
    decreases |es|
  {
    if es == [] then s == t
    else AllKnown(s) && Enabled(s, es[0]) && Filed(s, es[0]) && ReachesFiled(c, Step(c, s, es[0]), es[1..], t)
  }

  /** Over every run in which no queue changes its class while it is in the service tree, the
      queues are served by class and then by key. */
  lemma {:induction false} RunInOrder(c: Config, s: State, es: seq<Event>, t: State)
    requires Inv(s) && InOrder(s) && ReachesFiled(c, s, es, t)
    ensures InOrder(t)
    ensures FirstQueue(t).Some? ==>
            FirstQueue(t).value in t.queues
            && forall q :: q in t.queues && t.queues[q].sort != [] ==>
                   NoLater(t.queues[FirstQueue(t).value], t.queues[q])
    decreases |es|
  {
    hide Step, Enabled, AllKnown, Filed, Agrees, PlacesOk, NoLater, FirstQueue;
    if es != [] {
      StepKeeps(c, s, es[0]);
      StepOrder(c, s, es[0]);
      RunInOrder(c, Step(c, s, es[0]), es[1..], t);
    } else {
      FirstIsLeast(t);
    }
  }

  lemma FirstIsLeast(s: State)
    requires Agrees(s) && InOrder(s)
    ensures FirstQueue(s).Some? ==>
            FirstQueue(s).value in s.queues
            && forall q :: q in s.queues && s.queues[q].sort != [] ==>
                   NoLater(s.queues[FirstQueue(s).value], s.queues[q])
  {
    if FirstQueue(s).Some? {
      forall q | q in s.queues && s.queues[q].sort != []
        ensures s.service != [] && NoLater(s.queues[s.service[0]], s.queues[q]) {
        Agreement(s, q);
        var i := IndexOf(s.service, q);
        assert NoLater(s.queues[s.service[0]], s.queues[s.service[0]]);
      }
      if s.service != [] {
        assert s.service[0] in s.service;
        Agreement(s, s.service[0]);
      }
      hide QueueOk, NoLater;
    }
  }

  // ---- the order in which the requests of a queue are served ----

  /** From s the requests xs of queue q are dispatched, and that leads to t: each is next_rq
      when it is its turn, but the first is the oldest if that has expired. */
  ghost predicate Serves(c: Config, s: State, q: nat, xs: seq<nat>, expired: bool, t: State)
    decreases |xs|
  {
    if xs == [] then s == t else
      && AllKnown(s) && Queued(s, xs[0]) && s.rqs[xs[0]].dir == q
      && (if expired then s.queues[q].fifo != [] && s.queues[q].fifo[0] == xs[0] else s.queues[q].next == Some(xs[0]))
      && Serves(c, DispatchInsert(c, s, xs[0]), q, xs[1..], false, t)
  }

  lemma {:induction false} ServesOne(c: Config, s: State, q: nat, xs: seq<nat>, expired: bool, t: State, x: nat)
    requires Serves(c, s, q, xs, expired, t)
    requires AllKnown(t) && Queued(t, x) && t.rqs[x].dir == q
    requires if xs == [] && expired then t.queues[q].fifo != [] && t.queues[q].fifo[0] == x
             else t.queues[q].next == Some(x)
    ensures Serves(c, s, q, xs + [x], expired, DispatchInsert(c, t, x))
    decreases |xs|
  {
    hide DispatchInsert, AllKnown, Queued;
    if xs == [] {
      assert ([x])[1..] == [];
    } else {
      ServesOne(c, DispatchInsert(c, s, xs[0]), q, xs[1..], false, t, x);
      assert (xs + [x])[1..] == xs[1..] + [x];
    }
  }
}
