/** What the deadline I/O scheduler promises its callers, said in terms of the queues alone:
    which request a dispatch hands out, how the two directions take turns, where an added
    or merged request stands. */
module DeadlineRules {
  import opened Lists
  import opened SortedTree
  import opened Deadline

  // ---- which request is handed out ----

  /** x goes on with the batch: it starts where the last request ended, in the same
      direction, and the batch is not full. */
  predicate Continues(c: Config, s: State, x: nat) {
    (s.side.r.next == Some(x) || s.side.w.next == Some(x))
    && x in s.rqs && s.last == s.rqs[x].sector && s.batching < c.fifoBatch
  }

  predicate BatchOver(c: Config, s: State) { forall x :: x in s.rqs ==> !Continues(c, s, x) }

  /** Reads go first, until writes have waited for writes_starved batches of reads; the tunable
      is compared as an unsigned 32-bit number. */
  predicate RightDirection(c: Config, s: State, d: Dir) {
    match d
    case Read => s.side.w.tree == [] || s.starved < c.writesStarved % 0x1_0000_0000
    case Write => s.side.r.tree == [] || s.starved >= c.writesStarved % 0x1_0000_0000
  }

  /** The oldest request if it has expired or the other direction was served last; otherwise
      the one behind the last in sector order. */
  predicate RightRequest(s: State, d: Dir, now: nat, x: nat) {
    var q := s.side.At(d);
    && q.fifo != [] && q.fifo[0] in s.rqs
    && (if now > s.rqs[q.fifo[0]].time || q.next.None? then x == q.fifo[0] else q.next == Some(x))
  }

  predicate Picked(c: Config, s: State, now: nat, x: nat) {
    if BatchOver(c, s) then
      x in s.rqs && RightDirection(c, s, s.rqs[x].dir) && RightRequest(s, s.rqs[x].dir, now, x)
    else Continues(c, s, x)
  }

  /** n is the first request above x in sector order. */
  predicate Above(rqs: map<nat, Rq<Dir>>, t: seq<nat>, x: nat, n: Option<nat>)
    requires x in rqs && forall y :: y in t ==> y in rqs
  {
    match n
    case None => forall y :: y in t ==> rqs[y].sector <= rqs[x].sector
    case Some(n) =>
      && n in t && rqs[x].sector < rqs[n].sector
      && forall y :: y in t ==> rqs[y].sector <= rqs[x].sector || rqs[n].sector <= rqs[y].sector
  }

  /** x has left its tree and its FIFO for the dispatch queue, and the head is behind it. */
  predicate Moved(s: State, x: nat, t: State)
    requires AllKnown(s)
  {
    x in s.rqs
    && var d := s.rqs[x].dir;
    && Elems(t.side.At(d).tree) == Elems(s.side.At(d).tree) - {x}
    && t.side.At(d).fifo == Without(s.side.At(d).fifo, x)
    && Above(s.rqs, s.side.At(d).tree, x, t.side.At(d).next)
    && t.side.At(Other(d)) == s.side.At(Other(d)).(next := None)
    && t.out == s.out + [x] && t.last == s.rqs[x].sector + s.rqs[x].sectors
    && t.rqs == s.rqs && t.gone == s.gone
  }

  /** The counters: a batch is counted from its first request on, and `starved` counts the
      batches of reads that began while writes were waiting. */
  predicate Counted(c: Config, s: State, x: nat, t: State)
    requires x in s.rqs
  {
    if BatchOver(c, s) then
      && t.batching == 1
      && t.starved == if s.rqs[x].dir == Write then 0 else if s.side.w.tree != [] then s.starved + 1 else s.starved
    else t.batching == s.batching + 1 && t.starved == s.starved
  }

  predicate HandsOut(c: Config, s: State, now: nat, t: State, r: Option<nat>)
    requires AllKnown(s)
  {
    && (r.None? <==> s.side.r.tree == [] && s.side.w.tree == [])
    && (r.None? ==> t.side == s.side && t.out == s.out && t.rqs == s.rqs)
    && (r.Some? ==> Queued(s, r.value) && Picked(c, s, now, r.value) && Moved(s, r.value, t)
                    && Counted(c, s, r.value, t))
  }

  /** At most one request can go on with the batch. */
  lemma OneContinues(c: Config, s: State, x: nat)
    requires Inv(c, s) && CanDispatch(s) && ConfigOk(c)
    ensures Continues(c, s, x) <==> InBatch(c, s) && BatchRequest(s) == Some(x)
  {
    hide SideOk, PlacesOk;
  }

  lemma BatchOverIs(c: Config, s: State)
    requires Inv(c, s) && CanDispatch(s) && ConfigOk(c)
    ensures BatchOver(c, s) <==> !InBatch(c, s)
  {
    hide Inv, Continues;
    forall x | x in s.rqs ensures Continues(c, s, x) <==> InBatch(c, s) && BatchRequest(s) == Some(x) {
      OneContinues(c, s, x);
    }
    if InBatch(c, s) { OneContinues(c, s, BatchRequest(s).value); }
  }

  lemma LatterAbove(rqs: map<nat, Rq<Dir>>, d: Dir, t: seq<nat>, x: nat)
    requires Sorted(rqs, d, t) && x in t
    ensures Above(rqs, t, x, Latter(t, x))
  {
    var k := IndexOf(t, x);
    forall y | y in t ensures rqs[y].sector <= rqs[x].sector
                              || (Latter(t, x).Some? && rqs[Latter(t, x).value].sector <= rqs[y].sector) {
      var j := IndexOf(t, y);
    }
  }

  lemma MoveIs(s: State, x: nat)
    requires AllKnown(s) && Queued(s, x) && Sorted(s.rqs, s.rqs[x].dir, s.side.At(s.rqs[x].dir).tree)
    ensures Moved(s, x, MoveRequest(s, x))
  {
    var d := s.rqs[x].dir;
    RemoveTree(s.rqs, d, s.side.At(d).tree, x);
    LatterAbove(s.rqs, d, s.side.At(d).tree, x);
    hide Sorted, Latter, Without, Above;
    assert Latter(s.side.At(d).tree, x) != Some(x) by {
      assert Latter(s.side.At(d).tree, x).Some? ==>
             Latter(s.side.At(d).tree, x).value in Elems(s.side.At(d).tree) - {x};
    }
  }

  lemma UnsignedIs(c: Config)
    requires ConfigOk(c)
    ensures Unsigned(c.writesStarved) == c.writesStarved % 0x1_0000_0000
  {
  }

  /** The dispatch of the scheduler hands out the request it should, in every reachable
      state. */
  lemma DispatchRule(c: Config, s: State, now: nat)
    requires Inv(c, s) && now >= s.now
    ensures ConfigOk(c) && CanDispatch(s)
    ensures HandsOut(c, s, now, Dispatch(c, s, now).0, Dispatch(c, s, now).1)
  {
    InvCanDispatch(c, s);
    ChoiceQueued(c, s, now);
    BatchOverIs(c, s);
    if InBatch(c, s) { GoesOn(c, s, now); } else { Begins(c, s, now); }
  }

  lemma MovedBy(c: Config, s: State, u: State, x: nat)
    requires Inv(c, s) && CanDispatch(s) && u.now >= s.now && Queued(s, x)
    requires u == s.(now := u.now, batching := u.batching, starved := u.starved)
    ensures var t := MoveRequest(u, x);
            Moved(s, x, t) && t.batching == u.batching && t.starved == u.starved
  {
    LaterInv(c, s, u);
    Turn(c, u, s.rqs[x].dir);
    TreeSorted(c, u, s.rqs[x].dir);
    MovedFields(u, x);
    MoveIs(u, x);
    hide QueuesOk, MoveRequest, Above, PlacesOk;
  }

  lemma GoesOn(c: Config, s: State, now: nat)
    requires Inv(c, s) && ConfigOk(c) && CanDispatch(s) && InBatch(c, s) && now >= s.now
    ensures HandsOut(c, s, now, Dispatch(c, s, now).0, Dispatch(c, s, now).1)
  {
    ChoiceQueued(c, s, now);
    BatchOverIs(c, s);
    InBatchCount(c, s);
    var x := BatchRequest(s).value;
    OneContinues(c, s, x);
    MovedBy(c, s, s.(now := now, batching := s.batching + 1), x);
    hide Inv, CanDispatch, MoveRequest, InBatch, Continues, BatchOver, Moved, BatchRequest;
    assert s.side.At(s.rqs[x].dir).tree != [];
  }

  /** The direction of a new batch and its first request. */
  lemma StartIs(c: Config, s: State, now: nat)
    requires Inv(c, s) && ConfigOk(c) && CanDispatch(s) && StartDir(c, s).Some?
    ensures var d := StartDir(c, s).value;
            && s.side.At(d).fifo != [] && RightDirection(c, s, d) && RightRequest(s, d, now, StartRequest(s, d, now))
            && StarvedAfter(s, d) ==
               if d == Write then 0 else if s.side.w.tree != [] then s.starved + 1 else s.starved
  {
    InvCanDispatch(c, s);
    UnsignedIs(c);
    hide Inv, Unsigned;
  }

  lemma Begins(c: Config, s: State, now: nat)
    requires Inv(c, s) && ConfigOk(c) && CanDispatch(s) && !InBatch(c, s) && now >= s.now
    ensures HandsOut(c, s, now, Dispatch(c, s, now).0, Dispatch(c, s, now).1)
  {
    ChoiceQueued(c, s, now);
    BatchOverIs(c, s);
    NothingQueued(c, s);
    hide Inv, CanDispatch, MoveRequest, InBatch, BatchOver, Moved, StartDir, RightDirection, RightRequest, StarvedAfter;
    if StartDir(c, s).Some? {
      var d := StartDir(c, s).value;
      StartIs(c, s, now);
      var x := StartRequest(s, d, now);
      MovedBy(c, s, s.(now := now, batching := 1, starved := StarvedAfter(s, d)), x);
      hide StartRequest;
      assert s.side.At(d).tree != [];
    }
  }

  // ---- how the two directions take turns ----

  /** The event hands out the first request of a new batch in direction d. */
  predicate BeginsBatch(c: Config, s: State, e: Event, d: Dir)
    requires ConfigOk(c) && CanDispatch(s)
  {
    && e.Hand? && BatchOver(c, s)
    && var r := Dispatch(c, s, e.when).1; r.Some? && r.value in s.rqs && s.rqs[r.value].dir == d
  }

  /** The batches of reads that begin while writes are waiting. */
  ghost function ReadStarts(c: Config, s: State, es: seq<Event>): nat
    requires Inv(c, s) && RunOk(c, s, es)
    decreases |es|
  {
    if es == [] then 0 else
      StepKeeps(c, s, es[0]);
      (if BeginsBatch(c, s, es[0], Read) && s.side.w.tree != [] then 1 else 0)
      + ReadStarts(c, Step(c, s, es[0]), es[1..])
  }

  ghost predicate NoWriteStart(c: Config, s: State, es: seq<Event>)
    requires Inv(c, s) && RunOk(c, s, es)
    decreases |es|
  {
    es == [] || (
      StepKeeps(c, s, es[0]);
      !BeginsBatch(c, s, es[0], Write) && NoWriteStart(c, Step(c, s, es[0]), es[1..]))
  }

  /** What one event does to `starved`. */
  lemma StepStarved(c: Config, s: State, e: Event)
    requires Inv(c, s) && Enabled(s, e)
    ensures ConfigOk(c) && CanDispatch(s)
    ensures Step(c, s, e).starved == if BeginsBatch(c, s, e, Write) then 0
                                     else if BeginsBatch(c, s, e, Read) && s.side.w.tree != [] then s.starved + 1
                                     else s.starved
  {
    StepKeeps(c, s, e);
    if e.Hand? {
      DispatchRule(c, s, e.when);
      if Dispatch(c, s, e.when).1.None? { NoneStarved(c, s, e.when); }
    } else {
      OthersFree(c, s, e);
    }
    hide Inv, CanDispatch, Dispatch, Picked, Moved, BatchOver, AddRequest, BackMerge, FrontMerge, MergeRequests;
  }

  lemma NoneStarved(c: Config, s: State, now: nat)
    requires ConfigOk(c) && CanDispatch(s) && Dispatch(c, s, now).1.None?
    ensures Dispatch(c, s, now).0.starved == s.starved
  {
    hide MoveRequest, StartRequest;
  }

  /** Between batches of writes, `starved` counts the batches of reads that go first; there
      are never more than writes_starved. */
  lemma {:induction false} StarvedCounts(c: Config, s: State, es: seq<Event>)
    requires Inv(c, s) && RunOk(c, s, es) && NoWriteStart(c, s, es)
    ensures Run(c, s, es).starved == s.starved + ReadStarts(c, s, es)
    ensures s.starved + ReadStarts(c, s, es) <= c.writesStarved % 0x1_0000_0000
    decreases |es|
  {
    hide Inv, Enabled, Step, BeginsBatch;
    if es == [] {
      StarvedBound(c, s);
    } else {
      StepStarved(c, s, es[0]);
      StepKeeps(c, s, es[0]);
      StarvedCounts(c, Step(c, s, es[0]), es[1..]);
    }
  }

  lemma StarvedBound(c: Config, s: State)
    requires Inv(c, s)
    ensures s.starved <= c.writesStarved % 0x1_0000_0000
  {
    UnsignedIs(c);
    hide QueuesOk, PlacesOk;
  }

  /** While reads are queued, a batch of writes only begins when writes_starved batches of
      reads have gone before waiting writes. */
  lemma WritesWait(c: Config, s: State, e: Event)
    requires Inv(c, s) && Enabled(s, e) && ConfigOk(c) && CanDispatch(s)
    requires BeginsBatch(c, s, e, Write) && s.side.r.tree != []
    ensures s.starved == c.writesStarved % 0x1_0000_0000
  {
    StarvedBound(c, s);
    DispatchRule(c, s, e.when);
    hide Inv, CanDispatch, Dispatch, Moved, Counted, BatchOver;
  }

  /** From one batch of writes to the next, exactly writes_starved batches of reads go before
      waiting writes, unless the reads run out. */
  lemma TakeTurns(c: Config, s: State, e: Event, es: seq<Event>, f: Event)
    requires Inv(c, s) && Enabled(s, e) && ConfigOk(c) && CanDispatch(s) && BeginsBatch(c, s, e, Write)
    requires var t := Step(c, s, e);
             && Inv(c, t) && RunOk(c, t, es) && NoWriteStart(c, t, es)
             && var u := Run(c, t, es);
             && Inv(c, u) && CanDispatch(u) && Enabled(u, f) && BeginsBatch(c, u, f, Write) && u.side.r.tree != []
    ensures ReadStarts(c, Step(c, s, e), es) == c.writesStarved % 0x1_0000_0000
  {
    StepStarved(c, s, e);
    var t := Step(c, s, e);
    StarvedCounts(c, t, es);
    WritesWait(c, Run(c, t, es), f);
    hide Inv, CanDispatch, Enabled, Step, BeginsBatch, NoWriteStart, Run;
  }

  // ---- where an added or merged request stands ----

  /** x is in its tree, and all else is as it was. */
  predicate Put(s: State, x: nat, t: State) {
    x in s.rqs
    && var d := s.rqs[x].dir;
    && Elems(t.side.At(d).tree) == Elems(s.side.At(d).tree) + {x}
    && t == s.(side := s.side.With(d, s.side.At(d).(tree := t.side.At(d).tree)))
  }

  predicate SameSector(s: State, x: nat, y: nat) {
    x in s.rqs && y in s.rqs && y in s.side.At(s.rqs[x].dir).tree && s.rqs[y].sector == s.rqs[x].sector
  }

  /** x is put into its tree; a request with its sector is dispatched before. */
  ghost predicate PutsIn(s: State, x: nat, t: State)
    requires AllKnown(s)
  {
    && ((forall y :: !SameSector(s, x, y)) ==> Put(s, x, t))
    && forall y :: SameSector(s, x, y) ==>
           Queued(s, y) && Moved(s, y, MoveRequest(s, y)) && Put(MoveRequest(s, y), x, t)
  }

  lemma FindIs(rqs: map<nat, Rq<Dir>>, d: Dir, t: seq<nat>, y: nat)
    requires Sorted(rqs, d, t) && y in t
    ensures Find(rqs, d, t, rqs[y].sector) == Some(y)
  {
    var i := IndexOf(t, y);
  }

  /** No other request has the sector of y. */
  lemma NoSecond(rqs: map<nat, Rq<Dir>>, d: Dir, t: seq<nat>, y: nat)
    requires Sorted(rqs, d, t) && y in t
    ensures var u := Without(t, y); Known(rqs, d, u) && Find(rqs, d, u, rqs[y].sector).None?
  {
    RemoveTree(rqs, d, t, y);
    var u := Without(t, y);
    hide Without;
    forall z | z in u ensures rqs[z].sector != rqs[y].sector {
      assert z in Elems(u);
      var i, j := IndexOf(t, z), IndexOf(t, y);
    }
  }

  lemma PutIs(s: State, x: nat)
    requires AllKnown(s) && x in s.rqs && Sorted(s.rqs, s.rqs[x].dir, s.side.At(s.rqs[x].dir).tree)
    requires Find(s.rqs, s.rqs[x].dir, s.side.At(s.rqs[x].dir).tree, s.rqs[x].sector).None?
    ensures Put(s, x, AddTree(s, x))
  {
    InsertTree(s.rqs, s.rqs[x].dir, s.side.At(s.rqs[x].dir).tree, x);
    hide Sorted, Place;
  }

  lemma PutAfter(s: State, x: nat, y: nat)
    requires AllKnown(s) && x in s.rqs && Sorted(s.rqs, s.rqs[x].dir, s.side.At(s.rqs[x].dir).tree)
    requires SameSector(s, x, y)
    ensures Queued(s, y) && Moved(s, y, MoveRequest(s, y)) && Put(MoveRequest(s, y), x, AddTree(s, x))
  {
    var d := s.rqs[x].dir;
    FindIs(s.rqs, d, s.side.At(d).tree, y);
    NoSecond(s.rqs, d, s.side.At(d).tree, y);
    MoveIs(s, y);
    MovedKnown(s, y);
    RemoveTree(s.rqs, d, s.side.At(d).tree, y);
    hide Sorted, Find, Without, Latter;
    PutIs(MoveRequest(s, y), x);
  }

  lemma AddTreeRule(s: State, x: nat)
    requires AllKnown(s) && x in s.rqs && Sorted(s.rqs, s.rqs[x].dir, s.side.At(s.rqs[x].dir).tree)
    ensures PutsIn(s, x, AddTree(s, x))
  {
    hide Sorted, AddTree, MoveRequest, Place, Moved, Put;
    forall y | SameSector(s, x, y)
      ensures Queued(s, y) && Moved(s, y, MoveRequest(s, y)) && Put(MoveRequest(s, y), x, AddTree(s, x)) {
      PutAfter(s, x, y);
    }
    if forall y :: !SameSector(s, x, y) {
      var r := Find(s.rqs, s.rqs[x].dir, s.side.At(s.rqs[x].dir).tree, s.rqs[x].sector);
      assert r.Some? ==> SameSector(s, x, r.value);
      PutIs(s, x);
    }
  }

  /** x is put into its tree, and behind the others into its FIFO. */
  ghost predicate PutsLast(s: State, x: nat, t: State)
    requires AllKnown(s) && x in s.rqs
  {
    var d := s.rqs[x].dir;
    var f := t.side.At(d).fifo;
    && f != [] && f[|f| - 1] == x
    && PutsIn(s, x, t.(side := t.side.With(d, t.side.At(d).(fifo := f[..|f| - 1]))))
  }

  /** The state in which a new request has its deadline and is nowhere yet. */
  function Arrived(c: Config, s: State, x: nat, rq: Rq<Dir>, now: nat): State {
    s.(rqs := s.rqs[x := Rq(rq.sector, rq.sectors, rq.dir, c.expire.At(rq.dir) + now)], now := now)
  }

  /** The state in which the request starts n sectors earlier and is out of its tree. */
  function Lifted(s: State, x: nat, n: nat): State
    requires Queued(s, x) && n <= s.rqs[x].sector
  {
    var rq := s.rqs[x];
    var q := s.side.At(rq.dir);
    s.(rqs := s.rqs[x := Rq(rq.sector - n, n + rq.sectors, rq.dir, rq.time)],
       side := s.side.With(rq.dir, q.(tree := Without(q.tree, x))))
  }

  lemma AppendIs(s: State, x: nat, t: State)
    requires AllKnown(s) && x in s.rqs && PutsIn(s, x, t)
    ensures var q := t.side.At(s.rqs[x].dir);
            PutsLast(s, x, t.(side := t.side.With(s.rqs[x].dir, q.(fifo := q.fifo + [x]))))
  {
    hide AllKnown, PutsIn;
    var d := s.rqs[x].dir;
    var q := t.side.At(d);
    assert (q.fifo + [x])[..|q.fifo|] == q.fifo;
    assert t.(side := t.side.With(d, q)) == t;
  }

  /** A new request goes to the end of its FIFO with its deadline, and into its tree. */
  lemma AddRule(c: Config, s: State, x: nat, rq: Rq<Dir>, now: nat)
    requires Inv(c, s) && x !in s.rqs && now >= s.now
    ensures AllKnown(s) && AllKnown(Arrived(c, s, x, rq, now))
    ensures PutsLast(Arrived(c, s, x, rq, now), x, AddRequest(c, s, x, rq, now))
  {
    InvCanDispatch(c, s);
    var d, u := rq.dir, Arrived(c, s, x, rq, now);
    hide Inv, AddTree, PutsIn, PutsLast, Sorted, QueuesOk;
    ArrivedOk(c, s, x, rq, now);
    AddTreeRule(u, x);
    AppendIs(u, x, AddTree(u, x));
  }

  lemma ArrivedOk(c: Config, s: State, x: nat, rq: Rq<Dir>, now: nat)
    requires Inv(c, s) && x !in s.rqs && now >= s.now
    ensures var u := Arrived(c, s, x, rq, now);
            AllKnown(u) && Sorted(u.rqs, rq.dir, u.side.At(rq.dir).tree)
  {
    var u := Arrived(c, s, x, rq, now);
    Turn(c, s, rq.dir);
    NewRequest(c, s, x, u.rqs[x], u);
    QueuesKnown(c, u, rq.dir, {x});
    HoleSorted(c, u, rq.dir, {x});
    hide QueuesOk, PlacesOk, Sorted;
  }

  lemma HoleSorted(c: Config, s: State, d: Dir, hole: set<nat>)
    requires QueuesOk(c, s, d, hole)
    ensures Sorted(s.rqs, d, s.side.At(d).tree)
  {
  }

  /** A front merge: the request starts earlier and is put where it belongs now. */
  lemma FrontMergeRule(c: Config, s: State, x: nat, n: nat)
    requires Inv(c, s) && Queued(s, x) && n <= s.rqs[x].sector
    ensures AllKnown(s) && AllKnown(Lifted(s, x, n))
    ensures PutsIn(Lifted(s, x, n), x, FrontMerge(s, x, n))
  {
    InvCanDispatch(c, s);
    var d, u := s.rqs[x].dir, Lifted(s, x, n);
    hide PlacesOk, AddTree, PutsIn, Sorted, SideOk, Without, OnlyChanges;
    Turn(c, s, d);
    OneChanged(s.rqs, x, u.rqs[x]);
    TakenOut(c, s, d, x, u);
    QueuesKnown(c, u, d, {x});
    HoleSorted(c, u, d, {x});
    AddTreeRule(u, x);
  }

  /** A joined request lies where both lay, and stands in the FIFO where the one of them
      stood that expires first, with its deadline. */
  predicate Joined(s: State, x: nat, y: nat, t: State)
    requires AllKnown(s) && x in s.rqs && y in s.rqs
  {
    var d := s.rqs[x].dir;
    var q, r := s.side.At(d), t.side.At(d);
    var rest := Without(q.fifo, x);
    && t.rqs == s.rqs[x := Rq(s.rqs[x].sector, s.rqs[x].sectors + s.rqs[y].sectors, d,
                              if s.rqs[x].time <= s.rqs[y].time then s.rqs[x].time else s.rqs[y].time)]
    && (s.rqs[x].time <= s.rqs[y].time ==> r.fifo == Without(q.fifo, y))
    && (s.rqs[x].time > s.rqs[y].time ==> y in rest && r.fifo == rest[IndexOf(rest, y) := x])
    && Elems(r.tree) == Elems(q.tree) - {y}
    && (if q.next == Some(y) then Above(s.rqs, q.tree, y, r.next) else r.next == q.next)
    && t.side.At(Other(d)) == s.side.At(Other(d)) && t.out == s.out && t.gone == s.gone + {y}
    && t.last == s.last && t.batching == s.batching && t.starved == s.starved
  }

  lemma MergeRule(c: Config, s: State, x: nat, y: nat)
    requires Inv(c, s) && x != y && Queued(s, x) && Queued(s, y) && s.rqs[x].dir == s.rqs[y].dir
    ensures AllKnown(s) && Joined(s, x, y, MergeRequests(s, x, y))
  {
    InvCanDispatch(c, s);
    var d := s.rqs[x].dir;
    var q := s.side.At(d);
    MergeParts(c, s, x, y);
    MovedAndCut(q.fifo, x, y);
    hide Inv, CanDispatch, AllKnown, Sorted, Above, Without, MoveBehind, Latter, Elems, IndexOf;
  }

  /** What a merge depends on. */
  lemma MergeParts(c: Config, s: State, x: nat, y: nat)
    requires Inv(c, s) && x != y && Queued(s, x) && Queued(s, y) && s.rqs[x].dir == s.rqs[y].dir
    ensures var q := s.side.At(s.rqs[x].dir);
            && AllKnown(s) && x in q.fifo && y in q.fifo && y in q.tree
            && Elems(Without(q.tree, y)) == Elems(q.tree) - {y} && Above(s.rqs, q.tree, y, Latter(q.tree, y))
  {
    InvCanDispatch(c, s);
    var d := s.rqs[x].dir;
    var q := s.side.At(d);
    Turn(c, s, d);
    TreeSorted(c, s, d);
    OneTree(c, s, d, x);
    OneTree(c, s, d, y);
    RemoveTree(s.rqs, d, q.tree, y);
    LatterAbove(s.rqs, d, q.tree, y);
    hide Inv, QueuesOk, Sorted, Without, Latter, Above;
  }
}
