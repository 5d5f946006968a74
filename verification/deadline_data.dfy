/** deadline-iosched.c as it updates `struct deadline_data` in place, proved against the
    functions of module Deadline. */
module DeadlineData {
  import opened Lists
  import opened SortedTree
  import opened Deadline
  import DeadlineRules

  class Data {
    var rqs: map<nat, Rq<Dir>>
    var side: Pair<Side>
    var batching: nat
    var starved: nat
    var lastSector: nat
    var now: nat
    var dispatched: seq<nat>
    ghost var gone: set<nat>
    const config: Config

    ghost function Abs(): State
      reads this
    {
      State(rqs, side, batching, starved, lastSector, now, dispatched, gone)
    }

    /** `deadline_init_queue` */
    constructor (c: Config)
      requires ConfigOk(c)
      ensures config == c && Abs() == Initial() && Inv(c, Abs())
    {
      config := c;
      rqs, side := map[], Pair(Side([], [], None), Side([], [], None));
      batching, starved, lastSector, now := 0, 0, 0, 0;
      dispatched, gone := [], {};
      new;
      InitialInv(c);
    }

    /** `deadline_remove_request`, `deadline_del_rq_rb` */
    method RemoveRequest(x: nat)
      requires Queued(Abs(), x)
      modifies this`side
      ensures Abs() == Deadline.RemoveRequest(old(Abs()), x)
    {
      var d := rqs[x].dir;
      var q := side.At(d);
      q := q.(fifo := Without(q.fifo, x));
      if q.next == Some(x) { q := q.(next := Latter(q.tree, x)); }
      q := q.(tree := Without(q.tree, x));
      side := side.With(d, q);
    }

    /** `deadline_move_request`, `deadline_move_to_dispatch` */
    method MoveRequest(x: nat)
      requires Queued(Abs(), x)
      modifies this`side, this`lastSector, this`dispatched
      ensures Abs() == Deadline.MoveRequest(old(Abs()), x)
    {
      var d := rqs[x].dir;
      side := Pair(side.r.(next := None), side.w.(next := None));
      side := side.With(d, side.At(d).(next := Latter(side.At(d).tree, x)));
      lastSector := rqs[x].sector + rqs[x].sectors;
      RemoveRequest(x);
      dispatched := dispatched + [x];
    }

    /** `deadline_add_rq_rb`: retry until no request has this sector. */
    method AddTree(x: nat)
      requires AllKnown(Abs()) && x in rqs
      modifies this`side, this`lastSector, this`dispatched
      ensures Abs() == Deadline.AddTree(old(Abs()), x)
    {
      hide Deadline.MoveRequest;
      var d := rqs[x].dir;
      while true
        invariant AllKnown(Abs()) && rqs == old(rqs) && Deadline.AddTree(Abs(), x) == Deadline.AddTree(old(Abs()), x)
        decreases |side.At(d).tree|
      {
        var alias := Find(rqs, d, side.At(d).tree, rqs[x].sector);
        if alias.None? { break; }
        MovedKnown(Abs(), alias.value);
        MoveRequest(alias.value);
      }
      var q := side.At(d);
      var k := Place(rqs, d, q.tree, rqs[x].sector);
      side := side.With(d, q.(tree := q.tree[..k] + [x] + q.tree[k..]));
    }

    /** `deadline_add_request` */
    method AddRequest(x: nat, rq: Rq<Dir>, when: nat)
      requires AllKnown(Abs()) && x !in rqs
      modifies this
      ensures Abs() == Deadline.AddRequest(config, old(Abs()), x, rq, when)
    {
      hide Deadline.AddTree;
      now := when;
      rqs := rqs[x := rq.(time := when + config.expire.At(rq.dir))];
      AddTree(x);
      var q := side.At(rq.dir);
      side := side.With(rq.dir, q.(fifo := q.fifo + [x]));
    }

    /** `deadline_merged_request`, after a bio of n sectors was put in front. */
    method MergedRequest(x: nat, n: nat)
      requires AllKnown(Abs()) && Queued(Abs(), x) && n <= rqs[x].sector
      modifies this
      ensures Abs() == FrontMerge(old(Abs()), x, n)
    {
      hide Deadline.AddTree;
      var d := rqs[x].dir;
      rqs := rqs[x := rqs[x].(sector := rqs[x].sector - n, sectors := rqs[x].sectors + n)];
      WithoutSubset(side.At(d).tree, x);
      side := side.With(d, side.At(d).(tree := Without(side.At(d).tree, x)));
      AddTree(x);
    }

    /** attempt_merge's lengthening of req, then `deadline_merged_requests` */
    method MergedRequests(x: nat, y: nat)
      requires x != y && Queued(Abs(), x) && Queued(Abs(), y) && rqs[x].dir == rqs[y].dir
      modifies this
      ensures Abs() == MergeRequests(old(Abs()), x, y)
    {
      hide Deadline.RemoveRequest, MoveBehind;
      var n := rqs[y].sectors;
      if x in side.At(rqs[x].dir).fifo && y in side.At(rqs[x].dir).fifo {
        if rqs[y].time < rqs[x].time { TakePlace(x, y); }
      }
      rqs := rqs[x := rqs[x].(sectors := rqs[x].sectors + n)];
      assert rqs == old(rqs)[x := rqs[x]];
      RemoveRequest(y);
      gone := gone + {y};
    }

    /** list_move(&req->queuelist, &next->queuelist) and rq_set_fifo_time */
    method TakePlace(x: nat, y: nat)
      requires x != y && x in rqs && y in rqs && y in side.At(rqs[x].dir).fifo
      modifies this`side, this`rqs
      ensures var s, d := old(Abs()), old(rqs[x].dir);
              Abs() == s.(rqs := s.rqs[x := s.rqs[x].(time := s.rqs[y].time)],
                          side := s.side.With(d, s.side.At(d).(fifo := MoveBehind(s.side.At(d).fifo, x, y))))
    {
      hide MoveBehind;
      var d := rqs[x].dir;
      side := side.With(d, side.At(d).(fifo := MoveBehind(side.At(d).fifo, x, y)));
      rqs := rqs[x := rqs[x].(time := rqs[y].time)];
    }

    /** The part of `deadline_dispatch_requests` before the choice of a direction: the next
        request, and whether it still belongs to the batch. */
    method ContinueBatch() returns (rq: Option<nat>, inBatch: bool)
      requires CanDispatch(Abs())
      modifies this`batching
      ensures rq == BatchRequest(old(Abs())) && inBatch == InBatch(config, old(Abs()))
      ensures Abs() == old(Abs()).(batching := BatchCount(config, old(Abs())))
    {
      rq := if side.w.next.Some? then side.w.next else side.r.next;
      inBatch := false;
      if rq.Some? {
        if lastSector != rqs[rq.value].sector { batching := batching + config.fifoBatch; }
        inBatch := batching < config.fifoBatch;
      }
    }

    /** The choice of a direction. */
    method ChooseDir() returns (d: Option<Dir>)
      requires ConfigOk(config)
      modifies this`starved
      ensures d == StartDir(config, old(Abs()))
      ensures Abs() == old(Abs()).(starved := if d.None? then old(starved) else StarvedAfter(old(Abs()), d.value))
    {
      var haveReads, haveWrites := side.r.fifo != [], side.w.fifo != [];
      if haveReads {
        if !haveWrites { return Some(Read); }
        if starved < Unsigned(config.writesStarved) {
          starved := starved + 1;
          return Some(Read);
        }
      }
      if haveWrites {
        starved := 0;
        return Some(Write);
      }
      return None;
    }

    /** dispatch_find_request */
    method StartBatch(d: Dir) returns (x: nat)
      requires ConfigOk(config) && CanDispatch(Abs()) && side.At(d).fifo != []
      modifies this
      ensures x == StartRequest(old(Abs()), d, old(now)) && Queued(old(Abs()), x)
      ensures Abs() == Deadline.MoveRequest(old(Abs()).(batching := 1), x)
    {
      hide Deadline.MoveRequest;
      ChoiceQueued(config, Abs(), now);
      var q := side.At(d);
      x := q.fifo[0];
      if now <= rqs[x].time && q.next.Some? { x := q.next.value; }
      batching := 1;
      MoveRequest(x);
    }

    /** The part behind the batch test: s is the state before the call. */
    method NewBatch(ghost s: State) returns (rq: Option<nat>)
      requires ConfigOk(config) && CanDispatch(s) && !InBatch(config, s)
      requires Abs() == s.(now := now, batching := BatchCount(config, s))
      modifies this
      ensures (Abs(), rq) == Dispatch(config, s, old(now))
    {
      hide Deadline.MoveRequest, Queued, CanDispatch, InBatch, BatchCount, StartRequest, StarvedAfter, StartDir,
           Dispatch;
      DispatchCases(config, s, now);
      StartSame(config, s, Abs());
      var d := ChooseDir();
      if d.None? { return None; }
      RequestSame(s, Abs(), d.value, now);
      assert Abs().(batching := 1) == s.(now := now, batching := 1, starved := StarvedAfter(s, d.value));
      var x := StartBatch(d.value);
      rq := Some(x);
    }

    /** dispatch_request, for a request of the running batch */
    method GoOn(x: nat)
      requires Queued(Abs(), x)
      modifies this
      ensures Abs() == Deadline.MoveRequest(old(Abs()).(batching := old(batching) + 1), x)
    {
      batching := batching + 1;
      MoveRequest(x);
    }

    /** `deadline_dispatch_requests` */
    method DispatchRequests(when: nat) returns (rq: Option<nat>)
      requires Inv(config, Abs()) && when >= now
      modifies this
      ensures ConfigOk(config) && CanDispatch(old(Abs()))
      ensures (Abs(), rq) == Dispatch(config, old(Abs()), when)
      ensures Inv(config, Abs())
      ensures DeadlineRules.HandsOut(config, old(Abs()), when, Abs(), rq)
    {
      ghost var s := Abs();
      DeadlineRules.DispatchRule(config, s, when);
      DispatchKeeps(config, s, when);
      hide Inv, Deadline.MoveRequest, Queued, CanDispatch, InBatch, BatchCount, BatchRequest, Dispatch, StartDir,
           StartRequest, StarvedAfter, DeadlineRules.HandsOut;
      DispatchCases(config, s, when);
      var inBatch;
      rq, inBatch := ContinueBatch();
      now := when;
      if inBatch {
        GoOn(rq.value);
      } else {
        rq := NewBatch(s);
      }
    }
  }

  /** Dispatch, case by case. */
  lemma DispatchCases(c: Config, s: State, now: nat)
    requires ConfigOk(c) && CanDispatch(s)
    ensures InBatch(c, s) ==> (
      && BatchRequest(s).Some? && Queued(s, BatchRequest(s).value)
      && Dispatch(c, s, now) == (MoveRequest(s.(now := now, batching := BatchCount(c, s) + 1), BatchRequest(s).value),
                                 BatchRequest(s)))
    ensures !InBatch(c, s) && StartDir(c, s).None? ==>
            Dispatch(c, s, now) == (s.(now := now, batching := BatchCount(c, s)), None)
    ensures !InBatch(c, s) && StartDir(c, s).Some? ==> (
      var d := StartDir(c, s).value;
      && s.side.At(d).fifo != [] && Queued(s, StartRequest(s, d, now))
      && Dispatch(c, s, now) == (MoveRequest(s.(now := now, batching := 1, starved := StarvedAfter(s, d)),
                                             StartRequest(s, d, now)), Some(StartRequest(s, d, now))))
  {
    ChoiceQueued(c, s, now);
    hide MoveRequest, CanDispatch, BatchCount, StartRequest, StarvedAfter, Queued;
  }

  /** The choices only look at the queues. */
  lemma StartSame(c: Config, s: State, t: State)
    requires ConfigOk(c) && t == s.(now := t.now, batching := t.batching)
    ensures StartDir(c, t) == StartDir(c, s)
    ensures forall d :: StarvedAfter(t, d) == StarvedAfter(s, d)
  {
  }

  lemma RequestSame(s: State, t: State, d: Dir, now: nat)
    requires CanDispatch(s) && s.side.At(d).fifo != []
             && t == s.(now := t.now, batching := t.batching, starved := t.starved)
    ensures CanDispatch(t) && StartRequest(t, d, now) == StartRequest(s, d, now)
  {
  }
}
