/** The request queue as the C code keeps it: one object whose fields the functions of
    ll_rw_blk.c and elevator.c change in place.  Every method is proved against the step
    functions of module Barrier. */
module RequestQueues {
  import opened Barrier

  /** `elv_dispatch_sort` queues `rq` behind `p` rather than going past it. */
  predicate StopsAt(s: State, rq: Request, boundary: nat, p: Request)
    requires rq.FsRq?
  {
    Fixed(s, p) || !p.FsRq? || p.write != rq.write
    || (if rq.sector >= boundary then p.sector >= boundary && rq.sector >= p.sector
        else p.sector >= boundary || rq.sector >= p.sector)
  }

  // ---- the order that sorted dispatch keeps ----

  /** One sweep of the head from the boundary on: first the sectors ahead of it, upwards,
      then those behind it, upwards. */
  predicate InSweep(boundary: nat, a: nat, b: nat) {
    if (a >= boundary) == (b >= boundary) then a <= b else a >= boundary
  }

  /** Requests among which rq may be sorted. */
  predicate Sortable(s: State, rq: Request, q: seq<Request>)
    requires rq.FsRq?
  {
    forall i :: 0 <= i < |q| ==> q[i].FsRq? && q[i].write == rq.write && !Fixed(s, q[i])
  }

  ghost predicate Swept(boundary: nat, q: seq<Request>)
    requires forall i :: 0 <= i < |q| ==> q[i].FsRq?
  {
    forall i, j :: 0 <= i < j < |q| ==> InSweep(boundary, q[i].sector, q[j].sector)
  }

  /** The tail of the queue behind the last request that rq must not pass stays one sweep. */
  lemma SweepKept(s: State, rq: Request, boundary: nat, wall: nat, pos: nat)
    requires rq.FsRq? && wall <= |s.head| && pos <= |s.head|
    requires Sortable(s, rq, s.head[wall..]) && Swept(boundary, s.head[wall..])
    requires wall > 0 ==> !Sortable(s, rq, [s.head[wall - 1]])
    requires forall k :: pos <= k < |s.head| ==> !StopsAt(s, rq, boundary, s.head[k])
    requires pos > 0 ==> StopsAt(s, rq, boundary, s.head[pos - 1])
    ensures wall <= pos
    ensures var q := Insert(s.head, pos, rq);
            (forall i :: 0 <= i < |q[wall..]| ==> q[wall..][i].FsRq?) && Swept(boundary, q[wall..])
  {
    if wall > 0 { WallStops(s, rq, boundary, s.head[wall - 1]); }
    hide Fixed;
    var t, k := s.head[wall..], pos - wall;
    assert Insert(s.head, pos, rq)[wall..] == t[..k] + [rq] + t[k..];
    forall i | 0 <= i < |t|
      ensures if i < k then InSweep(boundary, t[i].sector, rq.sector) else InSweep(boundary, rq.sector, t[i].sector)
    {
      assert t[i] == s.head[wall + i];
      if i < k {
        assert t[k - 1] == s.head[pos - 1];
        assert i < k - 1 ==> InSweep(boundary, t[i].sector, t[k - 1].sector);
      }
    }
    InsertSwept(boundary, t, k, rq);
  }

  lemma WallStops(s: State, rq: Request, boundary: nat, p: Request)
    requires rq.FsRq? && !Sortable(s, rq, [p])
    ensures StopsAt(s, rq, boundary, p)
  {
    hide Fixed;
  }

  lemma InsertSwept(boundary: nat, t: seq<Request>, k: nat, rq: Request)
    requires k <= |t| && rq.FsRq? && (forall i :: 0 <= i < |t| ==> t[i].FsRq?) && Swept(boundary, t)
    requires forall i :: 0 <= i < |t| ==>
               if i < k then InSweep(boundary, t[i].sector, rq.sector) else InSweep(boundary, rq.sector, t[i].sector)
    ensures var u := t[..k] + [rq] + t[k..]; (forall i :: 0 <= i < |u| ==> u[i].FsRq?) && Swept(boundary, u)
  {
    hide InSweep;
    var u := t[..k] + [rq] + t[k..];
    forall i, j | 0 <= i < j < |u| ensures InSweep(boundary, u[i].sector, u[j].sector) {
      var a, b := if i < k then i else i - 1, if j < k then j else j - 1;
      assert (i != k ==> u[i] == t[a]) && (j != k ==> u[j] == t[b]);
    }
  }

  lemma {:induction false} RunAppend(s: State, es: seq<Event>, e: Event)
    requires RunOk(s, es) && Enabled(Run(s, es), e)
    ensures RunOk(s, es + [e]) && Run(s, es + [e]) == Step(Run(s, es), e)
    decreases |es|
  {
    if es != [] {
      assert (es + [e])[1..] == es[1..] + [e];
      RunAppend(Step(s, es[0]), es[1..], e);
    }
  }

  lemma ProxiesStack(pre: bool, post: bool, rest: seq<Request>)
    ensures Proxies(pre, post) + rest ==
            (if pre then [PreFlushRq] else []) + ([BarRq] + ((if post then [PostFlushRq] else []) + rest))
  {
  }

  /** Dispatching leaves the counters that a new request is built from alone. */
  lemma {:induction false} RunColor(s: State, es: seq<Event>)
    requires RunOk(s, es) && forall e :: e in es ==> e.Dispatch?
    ensures Run(s, es).log == s.log && Run(s, es).ordcolor == s.ordcolor
    decreases |es|
  {
    if es != [] {
      assert es[0] in es;
      RunColor(Step(s, es[0]), es[1..]);
    }
  }

  /** The history variables that are not part of `struct request_queue`. */
  datatype History = History(done: set<nat>, errs: seq<int>, planned: seq<Stage>, passed: seq<Stage>,
                             ends: seq<(nat, int)>, bug: bool)

  class RequestQueue {
    var head: seq<Request>
    var held: set<Request>
    var driver: set<Request>
    var soft: set<Request>
    var started: set<Request>
    var inFlight: int
    var ordered: Ordered
    var nextOrdered: Ordered
    var ordseq: OrdSeq
    var ordcolor: bool
    var orderr: int
    var orig: Request
    var endSector: nat
    var log: seq<Request>
    ghost var h: History

    ghost function Abs(): State
      reads this
    {
      State(head, held, driver, soft, started, inFlight, ordered, nextOrdered, ordseq, ordcolor, orderr, orig,
            log, h.done, h.errs, h.planned, h.passed, h.ends, h.bug)
    }

    constructor (mode: Ordered)
      ensures Initial(Abs())
    {
      head, held, driver, soft, started := [], {}, {}, {}, {};
      inFlight, ordered, nextOrdered, ordseq, ordcolor, orderr := 0, mode, mode, ZERO, false, 0;
      orig, endSector := BarRq, 0;
      log, h := [], History({}, [], [], [], [], false);
    }

    /** `elv_dispatch_sort`: walk back from the tail to the request to queue behind. */
    method DispatchSort(rq: Request) returns (pos: nat)
      requires rq in held && rq.FsRq?
      modifies this
      ensures Enabled(old(Abs()), Dispatch(rq, pos)) && Abs() == Step(old(Abs()), Dispatch(rq, pos))
      ensures forall k :: pos <= k < |old(head)| ==> !StopsAt(old(Abs()), rq, old(endSector), old(head)[k])
      ensures pos > 0 ==> StopsAt(old(Abs()), rq, old(endSector), old(head)[pos - 1])
    {
      pos := |head|;
      while pos > 0
        invariant pos <= |head|
        invariant forall k :: pos <= k < |head| ==> !StopsAt(Abs(), rq, endSector, head[k])
      {
        var p := head[pos - 1];
        if p.FsRq? && p.write != rq.write { break; }
        if p in soft || p in started || Hard(p) { break; }
        if !p.FsRq? { break; }
        if rq.sector >= endSector {
          if p.sector >= endSector && rq.sector >= p.sector { break; }
        } else {
          if p.sector >= endSector || rq.sector >= p.sector { break; }
        }
        pos := pos - 1;
      }
      held := held - {rq};
      head := head[..pos] + [rq] + head[pos..];
    }

    /** `elv_drain_elevator`: the scheduler hands over everything, in whatever order. */
    method DrainElevator() returns (ghost drains: seq<Event>)
      requires forall r :: r in held ==> r.FsRq?
      modifies this
      ensures held == {}
      ensures forall e :: e in drains ==> e.Dispatch?
      ensures RunOk(old(Abs()), drains) && Abs() == Run(old(Abs()), drains)
    {
      drains := [];
      while held != {}
        invariant forall r :: r in held ==> r.FsRq?
        invariant forall e :: e in drains ==> e.Dispatch?
        invariant RunOk(old(Abs()), drains) && Abs() == Run(old(Abs()), drains)
        decreases held
      {
        var next :| next in held;
        var pos := DispatchSort(next);
        RunAppend(old(Abs()), drains, Dispatch(next, pos));
        drains := drains + [Dispatch(next, pos)];
      }
    }

    /** `elv_insert`: into the scheduler, or at the back of the dispatch queue. */
    method InsertRequest(rq: Request, sort: bool) returns (ghost drains: seq<Event>)
      requires forall r :: r in held ==> r.FsRq?
      modifies this
      ensures (forall e :: e in drains ==> e.Dispatch?) && (sort ==> drains == [])
      ensures RunOk(old(Abs()), drains)
      ensures var t := Run(old(Abs()), drains);
              if sort then Abs() == t.(held := t.held + {rq})
              else t.held == {} && Abs() == t.(head := t.head + [rq], soft := t.soft + {rq})
    {
      drains := [];
      if sort {
        held := held + {rq};
      } else {
        drains := DrainElevator();
        soft, head := soft + {rq}, head + [rq];
      }
    }

    /** `__elv_add_request` with ELEVATOR_INSERT_SORT. */
    method AddRequest(barrier: bool, sectors: nat, write: bool, sector: nat, elvpriv: bool)
      returns (ghost drains: seq<Event>)
      requires forall r :: r in held ==> r.FsRq?
      modifies this
      ensures forall e :: e in drains ==> e.Dispatch?
      ensures !barrier && elvpriv ==> drains == []
      ensures var e := Add(barrier, sectors, write, sector, elvpriv);
              && RunOk(old(Abs()), drains)
              && Enabled(Run(old(Abs()), drains), e)
              && Abs() == Step(Run(old(Abs()), drains), e)
    {
      var rq := FsRq(|log|, barrier, sectors, write, sector, ordcolor);
      if barrier { endSector := sector + sectors; }
      drains := InsertRequest(rq, !barrier && elvpriv);
      RunColor(old(Abs()), drains);
      // toggle the ordered colour
      if barrier { ordcolor := !ordcolor; }
      log := log + [rq];
    }

    method SetStage(st: Stage, error: int)
      modifies this
      ensures Abs() == MarkStage(old(Abs()), st, error)
    {
      hide OrdSeq.Has, OrdSeq.Set;
      orderr := if error != 0 && orderr == 0 then error else orderr;
      h := h.(errs := h.errs + [error], bug := h.bug || ordseq.Has(st), passed := h.passed + [st]);
      ordseq := ordseq.Set(st);
    }

    /** `blk_ordered_complete_seq` */
    method CompleteStage(st: Stage, error: int)
      modifies this
      ensures Abs() == CompleteSeq(old(Abs()), st, error)
    {
      hide OrdSeq.Has, OrdSeq.Set, MarkStage;
      SetStage(st, error);
      if CurSeq(ordseq) != Done || !orig.FsRq? { return; }
      ordseq := ZERO;
      h := h.(done := h.done + {orig.id}, ends := h.ends + [(orig.id, orderr)]);
    }

    /** The error branch of `req_bio_endio` for the proxy barrier. */
    method RecordErr(error: int)
      modifies this
      ensures Abs() == RecordError(old(Abs()), error)
    {
      if error != 0 && orderr == 0 { orderr := error; }
      h := h.(errs := h.errs + [error]);
    }

    /** The proxies are stacked at the head in reverse order, each one freshly initialised. */
    method StackProxies(pre: bool, post: bool)
      modifies this
      ensures var s := old(Abs());
              Abs() == s.(head := Proxies(pre, post) + s.head, soft := s.soft + ProxySet(pre, post),
                          started := s.started - ProxySet(pre, post))
    {
      hide ProxySet, Proxies;
      ProxiesStack(pre, post, head);
      head := (if post then [PostFlushRq] else []) + head;
      head := [BarRq] + head;
      head := (if pre then [PreFlushRq] else []) + head;
      soft, started := soft + ProxySet(pre, post), started - ProxySet(pre, post);
    }

    /** `start_ordered` */
    method Start() returns (go: bool)
      requires !InProgress(Abs()) && head != [] && IsBarrier(head[0])
      modifies this
      ensures (Abs(), go) == (StartOrdered(old(Abs())), old(inFlight) == 0)
    {
      hide ProxySet, Proxies, Remaining, Ordered.WantsPreFlush, Ordered.WantsPostFlush;
      var post, pre := nextOrdered.WantsPostFlush() && head[0].sectors > 0, nextOrdered.WantsPreFlush();
      orderr, ordered, orig, head := 0, nextOrdered, head[0], head[1..];
      StackProxies(pre, post);
      go := inFlight == 0;
      ordseq := OrdSeq(true, go, !pre, false, !post);
      h := h.(errs := [], passed := [], planned := Remaining(ordseq));
    }

    /** `elv_completed_request` */
    method CompletedRequest(rq: Request)
      modifies this
      ensures Abs() == Completed(old(Abs()), rq)
    {
      if IsFs(rq) && rq in started { inFlight := inFlight - 1; }
      if ordseq != ZERO && inFlight == 0 && CurSeq(ordseq) == Drain {
        if head == [] {
          h := h.(bug := true);
        } else if ReqSeq(orig, head[0]).Value() > Drain.Value() {
          CompleteStage(Drain, 0);
        }
      }
    }

    /** `pre_flush_end_io`, `bar_end_io`, `post_flush_end_io`, `__blk_put_request` */
    method End(rq: Request, error: int)
      modifies this
      ensures Abs() == EndRequest(old(Abs()), rq, error)
    {
      if rq.FsRq? { h := h.(done := h.done + {rq.id}); }
      CompletedRequest(rq);
      match rq
      case PreFlushRq => CompleteStage(PreFlush, error);
      case BarRq => CompleteStage(Bar, error);
      case PostFlushRq => CompleteStage(PostFlush, error);
      case _ =>
    }

    method Complete(rq: Request, error: int)
      requires rq in driver
      modifies this
      ensures Abs() == Step(old(Abs()), Event.Complete(rq, error))
    {
      driver := driver - {rq};
      End(rq, error);
    }

    /** `blk_do_ordered` on the front request. */
    method DoOrder() returns (go: bool)
      requires head != []
      modifies this
      ensures (Abs(), go) == DoOrdered(old(Abs()))
    {
      var rq := head[0];
      if ordseq == ZERO {
        if !(rq.FsRq? && rq.barrier) { return true; }
        go := Start();
      } else {
        if rq.SpecialRq? { return true; }
        var due, cur := ReqSeq(orig, rq).Value(), CurSeq(ordseq).Value();
        h := h.(bug := h.bug || due < cur);
        go := !(due > cur);
      }
    }

    /** One turn of `elv_next_request`: the request handed to the driver, if any. */
    method NextRequest() returns (handed: seq<Request>)
      requires head != [] && Inv(Abs())
      modifies this
      ensures Abs() == Step(old(Abs()), Next)
      ensures |handed| <= 1 && forall rq :: rq in handed ==> InTurn(Abs(), rq) && rq in head && rq in started
    {
      NextInTurn(Abs());
      hide Inv;
      handed := [];
      var go := DoOrder();
      if go {
        var rq := head[0];
        if rq.BarRq? && orig.FsRq? && orig.sectors == 0 {
          head := head[1..];
          End(rq, 0);
        } else {
          started := started + {rq};
          handed := [rq];
        }
      }
    }

    /** `elv_dequeue_request` */
    method DequeueRequest(rq: Request)
      requires rq in head && rq in started
      modifies this
      ensures Abs() == Step(old(Abs()), Dequeue(rq))
    {
      head := Remove(head, rq);
      driver := driver + {rq};
      if IsFs(rq) { inFlight := inFlight + 1; }
    }

    /** The list walk of ELEVATOR_INSERT_REQUEUE. */
    method FindPosition(st: Stage) returns (pos: nat)
      ensures pos == RequeuePosition(orig, st, head) <= |head|
    {
      pos := 0;
      while pos < |head| && !(st.Value() <= ReqSeq(orig, head[pos]).Value())
        invariant 0 <= pos <= |head|
        invariant RequeuePosition(orig, st, head) == pos + RequeuePosition(orig, st, head[pos..])
      {
        assert head[pos..][1..] == head[pos + 1..];
        pos := pos + 1;
      }
    }

    /** `elv_requeue_request` */
    method RequeueRequest(rq: Request)
      requires rq in driver
      modifies this
      ensures Abs() == Step(old(Abs()), Requeue(rq))
    {
      inFlight := if IsFs(rq) && rq in started then inFlight - 1 else inFlight;
      driver, started, soft := driver - {rq}, started - {rq}, soft + {rq};
      if ordseq == ZERO {
        head := [rq] + head;
      } else {
        var pos := FindPosition(ReqSeq(orig, rq));
        head := Insert(head, pos, rq);
      }
    }
  }
}
