/** Ordered (barrier) sequences of the block layer, in the draining modes.

    The state is what `struct request_queue` keeps for ordering, plus two history
    variables: `log`, the fs requests in the order they were queued (a request's `id`
    is its index there), and `done`, the ids of those that have been ended.  The
    functions follow the C functions one by one; `Step` is one atomic step under the
    queue lock, and an arbitrary list of events is an arbitrary interleaving. */
module Barrier {

  datatype Request =
    | FsRq(id: nat, barrier: bool, sectors: nat, write: bool, sector: nat, color: bool)
    | SpecialRq(tag: nat)
    | PreFlushRq
    | BarRq
    | PostFlushRq

  /** The QUEUE_ORDSEQ_* values; Idle stands for 0. */
  datatype Stage = Idle | Started | Drain | PreFlush | Bar | PostFlush | Done {
    function Value(): nat {
      match this
      case Idle => 0
      case Started => 0x01
      case Drain => 0x02
      case PreFlush => 0x04
      case Bar => 0x08
      case PostFlush => 0x10
      case Done => 0x20
    }
  }

  /** The bits of `q->ordseq`. */
  datatype OrdSeq = OrdSeq(started: bool, drain: bool, preflush: bool, bar: bool, postflush: bool) {
    predicate Has(st: Stage) {
      match st
      case Started => started
      case Drain => drain
      case PreFlush => preflush
      case Bar => bar
      case PostFlush => postflush
      case _ => false
    }

    function Set(st: Stage): OrdSeq {
      match st
      case Started => this.(started := true)
      case Drain => this.(drain := true)
      case PreFlush => this.(preflush := true)
      case Bar => this.(bar := true)
      case PostFlush => this.(postflush := true)
      case _ => this
    }
  }

  const ZERO := OrdSeq(false, false, false, false, false)

  datatype Ordered = DRAIN | DRAIN_FLUSH | DRAIN_FUA {
    predicate WantsPreFlush() { this != DRAIN }
    predicate WantsPostFlush() { this == DRAIN_FLUSH }
  }

  datatype State = State(
    head: seq<Request>,       // q->queue_head
    held: set<Request>,       // requests inside the I/O scheduler
    driver: set<Request>,     // dequeued, not yet completed
    soft: set<Request>,       // REQ_SOFTBARRIER set
    started: set<Request>,    // REQ_STARTED set
    inFlight: int,
    ordered: Ordered,
    nextOrdered: Ordered,
    ordseq: OrdSeq,
    ordcolor: bool,
    orderr: int,
    orig: Request,            // q->orig_bar_rq, meaningful while ordseq != 0
    log: seq<Request>,        // history: every fs request queued, in order
    done: set<nat>,           // history: ids of ended fs requests
    errs: seq<int>,           // history: errors reported in the current sequence
    planned: seq<Stage>,      // history: stages the current sequence has to complete
    passed: seq<Stage>,       // history: stages completed so far, by blk_ordered_complete_seq
    ends: seq<(nat, int)>,    // history: original barriers ended, with their error
    bug: bool                 // history: a BUG_ON or WARN_ON has fired
  )

  datatype Event =
    | Add(barrier: bool, sectors: nat, write: bool, sector: nat, elvpriv: bool)
    | AddSpecial(tag: nat, front: bool)
    | Dispatch(rq: Request, pos: nat)
    | Next
    | Dequeue(rq: Request)
    | BarError(error: int)
    | Complete(rq: Request, error: int)
    | Requeue(rq: Request)
    | SetOrdered(mode: Ordered)

  predicate InProgress(s: State) { s.ordseq != ZERO }

  predicate IsFs(rq: Request) { rq.FsRq? || rq.BarRq? }

  predicate Hard(rq: Request) { rq.PreFlushRq? || rq.BarRq? || rq.PostFlushRq? || (rq.FsRq? && rq.barrier) }

  /** REQ_SOFTBARRIER, REQ_HARDBARRIER or REQ_STARTED: no request is sorted past it. */
  predicate Fixed(s: State, rq: Request) { rq in s.soft || rq in s.started || Hard(rq) }

  function Remove(q: seq<Request>, rq: Request): (r: seq<Request>)
    ensures rq !in q ==> r == q
  {
    if q == [] then [] else if q[0] == rq then q[1..] else [q[0]] + Remove(q[1..], rq)
  }

  // ---- ll_rw_blk.c ----

  /** `blk_ordered_cur_seq`: the lowest clear bit. */
  function CurSeq(o: OrdSeq): Stage {
    if o == ZERO then Idle
    else if !o.started then Started
    else if !o.drain then Drain
    else if !o.preflush then PreFlush
    else if !o.bar then Bar
    else if !o.postflush then PostFlush
    else Done
  }

  /** `blk_ordered_req_seq` */
  function ReqSeq(orig: Request, rq: Request): Stage {
    match rq
    case PreFlushRq => PreFlush
    case BarRq => Bar
    case PostFlushRq => PostFlush
    case SpecialRq(_) => Drain
    case FsRq(_, _, _, _, _, color) => if orig.FsRq? && color == orig.color then Drain else Done
  }

  /** The stages whose bits are still clear. */
  function Remaining(o: OrdSeq): seq<Stage> {
    (if o.drain then [] else [Drain]) + (if o.preflush then [] else [PreFlush])
    + (if o.bar then [] else [Bar]) + (if o.postflush then [] else [PostFlush])
  }

  function FirstError(errs: seq<int>): int {
    if errs == [] then 0 else if errs[0] != 0 then errs[0] else FirstError(errs[1..])
  }

  /** Every place that does `if (error && !q->orderr) q->orderr = error`. */
  function RecordError(s: State, error: int): State {
    s.(orderr := if error != 0 && s.orderr == 0 then error else s.orderr, errs := s.errs + [error])
  }

  function MarkStage(s: State, st: Stage, error: int): State {
    RecordError(s, error).(bug := s.bug || s.ordseq.Has(st), ordseq := s.ordseq.Set(st), passed := s.passed + [st])
  }

  /** `blk_ordered_complete_seq` */
  function CompleteSeq(s: State, st: Stage, error: int): State {
    var t := MarkStage(s, st, error);
    if CurSeq(t.ordseq) != Done || !t.orig.FsRq? then t
    else t.(ordseq := ZERO, done := t.done + {t.orig.id}, ends := t.ends + [(t.orig.id, t.orderr)])
  }

  /** The proxy requests of a sequence, in the order they are to be served. */
  function Proxies(pre: bool, post: bool): seq<Request> {
    (if pre then [PreFlushRq] else []) + [BarRq] + (if post then [PostFlushRq] else [])
  }

  function ProxySet(pre: bool, post: bool): (r: set<Request>)
    ensures BarRq in r && (PreFlushRq in r <==> pre) && (PostFlushRq in r <==> post)
    ensures forall x :: x in r ==> !x.FsRq? && !x.SpecialRq?
  {
    {BarRq} + (if pre then {PreFlushRq} else {}) + (if post then {PostFlushRq} else {})
  }

  /** `start_ordered`, called with the barrier at the front of the dispatch queue. */
  function StartOrdered(s: State): State
    requires s.head != [] && s.head[0].FsRq?
  {
    var post := s.nextOrdered.WantsPostFlush() && s.head[0].sectors > 0;
    var pre := s.nextOrdered.WantsPreFlush();
    var ordseq := OrdSeq(true, s.inFlight == 0, !pre, false, !post);
    s.(orderr := 0, errs := [], passed := [], planned := Remaining(ordseq),
       ordered := s.nextOrdered,
       orig := s.head[0],
       head := Proxies(pre, post) + s.head[1..],
       soft := s.soft + ProxySet(pre, post),
       started := s.started - ProxySet(pre, post),
       ordseq := ordseq)
  }

  /** `blk_do_ordered` on the front request: the new state, and whether the front
      request is handed out (`*rqp != NULL`). */
  function DoOrdered(s: State): (State, bool)
    requires s.head != []
  {
    var rq := s.head[0];
    if !InProgress(s) then
      if !(rq.FsRq? && rq.barrier) then (s, true)
      else var t := StartOrdered(s); (t, s.inFlight == 0)
    else if rq.SpecialRq? then (s, true)
    else
      var due, cur := ReqSeq(s.orig, rq).Value(), CurSeq(s.ordseq).Value();
      (s.(bug := s.bug || due < cur), !(due > cur))
  }

  // ---- elevator.c ----

  /** `elv_completed_request` */
  function Completed(s: State, rq: Request): State {
    var s1 := if IsFs(rq) && rq in s.started then s.(inFlight := s.inFlight - 1) else s;
    if InProgress(s1) && s1.inFlight == 0 && CurSeq(s1.ordseq) == Drain then
      if s1.head == [] then s1.(bug := true)
      else if ReqSeq(s1.orig, s1.head[0]).Value() > Drain.Value() then CompleteSeq(s1, Drain, 0)
      else s1
    else s1
  }

  /** The stage a proxy request completes. */
  function ProxyStage(rq: Request): Stage {
    match rq
    case PreFlushRq => PreFlush
    case BarRq => Bar
    case PostFlushRq => PostFlush
    case _ => Idle
  }

  /** The end of a request: `pre_flush_end_io`, `bar_end_io` and `post_flush_end_io` for
      the proxies, `__blk_put_request` for the others. */
  function EndRequest(s: State, rq: Request, error: int): State {
    var s1 := if rq.FsRq? then s.(done := s.done + {rq.id}) else s;
    var s2 := Completed(s1, rq);
    if ProxyStage(rq).Idle? then s2 else CompleteSeq(s2, ProxyStage(rq), error)
  }

  /** The front request is handed to the driver and marked REQ_STARTED; an empty barrier
      placeholder is ended on the spot instead. */
  function Serve(s: State): State
    requires s.head != []
  {
    var rq := s.head[0];
    if rq.BarRq? && s.orig.FsRq? && s.orig.sectors == 0
    then EndRequest(s.(head := s.head[1..]), rq, 0)
    else s.(started := s.started + {rq})
  }

  /** `elv_next_request`: one turn of its loop. */
  function NextRequest(s: State): State
    requires s.head != []
  {
    var (s1, handed) := DoOrdered(s);
    if !handed || s1.head == [] then s1 else Serve(s1)
  }

  /** The position ELEVATOR_INSERT_REQUEUE gives a request while a sequence is in progress. */
  function RequeuePosition(orig: Request, st: Stage, q: seq<Request>): (k: nat)
    ensures k <= |q|
    ensures forall i :: 0 <= i < k ==> ReqSeq(orig, q[i]).Value() < st.Value()
    ensures k < |q| ==> st.Value() <= ReqSeq(orig, q[k]).Value()
  {
    if q == [] || st.Value() <= ReqSeq(orig, q[0]).Value() then 0 else 1 + RequeuePosition(orig, st, q[1..])
  }

  function Insert(q: seq<Request>, k: nat, rq: Request): seq<Request>
    requires k <= |q|
  {
    q[..k] + [rq] + q[k..]
  }

  /** `elv_requeue_request` */
  function RequeueRequest(s: State, rq: Request): State {
    var s1 := s.(driver := s.driver - {rq},
                 inFlight := if IsFs(rq) && rq in s.started then s.inFlight - 1 else s.inFlight,
                 started := s.started - {rq},
                 soft := s.soft + {rq});
    if !InProgress(s) then s1.(head := [rq] + s1.head)
    else s1.(head := Insert(s1.head, RequeuePosition(s.orig, ReqSeq(s.orig, rq), s.head), rq))
  }

  /** `__elv_add_request` with ELEVATOR_INSERT_SORT; a barrier, or a request without
      scheduler data, goes to the back of the dispatch queue instead. */
  function AddRequest(s: State, barrier: bool, sectors: nat, write: bool, sector: nat, elvpriv: bool): State {
    var rq := FsRq(|s.log|, barrier, sectors, write, sector, s.ordcolor);
    var s1 := s.(log := s.log + [rq], ordcolor := s.ordcolor != barrier);
    if !barrier && elvpriv then s1.(held := s1.held + {rq})
    else s1.(head := s1.head + [rq], soft := s1.soft + {rq})
  }

  // ---- events ----

  predicate Enabled(s: State, e: Event) {
    match e
    // ELEVATOR_INSERT_BACK drains the scheduler first: that is a run of Dispatch events
    case Add(barrier, _, _, _, elvpriv) => (barrier || !elvpriv) ==> s.held == {}
    case AddSpecial(tag, front) => SpecialRq(tag) !in s.head && SpecialRq(tag) !in s.driver && (!front ==> s.held == {})
    case Dispatch(rq, pos) =>
      rq in s.held && pos <= |s.head| && forall k :: pos <= k < |s.head| ==> !Fixed(s, s.head[k])
    case Next => s.head != []
    case Dequeue(rq) => rq in s.head && rq in s.started
    case BarError(_) => BarRq in s.driver
    case Complete(rq, _) => rq in s.driver
    case Requeue(rq) => rq in s.driver
    case SetOrdered(_) => true
  }

  function Step(s: State, e: Event): State
    requires Enabled(s, e)
  {
    match e
    case Add(barrier, sectors, write, sector, elvpriv) => AddRequest(s, barrier, sectors, write, sector, elvpriv)
    case AddSpecial(tag, front) =>
      var rq := SpecialRq(tag);
      s.(head := if front then [rq] + s.head else s.head + [rq], soft := s.soft + {rq}, started := s.started - {rq})
    case Dispatch(rq, pos) => s.(held := s.held - {rq}, head := Insert(s.head, pos, rq))
    case Next => NextRequest(s)
    case Dequeue(rq) =>
      s.(head := Remove(s.head, rq), driver := s.driver + {rq},
         inFlight := if IsFs(rq) then s.inFlight + 1 else s.inFlight)
    case BarError(error) => RecordError(s, error)
    case Complete(rq, error) => EndRequest(s.(driver := s.driver - {rq}), rq, error)
    case Requeue(rq) => RequeueRequest(s, rq)
    case SetOrdered(mode) => s.(ordered := mode, nextOrdered := mode)
  }

  // ---- the invariant ----

  function Elems(q: seq<Request>): set<Request> { set r | r in q }

  ghost predicate Known(log: seq<Request>, rq: Request) {
    rq.FsRq? ==> rq.id < |log| && log[rq.id] == rq
  }

  /** `log` is numbered, and each request's colour is the toggling ordcolor it was given. */
  ghost predicate LogOk(log: seq<Request>, ordcolor: bool) {
    && (forall i :: 0 <= i < |log| ==> log[i].FsRq? && log[i].id == i)
    && (forall i :: 0 < i < |log| ==> log[i].color == (log[i - 1].color != log[i - 1].barrier))
    && (log != [] ==> ordcolor == (log[|log| - 1].color != log[|log| - 1].barrier))
  }

  predicate IsBarrier(rq: Request) { rq.FsRq? && rq.barrier }

  function Place(orig: Request, rq: Request): Stage {
    match rq
    case FsRq(id, _, _, _, _, _) => if orig.FsRq? && id < orig.id then Drain else Done
    case SpecialRq(_) => Drain
    case _ => ProxyStage(rq)
  }

  /** `a` may stand before `b` in the dispatch queue: barriers keep the queueing order,
      and during a sequence (`going`) the places are sorted, specials aside. */
  predicate Before(going: bool, orig: Request, a: Request, b: Request) {
    && a != b
    && (a.FsRq? && b.FsRq? && (a.barrier || b.barrier) ==> a.id < b.id)
    && (going && !a.SpecialRq? && !b.SpecialRq? ==> Place(orig, a).Value() <= Place(orig, b).Value())
  }

  ghost predicate Sorted(going: bool, orig: Request, q: seq<Request>) {
    forall i, j :: 0 <= i < j < |q| ==> Before(going, orig, q[i], q[j])
  }

  /** What holds of every request inside the scheduler, in the dispatch queue, at the driver. */
  predicate HeldOk(s: State, rq: Request) {
    && rq.FsRq? && !rq.barrier && rq.id !in s.done && rq !in s.driver && rq !in s.started && rq !in Elems(s.head)
    && (InProgress(s) && s.orig.FsRq? ==> s.orig.id < rq.id)
  }

  predicate HeadOk(s: State, rq: Request) {
    && rq !in s.driver && (rq.FsRq? ==> rq.id !in s.done)
    && (InProgress(s) && s.orig.FsRq? && rq.FsRq? ==>
          && (rq.id < s.orig.id ==> rq in s.soft && !rq.barrier)
          && (s.orig.id <= rq.id ==> rq !in s.started)
          && rq.id != s.orig.id)
  }

  predicate DriverOk(s: State, rq: Request) {
    && rq in s.started
    && (rq.FsRq? ==> !rq.barrier && rq.id !in s.done)
    && (InProgress(s) && s.orig.FsRq? && rq.FsRq? ==> rq.id < s.orig.id)
  }

  /** A waiting barrier has everything queued earlier before it, everything later behind. */
  predicate BarrierOk(s: State, b: Request)
    requires b.FsRq?
  {
    && (forall r :: r in s.held && r.FsRq? ==> b.id < r.id)
    && (forall r :: r in s.driver && r.FsRq? ==> r.id < b.id)
    && (forall r :: r in s.started && r in Elems(s.head) && r.FsRq? ==> r.id < b.id)
  }

  /** Where an unfinished fs request can be. */
  predicate Outstanding(s: State, rq: Request) {
    rq in s.held || rq in Elems(s.head) || rq in s.driver || (InProgress(s) && rq == s.orig)
  }

  /** No request is in two places. */
  ghost predicate Placed(s: State) {
    && (forall r :: r in s.held || r in s.driver || r in Elems(s.head) || r in s.started || r in s.soft ==>
        Known(s.log, r))
    && (forall r :: r in s.held ==> HeldOk(s, r))
    && (forall r :: r in s.driver ==> DriverOk(s, r))
    && (forall r :: r in Elems(s.head) ==> HeadOk(s, r))
  }

  /** No request is lost. */
  ghost predicate Covered(s: State) {
    && (forall i :: i in s.done ==> i < |s.log|)
    && (forall i :: 0 <= i < |s.log| ==> i in s.done || Outstanding(s, s.log[i]))
  }

  ghost predicate BarriersOk(s: State) {
    && (forall b :: b in Elems(s.head) && IsBarrier(b) ==> BarrierOk(s, b))
    && (forall b, i :: b in s.done && 0 <= i < b < |s.log| && IsBarrier(s.log[b]) ==> i in s.done)
  }

  /** A proxy is on the queue or at the driver until its stage is complete, and it is not
      handed out before the stages in front of it are.  The proxy of the stage `ending`
      has just left both. */
  predicate ProxyOk(s: State, rq: Request, before: bool, ending: Stage) {
    if ProxyStage(rq) == ending then
      rq !in Elems(s.head) && rq !in s.driver && !s.ordseq.Has(ending) && before
    else
      && (rq in Elems(s.head) || rq in s.driver <==> !s.ordseq.Has(ProxyStage(rq)))
      && (rq in s.driver || (rq in Elems(s.head) && rq in s.started) ==> before)
  }

  ghost predicate SequenceOk(s: State, ending: Stage) {
    var o := s.ordseq;
    && IsBarrier(s.orig) && Known(s.log, s.orig) && s.orig.id !in s.done
    && o.started && CurSeq(o) != Done
    && ProxyOk(s, PreFlushRq, o.drain, ending) && ProxyOk(s, BarRq, o.drain && o.preflush, ending)
    && ProxyOk(s, PostFlushRq, o.drain && o.preflush && o.bar, ending)
    && (o.bar ==> o.drain && o.preflush)
    && (o.drain ==> forall i :: 0 <= i < s.orig.id ==> i in s.done)
    && (s.orig.sectors == 0 ==> BarRq !in s.started && o.postflush)
    && s.orderr == FirstError(s.errs)
    && s.planned == s.passed + Remaining(o)
  }

  predicate NoProxies(s: State) {
    && PreFlushRq !in Elems(s.head) && BarRq !in Elems(s.head) && PostFlushRq !in Elems(s.head)
    && PreFlushRq !in s.driver && BarRq !in s.driver && PostFlushRq !in s.driver
  }

  ghost predicate PhaseOk(s: State, ending: Stage) {
    if InProgress(s) then SequenceOk(s, ending) else NoProxies(s)
  }

  /** Each original barrier is ended once, in the queueing order. */
  ghost predicate EndsOk(s: State) {
    && (forall i, j :: 0 <= i < j < |s.ends| ==> s.ends[i].0 < s.ends[j].0)
    && (forall i :: 0 <= i < |s.ends| ==>
        s.ends[i].0 in s.done && s.ends[i].0 < |s.log| && IsBarrier(s.log[s.ends[i].0]))
  }

  function Accounted(driver: set<Request>): set<Request> {
    set r | r in driver && IsFs(r)
  }

  ghost predicate InvEnding(s: State, ending: Stage) {
    && LogOk(s.log, s.ordcolor) && Placed(s) && Covered(s) && BarriersOk(s)
    && Sorted(InProgress(s), s.orig, s.head)
    && s.inFlight == |Accounted(s.driver)|
    && PhaseOk(s, ending) && EndsOk(s)
    && !s.bug
  }

  ghost predicate Inv(s: State) { InvEnding(s, Idle) }

  /** A queue on which nothing has happened yet. */
  predicate Initial(s: State) {
    && s.head == [] && s.held == {} && s.driver == {} && s.soft == {} && s.started == {}
    && s.inFlight == 0 && s.ordseq == ZERO && s.log == [] && s.done == {} && s.ends == [] && !s.bug
  }

  lemma InitialInv(s: State)
    requires Initial(s)
    ensures Inv(s)
  {
    assert Accounted(s.driver) == {};
  }

  // ---- colours ----

  lemma {:induction false} ColorAcross(log: seq<Request>, ordcolor: bool, i: nat, j: nat)
    requires LogOk(log, ordcolor) && i < j < |log|
    requires forall k :: i < k < j ==> !log[k].barrier
    ensures log[j].color == (log[i].color != log[i].barrier)
    decreases j
  {
    if i + 1 < j { ColorAcross(log, ordcolor, i, j - 1); }
  }

  /** No barrier lies between an unfinished earlier request and the started barrier. */
  lemma EarlierColor(s: State, rq: Request)
    requires Inv(s) && InProgress(s) && rq.FsRq? && Known(s.log, rq) && rq.id < s.orig.id && rq.id !in s.done
    requires !rq.barrier
    ensures ReqSeq(s.orig, rq) == Drain
  {
    forall k | rq.id < k < s.orig.id ensures !s.log[k].barrier {
      assert k in s.done || Outstanding(s, s.log[k]);
    }
    ColorAcross(s.log, s.ordcolor, rq.id, s.orig.id);
  }

  /** The first later request in the dispatch queue has the other colour. */
  lemma LaterColor(s: State, k: nat)
    requires Inv(s) && InProgress(s) && k < |s.head| && s.head[k].FsRq? && s.orig.id < s.head[k].id
    requires forall j :: 0 <= j < k ==> Place(s.orig, s.head[j]) != Done
    ensures ReqSeq(s.orig, s.head[k]) == Done
  {
    var rq := s.head[k];
    assert s.head[k] in Elems(s.head) && Known(s.log, rq);
    forall c | s.orig.id < c < rq.id ensures !s.log[c].barrier {
      assert c in s.done || Outstanding(s, s.log[c]);
    }
    ColorAcross(s.log, s.ordcolor, s.orig.id, rq.id);
  }

  /** `blk_ordered_req_seq` tells a request's true place, up to the first later request. */
  lemma ReqSeqIsPlace(s: State, k: nat)
    requires Inv(s) && InProgress(s) && k < |s.head|
    requires forall j :: 0 <= j < k ==> Place(s.orig, s.head[j]) != Done
    ensures ReqSeq(s.orig, s.head[k]) == Place(s.orig, s.head[k])
  {
    var rq := s.head[k];
    assert rq in Elems(s.head) && HeadOk(s, rq);
    if rq.FsRq? {
      if rq.id < s.orig.id { EarlierColor(s, rq); } else { LaterColor(s, k); }
    }
  }

  /** The front request is never past its turn: the WARN_ON of `blk_do_ordered`. */
  lemma FrontNotLate(s: State)
    requires Inv(s) && InProgress(s) && s.head != [] && !s.head[0].SpecialRq?
    ensures ReqSeq(s.orig, s.head[0]) == Place(s.orig, s.head[0])
    ensures CurSeq(s.ordseq).Value() <= ReqSeq(s.orig, s.head[0]).Value()
  {
    ReqSeqIsPlace(s, 0);
    assert s.head[0] in Elems(s.head);
  }

  // ---- each step keeps the invariant ----

  lemma {:induction false} RemoveIs(q: seq<Request>, rq: Request) returns (k: nat)
    requires rq in q
    ensures k < |q| && q[k] == rq && Remove(q, rq) == q[..k] + q[k + 1..]
  {
    if q[0] == rq {
      k := 0;
    } else {
      var k' := RemoveIs(q[1..], rq);
      k := k' + 1;
      assert q[..k] == [q[0]] + q[1..][..k'];
      assert q[k + 1..] == q[1..][k' + 1..];
    }
  }

  lemma RemoveSorted(going: bool, orig: Request, q: seq<Request>, rq: Request)
    requires rq in q && Sorted(going, orig, q)
    ensures Sorted(going, orig, Remove(q, rq))
    ensures Elems(Remove(q, rq)) == Elems(q) - {rq}
  {
    var k := RemoveIs(q, rq);
    var r := q[..k] + q[k + 1..];
    forall x ensures x in r <==> x in q && x != rq {
      if x in q && x != rq {
        var j :| 0 <= j < |q| && q[j] == x;
        assert r[if j < k then j else j - 1] == x;
      }
    }
  }

  lemma InsertSorted(going: bool, orig: Request, q: seq<Request>, k: nat, rq: Request)
    requires k <= |q| && Sorted(going, orig, q)
    requires forall i :: 0 <= i < k ==> Before(going, orig, q[i], rq)
    requires forall i :: k <= i < |q| ==> Before(going, orig, rq, q[i])
    ensures Sorted(going, orig, Insert(q, k, rq))
    ensures Elems(Insert(q, k, rq)) == Elems(q) + {rq}
  {
  }

  lemma AccountedAdd(driver: set<Request>, rq: Request)
    requires rq !in driver
    ensures |Accounted(driver + {rq})| == |Accounted(driver)| + if IsFs(rq) then 1 else 0
  {
    assert Accounted(driver + {rq}) == Accounted(driver) + (if IsFs(rq) then {rq} else {});
  }

  lemma AddPlaced(s: State, barrier: bool, sectors: nat, write: bool, sector: nat, elvpriv: bool)
    requires Inv(s) && Enabled(s, Add(barrier, sectors, write, sector, elvpriv))
    ensures Placed(AddRequest(s, barrier, sectors, write, sector, elvpriv))
    ensures Covered(AddRequest(s, barrier, sectors, write, sector, elvpriv))
  {
    var t := AddRequest(s, barrier, sectors, write, sector, elvpriv);
    assert Elems(t.head) == if t.held == s.held then Elems(s.head) + {t.log[|s.log|]} else Elems(s.head);
    hide Sorted, Elems, EndsOk;
    assert forall i :: 0 <= i < |s.log| ==> t.log[i] == s.log[i];
  }

  lemma AddLog(s: State, barrier: bool, sectors: nat, write: bool, sector: nat, elvpriv: bool)
    requires LogOk(s.log, s.ordcolor) && EndsOk(s)
    ensures var t := AddRequest(s, barrier, sectors, write, sector, elvpriv); LogOk(t.log, t.ordcolor) && EndsOk(t)
  {
  }

  lemma AddBarriers(s: State, barrier: bool, sectors: nat, write: bool, sector: nat, elvpriv: bool)
    requires LogOk(s.log, s.ordcolor) && Placed(s) && Covered(s) && BarriersOk(s)
    requires Enabled(s, Add(barrier, sectors, write, sector, elvpriv))
    ensures BarriersOk(AddRequest(s, barrier, sectors, write, sector, elvpriv))
  {
    var t := AddRequest(s, barrier, sectors, write, sector, elvpriv);
    assert Elems(t.head) == if t.held == s.held then Elems(s.head) + {t.log[|s.log|]} else Elems(s.head);
    hide Elems, LogOk;
  }

  lemma AddPhase(s: State, barrier: bool, sectors: nat, write: bool, sector: nat, elvpriv: bool)
    requires LogOk(s.log, s.ordcolor) && Placed(s) && Covered(s) && BarriersOk(s) && PhaseOk(s, Idle)
    requires Enabled(s, Add(barrier, sectors, write, sector, elvpriv))
    ensures PhaseOk(AddRequest(s, barrier, sectors, write, sector, elvpriv), Idle)
  {
    var t := AddRequest(s, barrier, sectors, write, sector, elvpriv);
    assert Elems(t.head) == if t.held == s.held then Elems(s.head) + {t.log[|s.log|]} else Elems(s.head);
    hide Elems, LogOk;
  }

  lemma AddSorted(s: State, rq: Request)
    requires Placed(s) && Sorted(InProgress(s), s.orig, s.head)
    requires rq.FsRq? && rq.id == |s.log| && (InProgress(s) ==> IsBarrier(s.orig) && Known(s.log, s.orig))
    ensures Sorted(InProgress(s), s.orig, s.head + [rq])
  {
    forall i | 0 <= i < |s.head| ensures Before(InProgress(s), s.orig, s.head[i], rq) {
      assert s.head[i] in Elems(s.head);
    }
  }

  lemma AddKeeps(s: State, barrier: bool, sectors: nat, write: bool, sector: nat, elvpriv: bool)
    requires Inv(s) && Enabled(s, Add(barrier, sectors, write, sector, elvpriv))
    ensures Inv(AddRequest(s, barrier, sectors, write, sector, elvpriv))
  {
    AddPlaced(s, barrier, sectors, write, sector, elvpriv);
    AddPhase(s, barrier, sectors, write, sector, elvpriv);
    AddBarriers(s, barrier, sectors, write, sector, elvpriv);
    AddLog(s, barrier, sectors, write, sector, elvpriv);
    AddSorted(s, FsRq(|s.log|, barrier, sectors, write, sector, s.ordcolor));
    hide Sorted, Elems, Placed, Covered, BarriersOk, PhaseOk, LogOk, EndsOk;
  }

  lemma AddSpecialPlaced(s: State, tag: nat, front: bool)
    requires Placed(s) && Covered(s) && Enabled(s, AddSpecial(tag, front))
    ensures Placed(Step(s, AddSpecial(tag, front))) && Covered(Step(s, AddSpecial(tag, front)))
  {
    var t := Step(s, AddSpecial(tag, front));
    assert Elems(t.head) == Elems(s.head) + {SpecialRq(tag)};
    hide Elems;
  }

  lemma AddSpecialPhase(s: State, tag: nat, front: bool)
    requires BarriersOk(s) && PhaseOk(s, Idle) && Sorted(InProgress(s), s.orig, s.head)
             && Enabled(s, AddSpecial(tag, front))
    ensures var t := Step(s, AddSpecial(tag, front));
            BarriersOk(t) && PhaseOk(t, Idle) && Sorted(InProgress(t), t.orig, t.head)
  {
    var t := Step(s, AddSpecial(tag, front));
    assert Elems(t.head) == Elems(s.head) + {SpecialRq(tag)};
    assert Sorted(InProgress(t), t.orig, t.head);
    hide Elems, Sorted;
  }

  lemma AddSpecialKeeps(s: State, tag: nat, front: bool)
    requires Inv(s) && Enabled(s, AddSpecial(tag, front))
    ensures Inv(Step(s, AddSpecial(tag, front)))
  {
    AddSpecialPlaced(s, tag, front);
    AddSpecialPhase(s, tag, front);
    hide Sorted, Elems, Placed, Covered, BarriersOk, PhaseOk, LogOk;
  }

  lemma DispatchPlaced(s: State, rq: Request, pos: nat)
    requires Placed(s) && Covered(s) && Enabled(s, Dispatch(rq, pos))
    ensures Placed(Step(s, Dispatch(rq, pos))) && Covered(Step(s, Dispatch(rq, pos)))
  {
    assert Elems(Insert(s.head, pos, rq)) == Elems(s.head) + {rq};
    hide Elems;
  }

  lemma DispatchPhase(s: State, rq: Request, pos: nat)
    requires Placed(s) && BarriersOk(s) && PhaseOk(s, Idle) && Enabled(s, Dispatch(rq, pos))
    ensures BarriersOk(Step(s, Dispatch(rq, pos))) && PhaseOk(Step(s, Dispatch(rq, pos)), Idle)
  {
    assert Elems(Insert(s.head, pos, rq)) == Elems(s.head) + {rq};
    hide Elems;
  }

  lemma DispatchSorted(s: State, rq: Request, pos: nat)
    requires Placed(s) && BarriersOk(s) && PhaseOk(s, Idle) && Sorted(InProgress(s), s.orig, s.head)
    requires Enabled(s, Dispatch(rq, pos))
    ensures Sorted(InProgress(s), s.orig, Insert(s.head, pos, rq))
  {
    forall i | 0 <= i < |s.head|
      ensures if i < pos then Before(InProgress(s), s.orig, s.head[i], rq)
              else Before(InProgress(s), s.orig, rq, s.head[i])
    {
      assert s.head[i] in Elems(s.head);
    }
    InsertSorted(InProgress(s), s.orig, s.head, pos, rq);
  }

  lemma DispatchKeeps(s: State, rq: Request, pos: nat)
    requires Inv(s) && Enabled(s, Dispatch(rq, pos))
    ensures Inv(Step(s, Dispatch(rq, pos)))
  {
    DispatchPlaced(s, rq, pos);
    DispatchPhase(s, rq, pos);
    DispatchSorted(s, rq, pos);
    hide Sorted, Elems, Placed, Covered, BarriersOk, PhaseOk, LogOk;
  }

  lemma DequeuePlaced(s: State, rq: Request)
    requires Placed(s) && Covered(s) && BarriersOk(s) && Enabled(s, Dequeue(rq))
    requires Elems(Remove(s.head, rq)) == Elems(s.head) - {rq}
    ensures Placed(Step(s, Dequeue(rq))) && Covered(Step(s, Dequeue(rq)))
  {
    assert rq in Elems(s.head);
    hide Elems;
  }

  lemma DequeuePhase(s: State, rq: Request)
    requires Placed(s) && BarriersOk(s) && PhaseOk(s, Idle) && Enabled(s, Dequeue(rq))
    requires Elems(Remove(s.head, rq)) == Elems(s.head) - {rq}
    ensures BarriersOk(Step(s, Dequeue(rq))) && PhaseOk(Step(s, Dequeue(rq)), Idle)
  {
    assert rq in Elems(s.head);
    hide Elems;
  }

  lemma DequeueKeeps(s: State, rq: Request)
    requires Inv(s) && Enabled(s, Dequeue(rq))
    ensures Inv(Step(s, Dequeue(rq)))
  {
    RemoveSorted(InProgress(s), s.orig, s.head, rq);
    assert rq in Elems(s.head) && HeadOk(s, rq);
    DequeuePlaced(s, rq);
    DequeuePhase(s, rq);
    hide Sorted, Elems, Placed, Covered, BarriersOk, PhaseOk, LogOk;
    AccountedAdd(s.driver, rq);
  }

  lemma StartElems(s: State)
    requires s.head != [] && s.head[0].FsRq? && Sorted(false, s.orig, s.head) && NoProxies(s)
    ensures var t := StartOrdered(s);
            && (forall r: Request :: r.FsRq? || r.SpecialRq? ==>
                (r in Elems(t.head) <==> r in Elems(s.head) && r != s.head[0]))
            && BarRq in Elems(t.head)
            && (PreFlushRq in Elems(t.head) <==> s.nextOrdered.WantsPreFlush())
            && (PostFlushRq in Elems(t.head) <==> s.nextOrdered.WantsPostFlush() && s.head[0].sectors > 0)
  {
    assert s.head == [s.head[0]] + s.head[1..];
    forall i | 0 <= i < |s.head[1..]| ensures s.head[1..][i] != s.head[0] {
      assert Before(false, s.orig, s.head[0], s.head[i + 1]);
    }
  }

  lemma StartLater(s: State)
    requires s.head != [] && IsBarrier(s.head[0]) && Sorted(false, s.orig, s.head)
    ensures forall r :: r in Elems(s.head) && r.FsRq? && r != s.head[0] ==> s.head[0].id < r.id
    ensures forall i :: 0 < i < |s.head| && s.head[i].FsRq? ==> Place(s.head[0], s.head[i]) == Done
  {
    forall i | 0 < i < |s.head| && s.head[i].FsRq? ensures s.head[0].id < s.head[i].id {
      assert Before(false, s.orig, s.head[0], s.head[i]);
    }
  }

  lemma StartSorted(s: State)
    requires NoProxies(s) && s.head != [] && IsBarrier(s.head[0]) && Sorted(false, s.orig, s.head)
    ensures Sorted(true, s.head[0], StartOrdered(s).head)
  {
    StartLater(s);
    var q := StartOrdered(s).head;
    var p := |q| - |s.head| + 1;
    forall i, j | 0 <= i < j < |q| ensures Before(true, s.head[0], q[i], q[j]) {
      if p <= j {
        assert q[j] == s.head[j - p + 1] && s.head[j - p + 1] in Elems(s.head);
        if p <= i {
          assert q[i] == s.head[i - p + 1] && s.head[i - p + 1] in Elems(s.head);
          assert Before(false, s.orig, s.head[i - p + 1], s.head[j - p + 1]);
        }
      }
    }
  }

  lemma StartPlaced(s: State)
    requires Placed(s) && BarriersOk(s) && !InProgress(s) && NoProxies(s)
    requires s.head != [] && IsBarrier(s.head[0]) && Sorted(false, s.orig, s.head)
    ensures Placed(StartOrdered(s)) && BarriersOk(StartOrdered(s))
  {
    StartElems(s);
    StartLater(s);
    assert s.head[0] in Elems(s.head) && BarrierOk(s, s.head[0]);
    hide Elems, Sorted, ProxySet, Proxies, Remaining;
  }

  lemma StartCovered(s: State)
    requires Covered(s) && LogOk(s.log, s.ordcolor) && !InProgress(s) && NoProxies(s) && s.head != []
             && IsBarrier(s.head[0]) && Sorted(false, s.orig, s.head)
    ensures Covered(StartOrdered(s))
  {
    StartElems(s);
    hide Elems, Sorted;
  }

  /** With nothing in flight, all requests queued before the barrier have ended. */
  lemma Drained(s: State)
    requires LogOk(s.log, s.ordcolor) && Placed(s) && Covered(s) && s.inFlight == |Accounted(s.driver)| == 0
    requires forall r :: r in Elems(s.head) + s.held && r.FsRq? && Known(s.log, r) ==> s.orig.FsRq? && s.orig.id <= r.id
    requires s.orig.FsRq? && s.orig.id < |s.log|
    ensures forall i :: 0 <= i < s.orig.id ==> i in s.done
  {
    assert forall r :: r in s.driver && r.FsRq? ==> r in Accounted(s.driver);
    forall i | 0 <= i < s.orig.id ensures i in s.done {
      assert i in s.done || Outstanding(s, s.log[i]);
    }
  }

  lemma DrainedAtStart(s: State)
    requires LogOk(s.log, s.ordcolor) && Placed(s) && Covered(s) && BarriersOk(s) && !InProgress(s)
    requires s.head != [] && IsBarrier(s.head[0]) && Sorted(false, s.orig, s.head)
             && s.inFlight == |Accounted(s.driver)|
    ensures Known(s.log, s.head[0]) && s.head[0].id !in s.done
    ensures s.inFlight == 0 ==> forall i :: 0 <= i < s.head[0].id ==> i in s.done
  {
    StartLater(s);
    assert s.head[0] in Elems(s.head) && BarrierOk(s, s.head[0]) && HeadOk(s, s.head[0]);
    if s.inFlight == 0 { Drained(s.(orig := s.head[0])); }
  }

  lemma StartPhase(s: State)
    requires NoProxies(s) && s.head != [] && IsBarrier(s.head[0]) && Sorted(false, s.orig, s.head)
    requires Known(s.log, s.head[0]) && s.head[0].id !in s.done
    requires s.inFlight == 0 ==> forall i :: 0 <= i < s.head[0].id ==> i in s.done
    ensures PhaseOk(StartOrdered(s), Idle)
  {
    StartElems(s);
    hide Elems, Sorted, ProxySet, Proxies;
  }

  lemma StartKeeps(s: State)
    requires Inv(s) && !InProgress(s) && s.head != [] && IsBarrier(s.head[0])
    ensures Inv(StartOrdered(s))
  {
    StartPlaced(s);
    StartCovered(s);
    DrainedAtStart(s);
    StartPhase(s);
    StartSorted(s);
    hide Sorted, Elems, Placed, Covered, BarriersOk, PhaseOk, LogOk;
  }

  lemma {:induction false} FirstErrorAppend(errs: seq<int>, error: int)
    ensures FirstError(errs + [error]) == if FirstError(errs) != 0 then FirstError(errs) else error
  {
    if errs != [] {
      FirstErrorAppend(errs[1..], error);
      assert (errs + [error])[1..] == errs[1..] + [error];
    }
  }

  /** The stage `st` may be completed now. */
  ghost predicate StageOver(s: State, st: Stage, ending: Stage) {
    && InProgress(s) && st == CurSeq(s.ordseq)
    && (if st == Drain then ending == Idle && s.orig.FsRq? && (forall i :: 0 <= i < s.orig.id ==> i in s.done)
        else st == ending)
  }

  lemma CompleteSeqEnds(s: State, st: Stage, error: int, ending: Stage)
    requires EndsOk(s) && BarriersOk(s) && PhaseOk(s, ending) && StageOver(s, st, ending)
    ensures EndsOk(CompleteSeq(s, st, error))
  {
    assert forall i :: 0 <= i < |s.ends| ==> s.ends[i].0 < s.orig.id;
  }

  lemma CompleteSeqPlaced(s: State, st: Stage, error: int, ending: Stage)
    requires LogOk(s.log, s.ordcolor) && Placed(s) && Covered(s) && BarriersOk(s) && PhaseOk(s, ending)
             && StageOver(s, st, ending)
    ensures Placed(CompleteSeq(s, st, error)) && Covered(CompleteSeq(s, st, error))
  {
    hide Elems;
  }

  lemma CompleteSeqPhase(s: State, st: Stage, error: int, ending: Stage)
    requires Placed(s) && PhaseOk(s, ending) && StageOver(s, st, ending) && BarriersOk(s) && Covered(s)
    ensures PhaseOk(CompleteSeq(s, st, error), Idle) && BarriersOk(CompleteSeq(s, st, error))
    ensures CompleteSeq(s, st, error).bug == s.bug
  {
    FirstErrorAppend(s.errs, error);
    hide Elems;
  }

  lemma CompleteSeqKeeps(s: State, st: Stage, error: int, ending: Stage)
    requires InvEnding(s, ending) && StageOver(s, st, ending)
    ensures Inv(CompleteSeq(s, st, error))
  {
    CompleteSeqEnds(s, st, error, ending);
    CompleteSeqPlaced(s, st, error, ending);
    CompleteSeqPhase(s, st, error, ending);
    assert Sorted(InProgress(CompleteSeq(s, st, error)), s.orig, s.head);
    hide Sorted, Elems, Placed, Covered, BarriersOk, PhaseOk, LogOk, EndsOk;
  }

  // ---- handing requests to the driver ----

  /** `blk_do_ordered` lets the front request go. */
  predicate FrontMayGo(s: State) {
    s.head != [] &&
    if InProgress(s) then s.head[0].SpecialRq? || ReqSeq(s.orig, s.head[0]).Value() <= CurSeq(s.ordseq).Value()
    else !IsBarrier(s.head[0])
  }

  /** The ordering guarantee for a request that reaches the driver: the proxy barrier comes
      after every request queued before the barrier has ended, and a request comes after
      every barrier queued before it has ended. */
  ghost predicate InTurn(s: State, rq: Request) {
    && (rq.BarRq? ==> s.orig.FsRq? && forall i :: 0 <= i < s.orig.id ==> i in s.done)
    && (rq.FsRq? ==> !rq.barrier && forall b :: 0 <= b < rq.id && b < |s.log| && IsBarrier(s.log[b]) ==> b in s.done)
  }

  lemma FrontInTurn(s: State)
    requires Inv(s) && FrontMayGo(s)
    ensures InTurn(s, s.head[0])
  {
    var rq := s.head[0];
    assert rq in Elems(s.head) && HeadOk(s, rq);
    if InProgress(s) && !rq.SpecialRq? {
      FrontNotLate(s);
    }
    if rq.FsRq? {
      forall b | 0 <= b < rq.id && IsBarrier(s.log[b]) ensures b in s.done {
        assert b in s.done || Outstanding(s, s.log[b]);
      }
    }
  }

  lemma MarkBarriers(s: State)
    requires BarriersOk(s) && s.head != [] && !IsBarrier(s.head[0]) && Sorted(InProgress(s), s.orig, s.head)
    ensures BarriersOk(s.(started := s.started + {s.head[0]}))
  {
    var rq := s.head[0];
    forall b | b in Elems(s.head) && IsBarrier(b) && rq.FsRq? && b != rq ensures rq.id < b.id {
      var j :| 0 <= j < |s.head| && s.head[j] == b;
      assert Before(InProgress(s), s.orig, s.head[0], s.head[j]);
    }
    hide Elems, Sorted;
  }

  lemma MarkPlaced(s: State)
    requires Inv(s) && FrontMayGo(s)
    ensures var t := s.(started := s.started + {s.head[0]}); Placed(t) && Covered(t)
  {
    var rq := s.head[0];
    assert rq in Elems(s.head) && HeadOk(s, rq);
    if InProgress(s) && !rq.SpecialRq? { FrontNotLate(s); }
    hide Elems, Sorted, EndsOk, LogOk, BarriersOk;
  }

  lemma MarkPhase(s: State)
    requires Inv(s) && FrontMayGo(s) && (InProgress(s) && s.head[0].BarRq? ==> s.orig.sectors > 0)
    ensures PhaseOk(s.(started := s.started + {s.head[0]}), Idle)
  {
    assert s.head[0] in Elems(s.head);
    if InProgress(s) && !s.head[0].SpecialRq? { FrontNotLate(s); }
    hide Elems, Sorted, EndsOk, LogOk, Placed, Covered, BarriersOk;
  }

  lemma MarkKeeps(s: State)
    requires Inv(s) && FrontMayGo(s) && (InProgress(s) && s.head[0].BarRq? ==> s.orig.sectors > 0)
    ensures Inv(s.(started := s.started + {s.head[0]}))
  {
    MarkPlaced(s);
    FrontInTurn(s);
    MarkBarriers(s);
    MarkPhase(s);
    hide Sorted, Elems, Placed, Covered, BarriersOk, PhaseOk, LogOk, EndsOk;
  }

  lemma PopSorted(s: State)
    requires s.head != [] && Sorted(InProgress(s), s.orig, s.head)
    ensures Sorted(InProgress(s), s.orig, s.head[1..]) && Elems(s.head[1..]) == Elems(s.head) - {s.head[0]}
  {
    assert s.head == [s.head[0]] + s.head[1..];
    forall i | 0 <= i < |s.head[1..]| ensures s.head[1..][i] != s.head[0] {
      assert Before(InProgress(s), s.orig, s.head[0], s.head[i + 1]);
    }
  }

  lemma KillEnding(s: State)
    requires Inv(s) && InProgress(s) && FrontMayGo(s) && s.head[0].BarRq? && s.orig.sectors == 0
    ensures InvEnding(s.(head := s.head[1..]), Bar) && BarRq !in s.started
  {
    assert s.head[0] in Elems(s.head);
    FrontNotLate(s);
    PopSorted(s);
    hide Elems, Sorted, EndsOk, LogOk;
  }

  lemma KillKeeps(s: State)
    requires Inv(s) && InProgress(s) && FrontMayGo(s) && s.head[0].BarRq? && s.orig.sectors == 0
    ensures Inv(EndRequest(s.(head := s.head[1..]), BarRq, 0))
  {
    KillEnding(s);
    var t := s.(head := s.head[1..]);
    assert CurSeq(t.ordseq) == Bar by { assert SequenceOk(t, Bar); }
    CompleteSeqKeeps(t, Bar, 0, Bar);
  }

  /** `elv_next_request` starts a sequence if it meets a barrier, then serves the front
      request if it may go. */
  function Begun(s: State): State
    requires s.head != []
  {
    if !InProgress(s) && IsBarrier(s.head[0]) then StartOrdered(s) else s
  }

  lemma NextIs(s: State)
    requires Inv(s) && s.head != []
    ensures Inv(Begun(s)) && Begun(s).head != []
    ensures DoOrdered(s) == (Begun(s), FrontMayGo(Begun(s)))
  {
    hide ProxySet, Remaining;
    if !InProgress(s) && IsBarrier(s.head[0]) {
      StartKeeps(s);
      hide Inv;
    } else if InProgress(s) && !s.head[0].SpecialRq? {
      FrontNotLate(s);
    }
  }

  lemma ServeKeeps(s: State)
    requires Inv(s) && FrontMayGo(s)
    ensures Inv(Serve(s))
  {
    assert s.head[0].BarRq? ==> InProgress(s) && s.orig.FsRq? by { assert s.head[0] in Elems(s.head); }
    hide Inv, ReqSeq;
    if s.head[0].BarRq? && s.orig.sectors == 0 { KillKeeps(s); } else { MarkKeeps(s); }
  }

  lemma NextKeeps(s: State)
    requires Inv(s) && s.head != []
    ensures Inv(NextRequest(s))
  {
    NextIs(s);
    hide Inv;
    if FrontMayGo(Begun(s)) { ServeKeeps(Begun(s)); }
  }

  // ---- completion ----

  /** A request leaves the driver, before `elv_completed_request` looks at the queue. */
  function Leave(s: State, rq: Request): State {
    s.(driver := s.driver - {rq}, done := if rq.FsRq? then s.done + {rq.id} else s.done,
       inFlight := if IsFs(rq) then s.inFlight - 1 else s.inFlight)
  }

  lemma AccountedRemove(driver: set<Request>, rq: Request)
    requires rq in driver
    ensures |Accounted(driver - {rq})| == |Accounted(driver)| - if IsFs(rq) then 1 else 0
  {
    assert Accounted(driver - {rq}) == Accounted(driver) - (if IsFs(rq) then {rq} else {});
  }

  lemma LeavePlaced(s: State, rq: Request)
    requires Inv(s) && rq in s.driver
    ensures Placed(Leave(s, rq)) && Covered(Leave(s, rq))
  {
    hide Elems, Sorted, EndsOk, Accounted, BarriersOk;
  }

  lemma LeavePhase(s: State, rq: Request)
    requires Placed(s) && Covered(s) && BarriersOk(s) && PhaseOk(s, Idle) && EndsOk(s) && rq in s.driver
    ensures BarriersOk(Leave(s, rq)) && PhaseOk(Leave(s, rq), ProxyStage(rq)) && EndsOk(Leave(s, rq))
  {
    hide Elems;
  }

  lemma LeaveEnding(s: State, rq: Request)
    requires Inv(s) && rq in s.driver
    ensures InvEnding(Leave(s, rq), ProxyStage(rq))
  {
    LeavePlaced(s, rq);
    LeavePhase(s, rq);
    AccountedRemove(s.driver, rq);
    hide Sorted, Elems, Placed, Covered, BarriersOk, PhaseOk, LogOk, EndsOk, Accounted;
  }

  /** When the draining check of `elv_completed_request` succeeds, all earlier requests
      have indeed ended. */
  lemma DrainOver(s: State)
    requires Inv(s) && InProgress(s) && s.inFlight == 0 && CurSeq(s.ordseq) == Drain
    ensures s.head != []
    ensures ReqSeq(s.orig, s.head[0]).Value() > Drain.Value() ==> StageOver(s, Drain, Idle)
  {
    assert BarRq in Elems(s.head);
    if ReqSeq(s.orig, s.head[0]).Value() > Drain.Value() {
      FrontNotLate(s);
      forall r | r in Elems(s.head) && r.FsRq? ensures s.orig.id <= r.id {
        var j :| 0 <= j < |s.head| && s.head[j] == r;
        assert j > 0 ==> Before(true, s.orig, s.head[0], s.head[j]);
      }
      Drained(s);
    }
  }

  lemma CompleteKeeps(s: State, rq: Request, error: int)
    requires Inv(s) && rq in s.driver
    ensures Inv(Step(s, Complete(rq, error)))
  {
    var t := Leave(s, rq);
    LeaveEnding(s, rq);
    assert rq in s.started by { assert DriverOk(s, rq); }
    var u := Completed(s.(driver := s.driver - {rq}, done := t.done), rq);
    if ProxyStage(rq) == Idle {
      if InProgress(t) && t.inFlight == 0 && CurSeq(t.ordseq) == Drain {
        DrainOver(t);
        if ReqSeq(t.orig, t.head[0]).Value() > Drain.Value() { CompleteSeqKeeps(t, Drain, 0, Idle); }
      }
    } else {
      assert PhaseOk(t, ProxyStage(rq)) && PhaseOk(s, Idle);
      assert InProgress(t) && CurSeq(t.ordseq) == ProxyStage(rq);
      CompleteSeqKeeps(t, ProxyStage(rq), error, ProxyStage(rq));
    }
  }

  // ---- requeueing ----

  /** The scan of ELEVATOR_INSERT_REQUEUE passes only requests that belong in front. */
  lemma {:induction false} ScanTruePlaces(s: State, st: Stage, k: nat)
    requires Inv(s) && InProgress(s) && k <= |s.head| && st.Value() <= PostFlush.Value()
    requires forall i :: 0 <= i < k ==> ReqSeq(s.orig, s.head[i]).Value() < st.Value()
    ensures forall i :: 0 <= i < k ==> Place(s.orig, s.head[i]) == ReqSeq(s.orig, s.head[i])
  {
    if k > 0 {
      ScanTruePlaces(s, st, k - 1);
      ReqSeqIsPlace(s, k - 1);
    }
  }

  lemma RequeueStage(s: State, rq: Request)
    requires Inv(s) && rq in s.driver && InProgress(s)
    ensures ReqSeq(s.orig, rq) == Place(s.orig, rq) && Drain.Value() <= Place(s.orig, rq).Value() <= PostFlush.Value()
  {
    assert DriverOk(s, rq) && Known(s.log, rq);
    if rq.FsRq? { EarlierColor(s, rq); }
  }

  lemma RequeueBefore(s: State, rq: Request, k: nat, i: nat)
    requires Inv(s) && rq in s.driver && InProgress(s) && i < |s.head|
    requires Drain.Value() <= Place(s.orig, rq).Value() <= PostFlush.Value()
    requires i < k ==> Place(s.orig, s.head[i]).Value() < Place(s.orig, rq).Value()
    requires k <= i ==> Place(s.orig, rq).Value() <= Place(s.orig, s.head[k]).Value()
    ensures if i < k then Before(true, s.orig, s.head[i], rq) else Before(true, s.orig, rq, s.head[i])
  {
    var h := s.head[i];
    assert h in Elems(s.head) && HeadOk(s, h) && DriverOk(s, rq);
    if IsBarrier(h) && rq.FsRq? { assert BarrierOk(s, h); }
    if k < i { assert Before(true, s.orig, s.head[k], h); }
  }

  lemma RequeueSorted(s: State, rq: Request)
    requires Inv(s) && rq in s.driver && InProgress(s)
    ensures var k := RequeuePosition(s.orig, ReqSeq(s.orig, rq), s.head);
            Sorted(true, s.orig, Insert(s.head, k, rq)) && Elems(Insert(s.head, k, rq)) == Elems(s.head) + {rq}
  {
    RequeueStage(s, rq);
    var st := Place(s.orig, rq);
    var k := RequeuePosition(s.orig, st, s.head);
    ScanTruePlaces(s, st, k);
    if k < |s.head| { ReqSeqIsPlace(s, k); }
    assert Sorted(true, s.orig, s.head);
    hide Inv, Sorted, Elems, ReqSeq, Before, RequeuePosition;
    forall i | 0 <= i < |s.head|
      ensures if i < k then Before(true, s.orig, s.head[i], rq) else Before(true, s.orig, rq, s.head[i])
    {
      RequeueBefore(s, rq, k, i);
    }
    InsertSorted(true, s.orig, s.head, k, rq);
  }

  lemma RequeueFront(s: State, rq: Request)
    requires Inv(s) && rq in s.driver && !InProgress(s)
    ensures Sorted(false, s.orig, [rq] + s.head) && Elems([rq] + s.head) == Elems(s.head) + {rq}
  {
    forall i | 0 <= i < |s.head| ensures Before(false, s.orig, rq, s.head[i]) {
      assert s.head[i] in Elems(s.head) && HeadOk(s, s.head[i]) && DriverOk(s, rq);
      if IsBarrier(s.head[i]) { assert BarrierOk(s, s.head[i]); }
    }
  }

  lemma RequeuePlaced(s: State, rq: Request)
    requires Placed(s) && Covered(s) && BarriersOk(s) && rq in s.driver
    requires Elems(RequeueRequest(s, rq).head) == Elems(s.head) + {rq}
    ensures var t := RequeueRequest(s, rq); Placed(t) && Covered(t)
  {
    hide Elems, RequeuePosition;
  }

  lemma RequeueBarriers(s: State, rq: Request)
    requires BarriersOk(s) && Placed(s) && rq in s.driver
    requires Elems(RequeueRequest(s, rq).head) == Elems(s.head) + {rq}
    ensures BarriersOk(RequeueRequest(s, rq))
  {
    hide Elems, RequeuePosition;
  }

  lemma RequeuePhase(s: State, rq: Request)
    requires Placed(s) && PhaseOk(s, Idle) && rq in s.driver
    requires Elems(RequeueRequest(s, rq).head) == Elems(s.head) + {rq}
    ensures PhaseOk(RequeueRequest(s, rq), Idle)
  {
    hide Elems, RequeuePosition;
  }

  lemma RequeueKeeps(s: State, rq: Request)
    requires Inv(s) && rq in s.driver
    ensures Inv(RequeueRequest(s, rq))
  {
    if InProgress(s) { RequeueSorted(s, rq); } else { RequeueFront(s, rq); }
    RequeuePlaced(s, rq);
    RequeueBarriers(s, rq);
    RequeuePhase(s, rq);
    AccountedRemove(s.driver, rq);
    assert rq in s.started by { assert DriverOk(s, rq); }
    hide Sorted, Elems, Placed, Covered, BarriersOk, PhaseOk, LogOk, EndsOk, Accounted, RequeuePosition;
  }

  // ---- runs ----

  lemma SmallStepsKeep(s: State, error: int, mode: Ordered)
    requires Inv(s)
    ensures BarRq in s.driver ==> Inv(RecordError(s, error))
    ensures Inv(s.(ordered := mode, nextOrdered := mode))
  {
    FirstErrorAppend(s.errs, error);
    hide Elems, FirstError;
  }

  lemma StepKeeps(s: State, e: Event)
    requires Inv(s) && Enabled(s, e)
    ensures Inv(Step(s, e))
  {
    hide Inv;
    match e
    case Add(barrier, sectors, write, sector, elvpriv) => AddKeeps(s, barrier, sectors, write, sector, elvpriv);
    case AddSpecial(tag, front) => AddSpecialKeeps(s, tag, front);
    case Dispatch(rq, pos) => DispatchKeeps(s, rq, pos);
    case Next => NextKeeps(s);
    case Dequeue(rq) => DequeueKeeps(s, rq);
    case BarError(error) => SmallStepsKeep(s, error, DRAIN);
    case Complete(rq, error) => CompleteKeeps(s, rq, error);
    case Requeue(rq) => RequeueKeeps(s, rq);
    case SetOrdered(mode) => SmallStepsKeep(s, 0, mode);
  }

  ghost predicate RunOk(s: State, es: seq<Event>)
    decreases |es|
  {
    es == [] || (Enabled(s, es[0]) && RunOk(Step(s, es[0]), es[1..]))
  }

  function Run(s: State, es: seq<Event>): State
    requires RunOk(s, es)
    decreases |es|
  {
    if es == [] then s else Run(Step(s, es[0]), es[1..])
  }

  lemma {:induction false} RunKeeps(s: State, es: seq<Event>)
    requires Inv(s) && RunOk(s, es)
    ensures Inv(Run(s, es))
    decreases |es|
  {
    if es != [] {
      StepKeeps(s, es[0]);
      RunKeeps(Step(s, es[0]), es[1..]);
    }
  }

  /** No BUG_ON and no WARN_ON of the sequence code ever fires, no fs request is lost or
      duplicated, and whatever the driver is handed next is in turn.  A waiting barrier has
      the earlier requests before it and the later ones behind; when its proxy is at the
      driver, all earlier requests have ended. */
  lemma RunSafety(init: State, es: seq<Event>)
    requires Initial(init) && RunOk(init, es)
    ensures var s := Run(init, es);
            && !s.bug
            && (forall i :: 0 <= i < |s.log| ==> i in s.done || Outstanding(s, s.log[i]))
            && (forall r :: r in s.held ==> HeldOk(s, r))
            && (forall r :: r in s.driver ==> DriverOk(s, r))
            && (forall r :: r in Elems(s.head) ==> HeadOk(s, r))
            && (forall b :: b in Elems(s.head) && IsBarrier(b) ==> BarrierOk(s, b))
            && (BarRq in s.driver ==> IsBarrier(s.orig) && forall i :: 0 <= i < s.orig.id ==> i in s.done)
            && (s.head != [] ==> var (t, handed) := DoOrdered(s); handed ==> t.head != [] && InTurn(t, t.head[0]))
  {
    InitialInv(init);
    RunKeeps(init, es);
    var s := Run(init, es);
    if s.head != [] { NextInTurn(s); }
    ProxyAfterAll(s);
  }

  lemma ProxyAfterAll(s: State)
    requires Inv(s)
    ensures BarRq in s.driver ==> IsBarrier(s.orig) && forall i :: 0 <= i < s.orig.id ==> i in s.done
  {
    hide Sorted, Elems, Placed, Covered, BarriersOk, EndsOk, LogOk, Accounted;
  }

  lemma NextInTurn(s: State)
    requires Inv(s) && s.head != []
    ensures var (t, handed) := DoOrdered(s); handed ==> t.head != [] && InTurn(t, t.head[0])
  {
    NextIs(s);
    if FrontMayGo(Begun(s)) { FrontInTurn(Begun(s)); }
  }

  /** The planned stages complete in order, each exactly once. */
  lemma StagesInOrder(init: State, es: seq<Event>)
    requires Initial(init) && RunOk(init, es) && InProgress(Run(init, es))
    ensures var s := Run(init, es);
            && s.planned == s.passed + Remaining(s.ordseq)
            && (PreFlushRq in s.driver ==> [PreFlush] <= Remaining(s.ordseq))
            && (BarRq in s.driver ==> [Bar] <= Remaining(s.ordseq))
            && (PostFlushRq in s.driver ==> [PostFlush] == Remaining(s.ordseq))
  {
    InitialInv(init);
    RunKeeps(init, es);
    assert SequenceOk(Run(init, es), Idle);
  }

  /** What a step may do to the ended barriers: end none, or end the current one, having
      completed the last planned stage, with the first error of the sequence. */
  ghost predicate EndsAtMost(s: State, t: State) {
    if t.ends != s.ends then
      && InProgress(s) && !InProgress(t) && IsBarrier(s.orig) && t.orig == s.orig
      && t.ends == s.ends + [(s.orig.id, FirstError(t.errs))] && s.errs <= t.errs
      && t.planned == s.planned == t.passed
      && (forall i :: 0 <= i <= s.orig.id ==> i in t.done)
    else
      forall b :: b in t.done && b < |s.log| && IsBarrier(s.log[b]) ==> b in s.done
  }

  lemma CompleteSeqEndsAtMost(s: State, st: Stage, error: int, ending: Stage)
    requires LogOk(s.log, s.ordcolor) && PhaseOk(s, ending) && StageOver(s, st, ending)
    ensures EndsAtMost(s, CompleteSeq(s, st, error))
  {
    FirstErrorAppend(s.errs, error);
    hide Elems;
  }

  lemma CompletedEndsAtMost(s: State)
    requires Inv(s) && InProgress(s) && s.inFlight == 0 && CurSeq(s.ordseq) == Drain && s.head != []
    requires ReqSeq(s.orig, s.head[0]).Value() > Drain.Value()
    ensures EndsAtMost(s, CompleteSeq(s, Drain, 0))
  {
    DrainOver(s);
    CompleteSeqEndsAtMost(s, Drain, 0, Idle);
  }

  lemma LeaveEndsAtMost(s: State, rq: Request, u: State)
    requires Inv(s) && rq in s.driver && EndsAtMost(Leave(s, rq), u)
    ensures EndsAtMost(s, u)
  {
    assert DriverOk(s, rq) && Known(s.log, rq);
    hide Sorted, Elems, BarriersOk, EndsOk, Covered, Accounted, LogOk;
  }

  lemma CompleteEndsAtMost(s: State, rq: Request, error: int)
    requires Inv(s) && rq in s.driver
    ensures EndsAtMost(s, Step(s, Complete(rq, error)))
  {
    var t := Leave(s, rq);
    LeaveEnding(s, rq);
    assert DriverOk(s, rq);
    if ProxyStage(rq) == Idle {
      hide ReqSeq;
      if InProgress(t) && t.inFlight == 0 && CurSeq(t.ordseq) == Drain {
        DrainOver(t);
        if ReqSeq(t.orig, t.head[0]).Value() > Drain.Value() { CompletedEndsAtMost(t); }
      }
    } else {
      hide Sorted, Elems, BarriersOk, EndsOk, Covered, Accounted;
      assert PhaseOk(t, ProxyStage(rq)) && PhaseOk(s, Idle);
      CompleteSeqEndsAtMost(t, ProxyStage(rq), error, ProxyStage(rq));
    }
    hide Inv, EndsAtMost;
    LeaveEndsAtMost(s, rq, Step(s, Complete(rq, error)));
  }

  lemma KillEndsAtMost(s: State)
    requires Inv(s) && InProgress(s) && FrontMayGo(s) && s.head[0].BarRq? && s.orig.sectors == 0
    ensures EndsAtMost(s, EndRequest(s.(head := s.head[1..]), BarRq, 0))
  {
    KillEnding(s);
    var u := s.(head := s.head[1..]);
    hide Sorted, Elems, Placed, Covered, BarriersOk, EndsOk;
    assert PhaseOk(u, Bar);
    CompleteSeqEndsAtMost(u, Bar, 0, Bar);
  }

  lemma ServeEndsAtMost(s: State)
    requires Inv(s) && FrontMayGo(s)
    ensures EndsAtMost(s, Serve(s))
  {
    if s.head[0].BarRq? && s.orig.FsRq? && s.orig.sectors == 0 {
      assert InProgress(s) by { assert s.head[0] in Elems(s.head); }
      KillEndsAtMost(s);
    }
  }

  lemma NextEndsAtMost(s: State)
    requires Inv(s) && s.head != []
    ensures EndsAtMost(Begun(s), NextRequest(s))
    ensures Begun(s) == s || !InProgress(s)
  {
    NextIs(s);
    hide Inv;
    if FrontMayGo(Begun(s)) { ServeEndsAtMost(Begun(s)); }
  }

  /** In every step, at most the current sequence's original barrier ends.  (An empty
      barrier can start and end in one call when nothing is in flight.) */
  lemma BarrierEnds(s: State, e: Event)
    requires Inv(s) && Enabled(s, e)
    ensures EndsAtMost(if e.Next? then Begun(s) else s, Step(s, e))
  {
    match e
    case Next => NextEndsAtMost(s);
    case Complete(rq, error) => CompleteEndsAtMost(s, rq, error);
    case _ =>
  }

  // ---- what a sequence consists of, and when the front request goes ----

  /** The stages of a sequence in a draining mode: a flush before the barrier unless the
      device has neither cache nor flush, and one behind it unless the barrier is empty or
      goes through the cache by itself. */
  function StagesOf(mode: Ordered, sectors: nat, idle: bool): seq<Stage> {
    (if idle then [] else [Drain]) + (if mode == DRAIN then [] else [PreFlush]) + [Bar]
    + (if mode == DRAIN_FLUSH && sectors > 0 then [PostFlush] else [])
  }

  function ProxyOf(st: Stage): Request
    requires st == PreFlush || st == Bar || st == PostFlush
  {
    match st case PreFlush => PreFlushRq case Bar => BarRq case PostFlush => PostFlushRq
  }

  /** The requests that stand for the stages behind the draining. */
  function ProxiesOf(stages: seq<Stage>): seq<Request> {
    if stages == [] then []
    else if stages[0] == PreFlush || stages[0] == Bar || stages[0] == PostFlush then
      [ProxyOf(stages[0])] + ProxiesOf(stages[1..])
    else ProxiesOf(stages[1..])
  }

  /** `start_ordered` plans these stages for the barrier, with no error yet, and replaces it
      by their proxies. */
  lemma SequencePlanned(s: State)
    requires s.head != [] && s.head[0].FsRq?
    ensures var t := StartOrdered(s);
            var stages := StagesOf(s.nextOrdered, s.head[0].sectors, s.inFlight == 0);
            && t.planned == stages && t.passed == [] && Remaining(t.ordseq) == stages && t.orderr == 0
            && t.orig == s.head[0] && t.head == ProxiesOf(stages) + s.head[1..] && InProgress(t)
  {
    var post := s.nextOrdered == DRAIN_FLUSH && s.head[0].sectors > 0;
    ProxiesAre(s.inFlight == 0, s.nextOrdered != DRAIN, post);
    hide ProxiesOf;
  }

  lemma ProxiesAre(idle: bool, pre: bool, post: bool)
    ensures ProxiesOf((if idle then [] else [Drain]) + (if !pre then [] else [PreFlush]) + [Bar]
                      + (if post then [PostFlush] else [])) == Proxies(pre, post)
  {
    var p := if post then [PostFlush] else [];
    assert ProxiesOf([]) == [];
    assert p != [] ==> p[1..] == [];
    assert ProxiesOf(p) == if post then [PostFlushRq] else [];
    var b := [Bar] + p;
    assert b[1..] == p && ProxiesOf(b) == [BarRq] + ProxiesOf(p);
    var f := (if !pre then [] else [PreFlush]) + b;
    assert pre ==> f[1..] == b;
    assert !pre ==> f == b;
    var d := (if idle then [] else [Drain]) + f;
    assert !idle ==> d[1..] == f;
    assert idle ==> d == f;
    assert d == (if idle then [] else [Drain]) + (if !pre then [] else [PreFlush]) + [Bar] + p;
  }

  /** A request at the front may go if it belongs to the stage that is due; special commands
      always may. */
  predicate Due(s: State, rq: Request) {
    !InProgress(s) || rq.SpecialRq? || (Remaining(s.ordseq) != [] && Place(s.orig, rq) == Remaining(s.ordseq)[0])
  }

  /** `elv_next_request` serves the front request exactly if it is due: the driver gets it,
      or the barrier ends if it was an empty one. */
  lemma NextServes(s: State)
    requires Inv(s) && s.head != []
    ensures var b, t := Begun(s), NextRequest(s);
            && b.head != [] && (InProgress(b) || !IsBarrier(b.head[0]))
            && (if !Due(b, b.head[0]) then t == b
                else if b.head[0].BarRq? && b.orig.FsRq? && b.orig.sectors == 0 then
                  !InProgress(t) && t.ends == b.ends + [(b.orig.id, b.orderr)] && t.head == b.head[1..]
                else t == b.(started := b.started + {b.head[0]}))
  {
    NextIs(s);
    var b := Begun(s);
    DueIsFront(b);
    hide Inv, Due, FrontMayGo, DoOrdered, Begun;
    if Due(b, b.head[0]) && b.head[0].BarRq? && b.orig.FsRq? && b.orig.sectors == 0 { EmptyEnds(b); }
  }

  lemma DueIsFront(s: State)
    requires Inv(s) && s.head != [] && (InProgress(s) || !IsBarrier(s.head[0]))
    ensures Due(s, s.head[0]) <==> FrontMayGo(s)
  {
    if InProgress(s) && !s.head[0].SpecialRq? { FrontNotLate(s); }
    hide Sorted, Elems, Placed, Covered, BarriersOk, EndsOk, LogOk;
  }

  /** The empty barrier was the last stage. */
  lemma EmptyEnds(s: State)
    requires Inv(s) && s.head != [] && s.head[0].BarRq? && s.orig.FsRq? && s.orig.sectors == 0 && Due(s, s.head[0])
    ensures var t := Serve(s); !InProgress(t) && t.ends == s.ends + [(s.orig.id, s.orderr)] && t.head == s.head[1..]
  {
    assert s.head[0] in Elems(s.head);
  }

  // ---- the error of a sequence, from the events ----

  /** The error that an event reports for the sequence: the proxies' completions and the
      parts of the barrier that fail. */
  function Report(e: Event): int {
    match e
    case Complete(PreFlushRq, error) => error
    case Complete(BarRq, error) => error
    case Complete(PostFlushRq, error) => error
    case BarError(error) => error
    case _ => 0
  }

  function Reports(es: seq<Event>): seq<int> { seq(|es|, i requires 0 <= i < |es| => Report(es[i])) }

  /** The error after one more event: the first one stays. */
  function Later(error: int, e: Event): int { if error != 0 then error else Report(e) }

  /** The error is kept, and a barrier that ends is ended with it. */
  predicate ErrorKept(s: State, t: State, before: int, after: int) {
    && (InProgress(s) && InProgress(t) ==> before == s.orderr && t.orderr == after)
    && (!InProgress(s) && InProgress(t) ==> t.orderr == 0)
    && (t.ends != s.ends ==>
          t.orig.FsRq? && t.ends == s.ends + [(t.orig.id, if InProgress(s) then after else 0)])
    && (InProgress(s) && !InProgress(t) ==> t.ends != s.ends && t.orig == s.orig)
  }

  /** One event: the first error stays. */
  lemma ErrorStep(s: State, e: Event)
    requires Inv(s) && Enabled(s, e)
    ensures ErrorKept(s, Step(s, e), s.orderr, Later(s.orderr, e))
  {
    match e
    case Next => NextServes(s); NextError(s);
    case Complete(rq, error) => CompleteError(s, rq, error);
    case _ => hide Inv;
  }

  lemma NextError(s: State)
    requires Inv(s) && s.head != []
    ensures ErrorKept(s, NextRequest(s), s.orderr, s.orderr)
  {
    NextServes(s);
    NextOrig(s);
    hide Inv, NextRequest, Due;
    if !InProgress(s) && IsBarrier(s.head[0]) { SequencePlanned(s); }
    hide StartOrdered;
  }

  lemma NextOrig(s: State)
    requires Inv(s) && s.head != []
    ensures NextRequest(s).orig == Begun(s).orig
  {
    hide Inv, Begun, DoOrdered, FrontMayGo, EndRequest;
    NextIs(s);
    EndKeepsOrig(Begun(s).(head := Begun(s).head[1..]), Begun(s).head[0], 0);
  }

  lemma EndKeepsOrig(s: State, rq: Request, error: int)
    ensures EndRequest(s, rq, error).orig == s.orig
  {
    hide ReqSeq, CurSeq;
  }

  lemma CompleteError(s: State, rq: Request, error: int)
    requires Inv(s) && rq in s.driver
    ensures ErrorKept(s, Step(s, Complete(rq, error)), s.orderr, Later(s.orderr, Complete(rq, error)))
  {
    assert rq in s.started by { assert DriverOk(s, rq); }
    if ProxyStage(rq) == Idle {
      DrainError(s, rq, error);
    } else {
      ProxyInProgress(s, rq);
      hide Inv;
    }
  }

  /** A proxy at the driver: its sequence is past the draining. */
  lemma ProxyInProgress(s: State, rq: Request)
    requires Inv(s) && rq in s.driver && ProxyStage(rq) != Idle
    ensures InProgress(s) && s.ordseq.drain && s.orig.FsRq?
  {
    hide Sorted, Elems, Placed, Covered, BarriersOk, EndsOk, LogOk, Accounted;
  }

  /** Other requests may complete the draining stage, which never is the last one. */
  lemma DrainError(s: State, rq: Request, error: int)
    requires Inv(s) && rq in s.driver && rq in s.started && ProxyStage(rq) == Idle
    ensures var t := Step(s, Complete(rq, error));
            t.orderr == s.orderr && t.ends == s.ends && (InProgress(t) <==> InProgress(s))
  {
    NotLast(s);
    hide Inv, ReqSeq;
  }

  lemma NotLast(s: State)
    requires Inv(s)
    ensures InProgress(s) && !s.ordseq.drain ==> !s.ordseq.bar
  {
    hide Sorted, Elems, Placed, Covered, BarriersOk, EndsOk, LogOk, Accounted, ProxyOk;
  }

  // ---- and over runs ----

  lemma RunPrefix(s: State, es: seq<Event>, n: nat)
    requires RunOk(s, es) && n <= |es|
    ensures RunOk(s, es[..n])
    decreases |es|
  {
    if n > 0 {
      RunPrefix(Step(s, es[0]), es[1..], n - 1);
      assert es[..n][1..] == es[1..][..n - 1];
    }
  }

  lemma {:induction false} RunMore(s: State, es: seq<Event>, n: nat)
    requires RunOk(s, es) && n < |es|
    ensures RunOk(s, es[..n]) && RunOk(s, es[..n + 1]) && Enabled(Run(s, es[..n]), es[n])
    ensures Run(s, es[..n + 1]) == Step(Run(s, es[..n]), es[n])
    decreases |es|
  {
    if n == 0 {
      assert es[..1] == [es[0]] && es[..1][1..] == [] && es[..0] == [];
    } else {
      RunMore(Step(s, es[0]), es[1..], n - 1);
      assert es[..n][1..] == es[1..][..n - 1] && es[..n + 1][1..] == es[1..][..n];
    }
  }

  /** The events from k on belong to one sequence, which the event k started. */
  ghost predicate OneSequence(init: State, es: seq<Event>, k: nat)
    requires RunOk(init, es)
  {
    && k <= |es|
    && (forall j :: 0 <= j <= |es| ==> RunOk(init, es[..j]))
    && !InProgress(Run(init, es[..k])) && forall j :: k < j <= |es| ==> InProgress(Run(init, es[..j]))
  }

  /** In progress, the recorded error is the first one that was reported. */
  lemma {:induction false} ErrorSoFar(init: State, es: seq<Event>, k: nat, n: nat)
    requires Initial(init) && RunOk(init, es) && OneSequence(init, es, k) && k < n <= |es|
    ensures Run(init, es[..n]).orderr == FirstError(Reports(es[k..n]))
    decreases n
  {
    hide Inv, Step, Enabled, Run, InProgress;
    RunMore(init, es, n - 1);
    var s := Run(init, es[..n - 1]);
    InitialInv(init);
    RunKeeps(init, es[..n - 1]);
    ErrorStep(s, es[n - 1]);
    ReportsMore(es, k, n);
    if n - 1 > k {
      ErrorSoFar(init, es, k, n - 1);
    } else {
      IdleReports(s, es[k]);
      assert es[k..n - 1] == [];
    }
  }

  lemma ReportsMore(es: seq<Event>, k: nat, n: nat)
    requires k < n <= |es|
    ensures Reports(es[k..n]) == Reports(es[k..n - 1]) + [Report(es[n - 1])]
    ensures FirstError(Reports(es[k..n])) ==
            if FirstError(Reports(es[k..n - 1])) != 0 then FirstError(Reports(es[k..n - 1])) else Report(es[n - 1])
  {
    assert es[k..n] == es[k..n - 1] + [es[n - 1]];
    FirstErrorAppend(Reports(es[k..n - 1]), Report(es[n - 1]));
  }

  /** Without a sequence there is no proxy to report anything. */
  lemma IdleReports(s: State, e: Event)
    requires Inv(s) && Enabled(s, e) && !InProgress(s)
    ensures Report(e) == 0
  {
    hide Sorted, Elems, Placed, Covered, BarriersOk, EndsOk, LogOk, Accounted;
  }

  /** A barrier that ends carries this error, and one ends whenever a sequence is over. */
  predicate EndedWith(s: State, t: State, error: int) {
    && (t.ends != s.ends ==> t.orig.FsRq? && t.ends == s.ends + [(t.orig.id, error)])
    && (InProgress(s) && !InProgress(t) ==> t.ends != s.ends && t.orig == s.orig)
  }

  /** Over every run, an ended barrier carries the first nonzero error among the completions
      of its three proxies and its failed parts: k is the event that started its sequence. */
  lemma EndedWithFirstError(init: State, es: seq<Event>, k: nat, e: Event)
    requires Initial(init) && RunOk(init, es) && OneSequence(init, es, k) && Enabled(Run(init, es), e)
    ensures EndedWith(Run(init, es), Step(Run(init, es), e), FirstError(Reports(es[k..] + [e])))
  {
    var s := Run(init, es);
    InitialInv(init);
    RunKeeps(init, es);
    ErrorStep(s, e);
    assert es[..|es|] == es;
    FirstErrorAppend(Reports(es[k..]), Report(e));
    assert Reports(es[k..] + [e]) == Reports(es[k..]) + [Report(e)];
    if k < |es| {
      ErrorSoFar(init, es, k, |es|);
      assert es[k..|es|] == es[k..];
    } else {
      assert es[k..] == [] && Reports(es[k..]) == [];
      IdleReports(s, e);
    }
    hide Inv, Step, Run, Enabled;
  }
}
