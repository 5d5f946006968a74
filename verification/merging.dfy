/** Merging in the elevator core (elevator.c and __make_request of ll_rw_blk.c): no bio is
    lost or duplicated, the bios of a request cover its sectors without gaps, and the hash
    of request ends finds a back merge exactly if there is one. */
module Merging {
  import opened Lists

  datatype Bio = Bio(id: nat, sector: nat, sectors: nat)

  /** `mergeable` is rq_mergeable: it is only ever cleared. */
  datatype Request = Request(sector: nat, sectors: nat, bios: seq<Bio>, mergeable: bool)

  const ENTRIES := 64

  /** ELV_HASH_FN: which bucket does not matter. */
  type Hash = h: nat -> nat | forall k :: h(k) < ENTRIES witness k => 0

  /** The requests, those in the I/O scheduler, the hash buckets and last_merge.  The others
      went to the dispatch queue; `owner` says which request a bio is in. */
  datatype State = State(
    rqs: map<nat, Request>, sched: set<nat>, buckets: seq<seq<nat>>, last: Option<nat>, owner: map<Bio, nat>)

  /** rq_hash_key */
  function Key(rq: Request): nat { rq.sector + rq.sectors }

  // ---- the invariant ----

  /** The bios cover [sector, sector + sectors) in order, without gaps. */
  predicate Tiles(bios: seq<Bio>, sector: nat, sectors: nat) {
    if bios == [] then sectors == 0
    else bios[0].sector == sector && bios[0].sectors <= sectors
         && Tiles(bios[1..], sector + bios[0].sectors, sectors - bios[0].sectors)
  }

  predicate HashShape(s: State) {
    && |s.buckets| == ENTRIES && s.sched <= s.rqs.Keys
    && forall i :: 0 <= i < ENTRIES ==> Distinct(s.buckets[i])
  }

  /** A hashed request is in the scheduler, and in the bucket of its end. */
  predicate Placed(h: Hash, s: State, i: nat, y: nat)
    requires HashShape(s) && i < ENTRIES
  {
    y in s.buckets[i] ==> y in s.sched && h(Key(s.rqs[y])) == i
  }

  /** A request of the scheduler that can still be merged is hashed. */
  predicate Hashed(h: Hash, s: State, y: nat)
    requires HashShape(s)
  {
    y in s.sched && s.rqs[y].mergeable ==> y in s.buckets[h(Key(s.rqs[y]))]
  }

  /** The hash is right for all requests but perhaps x. */
  ghost predicate HashExcept(h: Hash, s: State, x: nat) {
    && HashShape(s)
    && (forall i, y :: 0 <= i < ENTRIES && y != x ==> Placed(h, s, i, y))
    && forall y :: y != x ==> Hashed(h, s, y)
  }

  ghost predicate HashOk(h: Hash, s: State) {
    && HashShape(s)
    && (forall i, y :: 0 <= i < ENTRIES ==> Placed(h, s, i, y))
    && forall y :: Hashed(h, s, y)
  }

  predicate Absent(s: State, x: nat) {
    forall i :: 0 <= i < |s.buckets| ==> x !in s.buckets[i]
  }

  /** Every bio is in the request that owns it, once, and in no other. */
  predicate OwnersOk(s: State) {
    && (forall b :: b in s.owner ==> s.owner[b] in s.rqs && b in s.rqs[s.owner[b]].bios)
    && (forall x :: x in s.rqs ==> RequestOk(s.owner, x, s.rqs[x]))
  }

  predicate RequestOk(owner: map<Bio, nat>, x: nat, rq: Request) {
    && Tiles(rq.bios, rq.sector, rq.sectors) && Distinct(rq.bios)
    && forall b :: b in rq.bios ==> b in owner && owner[b] == x
  }

  ghost predicate Inv(h: Hash, s: State) {
    && HashOk(h, s) && OwnersOk(s)
    && (s.last.Some? ==> s.last.value in s.sched)
  }

  // ---- elv_rqhash_* ----

  /** hlist_del_init: nothing happens if x is not hashed. */
  function HashDel(s: State, x: nat): State {
    s.(buckets := seq(|s.buckets|, i requires 0 <= i < |s.buckets| => Without(s.buckets[i], x)))
  }

  function HashAdd(h: Hash, s: State, x: nat): State
    requires x in s.rqs && |s.buckets| == ENTRIES
  {
    var i := h(Key(s.rqs[x]));
    s.(buckets := s.buckets[i := [x] + s.buckets[i]])
  }

  /** elv_rqhash_reposition */
  function Reposition(h: Hash, s: State, x: nat): State
    requires x in s.rqs && |s.buckets| == ENTRIES
  {
    HashAdd(h, HashDel(s, x), x)
  }

  lemma DelMakes(h: Hash, s: State, x: nat)
    requires HashExcept(h, s, x)
    ensures HashExcept(h, HashDel(s, x), x) && Absent(HashDel(s, x), x)
  {
    hide Distinct, Without;
    var t := HashDel(s, x);
    forall i | 0 <= i < ENTRIES
      ensures Distinct(t.buckets[i]) && forall y :: y in t.buckets[i] <==> y in s.buckets[i] && y != x
    {
      assert t.buckets[i] == Without(s.buckets[i], x);
      WithoutMembers(s.buckets[i], x);
    }
    forall i, y | 0 <= i < ENTRIES && y != x ensures Placed(h, t, i, y) {
      assert Placed(h, s, i, y);
    }
    forall y | y != x ensures Hashed(h, t, y) {
      assert Hashed(h, s, y);
    }
  }

  lemma AddCloses(h: Hash, s: State, x: nat)
    requires HashExcept(h, s, x) && Absent(s, x) && x in s.sched
    ensures x in s.rqs && HashOk(h, HashAdd(h, s, x))
  {
    hide Distinct;
    var t, k := HashAdd(h, s, x), h(Key(s.rqs[x]));
    PutFirst(x, s.buckets[k]);
    forall i, y | 0 <= i < ENTRIES ensures Placed(h, t, i, y) {
      if y != x { assert Placed(h, s, i, y); }
    }
    forall y ensures Hashed(h, t, y) {
      if y != x { assert Hashed(h, s, y); }
    }
  }

  lemma PutFirst(x: nat, t: seq<nat>)
    requires Distinct(t) && x !in t
    ensures Distinct([x] + t)
  {
  }

  /** Without x in the hash all is well if x needs not be there. */
  lemma AbsentCloses(h: Hash, s: State, x: nat)
    requires HashExcept(h, s, x) && Absent(s, x) && (x in s.sched ==> x in s.rqs && !s.rqs[x].mergeable)
    ensures HashOk(h, s)
  {
    forall i, y | 0 <= i < ENTRIES ensures Placed(h, s, i, y) {
    }
    forall y ensures Hashed(h, s, y) {
    }
  }

  /** What happens to x itself does not touch the place of the others. */
  lemma OthersStay(h: Hash, s: State, t: State, x: nat)
    requires HashExcept(h, s, x)
    requires t.buckets == s.buckets && t.sched <= t.rqs.Keys
    requires forall y :: y != x ==> (y in t.rqs <==> y in s.rqs) && (y in t.sched <==> y in s.sched)
    requires forall y :: y != x && y in s.rqs ==> t.rqs[y] == s.rqs[y]
    ensures HashExcept(h, t, x)
  {
    forall i, y | 0 <= i < ENTRIES && y != x ensures Placed(h, t, i, y) {
      assert Placed(h, s, i, y);
    }
    forall y | y != x ensures Hashed(h, t, y) {
      assert Hashed(h, s, y);
    }
  }

  /** A request whose end stays may lose, but not gain, the right to be merged. */
  lemma SameEnd(h: Hash, s: State, t: State, x: nat)
    requires HashOk(h, s) && x in s.rqs
    requires t.buckets == s.buckets && t.sched == s.sched && t.rqs.Keys == s.rqs.Keys
    requires forall y :: y != x && y in s.rqs ==> t.rqs[y] == s.rqs[y]
    requires Key(t.rqs[x]) == Key(s.rqs[x]) && (t.rqs[x].mergeable ==> s.rqs[x].mergeable)
    ensures HashOk(h, t)
  {
    forall i, y | 0 <= i < ENTRIES ensures Placed(h, t, i, y) {
      assert Placed(h, s, i, y);
    }
    forall y ensures Hashed(h, t, y) {
      assert Hashed(h, s, y);
    }
  }

  // ---- the index is exact ----

  /** The walk of elv_rqhash_find along a bucket: requests that are no longer mergeable are
      dropped on the way. */
  function Walk(rqs: map<nat, Request>, b: seq<nat>, offset: nat): (Option<nat>, seq<nat>)
    requires forall x :: x in b ==> x in rqs
  {
    if b == [] then (None, [])
    else if !rqs[b[0]].mergeable then Walk(rqs, b[1..], offset)
    else if Key(rqs[b[0]]) == offset then (Some(b[0]), b)
    else
      var (r, rest) := Walk(rqs, b[1..], offset);
      (r, [b[0]] + rest)
  }

  lemma {:induction false} WalkIs(rqs: map<nat, Request>, b: seq<nat>, offset: nat)
    requires forall x :: x in b ==> x in rqs
    ensures var (r, rest) := Walk(rqs, b, offset);
            && (r.Some? ==> r.value in b && rqs[r.value].mergeable && Key(rqs[r.value]) == offset)
            && (r.None? ==> forall x :: x in b && rqs[x].mergeable ==> Key(rqs[x]) != offset)
            && (forall x :: x in rest ==> x in b) && (forall x :: x in b && rqs[x].mergeable ==> x in rest)
            && (Distinct(b) ==> Distinct(rest))
  {
    if b != [] {
      assert forall x :: x in b[1..] ==> x in b;
      WalkIs(rqs, b[1..], offset);
      var (r, rest) := Walk(rqs, b[1..], offset);
      if rqs[b[0]].mergeable && Key(rqs[b[0]]) != offset && Distinct(b) {
        assert b[0] !in b[1..];
        PutFirst(b[0], rest);
      }
    }
  }

  lemma BucketKnown(h: Hash, s: State, i: nat)
    requires HashOk(h, s) && i < ENTRIES
    ensures forall y :: y in s.buckets[i] ==> y in s.rqs && y in s.sched && h(Key(s.rqs[y])) == i
  {
    forall y | y in s.buckets[i] ensures y in s.rqs && y in s.sched && h(Key(s.rqs[y])) == i {
      assert Placed(h, s, i, y);
    }
  }

  /** elv_rqhash_find: the request found, and the hash without what was dropped. */
  ghost function Find(h: Hash, s: State, offset: nat): (Option<nat>, State)
    requires HashOk(h, s)
  {
    var i := h(offset);
    BucketKnown(h, s, i);
    var (r, rest) := Walk(s.rqs, s.buckets[i], offset);
    (r, s.(buckets := s.buckets[i := rest]))
  }

  /** A mergeable request of the scheduler that ends at the offset. */
  predicate EndsAt(s: State, x: nat, offset: nat) {
    x in s.sched && x in s.rqs && s.rqs[x].mergeable && Key(s.rqs[x]) == offset
  }

  /** A request is found exactly if there is one. */
  lemma FindExact(h: Hash, s: State, offset: nat)
    requires HashOk(h, s)
    ensures var r := Find(h, s, offset).0;
            && (r.Some? ==> EndsAt(s, r.value, offset))
            && (r.Some? <==> exists x :: EndsAt(s, x, offset))
  {
    var i := h(offset);
    BucketKnown(h, s, i);
    WalkIs(s.rqs, s.buckets[i], offset);
    hide Walk;
    forall x | EndsAt(s, x, offset) ensures x in s.buckets[i] {
      assert Hashed(h, s, x);
    }
  }

  lemma FindKeeps(h: Hash, s: State, offset: nat)
    requires Inv(h, s)
    ensures Inv(h, Find(h, s, offset).1)
  {
    var i := h(offset);
    BucketKnown(h, s, i);
    WalkIs(s.rqs, s.buckets[i], offset);
    hide Walk, Distinct, RequestOk;
    var t := Find(h, s, offset).1;
    forall j, y | 0 <= j < ENTRIES ensures Placed(h, t, j, y) {
      assert Placed(h, s, j, y);
    }
    forall y ensures Hashed(h, t, y) {
      assert Hashed(h, s, y);
    }
  }

  // ---- the operations ----

  /** add_request: elv_insert with ELEVATOR_INSERT_SORT. */
  function Insert(h: Hash, s: State, x: nat, bio: Bio, mergeable: bool): State
    requires x !in s.rqs && |s.buckets| == ENTRIES
  {
    var s := s.(rqs := s.rqs[x := Request(bio.sector, bio.sectors, [bio], mergeable)], sched := s.sched + {x},
                owner := s.owner[bio := x]);
    if !mergeable then s else HashAdd(h, s, x).(last := if s.last.None? then Some(x) else s.last)
  }

  /** elv_dispatch_sort and elv_dispatch_add_tail */
  function Dispatch(s: State, x: nat): State {
    HashDel(s.(last := if s.last == Some(x) then None else s.last), x).(sched := s.sched - {x})
  }

  /** A limit of the queue forbids merging with x: REQ_NOMERGE. */
  function Stop(s: State, x: nat): State
    requires x in s.rqs
  {
    s.(rqs := s.rqs[x := s.rqs[x].(mergeable := false)], last := if s.last == Some(x) then None else s.last)
  }

  /** The bio list and the sectors of x, with a bio behind or in front. */
  function GrowBack(s: State, x: nat, bio: Bio): State
    requires x in s.rqs
  {
    var rq := s.rqs[x];
    s.(rqs := s.rqs[x := rq.(sectors := rq.sectors + bio.sectors, bios := rq.bios + [bio])], owner := s.owner[bio := x])
  }

  function GrowFront(s: State, x: nat, bio: Bio): State
    requires x in s.rqs
  {
    var rq := s.rqs[x];
    s.(rqs := s.rqs[x := rq.(sector := bio.sector, sectors := rq.sectors + bio.sectors, bios := [bio] + rq.bios)],
       owner := s.owner[bio := x])
  }

  /** x takes over the sectors and the bios of y. */
  function Absorb(s: State, x: nat, y: nat): State
    requires x in s.rqs && y in s.rqs && x != y
  {
    var rq, next := s.rqs[x], s.rqs[y];
    s.(rqs := s.rqs[x := rq.(sectors := rq.sectors + next.sectors, bios := rq.bios + next.bios)],
       owner := map b | b in s.owner.Keys + Elems(next.bios) :: if b in next.bios then x else s.owner[b])
  }

  /** What attempt_merge does when it succeeds: elv_merge_requests, and y is released. */
  function Join(h: Hash, s: State, x: nat, y: nat): State
    requires x in s.rqs && y in s.rqs && x != y && |s.buckets| == ENTRIES
  {
    var s := HashDel(Reposition(h, Absorb(s, x, y), x), y);
    s.(rqs := s.rqs - {y}, sched := s.sched - {y}, last := Some(x))
  }

  /** The conditions of attempt_merge on what is modelled of the requests. */
  predicate Adjacent(s: State, x: nat, y: nat) {
    && x in s.sched && y in s.sched && x in s.rqs && y in s.rqs && x != y
    && s.rqs[x].mergeable && s.rqs[y].mergeable && Key(s.rqs[x]) == s.rqs[y].sector
  }

  /** ELEVATOR_BACK_MERGE in __make_request.  `near` is the request that attempt_back_merge
      would join, if the limits permit. */
  function BackMerge(h: Hash, s: State, x: nat, bio: Bio, near: Option<nat>): State
    requires x in s.rqs && |s.buckets| == ENTRIES
  {
    var s := GrowBack(s, x, bio);
    if near.Some? && Adjacent(s, x, near.value) then Join(h, s, x, near.value)
    else Reposition(h, s, x).(last := Some(x))
  }

  /** ELEVATOR_FRONT_MERGE; the end of x does not move. */
  function FrontMerge(h: Hash, s: State, x: nat, bio: Bio, near: Option<nat>): State
    requires x in s.rqs && |s.buckets| == ENTRIES
  {
    var s := GrowFront(s, x, bio);
    if near.Some? && Adjacent(s, near.value, x) then Join(h, s, near.value, x)
    else s.(last := Some(x))
  }

  // ---- what they keep: bios ----

  lemma {:induction false} TilesAppend(a: seq<Bio>, b: seq<Bio>, sector: nat, m: nat, n: nat)
    requires Tiles(a, sector, m) && Tiles(b, sector + m, n)
    ensures Tiles(a + b, sector, m + n)
  {
    if a == [] {
      assert a + b == b;
    } else {
      TilesAppend(a[1..], b, sector + a[0].sectors, m - a[0].sectors, n);
      assert (a + b)[1..] == a[1..] + b;
    }
  }

  lemma OneTile(bio: Bio)
    ensures Tiles([bio], bio.sector, bio.sectors)
  {
    assert Tiles([], bio.sector + bio.sectors, 0);
  }

  lemma OwnersGrow(s: State, t: State, x: nat, bio: Bio)
    requires OwnersOk(s) && bio !in s.owner && t.owner == s.owner[bio := x]
    requires x in t.rqs && t.rqs == s.rqs[x := t.rqs[x]] && RequestOk(t.owner, x, t.rqs[x])
    requires forall b :: b in t.rqs[x].bios <==> b == bio || (x in s.rqs && b in s.rqs[x].bios)
    ensures OwnersOk(t)
  {
    hide Tiles, Distinct;
    forall y | y in t.rqs ensures RequestOk(t.owner, y, t.rqs[y]) {
      if y != x { assert RequestOk(s.owner, y, s.rqs[y]); }
    }
    if x in s.rqs { assert RequestOk(s.owner, x, s.rqs[x]); }
  }

  lemma InsertOwners(h: Hash, s: State, x: nat, bio: Bio, mergeable: bool)
    requires OwnersOk(s) && x !in s.rqs && |s.buckets| == ENTRIES && bio !in s.owner
    ensures OwnersOk(Insert(h, s, x, bio, mergeable))
  {
    OneTile(bio);
    hide Tiles;
    OwnersGrow(s, Insert(h, s, x, bio, mergeable), x, bio);
  }

  lemma GrowBackOwners(s: State, x: nat, bio: Bio)
    requires OwnersOk(s) && x in s.rqs && bio !in s.owner && Key(s.rqs[x]) == bio.sector
    ensures OwnersOk(GrowBack(s, x, bio))
  {
    hide Tiles, Distinct;
    var rq := s.rqs[x];
    assert RequestOk(s.owner, x, rq);
    OneTile(bio);
    TilesAppend(rq.bios, [bio], rq.sector, rq.sectors, bio.sectors);
    SingleDistinct(bio);
    AppendDistinct(rq.bios, [bio]);
    OwnersGrow(s, GrowBack(s, x, bio), x, bio);
  }

  lemma SingleDistinct(bio: Bio)
    ensures Distinct([bio])
  {
  }

  lemma GrowFrontOwners(s: State, x: nat, bio: Bio)
    requires OwnersOk(s) && x in s.rqs && bio !in s.owner && bio.sector + bio.sectors == s.rqs[x].sector
    ensures OwnersOk(GrowFront(s, x, bio))
  {
    hide Tiles, Distinct;
    var rq := s.rqs[x];
    assert RequestOk(s.owner, x, rq);
    OneTile(bio);
    TilesAppend([bio], rq.bios, bio.sector, bio.sectors, rq.sectors);
    SingleDistinct(bio);
    AppendDistinct([bio], rq.bios);
    OwnersGrow(s, GrowFront(s, x, bio), x, bio);
  }

  lemma JoinIs(h: Hash, s: State, x: nat, y: nat)
    requires x in s.rqs && y in s.rqs && x != y && |s.buckets| == ENTRIES
    ensures var t, a := Join(h, s, x, y), Absorb(s, x, y);
            t.rqs == a.rqs - {y} && t.sched == s.sched - {y} && t.last == Some(x) && t.owner == a.owner
  {
    hide Without;
  }

  lemma AbsorbRequest(s: State, x: nat, y: nat)
    requires OwnersOk(s) && x in s.rqs && y in s.rqs && x != y && Key(s.rqs[x]) == s.rqs[y].sector
    ensures var a := Absorb(s, x, y); RequestOk(a.owner, x, a.rqs[x]) && a.owner.Keys == s.owner.Keys
  {
    hide Tiles, Distinct;
    var rq, next := s.rqs[x], s.rqs[y];
    assert RequestOk(s.owner, x, rq) && RequestOk(s.owner, y, next);
    hide OwnersOk;
    TilesAppend(rq.bios, next.bios, rq.sector, rq.sectors, next.sectors);
    AppendDistinct(rq.bios, next.bios);
    var a := Absorb(s, x, y);
    assert forall b :: b in a.rqs[x].bios <==> b in rq.bios || b in next.bios;
  }

  lemma AbsorbOthers(s: State, x: nat, y: nat, z: nat)
    requires OwnersOk(s) && x in s.rqs && y in s.rqs && x != y && z in s.rqs && z != x && z != y
    ensures var a := Absorb(s, x, y); z in a.rqs && RequestOk(a.owner, z, a.rqs[z])
  {
    hide Tiles, Distinct;
    assert RequestOk(s.owner, y, s.rqs[y]) && RequestOk(s.owner, z, s.rqs[z]);
    hide OwnersOk;
  }

  lemma AbsorbBios(s: State, x: nat, y: nat, b: Bio)
    requires OwnersOk(s) && x in s.rqs && y in s.rqs && x != y && b in s.owner
    ensures var a := Absorb(s, x, y); b in a.owner && a.owner[b] in a.rqs - {y} && b in a.rqs[a.owner[b]].bios
  {
    assert RequestOk(s.owner, y, s.rqs[y]);
    hide RequestOk;
  }

  lemma JoinOwners(h: Hash, s: State, x: nat, y: nat)
    requires OwnersOk(s) && x in s.rqs && y in s.rqs && x != y && |s.buckets| == ENTRIES
    requires Key(s.rqs[x]) == s.rqs[y].sector
    ensures OwnersOk(Join(h, s, x, y)) && Join(h, s, x, y).owner.Keys == s.owner.Keys
  {
    JoinIs(h, s, x, y);
    var a := Absorb(s, x, y);
    assert a.rqs.Keys == s.rqs.Keys;
    hide OwnersOk, RequestOk, Join, Absorb;
    AbsorbRequest(s, x, y);
    forall z | z in a.rqs && z != y ensures RequestOk(a.owner, z, a.rqs[z]) {
      if z != x { AbsorbOthers(s, x, y, z); }
    }
    forall b | b in a.owner ensures a.owner[b] in a.rqs && a.owner[b] != y && b in a.rqs[a.owner[b]].bios {
      AbsorbBios(s, x, y, b);
    }
    OwnersFewer(a, y, Join(h, s, x, y));
  }

  /** y has no bio any more. */
  lemma OwnersFewer(s: State, y: nat, t: State)
    requires forall z :: z in s.rqs && z != y ==> RequestOk(s.owner, z, s.rqs[z])
    requires forall b :: b in s.owner ==> s.owner[b] in s.rqs && s.owner[b] != y && b in s.rqs[s.owner[b]].bios
    requires t.rqs == s.rqs - {y} && t.owner == s.owner
    ensures OwnersOk(t)
  {
    hide RequestOk;
  }

  lemma OwnersSame(s: State, t: State, x: nat)
    requires OwnersOk(s) && x in s.rqs && t.owner == s.owner
    requires t.rqs == s.rqs || t.rqs == s.rqs[x := s.rqs[x].(mergeable := false)]
    ensures OwnersOk(t)
  {
    hide Tiles, Distinct;
    forall y | y in t.rqs ensures RequestOk(t.owner, y, t.rqs[y]) {
      assert RequestOk(s.owner, y, s.rqs[y]);
    }
  }

  // ---- what they keep: the hash ----

  lemma InsertHash(h: Hash, s: State, x: nat, bio: Bio, mergeable: bool)
    requires HashOk(h, s) && x !in s.rqs
    ensures HashOk(h, Insert(h, s, x, bio, mergeable))
  {
    hide Distinct;
    var t := s.(rqs := s.rqs[x := Request(bio.sector, bio.sectors, [bio], mergeable)], sched := s.sched + {x},
                owner := s.owner[bio := x]);
    forall i | 0 <= i < ENTRIES ensures x !in s.buckets[i] {
      assert Placed(h, s, i, x);
    }
    OthersStay(h, s, t, x);
    hide HashExcept;
    if mergeable {
      AddCloses(h, t, x);
      LastDoesNotMatter(h, HashAdd(h, t, x), Insert(h, s, x, bio, mergeable));
    } else {
      AbsentCloses(h, t, x);
    }
  }

  lemma LastDoesNotMatter(h: Hash, s: State, t: State)
    requires HashOk(h, s) && t.rqs == s.rqs && t.sched == s.sched && t.buckets == s.buckets
    ensures HashOk(h, t)
  {
    hide Distinct;
    forall i, y | 0 <= i < ENTRIES ensures Placed(h, t, i, y) {
      assert Placed(h, s, i, y);
    }
    forall y ensures Hashed(h, t, y) {
      assert Hashed(h, s, y);
    }
  }

  lemma RepositionHash(h: Hash, s: State, x: nat)
    requires HashExcept(h, s, x) && x in s.sched
    ensures HashOk(h, Reposition(h, s, x))
  {
    DelMakes(h, s, x);
    AddCloses(h, HashDel(s, x), x);
  }

  lemma RemoveHash(h: Hash, s: State, t: State, x: nat)
    requires HashOk(h, s)
    requires t.buckets == HashDel(s, x).buckets && t.sched == s.sched - {x} && (t.rqs == s.rqs || t.rqs == s.rqs - {x})
    ensures HashOk(h, t)
  {
    hide Distinct, Without;
    DelMakes(h, s, x);
    hide HashDel;
    OthersStay(h, HashDel(s, x).(rqs := s.rqs, sched := s.sched), t, x);
    AbsentCloses(h, t, x);
  }

  lemma JoinHash(h: Hash, s: State, x: nat, y: nat)
    requires HashExcept(h, s, x) && Adjacent(s, x, y)
    ensures HashOk(h, Join(h, s, x, y))
  {
    var a := Absorb(s, x, y);
    OthersStay(h, s, a, x);
    RepositionHash(h, a, x);
    hide HashExcept, HashOk;
    RemoveHash(h, Reposition(h, a, x), Join(h, s, x, y), y);
  }

  // ---- every step keeps the invariant and the bios ----

  /** What the steps have in common: no bio goes, and only `more` come. */
  ghost predicate Kept(h: Hash, s: State, t: State, more: set<Bio>) {
    Inv(h, t) && t.owner.Keys == s.owner.Keys + more
  }

  lemma InsertKeeps(h: Hash, s: State, x: nat, bio: Bio, mergeable: bool)
    requires Inv(h, s) && x !in s.rqs && bio !in s.owner
    ensures Kept(h, s, Insert(h, s, x, bio, mergeable), {bio})
  {
    InsertHash(h, s, x, bio, mergeable);
    InsertOwners(h, s, x, bio, mergeable);
    hide HashOk, OwnersOk;
  }

  lemma DispatchKeeps(h: Hash, s: State, x: nat)
    requires Inv(h, s) && x in s.sched
    ensures Kept(h, s, Dispatch(s, x), {})
  {
    hide Without;
    var t := Dispatch(s, x);
    RemoveHash(h, s, t, x);
    OwnersSame(s, t, x);
    hide HashOk, OwnersOk;
  }

  lemma StopKeeps(h: Hash, s: State, x: nat)
    requires Inv(h, s) && x in s.rqs
    ensures Kept(h, s, Stop(s, x), {})
  {
    var t := Stop(s, x);
    SameEnd(h, s, t, x);
    OwnersSame(s, t, x);
    hide HashOk, OwnersOk;
  }

  lemma OkExcept(h: Hash, s: State, x: nat)
    requires HashOk(h, s)
    ensures HashExcept(h, s, x) && HashShape(s)
  {
  }

  /** What merging the request with its neighbour keeps. */
  lemma JoinKeeps(h: Hash, s: State, x: nat, y: nat)
    requires HashExcept(h, s, x) && OwnersOk(s) && Adjacent(s, x, y)
    ensures Kept(h, s, Join(h, s, x, y), {})
  {
    JoinHash(h, s, x, y);
    JoinOwners(h, s, x, y);
    hide HashExcept, HashOk, OwnersOk, Join;
    JoinIs(h, s, x, y);
  }

  lemma BackMergeKeeps(h: Hash, s: State, x: nat, bio: Bio, near: Option<nat>)
    requires Inv(h, s) && EndsAt(s, x, bio.sector) && bio !in s.owner
    ensures Kept(h, s, BackMerge(h, s, x, bio, near), {bio})
  {
    hide HashExcept, HashOk, OwnersOk, Join, HashDel, HashAdd, Distinct;
    var g := GrowBack(s, x, bio);
    GrowBackOwners(s, x, bio);
    OkExcept(h, s, x);
    OthersStay(h, s, g, x);
    if near.Some? && Adjacent(g, x, near.value) {
      JoinKeeps(h, g, x, near.value);
    } else {
      RepositionHash(h, g, x);
      RepositionIs(h, g, x);
      var t := BackMerge(h, s, x, bio, near);
      LastDoesNotMatter(h, Reposition(h, g, x), t);
      OwnersSame(g, t, x);
    }
  }

  lemma RepositionIs(h: Hash, s: State, x: nat)
    requires x in s.rqs && |s.buckets| == ENTRIES
    ensures var t := Reposition(h, s, x); t.rqs == s.rqs && t.sched == s.sched && t.owner == s.owner && t.last == s.last
  {
    hide Without;
  }

  /** The request starts where the bio ends. */
  predicate StartsAt(s: State, x: nat, end: nat) {
    x in s.sched && x in s.rqs && s.rqs[x].mergeable && s.rqs[x].sector == end
  }

  lemma FrontMergeKeeps(h: Hash, s: State, x: nat, bio: Bio, near: Option<nat>)
    requires Inv(h, s) && StartsAt(s, x, bio.sector + bio.sectors) && bio !in s.owner
    ensures Kept(h, s, FrontMerge(h, s, x, bio, near), {bio})
  {
    hide HashExcept, HashOk, OwnersOk, Join, Distinct;
    var g := GrowFront(s, x, bio);
    GrowFrontOwners(s, x, bio);
    OkExcept(h, s, x);
    SameEnd(h, s, g, x);
    if near.Some? && Adjacent(g, near.value, x) {
      OkExcept(h, g, near.value);
      JoinKeeps(h, g, near.value, x);
    } else {
      var t := FrontMerge(h, s, x, bio, near);
      LastDoesNotMatter(h, g, t);
      OwnersSame(g, t, x);
    }
  }

  // ---- merging a bio ----

  datatype Kind = NoMerge | Back | Front

  /** What is not modelled of a merge attempt: the requests that the other tests of
      elv_rq_merge_ok let pass, the front merge that the I/O scheduler proposes, whether the
      limits of the queue permit the merge, and the neighbour that attempt_merge may join. */
  datatype Terms = Terms(allow: set<nat>, front: Option<nat>, fits: bool, near: Option<nat>)

  /** elv_try_merge */
  function TryMerge(s: State, x: nat, bio: Bio, terms: Terms): Kind
    requires x in s.rqs
  {
    if !s.rqs[x].mergeable || x !in terms.allow then NoMerge
    else if Key(s.rqs[x]) == bio.sector then Back
    else if s.rqs[x].sector == bio.sector + bio.sectors then Front
    else NoMerge
  }

  predicate Proposed(s: State, bio: Bio, terms: Terms) {
    terms.front.Some? && terms.front.value in terms.allow && StartsAt(s, terms.front.value, bio.sector + bio.sectors)
  }

  /** elv_merge: last_merge, then the hash, then the I/O scheduler. */
  ghost function Choose(h: Hash, s: State, bio: Bio, terms: Terms): (Option<(nat, Kind)>, State)
    requires Inv(h, s)
  {
    if s.last.Some? && TryMerge(s, s.last.value, bio, terms) != NoMerge then
      (Some((s.last.value, TryMerge(s, s.last.value, bio, terms))), s)
    else
      var (r, t) := Find(h, s, bio.sector);
      if r.Some? && r.value in terms.allow then (Some((r.value, Back)), t)
      else if Proposed(t, bio, terms) then (Some((terms.front.value, Front)), t)
      else (None, t)
  }

  lemma ChooseKeeps(h: Hash, s: State, bio: Bio, terms: Terms)
    requires Inv(h, s)
    ensures var t := Choose(h, s, bio, terms).1; Kept(h, s, t, {}) && t == s.(buckets := t.buckets)
  {
    hide HashOk, OwnersOk, Find;
    FindKeeps(h, s, bio.sector);
    FindOnlyCleans(h, s, bio.sector);
  }

  predicate Touches(s: State, bio: Bio, r: (nat, Kind)) {
    || (r.1 == Back && EndsAt(s, r.0, bio.sector))
    || (r.1 == Front && StartsAt(s, r.0, bio.sector + bio.sectors))
  }

  /** Only requests that touch the bio are chosen. */
  lemma ChooseTouches(h: Hash, s: State, bio: Bio, terms: Terms)
    requires Inv(h, s)
    ensures var r := Choose(h, s, bio, terms).0; r.Some? ==> Touches(s, bio, r.value)
  {
    FindExact(h, s, bio.sector);
    FindOnlyCleans(h, s, bio.sector);
    hide HashOk, OwnersOk, Find;
  }

  /** One is chosen, if some request ends where the bio starts and the other tests forbid
      none of them. */
  lemma ChooseFinds(h: Hash, s: State, bio: Bio, terms: Terms)
    requires Inv(h, s)
    requires forall x :: EndsAt(s, x, bio.sector) ==> x in terms.allow
    ensures (exists x :: EndsAt(s, x, bio.sector)) ==> Choose(h, s, bio, terms).0.Some?
  {
    hide HashOk, OwnersOk, Find, Walk, EndsAt, Proposed;
    FindExact(h, s, bio.sector);
  }

  lemma FindOnlyCleans(h: Hash, s: State, offset: nat)
    requires HashOk(h, s)
    ensures var t := Find(h, s, offset).1; t == s.(buckets := t.buckets)
  {
    hide Walk;
  }

  /** What __make_request does with the request that elv_merge chose. */
  function MergeWith(h: Hash, s: State, r: (nat, Kind), bio: Bio, terms: Terms): (bool, State)
    requires r.0 in s.rqs && |s.buckets| == ENTRIES
  {
    if !terms.fits then (false, Stop(s, r.0))
    else if r.1 == Back then (true, BackMerge(h, s, r.0, bio, terms.near))
    else (true, FrontMerge(h, s, r.0, bio, terms.near))
  }

  lemma MergeWithKeeps(h: Hash, s: State, r: (nat, Kind), bio: Bio, terms: Terms)
    requires Inv(h, s) && bio !in s.owner && Touches(s, bio, r)
    ensures r.0 in s.rqs && |s.buckets| == ENTRIES
    ensures var (merged, t) := MergeWith(h, s, r, bio, terms); Kept(h, s, t, if merged then {bio} else {})
  {
    hide HashOk, OwnersOk, BackMerge, FrontMerge, Stop;
    OkExcept(h, s, r.0);
    if !terms.fits {
      StopKeeps(h, s, r.0);
    } else if r.1 == Back {
      BackMergeKeeps(h, s, r.0, bio, terms.near);
    } else {
      FrontMergeKeeps(h, s, r.0, bio, terms.near);
    }
  }

  /** __make_request up to get_rq: is the bio merged, and the new state. */
  ghost function Merge(h: Hash, s: State, bio: Bio, terms: Terms): (bool, State)
    requires Inv(h, s)
  {
    var (r, t) := Choose(h, s, bio, terms);
    if r.None? then (false, t)
    else
      ChooseKeeps(h, s, bio, terms);
      ChooseTouches(h, s, bio, terms);
      MergeWith(h, t, r.value, bio, terms)
  }

  /** A bio that is merged is added to the bios, once; else they stay. */
  lemma MergeKeeps(h: Hash, s: State, bio: Bio, terms: Terms)
    requires Inv(h, s) && bio !in s.owner
    ensures var (merged, t) := Merge(h, s, bio, terms); Kept(h, s, t, if merged then {bio} else {})
  {
    hide Inv, Choose, MergeWith, Touches;
    ChooseKeeps(h, s, bio, terms);
    ChooseTouches(h, s, bio, terms);
    var (r, t) := Choose(h, s, bio, terms);
    if r.Some? {
      SameTouch(s, t, bio, r.value);
      MergeWithKeeps(h, t, r.value, bio, terms);
    }
  }

  lemma SameTouch(s: State, t: State, bio: Bio, r: (nat, Kind))
    requires Touches(s, bio, r) && t == s.(buckets := t.buckets)
    ensures Touches(t, bio, r)
  {
  }

  // ---- when a bio is merged, and where it goes ----

  /** Whether x and y, which is right behind it, may be joined. */
  predicate Joinable(s: State, x: nat, y: nat, end: nat) {
    && x in s.sched && y in s.sched && x in s.rqs && y in s.rqs && x != y
    && s.rqs[x].mergeable && s.rqs[y].mergeable && end == s.rqs[y].sector
  }

  /** The bio is the last of x, or comes between x and its neighbour, which is used up. */
  ghost predicate BehindOf(s: State, t: State, x: nat, bio: Bio, near: Option<nat>)
    requires x in s.rqs
  {
    var rq := s.rqs[x];
    && t.last == Some(x)
    && if near.Some? && Joinable(s, x, near.value, rq.sector + rq.sectors + bio.sectors) then
         var y := s.rqs[near.value];
         && t.rqs == s.rqs[x := Request(rq.sector, rq.sectors + bio.sectors + y.sectors, rq.bios + [bio] + y.bios,
                                        rq.mergeable)] - {near.value}
         && t.sched == s.sched - {near.value}
       else
         && t.rqs == s.rqs[x := Request(rq.sector, rq.sectors + bio.sectors, rq.bios + [bio], rq.mergeable)]
         && t.sched == s.sched
  }

  /** The bio is the first of x, or comes between x and its neighbour, which takes over. */
  ghost predicate InFrontOf(s: State, t: State, x: nat, bio: Bio, near: Option<nat>)
    requires x in s.rqs
  {
    var rq := s.rqs[x];
    if near.Some? && near.value in s.rqs && Joinable(s, near.value, x, rq.sector)
       && s.rqs[near.value].sector + s.rqs[near.value].sectors == bio.sector then
      var y := s.rqs[near.value];
      && t.rqs == s.rqs[near.value := Request(y.sector, y.sectors + (rq.sectors + bio.sectors),
                                              y.bios + ([bio] + rq.bios),
                                              y.mergeable)] - {x}
      && t.sched == s.sched - {x} && t.last == near
    else
      && t.rqs == s.rqs[x := Request(bio.sector, rq.sectors + bio.sectors, [bio] + rq.bios, rq.mergeable)]
      && t.sched == s.sched && t.last == Some(x)
  }

  /** A limit forbids the merge: nothing changes but that x is never merged again. */
  ghost predicate Refused(s: State, t: State, x: nat)
    requires x in s.rqs
  {
    && t.rqs == s.rqs[x := Request(s.rqs[x].sector, s.rqs[x].sectors, s.rqs[x].bios, false)]
    && t.sched == s.sched && t.last != Some(x) && (s.last != Some(x) ==> t.last == s.last)
  }

  /** The bio is merged into x, if the limits permit. */
  ghost predicate Outcome(s: State, merged: bool, t: State, x: nat, back: bool, bio: Bio, terms: Terms)
    requires x in s.rqs
  {
    && merged == terms.fits
    && if !terms.fits then Refused(s, t, x)
       else if back then BehindOf(s, t, x, bio, terms.near)
       else InFrontOf(s, t, x, bio, terms.near)
  }

  /** last_merge touches the bio, and may be merged with it. */
  predicate LastEnds(s: State, bio: Bio, terms: Terms) {
    s.last.Some? && s.last.value in terms.allow && EndsAt(s, s.last.value, bio.sector)
  }

  predicate LastStarts(s: State, bio: Bio, terms: Terms) {
    s.last.Some? && s.last.value in terms.allow && StartsAt(s, s.last.value, bio.sector + bio.sectors)
  }

  lemma WithOutcome(h: Hash, s: State, x: nat, back: bool, bio: Bio, terms: Terms)
    requires x in s.rqs && |s.buckets| == ENTRIES
    requires if back then EndsAt(s, x, bio.sector) else StartsAt(s, x, bio.sector + bio.sectors)
    ensures var (merged, t) := MergeWith(h, s, (x, if back then Back else Front), bio, terms);
            Outcome(s, merged, t, x, back, bio, terms)
  {
    hide HashDel, HashAdd, Join;
    if terms.fits && back {
      BehindOutcome(h, s, x, bio, terms.near);
    } else if terms.fits {
      FrontOutcome(h, s, x, bio, terms.near);
    }
  }

  lemma BehindOutcome(h: Hash, s: State, x: nat, bio: Bio, near: Option<nat>)
    requires x in s.rqs && |s.buckets| == ENTRIES && EndsAt(s, x, bio.sector)
    ensures BehindOf(s, BackMerge(h, s, x, bio, near), x, bio, near)
  {
    hide Join, Reposition, Absorb, BehindOf, Adjacent, GrowBack, EndsAt, Key;
    var g := GrowBack(s, x, bio);
    GrowBackIs(s, x, bio);
    RepositionIs(h, g, x);
    hide HashShape;
    if near.Some? && Adjacent(g, x, near.value) {
      AdjacentKnown(g, x, near.value);
      JoinIs(h, g, x, near.value);
      AbsorbedBehind(s, x, bio, near.value);
      BehindJoined(s, x, bio, near.value, Join(h, g, x, near.value));
    } else {
      BehindAlone(s, x, bio, near, BackMerge(h, s, x, bio, near));
    }
  }

  lemma GrowBackIs(s: State, x: nat, bio: Bio)
    requires x in s.rqs
    ensures var g, rq := GrowBack(s, x, bio), s.rqs[x];
            && g.rqs == s.rqs[x := Request(rq.sector, rq.sectors + bio.sectors, rq.bios + [bio], rq.mergeable)]
            && g.sched == s.sched && g.last == s.last && g.buckets == s.buckets
  {
  }

  lemma AdjacentKnown(s: State, x: nat, y: nat)
    requires Adjacent(s, x, y)
    ensures x in s.rqs && y in s.rqs && x != y
  {
  }

  lemma AbsorbedBehind(s: State, x: nat, bio: Bio, y: nat)
    requires x in s.rqs && y in s.rqs && x != y
    ensures var g, rq, next := GrowBack(s, x, bio), s.rqs[x], s.rqs[y];
            && x in g.rqs && y in g.rqs
            && Absorb(g, x, y).rqs == g.rqs[x := Request(rq.sector, rq.sectors + bio.sectors + next.sectors,
                                                         rq.bios + [bio] + next.bios, rq.mergeable)]
  {
    GrowBackIs(s, x, bio);
    AbsorbedRqs(GrowBack(s, x, bio), x, y);
    hide GrowBack, Absorb;
  }

  lemma BehindJoined(s: State, x: nat, bio: Bio, y: nat, t: State)
    requires x in s.rqs && y in s.rqs && x != y && Adjacent(GrowBack(s, x, bio), x, y)
    requires var rq, next := s.rqs[x], s.rqs[y];
             t.rqs == GrowBack(s, x, bio).rqs[x := Request(rq.sector, rq.sectors + bio.sectors + next.sectors,
                                                           rq.bios + [bio] + next.bios, rq.mergeable)] - {y}
    requires t.sched == s.sched - {y} && t.last == Some(x)
    ensures BehindOf(s, t, x, bio, Some(y))
  {
    assert GrowBack(s, x, bio).rqs == s.rqs[x := GrowBack(s, x, bio).rqs[x]];
  }

  lemma BehindAlone(s: State, x: nat, bio: Bio, near: Option<nat>, t: State)
    requires x in s.rqs && !(near.Some? && Adjacent(GrowBack(s, x, bio), x, near.value))
    requires t.rqs == GrowBack(s, x, bio).rqs && t.sched == s.sched && t.last == Some(x)
    ensures BehindOf(s, t, x, bio, near)
  {
  }

  lemma AbsorbedRqs(s: State, x: nat, y: nat)
    requires x in s.rqs && y in s.rqs && x != y
    ensures var rq, next := s.rqs[x], s.rqs[y];
            Absorb(s, x, y).rqs == s.rqs[x := Request(rq.sector, rq.sectors + next.sectors, rq.bios + next.bios,
                                                      rq.mergeable)]
  {
  }

  lemma FrontOutcome(h: Hash, s: State, x: nat, bio: Bio, near: Option<nat>)
    requires x in s.rqs && |s.buckets| == ENTRIES && StartsAt(s, x, bio.sector + bio.sectors)
    ensures InFrontOf(s, FrontMerge(h, s, x, bio, near), x, bio, near)
  {
    hide Join, Absorb, InFrontOf, Adjacent, GrowFront;
    var g := GrowFront(s, x, bio);
    GrowFrontIs(s, x, bio);
    if near.Some? && Adjacent(g, near.value, x) {
      AdjacentKnown(g, near.value, x);
      JoinIs(h, g, near.value, x);
      AbsorbedRqs(g, near.value, x);
      FrontJoined(s, x, bio, near.value, Join(h, g, near.value, x));
    } else {
      FrontAlone(s, x, bio, near, FrontMerge(h, s, x, bio, near));
    }
  }

  lemma GrowFrontIs(s: State, x: nat, bio: Bio)
    requires x in s.rqs
    ensures var g, rq := GrowFront(s, x, bio), s.rqs[x];
            && g.rqs == s.rqs[x := Request(bio.sector, rq.sectors + bio.sectors, [bio] + rq.bios, rq.mergeable)]
            && g.sched == s.sched && g.last == s.last && g.buckets == s.buckets
  {
  }

  lemma FrontAlone(s: State, x: nat, bio: Bio, near: Option<nat>, t: State)
    requires x in s.rqs && !(near.Some? && Adjacent(GrowFront(s, x, bio), near.value, x))
    requires StartsAt(s, x, bio.sector + bio.sectors)
    requires t.rqs == GrowFront(s, x, bio).rqs && t.sched == s.sched && t.last == Some(x)
    ensures InFrontOf(s, t, x, bio, near)
  {
  }

  lemma FrontJoined(s: State, x: nat, bio: Bio, y: nat, t: State)
    requires x in s.rqs && y in s.rqs && x != y && Adjacent(GrowFront(s, x, bio), y, x)
    requires StartsAt(s, x, bio.sector + bio.sectors)
    requires var rq, prev := s.rqs[x], s.rqs[y];
             t.rqs == GrowFront(s, x, bio).rqs[y := Request(prev.sector, prev.sectors + (rq.sectors + bio.sectors),
                                                            prev.bios + ([bio] + rq.bios), prev.mergeable)] - {x}
    requires t.sched == s.sched - {x} && t.last == Some(y)
    ensures InFrontOf(s, t, x, bio, Some(y))
  {
  }

  /** Nobody wants the bio: nothing is merged and nothing changes but the hash. */
  ghost predicate Unwanted(s: State, merged: bool, t: State) { !merged && t == s.(buckets := t.buckets) }

  /** Which request a bio is merged into: last_merge, if the bio fits behind or in front of
      it; else one that ends where the bio starts; else the one that the I/O scheduler
      proposes. */
  ghost predicate Decided(s: State, merged: bool, t: State, bio: Bio, terms: Terms) {
    if LastEnds(s, bio, terms) then
      s.last.value in s.rqs && Outcome(s, merged, t, s.last.value, true, bio, terms)
    else if LastStarts(s, bio, terms) then
      s.last.value in s.rqs && Outcome(s, merged, t, s.last.value, false, bio, terms)
    else if exists x :: EndsAt(s, x, bio.sector) then
      exists x :: EndsAt(s, x, bio.sector) && Outcome(s, merged, t, x, true, bio, terms)
    else if Proposed(s, bio, terms) then
      terms.front.value in s.rqs && Outcome(s, merged, t, terms.front.value, false, bio, terms)
    else Unwanted(s, merged, t)
  }

  /** The other tests forbid none of the requests that end where the bio starts. */
  ghost predicate AllAllowed(s: State, bio: Bio, terms: Terms) {
    forall x :: EndsAt(s, x, bio.sector) ==> x in terms.allow
  }

  /** The decision for every bio; it is merged exactly if the limits permit. */
  lemma MergeOutcome(h: Hash, s: State, bio: Bio, terms: Terms)
    requires Inv(h, s) && AllAllowed(s, bio, terms)
    ensures var (merged, t) := Merge(h, s, bio, terms); Decided(s, merged, t, bio, terms)
  {
    ChooseKeeps(h, s, bio, terms);
    ChooseTouches(h, s, bio, terms);
    ChooseWhich(h, s, bio, terms);
    var (r, u) := Choose(h, s, bio, terms);
    OkExcept(h, u, 0);
    hide Inv, HashShape, Choose, MergeWith, Outcome, EndsAt, StartsAt;
    if r.Some? {
      var x, back := r.value.0, r.value.1 == Back;
      SameEnds(s, u, x, bio);
      WithOutcome(h, u, x, back, bio, terms);
      var (merged, t) := MergeWith(h, u, r.value, bio, terms);
      SameOutcome(s, u, merged, t, x, back, bio, terms);
    }
  }

  /** A bio is merged into an allowed request that it touches, exactly if the limits permit,
      or nobody wants it. */
  ghost predicate Permitted(s: State, merged: bool, t: State, bio: Bio, terms: Terms) {
    || Unwanted(s, merged, t)
    || exists x: nat, back: bool ::
         x in terms.allow && x in s.rqs
         && (if back then EndsAt(s, x, bio.sector) else StartsAt(s, x, bio.sector + bio.sectors))
         && Outcome(s, merged, t, x, back, bio, terms)
  }

  /** That is so in every case, whatever the other tests forbid. */
  lemma MergeAny(h: Hash, s: State, bio: Bio, terms: Terms)
    requires Inv(h, s)
    ensures var (merged, t) := Merge(h, s, bio, terms); Permitted(s, merged, t, bio, terms)
  {
    ChooseKeeps(h, s, bio, terms);
    ChooseTouches(h, s, bio, terms);
    ChooseAllowed(h, s, bio, terms);
    var (r, u) := Choose(h, s, bio, terms);
    OkExcept(h, u, 0);
    hide Inv, HashShape, Choose, MergeWith, Outcome, EndsAt, StartsAt;
    if r.Some? {
      var x, back := r.value.0, r.value.1 == Back;
      SameEnds(s, u, x, bio);
      WithOutcome(h, u, x, back, bio, terms);
      var (merged, t) := MergeWith(h, u, r.value, bio, terms);
      SameOutcome(s, u, merged, t, x, back, bio, terms);
    }
  }

  lemma ChooseAllowed(h: Hash, s: State, bio: Bio, terms: Terms)
    requires Inv(h, s)
    ensures var r := Choose(h, s, bio, terms).0; r.Some? ==> r.value.0 in terms.allow
  {
    FindOnlyCleans(h, s, bio.sector);
    hide HashOk, OwnersOk, Find;
  }

  /** elv_merge's choice. */
  lemma ChooseWhich(h: Hash, s: State, bio: Bio, terms: Terms)
    requires Inv(h, s) && AllAllowed(s, bio, terms)
    ensures var r := Choose(h, s, bio, terms).0;
            if LastEnds(s, bio, terms) then r == Some((s.last.value, Back))
            else if LastStarts(s, bio, terms) then r == Some((s.last.value, Front))
            else if exists x :: EndsAt(s, x, bio.sector) then
              r.Some? && r.value.1 == Back && EndsAt(s, r.value.0, bio.sector)
            else if Proposed(s, bio, terms) then r == Some((terms.front.value, Front))
            else r == None
  {
    hide HashOk, OwnersOk, Find, EndsAt, StartsAt, TryMerge, LastEnds, LastStarts;
    FindExact(h, s, bio.sector);
    FindOnlyCleans(h, s, bio.sector);
    ProposedSame(s, Find(h, s, bio.sector).1, bio, terms);
    if s.last.Some? { TryIs(h, s, bio, terms); } else { NoLast(s, bio, terms); }
  }

  lemma NoLast(s: State, bio: Bio, terms: Terms)
    requires s.last.None?
    ensures !LastEnds(s, bio, terms) && !LastStarts(s, bio, terms)
  {
  }

  lemma ProposedSame(s: State, t: State, bio: Bio, terms: Terms)
    requires t == s.(buckets := t.buckets)
    ensures Proposed(t, bio, terms) <==> Proposed(s, bio, terms)
  {
  }

  /** elv_try_merge on last_merge. */
  lemma TryIs(h: Hash, s: State, bio: Bio, terms: Terms)
    requires Inv(h, s) && s.last.Some?
    ensures s.last.value in s.rqs
    ensures TryMerge(s, s.last.value, bio, terms) ==
            if LastEnds(s, bio, terms) then Back else if LastStarts(s, bio, terms) then Front else NoMerge
  {
    hide OwnersOk;
    OkExcept(h, s, 0);
    hide HashOk, HashExcept;
  }

  lemma SameEnds(s: State, u: State, x: nat, bio: Bio)
    requires u == s.(buckets := u.buckets)
    ensures EndsAt(u, x, bio.sector) <==> EndsAt(s, x, bio.sector)
    ensures StartsAt(u, x, bio.sector + bio.sectors) <==> StartsAt(s, x, bio.sector + bio.sectors)
    ensures EndsAt(s, x, bio.sector) || StartsAt(s, x, bio.sector + bio.sectors) ==> x in s.rqs
  {
  }

  lemma SameOutcome(s: State, u: State, merged: bool, t: State, x: nat, back: bool, bio: Bio, terms: Terms)
    requires u == s.(buckets := u.buckets) && x in s.rqs && Outcome(u, merged, t, x, back, bio, terms)
    ensures Outcome(s, merged, t, x, back, bio, terms)
  {
  }

  // ---- runs ----

  datatype Step = Add(x: nat, bio: Bio, mergeable: bool) | Try(bio: Bio, terms: Terms) | Send(x: nat)

  ghost predicate Next(h: Hash, s: State, step: Step, t: State)
    requires Inv(h, s)
  {
    match step
    case Add(x, bio, mergeable) => x !in s.rqs && bio !in s.owner && t == Insert(h, s, x, bio, mergeable)
    case Try(bio, terms) => bio !in s.owner && t == Merge(h, s, bio, terms).1
    case Send(x) => x in s.sched && t == Dispatch(s, x)
  }

  /** The bio that a step brings into the queue. */
  ghost function Brought(h: Hash, s: State, step: Step): set<Bio>
    requires Inv(h, s)
  {
    match step
    case Add(_, bio, _) => {bio}
    case Try(bio, terms) => if Merge(h, s, bio, terms).0 then {bio} else {}
    case Send(_) => {}
  }

  lemma NextKeeps(h: Hash, s: State, step: Step, t: State)
    requires Inv(h, s) && Next(h, s, step, t)
    ensures Kept(h, s, t, Brought(h, s, step))
  {
    hide Inv, Insert, Merge, Dispatch;
    match step
    case Add(x, bio, mergeable) => InsertKeeps(h, s, x, bio, mergeable);
    case Try(bio, terms) => MergeKeeps(h, s, bio, terms);
    case Send(x) => DispatchKeeps(h, s, x);
  }

  ghost predicate Run(h: Hash, s: State, steps: seq<Step>, t: State, more: set<Bio>)
    decreases |steps|
  {
    if steps == [] then t == s && more == {}
    else Inv(h, s) && exists u: State, rest: set<Bio> ::
      Next(h, s, steps[0], u) && Run(h, u, steps[1..], t, rest) && more == Brought(h, s, steps[0]) + rest
  }

  const EMPTY := State(map[], {}, seq(ENTRIES, _ => []), None, map[])

  /** Over every run the bios in requests are exactly those the steps brought, each in one
      request, and the hash stays exact. */
  lemma {:induction false} RunKeeps(h: Hash, s: State, steps: seq<Step>, t: State, more: set<Bio>)
    requires Inv(h, s) && Run(h, s, steps, t, more)
    ensures Kept(h, s, t, more)
    decreases |steps|
  {
    hide Inv, Next, Brought;
    if steps != [] {
      var u: State, rest: set<Bio> :|
        Next(h, s, steps[0], u) && Run(h, u, steps[1..], t, rest) && more == Brought(h, s, steps[0]) + rest;
      NextKeeps(h, s, steps[0], u);
      RunKeeps(h, u, steps[1..], t, rest);
    }
  }

  lemma EmptyOk(h: Hash)
    ensures Inv(h, EMPTY)
  {
    forall i, y | 0 <= i < ENTRIES ensures Placed(h, EMPTY, i, y) {
    }
  }

  lemma FromEmpty(h: Hash, steps: seq<Step>, t: State, more: set<Bio>)
    requires Run(h, EMPTY, steps, t, more)
    ensures Inv(h, t) && t.owner.Keys == more
    ensures forall bio :: bio in more <==> exists x :: x in t.rqs && bio in t.rqs[x].bios
    ensures forall bio, x, y :: x in t.rqs && y in t.rqs && bio in t.rqs[x].bios && bio in t.rqs[y].bios ==> x == y
  {
    hide HashOk, Run, EMPTY;
    EmptyOk(h);
    EmptyOwns();
    RunKeeps(h, EMPTY, steps, t, more);
    OwnersMean(t);
  }

  lemma EmptyOwns()
    ensures EMPTY.owner == map[]
  {
  }

  /** What OwnersOk says without the owner map's direction. */
  lemma OwnersMean(t: State)
    requires OwnersOk(t)
    ensures forall bio :: bio in t.owner <==> exists x :: x in t.rqs && bio in t.rqs[x].bios
    ensures forall bio, x, y :: x in t.rqs && y in t.rqs && bio in t.rqs[x].bios && bio in t.rqs[y].bios ==> x == y
  {
    hide Tiles, Distinct;
    assert forall x :: x in t.rqs ==> RequestOk(t.owner, x, t.rqs[x]);
    forall bio ensures bio in t.owner <==> exists x :: x in t.rqs && bio in t.rqs[x].bios {
      if bio in t.owner { assert t.owner[bio] in t.rqs; }
    }
  }
}
