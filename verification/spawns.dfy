/** The registry of algorithms and the instances built on them (crypto/algapi.c): removing an
    algorithm's spawns kills exactly the instances that depend on them. */
module Spawns {
  import opened Lists

  /** Algorithms, instances among them, are numbered in the order of their allocation.
      For each spawn: its instance, its mask and the algorithm it hangs on, until it is
      removed.  For each algorithm: its type flags and the list cra_users.  `registered` are
      the instances in their template's list, `gettable` those whose template can still be
      referenced.  `list` and `secondary` are the two lists of crypto_remove_spawns. */
  datatype State = State(
    inst: map<nat, nat>, mask: map<nat, bv32>, alg: map<nat, Option<nat>>,
    kind: map<nat, bv32>, users: map<nat, seq<nat>>, dead: set<nat>,
    registered: set<nat>, gettable: set<nat>, algs: seq<nat>, list: seq<nat>, secondary: seq<nat>)

  ghost predicate UsersOk(s: State, a: nat)
    requires a in s.users
  {
    Distinct(s.users[a]) && forall p :: p in s.users[a] <==> p in s.alg && s.alg[p] == Some(a)
  }

  predicate SpawnOk(s: State, p: nat)
    requires p in s.alg && p in s.inst
  {
    s.inst[p] in s.users && (s.alg[p].Some? ==> s.alg[p].value in s.users && s.alg[p].value < s.inst[p])
  }

  /** Between the calls. */
  ghost predicate Inv(s: State) {
    && s.alg.Keys == s.inst.Keys == s.mask.Keys && s.kind.Keys == s.users.Keys
    && (forall a :: a in s.users ==> UsersOk(s, a))
    && (forall p :: p in s.alg ==> SpawnOk(s, p))
    && Distinct(s.algs) && Distinct(s.list) && s.registered - s.dead <= Elems(s.algs) && Elems(s.algs) !! Elems(s.list)
    && Elems(s.algs) <= s.users.Keys && s.secondary == []
  }

  // ---- crypto_remove_spawn ----

  /** The spawn leaves whatever list it is in. */
  function Unlink(s: State, p: nat): State
    requires p in s.alg
  {
    var a := s.alg[p];
    s.(alg := s.alg[p := None], secondary := Without(s.secondary, p),
       users := if a.Some? && a.value in s.users then s.users[a.value := Without(s.users[a.value], p)] else s.users)
  }

  /** A registered instance goes to the removal list, and its users to the head of the
      secondary list. */
  function Retire(s: State, i: nat): State
    requires i in s.users
  {
    s.(algs := Without(s.algs, i), list := [i] + s.list, registered := s.registered - {i},
       secondary := s.users[i] + s.secondary, users := s.users[i := []])
  }

  function Remove(s: State, p: nat): State
    requires p in s.alg && p in s.inst && s.inst[p] in s.users
  {
    var i := s.inst[p];
    var s := Unlink(s, p);
    if i in s.dead then s
    else
      var s := s.(dead := s.dead + {i});
      if i !in s.registered || i !in s.gettable then s else Retire(s, i)
  }

  // ---- what is to be removed ----

  /** Removal goes on to the users of the instance. */
  predicate Expands(g: State, i: nat) { i !in g.dead && i in g.registered && i in g.gettable }

  /** The test of crypto_remove_spawns: the flags under the mask are those of the new type. */
  predicate SameType(flags: bv32, newType: bv32, mask: bv32) { (flags ^ newType) & mask == 0 }

  /** Under the mask the two types agree; other flags do not matter. */
  lemma SameTypeIs(flags: bv32, newType: bv32, mask: bv32)
    ensures SameType(flags, newType, mask) <==> flags & mask == newType & mask
  {
    MaskXor(flags, newType, mask);
    XorZero(flags & mask, newType & mask);
  }

  lemma MaskXor(x: bv32, y: bv32, m: bv32)
    ensures (x ^ y) & m == (x & m) ^ (y & m)
  {
  }

  lemma XorZero(x: bv32, y: bv32)
    ensures x ^ y == 0 <==> x == y
  {
  }

  /** The spawns of q that the first loop of crypto_remove_spawns selects. */
  predicate Selects(g: State, q: nat, newType: bv32, p: nat) {
    q in g.users && q in g.kind && p in g.users[q] && p in g.mask && SameType(g.kind[q], newType, g.mask[p])
  }

  /** What is selected when the spawns of several algorithms are removed. */
  ghost predicate Direct(g: State, qs: set<nat>, newType: bv32, p: nat) {
    exists q :: q in qs && Selects(g, q, newType, p)
  }

  /** p is reached from a selected spawn over n instances. */
  ghost predicate ReachedIn(g: State, qs: set<nat>, newType: bv32, p: nat, n: nat)
    decreases n
  {
    if n == 0 then Direct(g, qs, newType, p)
    else exists r :: ReachedIn(g, qs, newType, r, n - 1) && Uses(g, r, p)
  }

  /** p hangs on the instance of r, and removal goes on from there. */
  predicate Uses(g: State, r: nat, p: nat) {
    r in g.inst && Expands(g, g.inst[r]) && p in g.alg && g.alg[p] == Some(g.inst[r])
  }

  ghost predicate Reached(g: State, qs: set<nat>, newType: bv32, p: nat) {
    exists n :: ReachedIn(g, qs, newType, p, n)
  }

  lemma ReachedOn(g: State, qs: set<nat>, newType: bv32, r: nat, p: nat)
    requires Reached(g, qs, newType, r) && Uses(g, r, p)
    ensures Reached(g, qs, newType, p)
  {
    var n: nat :| ReachedIn(g, qs, newType, r, n);
    assert ReachedIn(g, qs, newType, p, n + 1);
  }

  lemma Above(g: State, p: nat)
    requires Inv(g) && p in g.alg && g.alg[p].Some?
    ensures p in g.inst && g.alg[p].value < g.inst[p] && g.inst[p] in g.users
  {
    assert SpawnOk(g, p);
    hide Distinct, UsersOk;
  }

  // ---- one step ----

  function Insts(g: State, gone: set<nat>): set<nat> { set p | p in gone && p in g.inst :: g.inst[p] }

  function Moved(g: State, gone: set<nat>): set<nat> { set i | i in Insts(g, gone) && Expands(g, i) }

  /** The spawns `gone` are unlinked, and the users of the instances `moved` wait in the
      secondary list or are unlinked. */
  ghost predicate Links(g: State, gone: set<nat>, moved: set<nat>, t: State) {
    && t.inst == g.inst && t.mask == g.mask && t.kind == g.kind && gone <= g.alg.Keys
    && t.alg == (map p | p in g.alg :: if p in gone then None else g.alg[p])
    && t.users.Keys == g.users.Keys
    && (forall a :: a in t.users ==> UsersLeft(g, gone, moved, t, a))
    && Distinct(t.secondary) && forall p :: p in t.secondary <==> Waits(g, gone, moved, p)
  }

  ghost predicate UsersLeft(g: State, gone: set<nat>, moved: set<nat>, t: State, a: nat)
    requires a in t.users && a in g.users
  {
    Distinct(t.users[a]) && forall p :: p in t.users[a] <==> a !in moved && p in g.users[a] && p !in gone
  }

  predicate Waits(g: State, gone: set<nat>, moved: set<nat>, p: nat) {
    p in g.alg && p !in gone && g.alg[p].Some? && g.alg[p].value in moved
  }

  /** The instances `hit` are dead, and those of `moved` are on the removal list, once. */
  ghost predicate Status(g: State, hit: set<nat>, moved: set<nat>, t: State) {
    && t.gettable == g.gettable && t.dead == g.dead + hit && t.registered == g.registered - moved
    && Distinct(t.list) && Elems(t.list) == Elems(g.list) + moved
    && t.algs == Keep(g.algs, moved)
  }

  /** The state t, when the spawns `gone` have been removed from g. */
  ghost predicate Progress(g: State, gone: set<nat>, t: State) {
    Links(g, gone, Moved(g, gone), t) && Status(g, Insts(g, gone), Moved(g, gone), t)
  }

  lemma Starts(g: State)
    requires Inv(g)
    ensures Progress(g, {}, g)
  {
    assert Moved(g, {}) == {};
    KeepNothing(g.algs);
    hide Distinct, SpawnOk, Keep;
    assert forall a :: a in g.users ==> UsersOk(g, a);
  }

  lemma UnlinkLinks(g: State, gone: set<nat>, moved: set<nat>, t: State, p: nat)
    requires Inv(g) && Links(g, gone, moved, t) && p in g.alg && p !in gone && g.alg[p].Some?
    ensures Links(g, gone + {p}, moved, Unlink(t, p))
  {
    hide Distinct, Without, UsersOk, UsersLeft, Waits;
    var u := Unlink(t, p);
    Above(g, p);
    UnlinkWaits(g, gone, moved, t, p);
    forall b | b in u.users ensures UsersLeft(g, gone + {p}, moved, u, b) {
      HangsOn(g, p, b);
      UnlinkUsers(g, gone, moved, t, p, b);
    }
  }

  lemma UnlinkWaits(g: State, gone: set<nat>, moved: set<nat>, t: State, p: nat)
    requires p in t.alg && Distinct(t.secondary) && forall r :: r in t.secondary <==> Waits(g, gone, moved, r)
    ensures var u := Unlink(t, p); Distinct(u.secondary) && forall r :: r in u.secondary <==>
            Waits(g, gone + {p}, moved, r)
  {
    WithoutMembers(t.secondary, p);
    hide Distinct, Without;
  }

  lemma HangsOn(g: State, p: nat, b: nat)
    requires Inv(g) && p in g.alg && b in g.users
    ensures p in g.users[b] <==> g.alg[p] == Some(b)
  {
    assert UsersOk(g, b);
    hide Distinct, SpawnOk;
  }

  lemma UnlinkUsers(g: State, gone: set<nat>, moved: set<nat>, t: State, p: nat, b: nat)
    requires p in g.alg && p in t.alg && t.alg[p] == g.alg[p]
    requires b in t.users && b in g.users && UsersLeft(g, gone, moved, t, b)
    requires p in g.users[b] <==> g.alg[p] == Some(b)
    ensures b in Unlink(t, p).users && UsersLeft(g, gone + {p}, moved, Unlink(t, p), b)
  {
    hide Distinct, Without;
    if g.alg[p] == Some(b) { WithoutMembers(t.users[b], p); }
  }

  lemma RetireLinks(g: State, gone: set<nat>, moved: set<nat>, t: State, i: nat)
    requires Inv(g) && Links(g, gone, moved, t) && i in g.users && i !in moved
    ensures Links(g, gone, moved + {i}, Retire(t, i))
  {
    hide Distinct, Without, UsersOk, SpawnOk;
    var u := Retire(t, i);
    assert UsersLeft(g, gone, moved, t, i);
    RetireWaits(g, gone, moved, t, i);
    hide Waits, Inv;
    NothingDistinct();
    forall b | b in u.users ensures UsersLeft(g, gone, moved + {i}, u, b) {
      assert UsersLeft(g, gone, moved, t, b);
    }
  }

  lemma RetireWaits(g: State, gone: set<nat>, moved: set<nat>, t: State, i: nat)
    requires Inv(g) && i in g.users && i in t.users && i !in moved && UsersLeft(g, gone, moved, t, i)
    requires Distinct(t.secondary) && forall p :: p in t.secondary <==> Waits(g, gone, moved, p)
    ensures var u := Retire(t, i);
            Distinct(u.secondary) && forall p :: p in u.secondary <==> Waits(g, gone, moved + {i}, p)
  {
    assert UsersOk(g, i);
    hide Distinct, Without, SpawnOk;
    forall p | p in t.users[i] ensures p !in t.secondary {
      assert !Waits(g, gone, moved, p);
    }
    AppendDistinct(t.users[i], t.secondary);
  }

  lemma NothingDistinct()
    ensures Distinct<nat>([])
  {
  }

  lemma RetireStatus(g: State, hit: set<nat>, moved: set<nat>, t: State, i: nat)
    requires Inv(g) && Status(g, hit, moved, t) && i in g.registered && i !in g.dead && i !in moved && i in t.users
    ensures Status(g, hit, moved + {i}, Retire(t, i))
  {
    KeepIs(g.algs, moved);
    KeepWithout(t.algs, i);
    KeepMore(g.algs, moved, i);
    AppendDistinct([i], t.list) by { assert i in Elems(g.algs) && i !in Elems(t.list); }
    hide Distinct, Without, Keep;
    ElemsAppend([i], t.list);
  }

  lemma {:induction false} KeepMore(s: seq<nat>, gone: set<nat>, x: nat)
    ensures Keep(Keep(s, gone), {x}) == Keep(s, gone + {x})
  {
    if s != [] {
      KeepMore(s[1..], gone, x);
      if s[0] !in gone { assert ([s[0]] + Keep(s[1..], gone))[1..] == Keep(s[1..], gone); }
    }
  }

  lemma OneMore(g: State, gone: set<nat>, p: nat)
    requires p in g.inst
    ensures Insts(g, gone + {p}) == Insts(g, gone) + {g.inst[p]}
    ensures Moved(g, gone + {p}) == Moved(g, gone) + (if Expands(g, g.inst[p]) then {g.inst[p]} else {})
  {
  }

  /** Removing one more spawn. */
  lemma StepKeeps(g: State, gone: set<nat>, t: State, p: nat)
    requires Inv(g) && Progress(g, gone, t) && p in g.alg && p !in gone && g.alg[p].Some?
    ensures p in t.alg && p in t.inst && t.inst[p] in t.users
    ensures Progress(g, gone + {p}, Remove(t, p))
  {
    hide Inv, Links, Status, Unlink, Retire, Expands, Insts, Moved;
    StepParts(g, gone, t, p);
    var i, moved, hit := g.inst[p], Moved(g, gone), Insts(g, gone);
    OneMore(g, gone, p);
    UnlinkLinks(g, gone, moved, t, p);
    UnlinkStatus(g, hit, moved, t, p);
    var u := Unlink(t, p);
    if i !in t.dead {
      var v := u.(dead := u.dead + {i});
      Mark(g, gone + {p}, hit, moved, u, i);
      if Expands(g, i) {
        RetireLinks(g, gone + {p}, moved, v, i);
        RetireStatus(g, hit + {i}, moved, v, i);
      } else {
        assert moved + {} == moved;
      }
    } else {
      AlreadyDead(g, hit, moved, u, i);
      assert moved + (if Expands(g, i) then {i} else {}) == moved;
    }
  }

  /** What Remove looks at, in terms of the start. */
  lemma StepParts(g: State, gone: set<nat>, t: State, p: nat)
    requires Inv(g) && Progress(g, gone, t) && p in g.alg
    ensures p in t.alg && p in t.inst && t.inst[p] in t.users && p in g.inst && t.inst[p] == g.inst[p]
            && g.inst[p] in g.users
    ensures var i, u := g.inst[p], Unlink(t, p);
            && u.dead == t.dead && u.registered == t.registered && u.gettable == t.gettable && i in u.users
            && (i in t.dead ==> (Expands(g, i) ==> i in Moved(g, gone)) && i in g.dead + Insts(g, gone))
            && (i !in t.dead ==> i !in Moved(g, gone) && (Expands(g, i) <==> i in u.registered && i in u.gettable))
            && (Expands(g, i) ==> i in g.registered && i !in g.dead)
            && (i in t.dead && i !in Insts(g, gone) ==> i in g.dead)
            && t.dead == g.dead + Insts(g, gone)
  {
    assert SpawnOk(g, p);
    hide Distinct, Without, UsersOk, UsersLeft, Waits;
  }

  lemma UnlinkStatus(g: State, hit: set<nat>, moved: set<nat>, t: State, p: nat)
    requires Status(g, hit, moved, t) && p in t.alg
    ensures Status(g, hit, moved, Unlink(t, p))
  {
    hide Distinct, Without;
  }

  lemma AlreadyDead(g: State, hit: set<nat>, moved: set<nat>, t: State, i: nat)
    requires Status(g, hit, moved, t) && i in g.dead + hit
    ensures Status(g, hit + {i}, moved, t)
  {
    hide Distinct;
    assert g.dead + (hit + {i}) == g.dead + hit;
  }

  lemma Mark(g: State, gone: set<nat>, hit: set<nat>, moved: set<nat>, t: State, i: nat)
    requires Links(g, gone, moved, t) && Status(g, hit, moved, t)
    ensures var u := t.(dead := t.dead + {i}); Links(g, gone, moved, u) && Status(g, hit + {i}, moved, u)
  {
    hide Distinct;
    LinksSame(g, gone, moved, t, t.(dead := t.dead + {i}));
  }

  lemma LinksSame(g: State, gone: set<nat>, moved: set<nat>, t: State, u: State)
    requires Links(g, gone, moved, t) && u == t.(dead := u.dead)
    ensures Links(g, gone, moved, u)
  {
    forall b | b in u.users ensures UsersLeft(g, gone, moved, u, b) {
      assert UsersLeft(g, gone, moved, t, b);
    }
  }

  // ---- the end ----

  /** What waits is reached. */
  lemma WaitingIsReached(g: State, qs: set<nat>, newType: bv32, gone: set<nat>, p: nat)
    requires Waits(g, gone, Moved(g, gone), p) && forall r :: r in gone ==> Reached(g, qs, newType, r)
    ensures Reached(g, qs, newType, p)
  {
    hide Reached;
    var r :| r in gone && r in g.inst && g.inst[r] == g.alg[p].value;
    assert Uses(g, r, p);
    ReachedOn(g, qs, newType, r, p);
  }

  lemma {:induction false} ReachedIsGone(g: State, qs: set<nat>, newType: bv32, gone: set<nat>, p: nat, n: nat)
    requires Inv(g) && ReachedIn(g, qs, newType, p, n)
    requires forall r :: Direct(g, qs, newType, r) ==> r in gone
    requires forall r :: !Waits(g, gone, Moved(g, gone), r)
    ensures p in gone
    decreases n
  {
    hide Inv, Direct;
    if n > 0 {
      var r :| ReachedIn(g, qs, newType, r, n - 1) && Uses(g, r, p);
      ReachedIsGone(g, qs, newType, gone, r, n - 1);
      assert !Waits(g, gone, Moved(g, gone), p);
    }
  }

  /** An instance that a reached spawn belongs to. */
  ghost predicate Depends(g: State, qs: set<nat>, newType: bv32, i: nat) {
    exists p :: p in g.inst && g.inst[p] == i && Reached(g, qs, newType, p)
  }

  /** An algorithm keeps the users that are not reached. */
  ghost predicate OthersStay(g: State, qs: set<nat>, newType: bv32, t: State, a: nat)
    requires a in g.users && a in t.users
  {
    forall p :: p in t.users[a] <==> p in g.users[a] && !Reached(g, qs, newType, p)
  }

  /** What crypto_remove_spawns is for: the reached spawns are unlinked, their instances are
      dead, and those that were alive and registered are on the removal list, once. */
  ghost predicate Removed(g: State, qs: set<nat>, newType: bv32, t: State) {
    && t.inst == g.inst && t.kind == g.kind && t.alg.Keys == g.alg.Keys && t.users.Keys == g.users.Keys
    && (forall p :: p in g.alg ==> t.alg[p] == if Reached(g, qs, newType, p) then None else g.alg[p])
    && (forall a :: a in g.users ==> OthersStay(g, qs, newType, t, a))
    && (forall i :: i in t.dead <==> i in g.dead || Depends(g, qs, newType, i))
    && (forall i :: i in t.list <==> i in g.list || (Expands(g, i) && Depends(g, qs, newType, i)))
    && (forall i :: i in t.algs <==> i in g.algs && !(Expands(g, i) && Depends(g, qs, newType, i)))
    && Distinct(t.list)
  }

  /** A registered instance whose template can be referenced goes to the removal list and
      takes all its users with it; without either it dies and stays where it is, and its own
      users stay unless they were selected themselves. */
  lemma RetiredOrNot(g: State, qs: set<nat>, newType: bv32, t: State, i: nat)
    requires Inv(g) && Removed(g, qs, newType, t) && Depends(g, qs, newType, i) && i !in g.dead && i in g.users
    ensures i in t.dead && i in t.users
    ensures i in g.registered && i in g.gettable ==>
            i in t.list && i !in t.algs && forall p :: p in g.users[i] ==>
                p in t.alg && t.alg[p] == None && p !in t.users[i] && (p in g.inst ==> g.inst[p] in t.dead)
    ensures i !in g.registered || i !in g.gettable ==>
            (i in t.list <==> i in g.list) && (i in t.algs <==> i in g.algs)
            && forall p :: p in g.users[i] ==> (p in t.users[i] <==> !Direct(g, qs, newType, p))
  {
    hide Reached, Direct, Depends, Distinct, SpawnOk;
    assert OthersStay(g, qs, newType, t, i) && UsersOk(g, i);
    forall p | p in g.users[i]
      ensures if Expands(g, i) then Reached(g, qs, newType, p) && (p in g.inst ==> Depends(g, qs, newType, g.inst[p]))
              else Reached(g, qs, newType, p) <==> Direct(g, qs, newType, p) {
      UserReached(g, qs, newType, i, p);
      if p in g.inst && Reached(g, qs, newType, p) { OwnDepends(g, qs, newType, p); }
    }
  }

  lemma OwnDepends(g: State, qs: set<nat>, newType: bv32, p: nat)
    requires p in g.inst && Reached(g, qs, newType, p)
    ensures Depends(g, qs, newType, g.inst[p])
  {
    hide Reached;
  }

  /** A user of an instance that depends on the selection. */
  lemma UserReached(g: State, qs: set<nat>, newType: bv32, i: nat, p: nat)
    requires Depends(g, qs, newType, i) && p in g.alg && g.alg[p] == Some(i)
    ensures Reached(g, qs, newType, p) <==> Expands(g, i) || Direct(g, qs, newType, p)
  {
    hide Direct;
    if Expands(g, i) {
      var r :| r in g.inst && g.inst[r] == i && Reached(g, qs, newType, r);
      assert Uses(g, r, p);
      ReachedOn(g, qs, newType, r, p);
    }
    if Direct(g, qs, newType, p) { assert ReachedIn(g, qs, newType, p, 0); }
  }

  /** The worklist has ended; the spawns of the algorithms qs were to be removed. */
  ghost predicate Ended(g: State, qs: set<nat>, newType: bv32, gone: set<nat>, t: State) {
    && Progress(g, gone, t) && t.secondary == []
    && (forall p :: p in gone ==> Reached(g, qs, newType, p))
    && (forall p :: Direct(g, qs, newType, p) ==> p in gone)
  }

  lemma GoneIsReached(g: State, qs: set<nat>, newType: bv32, gone: set<nat>, t: State)
    requires Inv(g) && Ended(g, qs, newType, gone, t)
    ensures forall p :: p in gone <==> Reached(g, qs, newType, p)
    ensures forall i :: i in Insts(g, gone) <==> Depends(g, qs, newType, i)
  {
    forall r ensures !Waits(g, gone, Moved(g, gone), r) {
      assert r !in t.secondary;
    }
    hide Waits, Inv, Progress, Direct;
    forall p | Reached(g, qs, newType, p) ensures p in gone {
      var n: nat :| ReachedIn(g, qs, newType, p, n);
      ReachedIsGone(g, qs, newType, gone, p, n);
    }
  }

  lemma Finish(g: State, qs: set<nat>, newType: bv32, gone: set<nat>, t: State)
    requires Inv(g) && Ended(g, qs, newType, gone, t)
    ensures Removed(g, qs, newType, t)
  {
    hide Reached, ReachedIn, Depends, Distinct, Direct, UsersLeft, Waits, Inv, Moved, Insts;
    GoneIsReached(g, qs, newType, gone, t);
    ListMeans(g, gone, t);
    MovedMeans(g, gone);
    forall a | a in g.users ensures a in t.users && OthersStay(g, qs, newType, t, a) {
      UsersMean(g, gone, t, a);
    }
    assert forall i :: i in t.list <==> i in g.list || (Expands(g, i) && Depends(g, qs, newType, i));
    assert forall i :: i in t.algs <==> i in g.algs && !(Expands(g, i) && Depends(g, qs, newType, i));
  }

  lemma MovedMeans(g: State, gone: set<nat>)
    ensures forall i :: i in Moved(g, gone) <==> Expands(g, i) && i in Insts(g, gone)
  {
  }

  lemma UsersMean(g: State, gone: set<nat>, t: State, a: nat)
    requires Inv(g) && Progress(g, gone, t) && t.secondary == [] && a in g.users
    ensures a in t.users && forall p :: p in t.users[a] <==> p in g.users[a] && p !in gone
  {
    hide Distinct, Waits, Inv, Status;
    assert UsersLeft(g, gone, Moved(g, gone), t, a);
    forall p | p in g.users[a] && a in Moved(g, gone) ensures p in gone {
      MovedUsersGone(g, gone, t, a, p);
    }
  }

  lemma MovedUsersGone(g: State, gone: set<nat>, t: State, a: nat, p: nat)
    requires Inv(g) && Progress(g, gone, t) && t.secondary == [] && a in Moved(g, gone) && a in g.users
             && p in g.users[a]
    ensures p in gone
  {
    assert UsersOk(g, a);
    assert p !in t.secondary;
    hide Distinct;
  }

  lemma ListMeans(g: State, gone: set<nat>, t: State)
    requires Progress(g, gone, t)
    ensures forall i :: i in t.list <==> i in g.list || i in Moved(g, gone)
    ensures forall i :: i in t.algs <==> i in g.algs && i !in Moved(g, gone)
    ensures forall i :: i in t.dead <==> i in g.dead || i in Insts(g, gone)
  {
    hide Moved, Insts, Links, Distinct, Keep;
    KeepIs(g.algs, Moved(g, gone));
    assert forall i :: i in t.list <==> i in Elems(t.list);
  }

  lemma FinishInv(g: State, gone: set<nat>, t: State)
    requires Inv(g) && Progress(g, gone, t) && t.secondary == []
    ensures Inv(t)
  {
    hide Distinct, UsersOk, SpawnOk, Keep, Elems, Status, Moved, Insts, UsersLeft, Waits;
    FinishLists(g, gone, t);
    forall a | a in t.users ensures UsersOk(t, a) {
      FinishUsers(g, gone, t, a);
    }
    forall p | p in t.alg ensures SpawnOk(t, p) {
      FinishSpawn(g, gone, t, p);
    }
  }

  lemma FinishSpawn(g: State, gone: set<nat>, t: State, p: nat)
    requires Inv(g) && Progress(g, gone, t) && p in t.alg
    ensures p in t.inst && SpawnOk(t, p)
  {
    assert SpawnOk(g, p);
    hide Distinct, UsersOk, UsersLeft, Waits, Status;
  }

  lemma FinishLists(g: State, gone: set<nat>, t: State)
    requires Inv(g) && Status(g, Insts(g, gone), Moved(g, gone), t)
    ensures Elems(t.algs) <= g.users.Keys
    ensures Distinct(t.algs) && Distinct(t.list) && t.registered - t.dead <= Elems(t.algs)
            && Elems(t.algs) !! Elems(t.list)
  {
    KeepIs(g.algs, Moved(g, gone));
    hide Keep, Distinct, UsersOk, SpawnOk, Moved, Insts;
    assert Elems(t.algs) == Elems(g.algs) - Moved(g, gone);
  }

  lemma FinishUsers(g: State, gone: set<nat>, t: State, a: nat)
    requires Inv(g) && Progress(g, gone, t) && t.secondary == [] && a in t.users
    ensures UsersOk(t, a)
  {
    assert UsersOk(g, a) && UsersLeft(g, gone, Moved(g, gone), t, a);
    hide Distinct, Inv;
    forall p ensures p in t.users[a] <==> p in t.alg && t.alg[p] == Some(a) {
      if a in Moved(g, gone) { assert !Waits(g, gone, Moved(g, gone), p); }
    }
  }
}
