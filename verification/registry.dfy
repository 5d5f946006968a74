/** The registry as crypto/algapi.c changes it. */
module Registries {
  import opened Lists
  import opened Spawns

  class Registry {
    var inst: map<nat, nat>
    var mask: map<nat, bv32>
    var alg: map<nat, Option<nat>>
    var kind: map<nat, bv32>
    var users: map<nat, seq<nat>>
    var dead: set<nat>
    var registered: set<nat>
    var gettable: set<nat>
    var algs: seq<nat>
    /** the removal list that the callers pass on */
    var list: seq<nat>
    /** secondary_spawns */
    var secondary: seq<nat>

    ghost function View(): State
      reads this
    {
      State(inst, mask, alg, kind, users, dead, registered, gettable, algs, list, secondary)
    }

    /** An empty registry. */
    constructor ()
      ensures Inv(View()) && users == map[] && list == []
    {
      inst, mask, alg, kind, users := map[], map[], map[], map[], map[];
      dead, registered, gettable, algs, list, secondary := {}, {}, {}, [], [], [];
    }

    /** list_del_init on the spawn, which forgets its algorithm. */
    method UnlinkSpawn(p: nat)
      requires p in alg
      modifies this`alg, this`users, this`secondary
      ensures View() == Unlink(old(View()), p)
    {
      hide Without;
      var a := alg[p];
      if a.Some? && a.value in users { users := users[a.value := Without(users[a.value], p)]; }
      secondary := Without(secondary, p);
      alg := alg[p := None];
    }

    /** list_move, hlist_del and list_splice for a registered instance. */
    method RetireInstance(i: nat)
      requires i in users
      modifies this`users, this`secondary, this`registered, this`algs, this`list
      ensures View() == Retire(old(View()), i)
    {
      hide Without;
      list, algs := [i] + list, Without(algs, i);
      registered := registered - {i};
      secondary, users := users[i] + secondary, users[i := []];
    }

    /** crypto_remove_spawn */
    method RemoveSpawn(p: nat)
      requires p in alg && p in inst && inst[p] in users
      modifies this`alg, this`users, this`secondary, this`dead, this`registered, this`algs, this`list
      ensures View() == Remove(old(View()), p)
    {
      hide Retire;
      var i := inst[p];
      UnlinkSpawn(p);
      if i in dead { return; }
      dead := dead + {i};
      if i in registered && i in gettable { RetireInstance(i); }
    }

    /** crypto_remove_spawns */
    method RemoveSpawns(q: nat, newType: bv32)
      requires Inv(View()) && q in users
      modifies this`alg, this`users, this`secondary, this`dead, this`registered, this`algs, this`list
      ensures Removed(old(View()), {q}, newType, View()) && Inv(View())
    {
      hide Inv, Ended, Removed;
      ghost var g := View();
      Begin(g, newType);
      ghost var gone := RemoveMore(q, newType, g, {}, {});
      assert {} + {q} == {q};
      Finish(g, {q}, newType, gone, View());
      EndedInv(g, {q}, newType, gone, View());
    }

    /** The two loops of crypto_remove_spawns, after the same was done for the algorithms qs.
        The cursor of a loop is given by the number of entries from it to the end of the
        list, which the splices at the head do not change. */
    method RemoveMore(q: nat, newType: bv32, ghost g: State, ghost qs: set<nat>, ghost start: set<nat>)
      returns (ghost gone: set<nat>)
      requires Inv(g) && Ended(g, qs, newType, start, View()) && q in users
      modifies this`alg, this`users, this`secondary, this`dead, this`registered, this`algs, this`list
      ensures Ended(g, qs + {q}, newType, gone, View()) && start <= gone
      ensures q !in Moved(g, start) ==> q !in Moved(g, gone)
    {
      hide Inv, Ended, Round, Direct, Selects, Moved;
      BeginRound(g, qs, q, newType, start, View());
      gone := RemoveDirect(q, newType, g, qs, start);
      while secondary != []
        invariant Round(g, qs, q, newType, start, gone, View())
        invariant forall p :: Selects(g, q, newType, p) ==> p in gone
        decreases g.alg.Keys - gone
      {
        gone := RemovePass(q, newType, g, qs, start, gone);
      }
      EndRound(g, qs, q, newType, start, gone, View());
    }

    /** The first loop: the spawns of q that match. */
    method RemoveDirect(q: nat, newType: bv32, ghost g: State, ghost qs: set<nat>, ghost start: set<nat>)
      returns (ghost gone: set<nat>)
      requires Inv(g) && Round(g, qs, q, newType, start, start, View()) && q in users && secondary == []
      modifies this`alg, this`users, this`secondary, this`dead, this`registered, this`algs, this`list
      ensures Round(g, qs, q, newType, start, gone, View())
      ensures forall p :: Selects(g, q, newType, p) ==> p in gone
    {
      hide Inv, Round, Selects, Remove, Listed, Moved, SameType;
      gone := start;
      DirectListed(g, qs, q, newType, start, View());
      var left: nat := |users[q]|;
      while left > 0
        invariant Round(g, qs, q, newType, start, gone, View()) && q in users && left <= |users[q]|
        invariant Listed(g, q, newType, gone, users[q][|users[q]| - left..])
      {
        ghost var s := View();
        var k: nat := |users[q]| - left;
        var p := users[q][k];
        CursorKnown(g, qs, start, gone, s, q, p, newType);
        ListedStep(g, q, newType, gone, users[q], k);
        if SameType(kind[q], newType, mask[p]) {
          gone := RemoveListed(q, k, newType, g, qs, start, gone);
        }
        left := left - 1;
      }
      NoneListed(g, q, newType, gone, users[q]);
    }

    /** The spawn at the cursor matches. */
    method RemoveListed(q: nat, k: nat, ghost newType: bv32, ghost g: State, ghost qs: set<nat>, ghost start: set<nat>,
                        ghost before: set<nat>)
      returns (ghost gone: set<nat>)
      requires Inv(g) && Round(g, qs, q, newType, start, before, View())
      requires q in users && k < |users[q]| && Selects(g, q, newType, users[q][k])
      modifies this`alg, this`users, this`secondary, this`dead, this`registered, this`algs, this`list
      ensures gone == before + {old(users[q][k])} && Round(g, qs, q, newType, start, gone, View())
      ensures q in users && |users[q]| == |old(users[q])| - 1 && users[q][k..] == old(users[q][k + 1..])
    {
      hide Inv, Round, Selects, Remove;
      DirectStep(g, qs, q, newType, start, before, View(), k);
      gone := before + {users[q][k]};
      RemoveSpawn(users[q][k]);
    }

    /** One pass over the secondary list. */
    method RemovePass(ghost q: nat, ghost newType: bv32, ghost g: State, ghost qs: set<nat>, ghost start: set<nat>,
                      ghost before: set<nat>)
      returns (ghost gone: set<nat>)
      requires Inv(g) && Round(g, qs, q, newType, start, before, View()) && secondary != []
      modifies this`alg, this`users, this`secondary, this`dead, this`registered, this`algs, this`list
      ensures Round(g, qs, q, newType, start, gone, View()) && before < gone <= g.alg.Keys
    {
      hide Inv, Round, Remove;
      gone := before;
      var left: nat := |secondary|;
      RoundKnown(g, qs, q, newType, start, gone, View());
      while left > 0
        invariant Round(g, qs, q, newType, start, gone, View()) && before <= gone <= g.alg.Keys && left <= |secondary|
        invariant before < gone || left > 0
      {
        ghost var s := View();
        var p := secondary[|secondary| - left];
        PassStep(g, qs, q, newType, start, gone, s, p);
        RemoveSpawn(p);
        gone := gone + {p};
        left := left - 1;
      }
    }

    /** A new algorithm or instance, not yet registered. */
    method Allocate(a: nat, bits: bv32)
      requires Inv(View()) && a !in users
      modifies this`users, this`kind
      ensures Inv(View()) && users == old(users)[a := []] && kind == old(kind)[a := bits]
    {
      AllocateInv(View(), a, bits);
      hide Inv;
      users, kind := users[a := []], kind[a := bits];
    }

    /** __crypto_register_alg: the walk over the algorithms, in which `supersedes` stands for
        the tests of names, priorities, DYING and larvals, and then the link at the head of
        the list.  -EAGAIN and -EEXIST are false.  `swept` are the algorithms that
        crypto_remove_spawns was called for; afterwards no algorithm is left that should
        have been. */
    method RegisterAlg(a: nat, supersedes: nat -> bool) returns (ok: bool, ghost swept: set<nat>)
      requires Inv(View()) && a in users && users[a] == [] && a !in registered && a !in list
      modifies this`alg, this`users, this`secondary, this`dead, this`registered, this`algs, this`list
      ensures Inv(View()) && ok == (a !in old(dead) && a !in old(algs))
      ensures ok ==> algs != [] && algs[0] == a
      ensures a in old(dead) ==> View() == old(View()) && swept == {}
      ensures a in kind && Removed(old(View()), swept, kind[a], View().(algs := if ok then algs[1..] else algs))
      ensures forall q :: q in swept ==> q in old(algs) && supersedes(q) && q !in old(dead)
      ensures ok ==> forall q :: q in algs && q != a && supersedes(q) && q !in dead ==> q in swept
      ensures registered <= old(registered)
    {
      hide Inv, Ended, Removed, Walked, Moved;
      ghost var g := View();
      KindKnown(g, a);
      var bits := kind[a];
      Begin(g, bits);
      ghost var gone, pre := {}, [];
      swept := {};
      var rest := algs;
      NotWalked(g, bits, supersedes, a);
      if a in dead {
        ok := false;
        WalkEnds(g, swept, bits, gone, View());
        return;
      }
      while rest != []
        invariant Walked(g, swept, bits, gone, pre, rest, supersedes, a, View()) && kind == g.kind
        decreases |rest|
      {
        var q := rest[0];
        if q == a {
          WalkMeets(g, swept, bits, gone, pre, rest, supersedes, a, View());
          WalkEnds(g, swept, bits, gone, View());
          ok := false;
          return;
        }
        if q !in dead && supersedes(q) {
          ghost var s, start := View(), gone;
          WalkKnown(g, swept, bits, gone, pre, rest, supersedes, a, s);
          gone := RemoveMore(q, bits, g, swept, gone);
          WalkSweeps(g, swept, bits, start, gone, pre, rest, supersedes, a, s, View());
          swept := swept + {q};
          pre := Keep(pre, Moved(g, gone)) + [q];
          rest := algs[IndexOf(algs, q) + 1..];
        } else {
          WalkSkips(g, swept, bits, gone, pre, rest, supersedes, a, View());
          pre := pre + [q];
          rest := rest[1..];
        }
      }
      WalkDone(g, swept, bits, gone, pre, supersedes, a, View());
      ok := true;
      algs := [a] + algs;
    }

    /** crypto_register_instance */
    method RegisterInstance(a: nat, supersedes: nat -> bool) returns (ok: bool, ghost swept: set<nat>)
      requires Inv(View()) && a in users && users[a] == [] && a !in registered && a !in list
      modifies this`alg, this`users, this`secondary, this`dead, this`registered, this`algs, this`list
      ensures Inv(View()) && ok == (a !in old(dead) && a !in old(algs))
      ensures ok ==> algs != [] && algs[0] == a && a in registered
      ensures a in kind && Removed(old(View()), swept, kind[a], View().(algs := if ok then algs[1..] else algs))
      ensures forall q :: q in swept ==> q in old(algs) && supersedes(q) && q !in old(dead)
      ensures ok ==> forall q :: q in algs && q != a && supersedes(q) && q !in dead ==> q in swept
      ensures registered <= old(registered) + (if ok then {a} else {})
    {
      ok, swept := RegisterAlg(a, supersedes);
      if ok {
        LinkInv(View(), a);
        hide Inv, Removed;
        SameRemoved(old(View()), swept, kind[a], View().(algs := algs[1..]), a);
        registered := registered + {a};
      }
    }

    /** crypto_remove_alg; -ENOENT is false.  Nothing is left that uses the algorithm. */
    method RemoveAlg(a: nat) returns (ok: bool)
      requires Inv(View()) && a in users && a !in list
      modifies this`alg, this`users, this`secondary, this`dead, this`registered, this`algs, this`list
      ensures ok == (a in old(algs)) && Inv(View())
      ensures !ok ==> View() == old(View())
      ensures ok ==> Removed(Dropped(old(View()), a), {a}, kind[a], View()) && a in dead && users[a] == []
      ensures ok ==> forall p :: p in old(users[a]) && p in inst ==> inst[p] in dead
    {
      hide Inv, Removed;
      if a !in algs { return false; }
      DroppedInv(View(), a);
      hide Without;
      dead, algs := dead + {a}, Without(algs, a);
      ghost var s := View();
      KindKnown(s, a);
      RemoveSpawns(a, kind[a]);
      AllRemoved(s, a, View());
      ok := true;
    }

    /** crypto_init_spawn; -EAGAIN is false.  The spawn is new, and its instance was allocated
        after the algorithm it uses. */
    method InitSpawn(p: nat, a: nat, i: nat, maskBits: bv32, dying: bool) returns (ok: bool)
      requires Inv(View()) && p !in inst && a in users && i in users && a < i
      modifies this`inst, this`mask, this`alg, this`users
      ensures ok == (a !in dead && !dying) && Inv(View())
      ensures inst == old(inst)[p := i] && mask == old(mask)[p := maskBits]
      ensures alg == old(alg)[p := if ok then Some(a) else None]
      ensures users == if ok then old(users)[a := [p] + old(users)[a]] else old(users)
    {
      ok := a !in dead && !dying;
      SpawnInv(View(), p, a, i, maskBits, ok);
      hide Inv;
      inst, mask := inst[p := i], mask[p := maskBits];
      if ok { users := users[a := [p] + users[a]]; }
      alg := alg[p := if ok then Some(a) else None];
      assert View() == Attach(old(View()), p, a, i, maskBits, ok);
    }
  }

  // ---- crypto_remove_alg and crypto_init_spawn ----

  function Dropped(s: State, a: nat): State {
    s.(dead := s.dead + {a}, algs := Without(s.algs, a))
  }

  lemma DroppedInv(s: State, a: nat)
    requires Inv(s)
    ensures Inv(Dropped(s, a))
  {
    WithoutElems(s.algs, a);
    hide Without, Distinct, UsersOk, SpawnOk;
    var t := Dropped(s, a);
    forall b | b in t.users ensures UsersOk(t, b) {
      assert UsersOk(s, b);
      SameUsers(s, t, b);
    }
    forall p | p in t.alg ensures SpawnOk(t, p) {
      assert SpawnOk(s, p);
      SameSpawn(s, t, p);
    }
  }

  lemma SameUsers(s: State, t: State, b: nat)
    requires t.users == s.users && t.alg == s.alg && b in s.users && UsersOk(s, b)
    ensures UsersOk(t, b)
  {
  }

  lemma SameSpawn(s: State, t: State, p: nat)
    requires t.users == s.users && t.alg == s.alg && t.inst == s.inst && p in s.alg && p in s.inst && SpawnOk(s, p)
    ensures SpawnOk(t, p)
  {
  }

  lemma KindKnown(s: State, a: nat)
    requires Inv(s) && a in s.users
    ensures a in s.kind && a in s.users
  {
  }

  /** An algorithm's own flags select all of its spawns. */
  lemma AllRemoved(g: State, a: nat, t: State)
    requires Inv(g) && a in g.users && a in g.kind && Removed(g, {a}, g.kind[a], t) && a in g.dead
    ensures a in t.users && t.users[a] == [] && a in t.dead && t.inst == g.inst
    ensures forall p :: p in g.users[a] && p in g.inst ==> g.inst[p] in t.dead
  {
    hide Distinct, SpawnOk, Reached, Removed;
    RemovedSays(g, {a}, g.kind[a], t, a, 0);
    forall p | p in g.users[a] ensures Reached(g, {a}, g.kind[a], p) && (p in g.inst ==> g.inst[p] in t.dead) {
      OwnReached(g, a, p);
      RemovedSays(g, {a}, g.kind[a], t, a, p);
    }
    forall p ensures p !in t.users[a] {
      RemovedSays(g, {a}, g.kind[a], t, a, p);
    }
    SomeMember(t.users[a]);
  }

  lemma OwnReached(g: State, a: nat, p: nat)
    requires Inv(g) && a in g.users && p in g.users[a]
    ensures a in g.kind && Reached(g, {a}, g.kind[a], p)
  {
    assert UsersOk(g, a);
    hide Distinct, SpawnOk;
    SelfMatches(g.kind[a], g.mask[p]);
    assert Selects(g, a, g.kind[a], p);
    assert ReachedIn(g, {a}, g.kind[a], p, 0);
  }

  lemma RemovedSays(g: State, qs: set<nat>, newType: bv32, t: State, a: nat, p: nat)
    requires Removed(g, qs, newType, t) && a in g.users
    ensures a in t.users && t.inst == g.inst && (a in g.dead ==> a in t.dead)
    ensures p in t.users[a] <==> p in g.users[a] && !Reached(g, qs, newType, p)
    ensures p in g.inst && Reached(g, qs, newType, p) ==> g.inst[p] in t.dead
  {
    hide Reached, Expands, Distinct;
    assert OthersStay(g, qs, newType, t, a);
    if p in g.inst && Reached(g, qs, newType, p) { assert Depends(g, qs, newType, g.inst[p]); }
  }

  lemma SomeMember(s: seq<nat>)
    ensures s != [] ==> exists p :: p in s
  {
    if s != [] { assert s[0] in s; }
  }

  lemma SelfMatches(x: bv32, m: bv32)
    ensures SameType(x, x, m)
  {
  }

  function Attach(s: State, p: nat, a: nat, i: nat, bits: bv32, ok: bool): State
    requires a in s.users
  {
    s.(inst := s.inst[p := i], mask := s.mask[p := bits], alg := s.alg[p := if ok then Some(a) else None],
       users := if ok then s.users[a := [p] + s.users[a]] else s.users)
  }

  lemma SpawnInv(s: State, p: nat, a: nat, i: nat, bits: bv32, ok: bool)
    requires Inv(s) && p !in s.inst && a in s.users && i in s.users && a < i
    ensures Inv(Attach(s, p, a, i, bits, ok))
  {
    hide Distinct, UsersOk;
    var t := Attach(s, p, a, i, bits, ok);
    forall b | b in t.users ensures UsersOk(t, b) {
      assert UsersOk(s, b);
      AttachUsers(s, p, a, i, bits, ok, b);
    }
    forall r | r in t.alg ensures SpawnOk(t, r) {
      if r != p { assert SpawnOk(s, r); }
    }
  }

  lemma AttachUsers(s: State, p: nat, a: nat, i: nat, bits: bv32, ok: bool, b: nat)
    requires p !in s.alg && a in s.users && b in s.users && UsersOk(s, b)
    ensures UsersOk(Attach(s, p, a, i, bits, ok), b)
  {
    hide Distinct;
    if b == a { FirstDistinct(p, s.users[a]); }
  }

  lemma FirstDistinct(p: nat, s: seq<nat>)
    requires Distinct(s) && p !in s
    ensures Distinct([p] + s)
  {
  }

  // ---- the walk of __crypto_register_alg ----

  /** INIT_LIST_HEAD on cra_users is harmless exactly if there are no users. */
  lemma ResetKeeps(s: State, a: nat)
    requires Inv(s) && a in s.users
    ensures Inv(s.(users := s.users[a := []])) <==> s.users[a] == []
  {
    var t := s.(users := s.users[a := []]);
    assert UsersOk(s, a);
    hide Distinct, SpawnOk;
    if s.users[a] != [] {
      var p := s.users[a][0];
      assert p in s.users[a];
      assert !UsersOk(t, a);
    } else {
      assert s.users[a := []] == s.users;
    }
  }

  lemma SameRemoved(g: State, qs: set<nat>, newType: bv32, t: State, a: nat)
    requires Removed(g, qs, newType, t)
    ensures Removed(g, qs, newType, t.(registered := t.registered + {a}))
  {
    hide Reached, Depends, Distinct, Expands;
    var u := t.(registered := t.registered + {a});
    forall b | b in g.users ensures OthersStay(g, qs, newType, u, b) {
      assert OthersStay(g, qs, newType, t, b);
    }
  }

  lemma LinkInv(s: State, a: nat)
    requires Inv(s) && a in s.algs
    ensures Inv(s.(registered := s.registered + {a}))
  {
    hide Distinct, UsersOk, SpawnOk;
    var t := s.(registered := s.registered + {a});
    assert a in Elems(s.algs);
    forall b | b in t.users ensures UsersOk(t, b) {
      assert UsersOk(s, b);
      SameUsers(s, t, b);
    }
    forall p | p in t.alg ensures SpawnOk(t, p) {
      assert SpawnOk(s, p);
      SameSpawn(s, t, p);
    }
  }

  /** The algorithms `pre` have been passed; those of qs were swept. */
  ghost predicate Walked(g: State, qs: set<nat>, newType: bv32, gone: set<nat>, pre: seq<nat>, rest: seq<nat>,
                         supersedes: nat -> bool, a: nat, t: State) {
    && Ended(g, qs, newType, gone, t) && t.algs == pre + rest && a !in pre
    && (forall q :: q in qs ==> q in g.algs && supersedes(q) && q !in g.dead)
    && (forall q :: q in pre && supersedes(q) && q !in t.dead ==> q in qs)
  }

  lemma NotWalked(g: State, newType: bv32, supersedes: nat -> bool, a: nat)
    requires Ended(g, {}, newType, {}, g)
    ensures Walked(g, {}, newType, {}, [], g.algs, supersedes, a, g)
  {
    hide Ended;
  }

  lemma WalkKnown(g: State, qs: set<nat>, newType: bv32, gone: set<nat>, pre: seq<nat>, rest: seq<nat>,
                  supersedes: nat -> bool, a: nat, t: State)
    requires Inv(g) && rest != [] && Walked(g, qs, newType, gone, pre, rest, supersedes, a, t)
    ensures Ended(g, qs, newType, gone, t) && rest[0] in t.users && rest[0] in t.algs && rest[0] in g.algs
    ensures rest[0] !in Moved(g, gone) && (rest[0] in g.dead ==> rest[0] in t.dead)
  {
    hide Reached, Direct, UsersLeft, Waits, Distinct, Keep, Moved, Insts, UsersOk, SpawnOk;
    KeepIs(g.algs, Moved(g, gone));
    assert rest[0] in t.algs;
    assert rest[0] in Elems(g.algs);
  }

  lemma WalkSkips(g: State, qs: set<nat>, newType: bv32, gone: set<nat>, pre: seq<nat>, rest: seq<nat>,
                  supersedes: nat -> bool, a: nat, t: State)
    requires rest != [] && Walked(g, qs, newType, gone, pre, rest, supersedes, a, t)
    requires rest[0] != a && (rest[0] in t.dead || !supersedes(rest[0]))
    ensures Walked(g, qs, newType, gone, pre + [rest[0]], rest[1..], supersedes, a, t)
  {
    hide Ended;
    assert pre + rest == pre + [rest[0]] + rest[1..];
  }

  /** The list before and after the spawns of the algorithm at the cursor are removed. */
  lemma SweptList(g: State, gone: set<nat>, gone': set<nat>, pre: seq<nat>, rest: seq<nat>, s: State, t: State)
    requires Inv(g) && rest != [] && s.algs == pre + rest && gone <= gone' && rest[0] !in Moved(g, gone')
    requires Progress(g, gone, s) && Progress(g, gone', t)
    ensures var m := Moved(g, gone');
            && t.algs == Keep(pre, m) + [rest[0]] + Keep(rest[1..], m) && rest[0] in t.algs
            && t.algs[IndexOf(t.algs, rest[0]) + 1..] == Keep(rest[1..], m)
            && s.dead <= t.dead
  {
    var m, q := Moved(g, gone'), rest[0];
    assert Moved(g, gone) <= m;
    KeepTwice(g.algs, Moved(g, gone), m);
    KeepIs(g.algs, m);
    hide Links, Moved;
    KeepAppend(pre, rest, m);
    assert Keep(rest, m) == [q] + Keep(rest[1..], m);
    hide Keep;
    assert t.algs == Keep(pre, m) + [q] + Keep(rest[1..], m);
    Behind(Keep(pre, m), q, Keep(rest[1..], m));
  }

  lemma Behind(s: seq<nat>, q: nat, t: seq<nat>)
    requires Distinct(s + [q] + t)
    ensures q in s + [q] + t && (s + [q] + t)[IndexOf(s + [q] + t, q) + 1..] == t
  {
    var u := s + [q] + t;
    assert u[|s|] == q;
    assert IndexOf(u, q) == |s|;
  }

  lemma {:induction false} KeepShorter(s: seq<nat>, gone: set<nat>)
    ensures |Keep(s, gone)| <= |s|
  {
    if s != [] { KeepShorter(s[1..], gone); }
  }

  lemma WalkSweeps(g: State, qs: set<nat>, newType: bv32, gone: set<nat>, gone': set<nat>, pre: seq<nat>,
                   rest: seq<nat>,
                   supersedes: nat -> bool, a: nat, s: State, t: State)
    requires Inv(g) && rest != [] && Walked(g, qs, newType, gone, pre, rest, supersedes, a, s)
    requires rest[0] != a && rest[0] !in s.dead && supersedes(rest[0])
    requires Ended(g, qs + {rest[0]}, newType, gone', t) && gone <= gone' && rest[0] !in Moved(g, gone')
    ensures rest[0] in t.algs
    ensures var behind := t.algs[IndexOf(t.algs, rest[0]) + 1..];
            && |behind| < |rest| && t.kind == g.kind
            && Walked(g, qs + {rest[0]}, newType, gone', Keep(pre, Moved(g, gone')) + [rest[0]], behind, supersedes,
                      a, t)
  {
    hide Inv, Ended, Progress, Keep, Moved;
    var m := Moved(g, gone');
    WalkKnown(g, qs, newType, gone, pre, rest, supersedes, a, s);
    EndedKnown(g, qs, newType, gone, s);
    EndedKnown(g, qs + {rest[0]}, newType, gone', t);
    SweptList(g, gone, gone', pre, rest, s, t);
    KeepShorter(rest[1..], m);
    KeepIs(pre, m);
  }

  lemma EndedKnown(g: State, qs: set<nat>, newType: bv32, gone: set<nat>, t: State)
    requires Ended(g, qs, newType, gone, t)
    ensures Progress(g, gone, t) && t.kind == g.kind
  {
    hide Reached, Direct, UsersLeft, Waits, Status;
  }

  lemma WalkMeets(g: State, qs: set<nat>, newType: bv32, gone: set<nat>, pre: seq<nat>, rest: seq<nat>,
                  supersedes: nat -> bool, a: nat, t: State)
    requires Inv(g) && rest != [] && rest[0] == a && Walked(g, qs, newType, gone, pre, rest, supersedes, a, t)
    ensures a in g.algs && Ended(g, qs, newType, gone, t)
    ensures forall q :: q in qs ==> q in g.algs && supersedes(q) && q !in g.dead
  {
    WalkKnown(g, qs, newType, gone, pre, rest, supersedes, a, t);
    hide Ended, Inv;
  }

  lemma WalkEnds(g: State, qs: set<nat>, newType: bv32, gone: set<nat>, t: State)
    requires Inv(g) && Ended(g, qs, newType, gone, t)
    ensures Inv(t) && Removed(g, qs, newType, t) && t.registered <= g.registered
  {
    Finish(g, qs, newType, gone, t);
    EndedInv(g, qs, newType, gone, t);
    hide Inv, Removed, Links, Moved, Insts, Reached, Direct;
  }

  /** The whole list has been walked: the new algorithm is linked. */
  lemma WalkDone(g: State, qs: set<nat>, newType: bv32, gone: set<nat>, pre: seq<nat>, supersedes: nat -> bool,
                 a: nat, t: State)
    requires Inv(g) && Walked(g, qs, newType, gone, pre, [], supersedes, a, t)
    requires a in g.users && a !in g.registered && a !in g.list
    ensures a !in g.algs && Inv(t.(algs := [a] + t.algs)) && Removed(g, qs, newType, t) && t.registered <= g.registered
    ensures ([a] + t.algs)[1..] == t.algs
    ensures forall q :: q in qs ==> q in g.algs && supersedes(q) && q !in g.dead
    ensures forall q :: q in t.algs && supersedes(q) && q !in t.dead ==> q in qs
  {
    WalkEnds(g, qs, newType, gone, t);
    DoneList(g, gone, t, a, pre);
    hide Ended, Removed;
    assert pre + [] == pre;
    HeadInv(t, a);
    hide Inv;
  }

  lemma DoneList(g: State, gone: set<nat>, t: State, a: nat, pre: seq<nat>)
    requires Inv(g) && Progress(g, gone, t) && t.algs == pre + [] && a !in pre && a !in g.registered && a !in g.list
             && a in g.users
    ensures a !in g.algs && a !in t.algs && a !in t.list && a in t.users
  {
    KeepIs(g.algs, Moved(g, gone));
    assert a !in Moved(g, gone);
    hide Keep, Moved, Distinct, UsersOk, SpawnOk, UsersLeft, Waits;
    assert pre + [] == pre;
    assert a !in Elems(t.list);
  }

  lemma HeadInv(s: State, a: nat)
    requires Inv(s) && a !in s.algs && a !in s.list && a in s.users
    ensures Inv(s.(algs := [a] + s.algs))
  {
    hide UsersOk, SpawnOk;
    var t := s.(algs := [a] + s.algs);
    FirstDistinct(a, s.algs);
    hide Distinct;
    ElemsAppend([a], s.algs);
    assert Elems([a]) == {a};
    forall b | b in t.users ensures UsersOk(t, b) {
      assert UsersOk(s, b);
      SameUsers(s, t, b);
    }
    forall p | p in t.alg ensures SpawnOk(t, p) {
      assert SpawnOk(s, p);
      SameSpawn(s, t, p);
    }
  }

  // ---- new algorithms ----

  lemma AllocateInv(s: State, a: nat, bits: bv32)
    requires Inv(s) && a !in s.users
    ensures Inv(s.(users := s.users[a := []], kind := s.kind[a := bits]))
  {
    hide Distinct, UsersOk, SpawnOk;
    var t := s.(users := s.users[a := []], kind := s.kind[a := bits]);
    NothingDistinct();
    NobodyUses(s, a);
    forall b | b in t.users ensures UsersOk(t, b) {
      if b != a { assert UsersOk(s, b); }
      AllocateUsers(s, t, a, b);
    }
    forall p | p in t.alg ensures SpawnOk(t, p) {
      assert SpawnOk(s, p);
      AllocateSpawn(s, t, p);
    }
  }

  lemma NobodyUses(s: State, a: nat)
    requires Inv(s) && a !in s.users
    ensures forall p :: p in s.alg ==> s.alg[p] != Some(a)
  {
    hide Distinct, UsersOk;
    forall p | p in s.alg ensures s.alg[p] != Some(a) {
      assert SpawnOk(s, p);
    }
  }

  lemma AllocateUsers(s: State, t: State, a: nat, b: nat)
    requires b in t.users && t.alg == s.alg && t.users == s.users[a := []] && a !in s.users
    requires forall p :: p in s.alg ==> s.alg[p] != Some(a)
    requires b != a ==> UsersOk(s, b)
    ensures UsersOk(t, b)
  {
  }

  lemma AllocateSpawn(s: State, t: State, p: nat)
    requires p in s.alg && p in s.inst && SpawnOk(s, p) && t.inst == s.inst && t.alg == s.alg
             && s.users.Keys <= t.users.Keys
    ensures SpawnOk(t, p)
  {
  }

  // ---- the loops of crypto_remove_spawns ----

  lemma Begin(g: State, newType: bv32)
    requires Inv(g)
    ensures Ended(g, {}, newType, {}, g)
  {
    Starts(g);
    hide Progress;
  }

  lemma EndedInv(g: State, qs: set<nat>, newType: bv32, gone: set<nat>, t: State)
    requires Inv(g) && Ended(g, qs, newType, gone, t)
    ensures Inv(t)
  {
    FinishInv(g, gone, t);
    hide Inv, Progress;
  }

  /** On the way from the spawns of qs being removed to those of q being removed, too. */
  ghost predicate Round(g: State, qs: set<nat>, q: nat, newType: bv32, start: set<nat>, gone: set<nat>, t: State) {
    && Progress(g, gone, t) && start <= gone <= g.alg.Keys
    && (forall p :: !Waits(g, start, Moved(g, start), p))
    && (forall p :: p in gone ==> Reached(g, qs + {q}, newType, p))
    && (forall p :: p in gone - start ==> p in g.inst && q < g.inst[p])
    && (forall p :: Direct(g, qs, newType, p) ==> p in gone)
  }

  lemma RoundKnown(g: State, qs: set<nat>, q: nat, newType: bv32, start: set<nat>, gone: set<nat>, t: State)
    requires Round(g, qs, q, newType, start, gone, t)
    ensures Progress(g, gone, t) && gone <= g.alg.Keys
  {
    hide Progress, Waits, Direct, Reached;
  }

  lemma {:induction false} MoreReached(g: State, qs: set<nat>, q: nat, newType: bv32, p: nat, n: nat)
    requires ReachedIn(g, qs, newType, p, n)
    ensures ReachedIn(g, qs + {q}, newType, p, n)
    decreases n
  {
    hide Selects;
    if n > 0 {
      var r :| ReachedIn(g, qs, newType, r, n - 1) && Uses(g, r, p);
      MoreReached(g, qs, q, newType, r, n - 1);
    }
  }

  lemma BeginRound(g: State, qs: set<nat>, q: nat, newType: bv32, start: set<nat>, t: State)
    requires Inv(g) && Ended(g, qs, newType, start, t)
    ensures Round(g, qs, q, newType, start, start, t) && t.secondary == []
  {
    hide Inv, Direct, Status, UsersLeft, Waits, ReachedIn;
    forall p ensures !Waits(g, start, Moved(g, start), p) {
      assert p !in t.secondary;
    }
    forall p | p in start ensures Reached(g, qs + {q}, newType, p) {
      var n: nat :| ReachedIn(g, qs, newType, p, n);
      MoreReached(g, qs, q, newType, p, n);
    }
  }

  lemma EndRound(g: State, qs: set<nat>, q: nat, newType: bv32, start: set<nat>, gone: set<nat>, t: State)
    requires Round(g, qs, q, newType, start, gone, t) && t.secondary == []
    requires forall p :: Selects(g, q, newType, p) ==> p in gone
    ensures Ended(g, qs + {q}, newType, gone, t) && start <= gone
    ensures q !in Moved(g, start) ==> q !in Moved(g, gone)
  {
    hide Progress, Waits, Reached, Selects, Expands;
  }

  /** The spawns that q selects are gone or in its list. */
  lemma DirectListed(g: State, qs: set<nat>, q: nat, newType: bv32, start: set<nat>, s: State)
    requires Inv(g) && Round(g, qs, q, newType, start, start, s) && q in s.users
    ensures Listed(g, q, newType, start, s.users[q][0..])
  {
    hide Reached, Direct, Status, Distinct, SpawnOk;
    assert s.users[q][0..] == s.users[q];
    forall p | Selects(g, q, newType, p) ensures p in start || p in s.users[q] {
      assert UsersLeft(g, start, Moved(g, start), s, q) && UsersOk(g, q);
      assert !Waits(g, start, Moved(g, start), p);
    }
  }

  /** The selected spawns are gone or still ahead of the cursor. */
  ghost predicate Listed(g: State, q: nat, newType: bv32, gone: set<nat>, rest: seq<nat>) {
    forall p :: Selects(g, q, newType, p) ==> p in gone || p in rest
  }

  lemma ListedStep(g: State, q: nat, newType: bv32, gone: set<nat>, s: seq<nat>, k: nat)
    requires k < |s| && Listed(g, q, newType, gone, s[k..])
    ensures Listed(g, q, newType, gone + {s[k]}, s[k + 1..])
    ensures !Selects(g, q, newType, s[k]) ==> Listed(g, q, newType, gone, s[k + 1..])
  {
    hide Selects;
    assert s[k..] == [s[k]] + s[k + 1..];
  }

  lemma NoneListed(g: State, q: nat, newType: bv32, gone: set<nat>, s: seq<nat>)
    requires Listed(g, q, newType, gone, s[|s|..])
    ensures forall p :: Selects(g, q, newType, p) ==> p in gone
  {
    hide Selects;
  }

  lemma CursorKnown(g: State, qs: set<nat>, start: set<nat>, gone: set<nat>, s: State, q: nat, p: nat, newType: bv32)
    requires Inv(g) && Round(g, qs, q, newType, start, gone, s) && q in s.users && p in s.users[q]
    ensures q in s.kind && p in s.mask && p in g.alg && g.alg[p] == Some(q) && p !in gone && q in g.users
    ensures Selects(g, q, newType, p) <==> SameType(s.kind[q], newType, s.mask[p])
  {
    hide Round, Progress, Inv;
    RoundKnown(g, qs, q, newType, start, gone, s);
    UserKnown(g, gone, s, q, p, newType);
  }

  lemma UserKnown(g: State, gone: set<nat>, s: State, q: nat, p: nat, newType: bv32)
    requires Inv(g) && Progress(g, gone, s) && q in s.users && p in s.users[q]
    ensures q in s.kind && p in s.mask && p in g.alg && g.alg[p] == Some(q) && p !in gone && q in g.users
    ensures Selects(g, q, newType, p) <==> SameType(s.kind[q], newType, s.mask[p])
  {
    hide Distinct, Waits, Status, SpawnOk;
    assert UsersLeft(g, gone, Moved(g, gone), s, q);
    assert UsersOk(g, q);
  }

  /** One more spawn is removed. */
  lemma RoundGrows(g: State, qs: set<nat>, q: nat, newType: bv32, start: set<nat>, gone: set<nat>, s: State, t: State,
                   p: nat)
    requires Round(g, qs, q, newType, start, gone, s) && Progress(g, gone + {p}, t)
    requires Reached(g, qs + {q}, newType, p) && p in g.alg && p in g.inst && q < g.inst[p]
    ensures Round(g, qs, q, newType, start, gone + {p}, t)
  {
    hide Progress, Waits, Reached, Direct;
  }

  /** Removing the spawn at the cursor of the first loop. */
  lemma DirectStep(g: State, qs: set<nat>, q: nat, newType: bv32, start: set<nat>, gone: set<nat>, s: State, k: nat)
    requires Inv(g) && Round(g, qs, q, newType, start, gone, s)
    requires q in s.users && k < |s.users[q]| && Selects(g, q, newType, s.users[q][k])
    ensures var p := s.users[q][k];
            && p in s.alg && p in s.inst && s.inst[p] in s.users
            && var t := Remove(s, p);
            && Round(g, qs, q, newType, start, gone + {p}, t)
            && q in t.users && |t.users[q]| == |s.users[q]| - 1 && t.users[q][k..] == s.users[q][k + 1..]
  {
    var p := s.users[q][k];
    hide Distinct, Progress, Inv, Selects, Without, Remove, Round;
    CursorKnown(g, qs, start, gone, s, q, p, newType);
    RoundKnown(g, qs, q, newType, start, gone, s);
    SelectedReached(g, qs, q, newType, p);
    Above(g, p);
    StepKeeps(g, gone, s, p);
    UsersDistinct(g, gone, s, q, p);
    WithoutAt(s.users[q], k);
    RemoveAtList(s, p, q);
    RoundGrows(g, qs, q, newType, start, gone, s, Remove(s, p), p);
  }

  lemma SelectedReached(g: State, qs: set<nat>, q: nat, newType: bv32, p: nat)
    requires Selects(g, q, newType, p)
    ensures Reached(g, qs + {q}, newType, p)
  {
    hide Selects;
    assert q in qs + {q};
    assert ReachedIn(g, qs + {q}, newType, p, 0);
  }

  lemma UsersDistinct(g: State, gone: set<nat>, s: State, q: nat, p: nat)
    requires Progress(g, gone, s) && q in s.users && p in g.alg && p !in gone
    ensures Distinct(s.users[q]) && p in s.alg && s.alg[p] == g.alg[p] && s.inst == g.inst
  {
    hide Distinct, Status, Waits;
    assert UsersLeft(g, gone, Moved(g, gone), s, q);
  }

  lemma RemoveAtList(s: State, p: nat, q: nat)
    requires p in s.alg && p in s.inst && s.inst[p] in s.users && s.alg[p] == Some(q) && q in s.users && q != s.inst[p]
    ensures q in Remove(s, p).users && Remove(s, p).users[q] == Without(s.users[q], p)
  {
    hide Without;
  }

  lemma WithoutAt(s: seq<nat>, k: nat)
    requires Distinct(s) && k < |s|
    ensures Without(s, s[k]) == s[..k] + s[k + 1..]
  {
    WithoutIs(s, s[k]);
  }

  /** Removing a spawn of the secondary list: what is behind it stays there. */
  lemma PassStep(g: State, qs: set<nat>, q: nat, newType: bv32, start: set<nat>, gone: set<nat>, s: State, p: nat)
    requires Inv(g) && Round(g, qs, q, newType, start, gone, s) && p in s.secondary
    ensures p in s.alg && p in s.inst && s.inst[p] in s.users && p in g.alg && p !in gone
    ensures var t := Remove(s, p);
            Round(g, qs, q, newType, start, gone + {p}, t) && |t.secondary| >= |s.secondary| - 1
  {
    hide Distinct, Progress, Inv, Remove, Round, Waits;
    RoundKnown(g, qs, q, newType, start, gone, s);
    SecondaryWaits(g, gone, s, p);
    WaitingKnown(g, gone, p);
    WaitingNew(g, qs, q, newType, start, gone, s, p);
    StepKeeps(g, gone, s, p);
    RemoveSecondary(s, p);
    RoundGrows(g, qs, q, newType, start, gone, s, Remove(s, p), p);
  }

  lemma WaitingKnown(g: State, gone: set<nat>, p: nat)
    requires Waits(g, gone, Moved(g, gone), p)
    ensures p in g.alg && p !in gone && g.alg[p].Some?
  {
  }

  /** What waits hangs on an instance that was hit in this round. */
  lemma WaitingNew(g: State, qs: set<nat>, q: nat, newType: bv32, start: set<nat>, gone: set<nat>, s: State, p: nat)
    requires Inv(g) && Round(g, qs, q, newType, start, gone, s) && Waits(g, gone, Moved(g, gone), p)
    ensures Reached(g, qs + {q}, newType, p) && p in g.inst && q < g.inst[p]
  {
    hide Progress, Reached, Direct, Inv;
    WaitingIsReached(g, qs + {q}, newType, gone, p);
    Above(g, p);
    assert !Waits(g, start, Moved(g, start), p);
    var r :| r in gone && r in g.inst && g.inst[r] == g.alg[p].value;
    assert r !in start;
  }

  lemma SecondaryWaits(g: State, gone: set<nat>, s: State, p: nat)
    requires Progress(g, gone, s) && p in s.secondary
    ensures Waits(g, gone, Moved(g, gone), p) && Distinct(s.secondary)
  {
  }

  lemma RemoveSecondary(s: State, p: nat)
    requires p in s.alg && p in s.inst && s.inst[p] in s.users && Distinct(s.secondary)
    ensures |Remove(s, p).secondary| >= |s.secondary| - 1
  {
    WithoutElems(s.secondary, p);
    hide Without, Distinct;
  }
}
