/** The hash, last_merge and the requests of a queue as the elevator core changes them
    (elevator.c; __make_request and attempt_merge of ll_rw_blk.c). */
module MergeQueues {
  import opened Lists
  import opened Merging

  class MergeQueue {
    const h: Hash
    var rqs: map<nat, Request>
    var sched: set<nat>
    var hash: seq<seq<nat>>
    var last: Option<nat>
    ghost var owner: map<Bio, nat>

    ghost function View(): State
      reads this
    {
      State(rqs, sched, hash, last, owner)
    }

    /** elevator_init */
    constructor (h: Hash)
      ensures this.h == h && View() == EMPTY && Inv(h, View())
    {
      this.h := h;
      rqs, sched, hash, last, owner := map[], {}, seq(ENTRIES, _ => []), None, map[];
      EmptyOk(h);
    }

    /** __elv_rqhash_del */
    method Unhash(x: nat)
      modifies this`hash
      ensures View() == HashDel(old(View()), x)
    {
      var b := hash;
      hash := seq(|b|, i requires 0 <= i < |b| => Without(b[i], x));
    }

    /** elv_rqhash_reposition */
    method Rehash(x: nat)
      requires x in rqs && |hash| == ENTRIES
      modifies this`hash
      ensures View() == Reposition(h, old(View()), x)
    {
      Unhash(x);
      var i := h(Key(rqs[x]));
      hash := hash[i := [x] + hash[i]];
    }

    /** elv_rqhash_find */
    method Lookup(offset: nat) returns (r: Option<nat>)
      requires HashOk(h, View())
      modifies this`hash
      ensures (r, View()) == Find(h, old(View()), offset)
    {
      hide Distinct, HashOk, Walk, Find;
      ghost var s := View();
      var k := h(offset);
      FindIs(h, s, offset);
      var kept, rest := [], hash[k];
      ghost var (found, clean) := Walk(rqs, rest, offset);
      while rest != []
        invariant hash == s.buckets[k := kept + rest]
        invariant forall x :: x in rest ==> x in rqs
        invariant found == Walk(rqs, rest, offset).0 && clean == kept + Walk(rqs, rest, offset).1
        decreases |rest|
      {
        var x, next := rest[0], rest[1..];
        WalkStep(rqs, rest, offset, kept);
        if !rqs[x].mergeable {
          hash := hash[k := kept + next];
        } else if Key(rqs[x]) == offset {
          return Some(x);
        } else {
          kept := kept + [x];
        }
        rest := next;
      }
      WalkEnd(rqs, offset, kept);
      r := None;
    }

    /** elv_merge */
    method Select(bio: Bio, terms: Terms) returns (r: Option<(nat, Kind)>)
      requires Inv(h, View())
      modifies this`hash
      ensures (r, View()) == Choose(h, old(View()), bio, terms)
    {
      hide HashOk, OwnersOk, Find;
      OkExcept(h, View(), 0);
      hide HashShape;
      if last.Some? {
        var kind := TryMerge(State(rqs, sched, hash, last, map[]), last.value, bio, terms);
        if kind != NoMerge { return Some((last.value, kind)); }
      }
      var x := Lookup(bio.sector);
      if x.Some? && x.value in terms.allow { return Some((x.value, Back)); }
      if Proposed(State(rqs, sched, hash, last, map[]), bio, terms) { return Some((terms.front.value, Front)); }
      r := None;
    }

    /** attempt_merge: whether y was joined to x. */
    method AttemptMerge(x: nat, y: nat) returns (joined: bool)
      requires x in rqs && y in rqs && x != y && |hash| == ENTRIES
      modifies this
      ensures joined == Adjacent(old(View()), x, y)
      ensures View() == if joined then Join(h, old(View()), x, y) else old(View())
    {
      hide Without, Distinct, Absorb;
      if x !in sched || y !in sched || !rqs[x].mergeable || !rqs[y].mergeable || Key(rqs[x]) != rqs[y].sector {
        return false;
      }
      ghost var absorbed := Absorb(View(), x, y);
      AbsorbIs(View(), x, y);
      rqs := rqs[x := rqs[x].(sectors := rqs[x].sectors + rqs[y].sectors, bios := rqs[x].bios + rqs[y].bios)];
      owner := absorbed.owner;
      assert View() == absorbed;
      Rehash(x);
      Unhash(y);
      last, sched := Some(x), sched - {y};
      rqs := rqs - {y};
      joined := true;
    }

    /** ELEVATOR_BACK_MERGE, within the limits */
    method AppendBio(x: nat, bio: Bio, near: Option<nat>)
      requires x in rqs && |hash| == ENTRIES
      modifies this
      ensures View() == BackMerge(h, old(View()), x, bio, near)
    {
      hide Join, Reposition, Adjacent, Key;
      rqs := rqs[x := rqs[x].(sectors := rqs[x].sectors + bio.sectors, bios := rqs[x].bios + [bio])];
      owner := owner[bio := x];
      assert View() == GrowBack(old(View()), x, bio);
      hide GrowBack;
      if near.Some? && Adjacent(View(), x, near.value) { AdjacentKnown(View(), x, near.value); }
      if near.Some? && near.value in rqs && near.value != x {
        var joined := AttemptMerge(x, near.value);
        if joined { return; }
      }
      Rehash(x);
      last := Some(x);
    }

    /** ELEVATOR_FRONT_MERGE, within the limits */
    method PrependBio(x: nat, bio: Bio, near: Option<nat>)
      requires x in rqs && |hash| == ENTRIES
      modifies this
      ensures View() == FrontMerge(h, old(View()), x, bio, near)
    {
      hide Join, Adjacent, Key;
      rqs := rqs[x := rqs[x].(sector := bio.sector, sectors := rqs[x].sectors + bio.sectors,
                              bios := [bio] + rqs[x].bios)];
      owner := owner[bio := x];
      assert View() == GrowFront(old(View()), x, bio);
      hide GrowFront;
      if near.Some? && Adjacent(View(), near.value, x) { AdjacentKnown(View(), near.value, x); }
      if near.Some? && near.value in rqs && near.value != x {
        var joined := AttemptMerge(near.value, x);
        if joined { return; }
      }
      last := Some(x);
    }

    /** __make_request up to get_rq: what is chosen is mergeable, so the BUG_ONs before the
        merges hold. */
    method MergeBio(bio: Bio, terms: Terms) returns (merged: bool)
      requires Inv(h, View()) && bio !in owner
      modifies this
      ensures (merged, View()) == Merge(h, old(View()), bio, terms)
      ensures Kept(h, old(View()), View(), if merged then {bio} else {})
      ensures Permitted(old(View()), merged, View(), bio, terms)
      ensures AllAllowed(old(View()), bio, terms) ==> Decided(old(View()), merged, View(), bio, terms)
    {
      MergeAny(h, View(), bio, terms);
      if AllAllowed(View(), bio, terms) { MergeOutcome(h, View(), bio, terms); }
      hide Inv, Choose, BackMerge, FrontMerge, Touches, Permitted, Decided, AllAllowed;
      MergeKeeps(h, View(), bio, terms);
      hide Kept;
      ghost var s := View();
      SelectSafe(h, s, bio, terms);
      var r := Select(bio, terms);
      if r.None? { return false; }
      var x := r.value.0;
      assert rqs[x].mergeable;
      if !terms.fits {
        rqs := rqs[x := rqs[x].(mergeable := false)];
        if last == Some(x) { last := None; }
        return false;
      }
      if r.value.1 == Back {
        AppendBio(x, bio, terms.near);
      } else {
        PrependBio(x, bio, terms.near);
      }
      merged := true;
    }

    /** elv_insert with ELEVATOR_INSERT_SORT: the request is not in the hash yet, as the
        BUG_ON of elv_rqhash_add demands. */
    method AddRequest(x: nat, bio: Bio, mergeable: bool)
      requires Inv(h, View()) && x !in rqs && bio !in owner
      modifies this
      ensures View() == Insert(h, old(View()), x, bio, mergeable) && Kept(h, old(View()), View(), {bio})
      ensures Joins(h, old(View()), x, bio, mergeable, View())
    {
      NotHashed(h, View(), x);
      InsertKeeps(h, View(), x, bio, mergeable);
      InsertJoins(h, View(), x, bio, mergeable);
      hide Kept, Inv, Joins;
      rqs := rqs[x := Request(bio.sector, bio.sectors, [bio], mergeable)];
      sched, owner := sched + {x}, owner[bio := x];
      if mergeable {
        var i := h(Key(rqs[x]));
        hash := hash[i := [x] + hash[i]];
        if last.None? { last := Some(x); }
      }
    }

    /** elv_dispatch_sort and elv_dispatch_add_tail */
    method Send(x: nat)
      requires Inv(h, View()) && x in sched
      modifies this
      ensures View() == Dispatch(old(View()), x) && Kept(h, old(View()), View(), {})
      ensures rqs == old(rqs) && sched == old(sched) - {x} && last == if old(last) == Some(x) then None else old(last)
      ensures Absent(View(), x)
    {
      DispatchKeeps(h, View(), x);
      DispatchUnhashes(h, View(), x);
      hide Kept, HashOk, OwnersOk, Without;
      if last == Some(x) { last := None; }
      Unhash(x);
      sched := sched - {x};
    }
  }

  /** A new request with one bio; if it can be merged it is in the bucket of its end, and is
      last_merge if there was none. */
  predicate Joins(h: Hash, s: State, x: nat, bio: Bio, mergeable: bool, t: State) {
    && t.rqs == s.rqs[x := Request(bio.sector, bio.sectors, [bio], mergeable)] && t.sched == s.sched + {x}
    && t.last == (if s.last.None? && mergeable then Some(x) else s.last)
    && forall i :: 0 <= i < |t.buckets| ==> (x in t.buckets[i] <==> mergeable && i == h(bio.sector + bio.sectors))
  }

  lemma InsertJoins(h: Hash, s: State, x: nat, bio: Bio, mergeable: bool)
    requires Inv(h, s) && x !in s.rqs
    ensures |s.buckets| == ENTRIES && Joins(h, s, x, bio, mergeable, Insert(h, s, x, bio, mergeable))
  {
    NotHashed(h, s, x);
    hide Inv;
  }

  lemma NotHashed(h: Hash, s: State, x: nat)
    requires Inv(h, s) && x !in s.rqs
    ensures |s.buckets| == ENTRIES && forall i :: 0 <= i < |s.buckets| ==> x !in s.buckets[i]
  {
    forall i | 0 <= i < |s.buckets| ensures x !in s.buckets[i] {
      assert Placed(h, s, i, x);
    }
    hide OwnersOk;
  }

  lemma DispatchUnhashes(h: Hash, s: State, x: nat)
    requires Inv(h, s)
    ensures Absent(Dispatch(s, x), x)
  {
    OkExcept(h, s, x);
    DelMakes(h, s, x);
    hide OwnersOk, Without;
    forall i | 0 <= i < |s.buckets| ensures x !in Dispatch(s, x).buckets[i] {
      assert x !in HashDel(s, x).buckets[i];
    }
  }

  lemma SelectSafe(h: Hash, s: State, bio: Bio, terms: Terms)
    requires Inv(h, s)
    ensures var (r, t) := Choose(h, s, bio, terms);
            |t.buckets| == ENTRIES && (r.Some? ==> r.value.0 in t.rqs && t.rqs[r.value.0].mergeable)
  {
    ChooseKeeps(h, s, bio, terms);
    ChooseTouches(h, s, bio, terms);
    hide Choose, OwnersOk;
    OkExcept(h, Choose(h, s, bio, terms).1, 0);
  }

  lemma AbsorbIs(s: State, x: nat, y: nat)
    requires x in s.rqs && y in s.rqs && x != y
    ensures var a := Absorb(s, x, y);
            a == s.(rqs := s.rqs[x := s.rqs[x].(sectors := s.rqs[x].sectors + s.rqs[y].sectors,
                                                bios := s.rqs[x].bios + s.rqs[y].bios)],
                    owner := a.owner)
  {
  }

  /** One step of the walk along a bucket. */
  lemma WalkStep(rqs: map<nat, Request>, rest: seq<nat>, offset: nat, kept: seq<nat>)
    requires rest != [] && forall x :: x in rest ==> x in rqs
    ensures forall x :: x in rest[1..] ==> x in rqs
    ensures var w, x := Walk(rqs, rest, offset), rest[0];
            var v := Walk(rqs, rest[1..], offset);
            if !rqs[x].mergeable then w == v
            else if Key(rqs[x]) == offset then w == (Some(x), rest)
            else w.0 == v.0 && kept + w.1 == kept + [x] + v.1 && kept + rest == kept + [x] + rest[1..]
  {
    assert forall x :: x in rest[1..] ==> x in rest;
  }

  lemma WalkEnd(rqs: map<nat, Request>, offset: nat, kept: seq<nat>)
    ensures Walk(rqs, [], offset).0 == None && kept + Walk(rqs, [], offset).1 == kept + []
  {
  }

  lemma FindIs(h: Hash, s: State, offset: nat)
    requires HashOk(h, s)
    ensures var k := h(offset);
            && |s.buckets| == ENTRIES && (forall x :: x in s.buckets[k] ==> x in s.rqs)
            && var (r, clean) := Walk(s.rqs, s.buckets[k], offset);
            && Find(h, s, offset) == (r, s.(buckets := s.buckets[k := clean]))
            && s.buckets == s.buckets[k := [] + s.buckets[k]] && clean == [] + clean
  {
    hide Walk, HashOk, HashShape, Distinct;
    HashSize(h, s);
    BucketKnown(h, s, h(offset));
    var b := s.buckets[h(offset)];
    Nothing(b);
    Nothing(Walk(s.rqs, b, offset).1);
    assert s.buckets == s.buckets[h(offset) := b];
  }

  lemma Nothing(s: seq<nat>)
    ensures [] + s == s
  {
  }

  lemma HashSize(h: Hash, s: State)
    requires HashOk(h, s)
    ensures |s.buckets| == ENTRIES
  {
  }
}
