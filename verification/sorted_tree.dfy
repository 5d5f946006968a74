/** The red-black trees of requests that the I/O schedulers sort by sector (elv_rb_add,
    elv_rb_del, elv_rb_find, rb_next, rb_prev), as sequences. */
module SortedTree {
  import opened Lists

  /** The fields of a request that a scheduler looks at.  `dir` says which of its trees the
      request belongs to; `time` is its FIFO deadline. */
  datatype Rq<D> = Rq(sector: nat, sectors: nat, dir: D, time: nat)

  predicate Known<D(==)>(rqs: map<nat, Rq<D>>, d: D, t: seq<nat>) { forall x :: x in t ==> x in rqs && rqs[x].dir == d }

  predicate Sorted<D(==)>(rqs: map<nat, Rq<D>>, d: D, t: seq<nat>) {
    && Known(rqs, d, t)
    && forall i, j :: 0 <= i < j < |t| ==> rqs[t[i]].sector < rqs[t[j]].sector
  }

  /** Where elv_rb_add puts a request with this sector. */
  function Place<D(==)>(rqs: map<nat, Rq<D>>, d: D, t: seq<nat>, sector: nat): (k: nat)
    requires Known(rqs, d, t)
    ensures k <= |t| && forall i :: 0 <= i < k ==> rqs[t[i]].sector < sector
    ensures k < |t| ==> rqs[t[k]].sector >= sector
  {
    if t == [] || rqs[t[0]].sector >= sector then 0 else 1 + Place(rqs, d, t[1..], sector)
  }

  /** The request of the tree at this sector (elv_rb_find, and the alias of elv_rb_add). */
  function Find<D(==)>(rqs: map<nat, Rq<D>>, d: D, t: seq<nat>, sector: nat): (r: Option<nat>)
    requires Known(rqs, d, t)
    ensures r.Some? ==> r.value in t && rqs[r.value].sector == sector
  {
    var k := Place(rqs, d, t, sector);
    if k < |t| && rqs[t[k]].sector == sector then Some(t[k]) else None
  }

  /** rb_next */
  function Latter(t: seq<nat>, x: nat): (r: Option<nat>)
    requires x in t
    ensures r.Some? ==> r.value in t
  {
    var k := IndexOf(t, x);
    if k + 1 < |t| then Some(t[k + 1]) else None
  }

  /** rb_prev */
  function Former(t: seq<nat>, x: nat): (r: Option<nat>)
    requires x in t
    ensures r.Some? ==> r.value in t
  {
    var k := IndexOf(t, x);
    if k > 0 then Some(t[k - 1]) else None
  }

  lemma {:induction false} WithoutSubset<T>(s: seq<T>, x: T)
    ensures forall y :: y in Without(s, x) ==> y in s
    ensures |Without(s, x)| == |s| - if x in s then 1 else 0
  {
    if s != [] { WithoutSubset(s[1..], x); }
  }

  lemma SortedDistinct<D>(rqs: map<nat, Rq<D>>, d: D, t: seq<nat>)
    requires Sorted(rqs, d, t)
    ensures Distinct(t)
  {
  }

  lemma RemoveTree<D>(rqs: map<nat, Rq<D>>, d: D, t: seq<nat>, x: nat)
    requires Sorted(rqs, d, t) && x in t
    ensures Sorted(rqs, d, Without(t, x)) && Elems(Without(t, x)) == Elems(t) - {x}
    ensures Latter(t, x).Some? ==> Latter(t, x).value in Elems(t) - {x}
  {
    SortedDistinct(rqs, d, t);
    WithoutIs(t, x);
    WithoutElems(t, x);
    WithoutSubset(t, x);
  }

  lemma InsertTree<D>(rqs: map<nat, Rq<D>>, d: D, t: seq<nat>, x: nat)
    requires Sorted(rqs, d, t) && x in rqs && rqs[x].dir == d && Find(rqs, d, t, rqs[x].sector).None?
    ensures var k := Place(rqs, d, t, rqs[x].sector);
            var u := t[..k] + [x] + t[k..];
            Sorted(rqs, d, u) && Elems(u) == Elems(t) + {x}
  {
    var k := Place(rqs, d, t, rqs[x].sector);
    var u := t[..k] + [x] + t[k..];
    InsertElems(t, k, x);
    assert Known(rqs, d, u) by { assert forall y :: y in u ==> y in Elems(u); }
    InsertSorted(rqs, d, t, k, x);
  }

  lemma InsertSorted<D>(rqs: map<nat, Rq<D>>, d: D, t: seq<nat>, k: nat, x: nat)
    requires Sorted(rqs, d, t) && x in rqs && k <= |t| && Known(rqs, d, t[..k] + [x] + t[k..])
    requires forall i :: 0 <= i < k ==> rqs[t[i]].sector < rqs[x].sector
    requires k < |t| ==> rqs[t[k]].sector > rqs[x].sector
    ensures Sorted(rqs, d, t[..k] + [x] + t[k..])
  {
    var u := t[..k] + [x] + t[k..];
    forall i, j | 0 <= i < j < |u| ensures rqs[u[i]].sector < rqs[u[j]].sector {
      var a, b := if i <= k then i else i - 1, if j <= k then j else j - 1;
      assert (i != k ==> u[i] == t[a]) && (j != k ==> u[j] == t[b]);
    }
  }
}
