/** Linked lists without repeated entries, as sequences. */
module Lists {

  datatype Option<T> = None | Some(value: T)

  function Elems<T>(s: seq<T>): set<T> { set x | x in s }

  predicate Distinct<T(==)>(s: seq<T>) { forall i, j :: 0 <= i < j < |s| ==> s[i] != s[j] }

  /** list_del: the list without x. */
  function Without<T(==)>(s: seq<T>, x: T): seq<T> {
    if s == [] then [] else if s[0] == x then s[1..] else [s[0]] + Without(s[1..], x)
  }

  function IndexOf<T(==)>(s: seq<T>, x: T): (k: nat)
    requires x in s
    ensures k < |s| && s[k] == x && x !in s[..k]
  {
    if s[0] == x then 0 else 1 + IndexOf(s[1..], x)
  }

  lemma {:induction false} WithoutIs<T>(s: seq<T>, x: T)
    requires x in s
    ensures var k := IndexOf(s, x); Without(s, x) == s[..k] + s[k + 1..]
  {
    if s[0] != x {
      WithoutIs(s[1..], x);
      var k := IndexOf(s[1..], x);
      assert s[..k + 1] == [s[0]] + s[1..][..k];
      assert s[k + 2..] == s[1..][k + 1..];
    }
  }

  lemma {:induction false} WithoutNothing<T>(s: seq<T>, x: T)
    requires x !in s
    ensures Without(s, x) == s
  {
    if s != [] {
      WithoutNothing(s[1..], x);
      assert s == [s[0]] + s[1..];
    }
  }

  lemma ElemsAppend<T>(s: seq<T>, t: seq<T>)
    ensures Elems(s + t) == Elems(s) + Elems(t)
  {
    forall y ensures y in s + t <==> y in s || y in t {
    }
  }

  /** Removing an entry of a list without repetitions removes it everywhere. */
  lemma WithoutElems<T>(s: seq<T>, x: T)
    requires Distinct(s)
    ensures Distinct(Without(s, x)) && Elems(Without(s, x)) == Elems(s) - {x}
    ensures |Without(s, x)| == |s| - if x in s then 1 else 0
  {
    if x in s {
      WithoutIs(s, x);
      CutElems(s, IndexOf(s, x));
    } else {
      WithoutNothing(s, x);
    }
    hide Without;
  }

  lemma CutElems<T>(s: seq<T>, k: nat)
    requires Distinct(s) && k < |s|
    ensures Distinct(s[..k] + s[k + 1..]) && Elems(s[..k] + s[k + 1..]) == Elems(s) - {s[k]}
  {
    var a, b := s[..k], s[k + 1..];
    assert s == a + [s[k]] + b;
    ElemsAppend(a, [s[k]]);
    ElemsAppend(a + [s[k]], b);
    ElemsAppend(a, b);
    assert s[k] !in a && s[k] !in b;
    assert Elems([s[k]]) == {s[k]};
    assert Elems(s) == Elems(a) + {s[k]} + Elems(b);
  }

  lemma {:induction false} WithoutOther<T>(s: seq<T>, x: T, y: T)
    requires x != y && y in s
    ensures y in Without(s, x)
  {
    if s[0] != x && s[0] != y { WithoutOther(s[1..], x, y); }
  }

  /** list_move: x goes right behind y. */
  function MoveBehind<T(==)>(s: seq<T>, x: T, y: T): seq<T>
    requires x != y && y in s
  {
    WithoutOther(s, x, y);
    var t := Without(s, x);
    var k := IndexOf(t, y);
    t[..k + 1] + [x] + t[k + 1..]
  }

  lemma InsertDistinct<T>(s: seq<T>, k: nat, x: T)
    requires Distinct(s) && k <= |s| && x !in s
    ensures Distinct(s[..k] + [x] + s[k..])
  {
    var u := s[..k] + [x] + s[k..];
    forall i, j | 0 <= i < j < |u| ensures u[i] != u[j] {
      var a, b := if i < k then i else i - 1, if j < k then j else j - 1;
      assert (i != k ==> u[i] == s[a]) && (j != k ==> u[j] == s[b]);
    }
  }

  lemma InsertElems<T>(t: seq<T>, k: nat, x: T)
    requires k <= |t|
    ensures Elems(t[..k] + [x] + t[k..]) == Elems(t) + {x}
  {
    ElemsAppend(t[..k], [x]);
    ElemsAppend(t[..k] + [x], t[k..]);
    ElemsAppend(t[..k], t[k..]);
    assert t[..k] + t[k..] == t;
  }

  lemma MoveBehindElems<T>(f: seq<T>, x: T, y: T)
    requires Distinct(f) && x != y && x in f && y in f
    ensures Distinct(MoveBehind(f, x, y)) && Elems(MoveBehind(f, x, y)) == Elems(f)
  {
    WithoutElems(f, x);
    WithoutOther(f, x, y);
    var g := Without(f, x);
    var k := IndexOf(g, y);
    hide Without, Distinct;
    assert x !in g by { assert x !in Elems(g); }
    InsertElems(g, k + 1, x);
    InsertDistinct(g, k + 1, x);
    assert x in Elems(f);
  }

  lemma WithoutMembers<T>(s: seq<T>, x: T)
    requires Distinct(s)
    ensures Distinct(Without(s, x)) && forall y :: y in Without(s, x) <==> y in s && y != x
  {
    WithoutElems(s, x);
    hide Distinct, Without;
    forall y ensures y in Without(s, x) <==> y in s && y != x {
      assert y in Elems(Without(s, x)) <==> y in Elems(s) - {x};
    }
  }

  lemma AppendDistinct<T>(a: seq<T>, b: seq<T>)
    requires Distinct(a) && Distinct(b) && forall x :: x in a ==> x !in b
    ensures Distinct(a + b)
  {
    var c := a + b;
    forall i, j | 0 <= i < j < |c| ensures c[i] != c[j] {
      if i < |a| <= j { assert a[i] in a && b[j - |a|] in b; }
    }
  }

  /** The list without some entries, in the same order. */
  function Keep<T(==)>(s: seq<T>, gone: set<T>): seq<T> {
    if s == [] then [] else if s[0] in gone then Keep(s[1..], gone) else [s[0]] + Keep(s[1..], gone)
  }

  lemma {:induction false} KeepIs<T>(s: seq<T>, gone: set<T>)
    ensures forall x :: x in Keep(s, gone) <==> x in s && x !in gone
    ensures Distinct(s) ==> Distinct(Keep(s, gone))
  {
    if s != [] {
      KeepIs(s[1..], gone);
      if Distinct(s) && s[0] !in gone { AppendDistinct([s[0]], Keep(s[1..], gone)); }
    }
  }

  lemma {:induction false} KeepAppend<T>(s: seq<T>, t: seq<T>, gone: set<T>)
    ensures Keep(s + t, gone) == Keep(s, gone) + Keep(t, gone)
  {
    if s == [] {
      assert s + t == t;
    } else {
      assert (s + t)[1..] == s[1..] + t;
      KeepAppend(s[1..], t, gone);
    }
  }

  lemma {:induction false} KeepNothing<T>(s: seq<T>)
    ensures Keep(s, {}) == s
  {
    if s != [] {
      KeepNothing(s[1..]);
      assert s == [s[0]] + s[1..];
    }
  }

  lemma {:induction false} KeepTwice<T>(s: seq<T>, a: set<T>, b: set<T>)
    requires a <= b
    ensures Keep(Keep(s, a), b) == Keep(s, b)
  {
    if s != [] {
      KeepTwice(s[1..], a, b);
      if s[0] !in a {
        assert ([s[0]] + Keep(s[1..], a))[1..] == Keep(s[1..], a);
      }
    }
  }

  lemma {:induction false} KeepWithout<T>(s: seq<T>, x: T)
    requires Distinct(s)
    ensures Without(s, x) == Keep(s, {x})
  {
    if s != [] {
      if s[0] == x {
        assert x !in s[1..];
        KeepAll(s[1..], x);
      } else {
        KeepWithout(s[1..], x);
      }
    }
  }

  lemma {:induction false} KeepAll<T>(s: seq<T>, x: T)
    requires x !in s
    ensures Keep(s, {x}) == s
  {
    if s != [] {
      KeepAll(s[1..], x);
      assert s == [s[0]] + s[1..];
    }
  }

  // ---- list_move and list_del ----

  lemma PlaceIs<T>(u: seq<T>, k: nat, y: T)
    requires k < |u| && u[k] == y && y !in u[..k]
    ensures y in u && IndexOf(u, y) == k
  {
    var j := IndexOf(u, y);
    assert forall i :: 0 <= i < k ==> u[..k][i] != y;
    assert forall i :: 0 <= i < j ==> u[..j][i] != y;
  }

  lemma CutOne<T>(a: seq<T>, y: T, b: seq<T>)
    requires y !in a
    ensures Without(a + [y] + b, y) == a + b
  {
    var u := a + [y] + b;
    assert u[..|a|] == a && u[|a| + 1..] == b;
    PlaceIs(u, |a|, y);
    WithoutIs(u, y);
    hide Without, IndexOf;
  }

  lemma Regroup<T>(rest: seq<T>, k: nat, x: T, y: T)
    requires k < |rest| && rest[k] == y
    ensures rest[..k + 1] + [x] + rest[k + 1..] == rest[..k] + [y] + ([x] + rest[k + 1..])
  {
    assert rest[..k + 1] == rest[..k] + [y];
  }

  lemma Replace<T>(rest: seq<T>, k: nat, x: T)
    requires k < |rest|
    ensures rest[k := x] == rest[..k] + ([x] + rest[k + 1..])
  {
  }

  /** Moving x behind y and dropping y puts x in the place of y. */
  lemma SwapPlaces<T>(rest: seq<T>, x: T, y: T)
    requires y in rest
    ensures var k := IndexOf(rest, y);
            Without(rest[..k + 1] + [x] + rest[k + 1..], y) == rest[k := x]
  {
    var k := IndexOf(rest, y);
    SwapAt(rest, k, x, y);
  }

  lemma SwapAt<T>(rest: seq<T>, k: nat, x: T, y: T)
    requires k < |rest| && rest[k] == y && y !in rest[..k]
    ensures Without(rest[..k + 1] + [x] + rest[k + 1..], y) == rest[k := x]
  {
    hide Without;
    var a, b := rest[..k], [x] + rest[k + 1..];
    assert rest[..k + 1] + [x] + rest[k + 1..] == a + [y] + b by { Regroup(rest, k, x, y); }
    assert rest[k := x] == a + b by { Replace(rest, k, x); }
    CutOne(a, y, b);
  }

  /** list_move, and then y is taken out. */
  lemma MovedAndCut<T>(f: seq<T>, x: T, y: T)
    requires x != y && y in f
    ensures var rest := Without(f, x);
            y in rest && Without(MoveBehind(f, x, y), y) == rest[IndexOf(rest, y) := x]
  {
    WithoutOther(f, x, y);
    SwapPlaces(Without(f, x), x, y);
    hide Without, IndexOf;
  }
}
