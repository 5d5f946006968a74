/** What the parser in cryptomgr_schedule_probe (crypto/cryptomgr.c) accepts, as a grammar:
    every string that it accepts, with what it makes of it, and no other. */
module NameGrammar {
  import opened Lists
  import opened Names

  // ---- the grammar ----

  function Nesting(c: char): int { if c == '(' then 1 else if c == ')' then -1 else 0 }

  function Depth(x: string): int { if x == [] then 0 else Nesting(x[0]) + Depth(x[1..]) }

  /** Between d more parentheses that close and none; no NUL ends the string. */
  predicate Inside(x: string, d: nat) {
    && d + Depth(x) == 0
    && (forall i :: 0 <= i <= |x| ==> d + Depth(x[..i]) >= 0)
    && forall i :: 0 <= i < |x| ==> x[i] != '\0'
  }

  predicate Matched(x: string) { Inside(x, 0) }

  /** The first w characters are a word, and the others a text in parentheses. */
  predicate Group(x: string, w: nat) {
    && w + 1 < |x| && AllWord(x[..w]) && x[w] == '(' && x[|x| - 1] == ')' && Matched(x[w + 1..|x| - 1])
  }

  /** A word, or perhaps a word and a text in parentheses. */
  ghost predicate ArgText(x: string) { x != [] && (AllWord(x) || exists w: nat :: Group(x, w)) }

  /** A number is one written in C, and everything else is the name of an algorithm. */
  predicate Means(x: string, p: Param) { if x != [] && AllDigits(x) then p == U32(Strtol(x)) else p == Alg(x) }

  ghost predicate ArgList(x: string, ps: seq<Param>)
    decreases |ps|, 1
  {
    ps != []
    && if |ps| == 1 then ArgText(x) && Means(x, ps[0]) else exists n: nat :: n < |x| && ArgsSplit(x, n, ps)
  }

  /** A comma at n ends the first argument. */
  ghost predicate ArgsSplit(x: string, n: nat, ps: seq<Param>)
    requires n < |x| && |ps| > 1
    decreases |ps|, 0
  {
    x[n] == ',' && ArgText(x[..n]) && Means(x[..n], ps[0]) && ArgList(x[n + 1..], ps[1..])
  }

  /** A template and between 1 and 31 arguments; what follows them does not matter. */
  ghost predicate Instance(s: string, template: string, ps: seq<Param>) {
    && template != [] && AllWord(template) && 0 < |ps| < 32
    && exists x: string, rest: string :: s == template + "(" + x + ")" + rest && ArgList(x, ps)
  }

  // ---- parentheses ----

  lemma DepthStep(x: string)
    requires x != []
    ensures forall i :: 1 <= i <= |x| ==> Depth(x[..i]) == Nesting(x[0]) + Depth(x[1..][..i - 1])
  {
    forall i | 1 <= i <= |x| ensures Depth(x[..i]) == Nesting(x[0]) + Depth(x[1..][..i - 1]) {
      assert x[..i][1..] == x[1..][..i - 1];
    }
  }

  lemma InsideStep(x: string, d: nat)
    requires x != []
    ensures Inside(x, d) <==> x[0] != '\0' && d + Nesting(x[0]) >= 0 && Inside(x[1..], d + Nesting(x[0]))
  {
    DepthStep(x);
    var e, y := d + Nesting(x[0]), x[1..];
    assert x[..0] == [] && y[..0] == [];
    if e >= 0 && Inside(y, e) && x[0] != '\0' {
      forall i | 0 <= i <= |x| ensures d + Depth(x[..i]) >= 0 {
        if i > 0 { assert e + Depth(y[..i - 1]) >= 0; }
      }
    }
    if Inside(x, d) {
      forall i | 0 <= i <= |y| ensures e + Depth(y[..i]) >= 0 { assert d + Depth(x[..i + 1]) >= 0; }
      assert forall i :: 0 <= i < |y| ==> y[i] == x[i + 1];
    }
  }

  /** Close finds the parenthesis that closes, wherever it is. */
  lemma {:induction false} CloseIs(s: string, d: nat, k: nat)
    ensures Close(s, d) == Some(k) <==> k < |s| && s[k] == ')' && Inside(s[..k], d)
    decreases |s|
  {
    hide Inside;
    if s == [] {
    } else if k == 0 {
      NothingInside(d);
      assert s[..0] == [];
    } else if k < |s| {
      assert s[..k][1..] == s[1..][..k - 1];
      InsideStep(s[..k], d);
      if d + Nesting(s[0]) >= 0 { CloseIs(s[1..], d + Nesting(s[0]), k - 1); }
    }
  }

  lemma NothingInside(d: nat)
    ensures Inside("", d) <==> d == 0
  {
    assert ""[..0] == "";
  }

  // ---- one argument ----

  predicate Ends(c: char) { c == ',' || c == ')' }

  lemma {:induction false} WordIs(s: string)
    ensures AllWord(s[..Word(s)]) && (Word(s) < |s| ==> !IsWord(s[Word(s)]))
  {
    if s != [] && IsWord(s[0]) {
      WordIs(s[1..]);
      assert forall i :: 1 <= i < Word(s) ==> s[i] == s[1..][..Word(s[1..])][i - 1];
    }
  }

  lemma WordAt(s: string, w: nat)
    requires w <= |s| && AllWord(s[..w]) && (w < |s| ==> !IsWord(s[w]))
    ensures Word(s) == w
  {
    WordStops(s[..w], s[w..]);
    assert s[..w] + s[w..] == s;
  }

  lemma ScannedIsText(s: string, n: nat)
    requires ArgLength(s) == Some(n) && 0 < n <= |s|
    ensures ArgText(s[..n])
  {
    var w := Word(s);
    WordIs(s);
    hide AllWord, Word, Matched;
    if At(s, w) == '(' {
      var k := Close(s[w + 1..], 0).value;
      CloseIs(s[w + 1..], 0, k);
      var x := s[..n];
      assert x[..w] == s[..w] && x[w + 1..|x| - 1] == s[w + 1..][..k];
      assert Matched(s[w + 1..][..k]) by { MatchedIs(s[w + 1..][..k]); }
      assert Group(x, w);
    }
  }

  lemma MatchedIs(x: string)
    ensures Matched(x) <==> Inside(x, 0)
  {
  }

  lemma TextIsScanned(s: string, n: nat)
    requires n < |s| && ArgText(s[..n]) && Ends(s[n])
    ensures ArgLength(s) == Some(n)
  {
    var x := s[..n];
    if AllWord(x) {
      WordAt(s, n);
    } else {
      var w: nat :| Group(x, w);
      assert x[..w] == s[..w];
      WordAt(s, w);
      hide AllWord, Word, Matched;
      MatchedIs(x[w + 1..n - 1]);
      assert x[w + 1..n - 1] == s[w + 1..][..n - w - 2];
      CloseIs(s[w + 1..], 0, n - w - 2);
    }
  }

  lemma ParamMeans(x: string, p: Param)
    requires x != []
    ensures ParamOf(x) == p <==> Means(x, p)
  {
  }

  // ---- the list of arguments ----

  /** s begins with such arguments and the parenthesis that closes. */
  ghost predicate Listed(s: string, ps: seq<Param>) {
    exists x: string, rest: string :: s == x + ")" + rest && ArgList(x, ps)
  }

  lemma ListedOne(s: string, ps: seq<Param>)
    requires |ps| == 1
    ensures Listed(s, ps) <==>
            exists n: nat :: 0 < n < |s| && s[n] == ')' && ArgText(s[..n]) && Means(s[..n], ps[0])
  {
    hide ArgText, Means;
    forall x: string, rest: string | s == x + ")" + rest ensures s[|x|] == ')' && s[..|x|] == x {
    }
    if Listed(s, ps) {
      var x: string, rest: string :| s == x + ")" + rest && ArgList(x, ps);
      TextNonempty(x);
      assert 0 < |x| < |s| && s[|x|] == ')' && ArgText(s[..|x|]) && Means(s[..|x|], ps[0]);
    }
    if n: nat :| 0 < n < |s| && s[n] == ')' && ArgText(s[..n]) && Means(s[..n], ps[0]) {
      assert s == s[..n] + ")" + s[n + 1..];
      assert ArgList(s[..n], ps);
    }
  }

  lemma TextNonempty(x: string)
    ensures ArgText(x) ==> x != []
  {
  }

  /** The n characters in front are the first argument. */
  ghost predicate FirstOf(s: string, ps: seq<Param>, n: nat)
    requires ps != []
  {
    && 0 < n < |s| && s[n] == ',' && ArgText(s[..n]) && Means(s[..n], ps[0]) && Listed(s[n + 1..], ps[1..])
  }

  lemma HasSplit(x: string, ps: seq<Param>)
    requires |ps| > 1 && ArgList(x, ps)
    ensures exists n: nat :: n < |x| && ArgsSplit(x, n, ps)
  {
  }

  lemma ListedHasFirst(s: string, ps: seq<Param>)
    requires |ps| > 1 && Listed(s, ps)
    ensures exists n: nat :: FirstOf(s, ps, n)
  {
    hide ArgText, Means;
    var x: string, rest: string :| s == x + ")" + rest && ArgList(x, ps);
    HasSplit(x, ps);
    var n: nat :| n < |x| && ArgsSplit(x, n, ps);
    TextNonempty(x[..n]);
    assert s[..n] == x[..n] && s[n + 1..] == x[n + 1..] + ")" + rest;
    assert FirstOf(s, ps, n);
  }

  lemma FirstIsListed(s: string, ps: seq<Param>, n: nat)
    requires |ps| > 1 && FirstOf(s, ps, n)
    ensures Listed(s, ps)
  {
    hide ArgText, Means;
    var u := s[n + 1..];
    var z: string, rest: string :| u == z + ")" + rest && ArgList(z, ps[1..]);
    var x := s[..n + 1] + z;
    assert s == s[..n + 1] + u;
    assert s == x + ")" + rest;
    assert x[..n] == s[..n] && x[n + 1..] == z;
    assert ArgsSplit(x, n, ps);
  }

  lemma {:induction false} ParseArgsIs(s: string, i: nat, ps: seq<Param>)
    requires i < 32
    ensures ParseArgs(s, i) == Some(ps) <==> ps != [] && i + |ps| < 32 && Listed(s, ps)
    decreases |s|
  {
    hide ArgText, Means, ArgLength, Listed, ParamOf;
    if ParseArgs(s, i) == Some(ps) {
      var n := ArgLength(s).value;
      ScannedIsText(s, n);
      ParamMeans(s[..n], ps[0]);
      if At(s, n) == ')' {
        ListedOne(s, ps);
      } else {
        var rest := ParseArgs(s[n + 1..], i + 1).value;
        assert ps[1..] == rest;
        ParseArgsIs(s[n + 1..], i + 1, rest);
        FirstIsListed(s, ps, n);
      }
    }
    if ps != [] && i + |ps| < 32 && Listed(s, ps) {
      if |ps| == 1 {
        ListedOne(s, ps);
        var n: nat :| 0 < n < |s| && s[n] == ')' && ArgText(s[..n]) && Means(s[..n], ps[0]);
        TextIsScanned(s, n);
        ParamMeans(s[..n], ps[0]);
        assert ps == [ps[0]];
      } else {
        ListedHasFirst(s, ps);
        var n: nat :| FirstOf(s, ps, n);
        TextIsScanned(s, n);
        ParamMeans(s[..n], ps[0]);
        ParseArgsIs(s[n + 1..], i + 1, ps[1..]);
        assert ps == [ps[0]] + ps[1..];
      }
    }
  }

  /** The parser accepts the strings of the grammar and no others. */
  lemma ParseIs(s: string, template: string, ps: seq<Param>)
    ensures Parse(s) == Some((template, ps)) <==> Instance(s, template, ps)
  {
    hide ParseArgs, ArgList, AllWord, Word;
    var w := Word(s);
    WordIs(s);
    if Parse(s) == Some((template, ps)) {
      ParseArgsIs(s[w + 1..], 0, ps);
      var x: string, rest: string :| s[w + 1..] == x + ")" + rest && ArgList(x, ps);
      assert s == template + "(" + x + ")" + rest;
    }
    if Instance(s, template, ps) {
      var x: string, rest: string :| s == template + "(" + x + ")" + rest && ArgList(x, ps);
      var n := |template|;
      assert s[..n] == template && s[n] == '(' && s[n + 1..] == x + ")" + rest;
      WordAt(s, n);
      assert Listed(s[n + 1..], ps);
      ParseArgsIs(s[n + 1..], 0, ps);
    }
  }

  /** r is what s is according to the grammar, or None if it is nothing. */
  ghost predicate Accepts(s: string, r: Option<(string, seq<Param>)>) {
    forall template: string, ps: seq<Param> :: r == Some((template, ps)) <==> Instance(s, template, ps)
  }

  lemma ParseAccepts(s: string)
    ensures Accepts(s, Parse(s))
  {
    hide Parse, Instance;
    forall template: string, ps: seq<Param> ensures Parse(s) == Some((template, ps)) <==> Instance(s, template, ps) {
      ParseIs(s, template, ps);
    }
  }
}
