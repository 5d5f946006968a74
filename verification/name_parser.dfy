/** The loops of cryptomgr_schedule_probe (crypto/cryptomgr.c). */
module NameParser {
  import opened Lists
  import opened Names
  import NameGrammar

  function Prepend(a: seq<Param>, r: Option<seq<Param>>): Option<seq<Param>> {
    if r.None? then None else Some(a + r.value)
  }

  lemma WordStep(s: string, p: nat)
    requires p < |s| && IsWord(s[p])
    ensures Word(s[p..]) == 1 + Word(s[p + 1..])
  {
    assert s[p..][1..] == s[p + 1..];
  }

  /** Past the word characters; whether one of them is not a digit. */
  method SkipWord(s: string, start: nat) returns (p: nat, notnum: bool)
    requires start <= |s|
    ensures start <= p <= |s| && p == start + Word(s[start..]) && !IsWord(At(s, p))
    ensures notnum == !AllDigits(s[start..p]) && AllWord(s[start..p])
  {
    p, notnum := start, false;
    while IsWord(At(s, p))
      invariant start <= p <= |s| && Word(s[start..]) == p - start + Word(s[p..])
      invariant notnum == !AllDigits(s[start..p]) && AllWord(s[start..p])
      decreases |s| - p
    {
      WordStep(s, p);
      assert s[start..p + 1] == s[start..p] + [s[p]];
      DigitsLast(s[start..p], s[p]);
      notnum := notnum || !IsDigit(At(s, p));
      p := p + 1;
    }
  }

  lemma DigitsLast(s: string, c: char)
    ensures AllDigits(s + [c]) <==> AllDigits(s) && IsDigit(c)
  {
    assert (s + [c])[|s|] == c;
    forall i | 0 <= i < |s| && AllDigits(s + [c]) ensures IsDigit(s[i]) {
      assert (s + [c])[i] == s[i];
    }
  }

  /** From an opening parenthesis to the one that closes it. */
  method SkipParens(s: string, start: nat) returns (p: nat, ok: bool)
    requires start < |s|
    ensures var k := Close(s[start + 1..], 0); ok == k.Some? && (ok ==> p == start + 1 + k.value < |s|)
  {
    p, ok := start, true;
    var recursion: nat := 0;
    while true
      invariant start <= p < |s|
      invariant Close(s[start + 1..], 0) == After(p - start, Close(s[p + 1..], recursion))
      decreases |s| - p
    {
      p := p + 1;
      assert p < |s| ==> s[p..][1..] == s[p + 1..];
      if At(s, p) == '\0' { return p, false; }
      if At(s, p) == '(' {
        recursion := recursion + 1;
      } else if At(s, p) == ')' {
        if recursion == 0 { break; }
        recursion := recursion - 1;
      }
    }
  }

  /** The argument at `start`, and where it ends. */
  method NextParam(s: string, start: nat) returns (p: nat, param: Param, ok: bool)
    requires start <= |s|
    ensures var n := ArgLength(s[start..]);
            && ok == (n.Some? && n.value > 0)
            && (ok ==> p == start + n.value <= |s| && param == ParamOf(s[start..p]))
  {
    param, ok := U32(0), false;
    var notnum;
    p, notnum := SkipWord(s, start);
    WordAt(s, start, p);
    if At(s, p) == '(' {
      var closed;
      ghost var open := p;
      p, closed := SkipParens(s, p);
      if !closed { return; }
      notnum := true;
      p := p + 1;
      assert s[start..p][open - start] == '(';
      ParenNotDigits(s[start..p], open - start);
    }
    var len := p - start;
    if len == 0 { return; }
    ok := true;
    param := if notnum then Alg(s[start..p]) else U32(Strtol(s[start..p]));
  }

  lemma WordAt(s: string, start: nat, p: nat)
    requires start <= p <= |s| && p == start + Word(s[start..])
    ensures At(s[start..], p - start) == At(s, p)
    ensures At(s, p) == '(' ==> p < |s| && s[start..][p - start + 1..] == s[p + 1..]
  {
  }

  /** cryptomgr_schedule_probe up to the start of the probing thread; the attributes are
      written to an array of CRYPTO_MAX_ATTRS entries. */
  method ScheduleProbe(name: string) returns (r: Option<(string, seq<Param>)>)
    ensures r == Parse(name)
    ensures NameGrammar.Accepts(name, r)
  {
    NameGrammar.ParseAccepts(name);
    hide NameGrammar.Accepts;
    hide ParseArgs, ArgLength, ParamOf;
    assert name[0..] == name;
    var p, _ := SkipWord(name, 0);
    var len := p;
    if len == 0 || At(name, p) != '(' { return None; }
    var template := name[..len];
    var attrs := new Param[MAX_ATTRS](_ => U32(0));
    var i: nat := 0;
    ghost var all := ParseArgs(name[len + 1..], 0);
    assert all.Some? ==> [] + all.value == all.value;
    while true
      invariant i < MAX_ATTRS && p < |name| && all == Prepend(attrs[..i], ParseArgs(name[p + 1..], i))
      decreases |name| - p
    {
      var start := p + 1;
      var param, ok;
      p, param, ok := NextParam(name, start);
      ArgsStep(name, start, i, attrs[..i]);
      if !ok { return None; }
      ghost var before := attrs[..i];
      attrs[i] := param;
      i := i + 1;
      assert attrs[..i] == before + [param];
      if i >= MAX_ATTRS { return None; }
      if At(name, p) == ')' { break; }
      if At(name, p) != ',' { return None; }
    }
    r := Some((template, attrs[..i]));
  }

  /** One argument of ParseArgs, with what was parsed before. */
  lemma ArgsStep(s: string, start: nat, i: nat, before: seq<Param>)
    requires start <= |s|
    ensures var n, all := ArgLength(s[start..]), Prepend(before, ParseArgs(s[start..], i));
            if n.None? || n.value == 0 then all == None
            else
              var p := start + n.value;
              var now := before + [ParamOf(s[start..p])];
              if i + 1 >= MAX_ATTRS then all == None
              else if At(s, p) == ')' then all == Some(now)
              else if At(s, p) != ',' then all == None
              else p < |s| && all == Prepend(now, ParseArgs(s[p + 1..], i + 1))
  {
    hide ArgLength, ParamOf, ParseArgs;
    ParseIs(s[start..], i);
    var n := ArgLength(s[start..]);
    if n.Some? && n.value > 0 {
      var p := start + n.value;
      Suffix(s, start, n.value);
      if p < |s| {
        var rest := ParseArgs(s[p + 1..], i + 1);
        var param := ParamOf(s[start..p]);
        assert rest.Some? ==> before + ([param] + rest.value) == before + [param] + rest.value;
      }
    }
  }

  lemma Suffix(s: string, start: nat, n: nat)
    requires start + n <= |s|
    ensures s[start..][..n] == s[start..start + n] && At(s[start..], n) == At(s, start + n)
    ensures start + n < |s| ==> n + 1 <= |s[start..]| && s[start..][n + 1..] == s[start + n + 1..]
  {
  }

  /** One step of ParseArgs. */
  lemma ParseIs(s: string, i: nat)
    ensures var n := ArgLength(s);
            ParseArgs(s, i) ==
            if n.None? || n.value == 0 then None
            else if i + 1 >= MAX_ATTRS then None
            else if At(s, n.value) == ')' then Some([ParamOf(s[..n.value])])
            else if At(s, n.value) != ',' then None
            else Prepend([ParamOf(s[..n.value])], ParseArgs(s[n.value + 1..], i + 1))
  {
    hide ArgLength, ParamOf;
  }
}
