/** The names of template instances: the parser in cryptomgr_schedule_probe
    (crypto/cryptomgr.c) undoes the printers of crypto/algapi.c and crypto/authenc.c. */
module Names {

  import opened Lists

  const MAX_ATTRS := 32
  const MAX_ALG_NAME := 64
  const W32: nat := 0x1_0000_0000

  // ---- characters, as in lib/ctype.c ----

  predicate IsDigit(c: char) { '0' <= c <= '9' }

  predicate IsAlnum(c: char) {
    IsDigit(c) || 'a' <= c <= 'z' || 'A' <= c <= 'Z' || (192 <= c as int <= 255 && c as int != 215 && c as int != 247)
  }

  predicate IsWord(c: char) { IsAlnum(c) || c == '-' || c == '_' }

  predicate AllWord(s: string) { forall i :: 0 <= i < |s| ==> IsWord(s[i]) }

  predicate AllDigits(s: string) { forall i :: 0 <= i < |s| ==> IsDigit(s[i]) }

  // ---- numbers ----

  function Digit(d: nat): (c: char)
    requires d < 10
    ensures IsDigit(c)
  {
    '0' + d as char
  }

  function Value(c: char): nat
    requires IsDigit(c)
  {
    c as nat - 48
  }

  /** %u */
  function Decimal(n: nat): (s: string)
    ensures s != [] && AllDigits(s)
  {
    if n < 10 then [Digit(n)] else Decimal(n / 10) + [Digit(n % 10)]
  }

  /** The digits below the base, from the left; `acc` is what came before. */
  function Digits(s: string, base: nat, acc: nat): nat
    requires AllDigits(s)
  {
    if s == [] || Value(s[0]) >= base then acc else Digits(s[1..], base, acc * base + Value(s[0]))
  }

  /** simple_strtol with base 0 on digits: a leading 0 means octal.  The result is stored in
      32 bits. */
  function Strtol(s: string): nat
    requires s != [] && AllDigits(s)
  {
    (if s[0] == '0' then Digits(s[1..], 8, 0) else Digits(s, 10, 0)) % W32
  }

  // ---- names ----

  datatype Arg = Number(n: nat) | Named(name: Name)
  datatype Name = Leaf(id: string) | Inst(template: string, args: seq<Arg>)

  function Print(name: Name): string {
    match name
    case Leaf(id) => id
    case Inst(t, args) => t + "(" + PrintArgs(args) + ")"
  }

  function PrintArg(arg: Arg): string {
    match arg
    case Number(n) => Decimal(n)
    case Named(name) => Print(name)
  }

  function PrintArgs(args: seq<Arg>): string {
    if args == [] then "" else if |args| == 1 then PrintArg(args[0]) else PrintArg(args[0]) + "," + PrintArgs(args[1..])
  }

  /** Identifiers are made of word characters, and numbers have 32 bits. */
  predicate Printable(name: Name) {
    match name
    case Leaf(id) => id != [] && AllWord(id)
    case Inst(t, args) => t != [] && AllWord(t) && forall i :: 0 <= i < |args| ==> PrintableArg(args[i])
  }

  predicate PrintableArg(arg: Arg) {
    match arg
    case Number(n) => n < W32
    case Named(name) => Printable(name)
  }

  // ---- the parser ----

  datatype Param = Alg(name: string) | U32(num: nat)

  /** How many word characters there are at the front. */
  function Word(s: string): (n: nat)
    ensures n <= |s|
  {
    if s == [] || !IsWord(s[0]) then 0 else 1 + Word(s[1..])
  }

  /** Where the parenthesis closes that was opened before s; `depth` more are open. */
  function Close(s: string, depth: nat): (k: Option<nat>)
    ensures k.Some? ==> k.value < |s|
  {
    if s == [] || s[0] == '\0' then None
    else if s[0] == ')' && depth == 0 then Some(0)
    else
      var k := Close(s[1..], if s[0] == '(' then depth + 1 else if s[0] == ')' then depth - 1 else depth);
      if k.None? then None else Some(1 + k.value)
  }

  function At(s: string, p: nat): char { if p < |s| then s[p] else '\0' }

  /** The length of the argument at the front, if its parentheses are closed. */
  function ArgLength(s: string): (n: Option<nat>)
    ensures n.Some? ==> n.value <= |s|
  {
    var w := Word(s);
    if At(s, w) != '(' then Some(w)
    else
      var k := Close(s[w + 1..], 0);
      if k.None? then None else Some(w + 1 + k.value + 1)
  }

  function ParamOf(s: string): Param
    requires s != []
  {
    if AllDigits(s) then U32(Strtol(s)) else Alg(s)
  }

  /** The arguments from s on, when `i` have been seen. */
  function ParseArgs(s: string, i: nat): Option<seq<Param>> {
    var n := ArgLength(s);
    if n.None? || n.value == 0 then None
    else
      var param := ParamOf(s[..n.value]);
      if i + 1 >= MAX_ATTRS then None
      else if At(s, n.value) == ')' then Some([param])
      else if At(s, n.value) != ',' then None
      else
        var rest := ParseArgs(s[n.value + 1..], i + 1);
        if rest.None? then None else Some([param] + rest.value)
  }

  function Parse(s: string): Option<(string, seq<Param>)> {
    var w := Word(s);
    if w == 0 || At(s, w) != '(' then None
    else
      var args := ParseArgs(s[w + 1..], 0);
      if args.None? then None else Some((s[..w], args.value))
  }

  // ---- the decimal numbers ----

  lemma {:induction false} DecimalValue(n: nat)
    ensures var s := Decimal(n);
            && Digits(s, 10, 0) == n && (n > 0 ==> s[0] != '0')
  {
    if n >= 10 {
      DecimalValue(n / 10);
      DigitsAppend(Decimal(n / 10), Digit(n % 10), 0);
    } else {
      assert Digits([Digit(n)][1..], 10, n) == n;
    }
  }

  lemma {:induction false} DigitsAppend(s: string, c: char, acc: nat)
    requires AllDigits(s) && IsDigit(c)
    ensures AllDigits(s + [c]) && Digits(s + [c], 10, acc) == Digits(s, 10, acc) * 10 + Value(c)
  {
    if s == [] {
      assert [] + [c] == [c] && Digits([c][1..], 10, acc * 10 + Value(c)) == acc * 10 + Value(c);
    } else {
      assert (s + [c])[1..] == s[1..] + [c];
      DigitsAppend(s[1..], c, acc * 10 + Value(s[0]));
    }
  }

  /** A decimal number of any length is taken modulo 2^32. */
  lemma DecimalBack(n: nat)
    ensures Strtol(Decimal(n)) == n % 0x1_0000_0000
  {
    DecimalValue(n);
    if n == 0 { assert Decimal(0) == "0" && Digits("0"[1..], 8, 0) == 0; }
  }

  /** A printed number is read back, although strtol would take a leading 0 for octal. */
  lemma NumberBack(n: nat)
    requires n < W32
    ensures ParamOf(Decimal(n)) == U32(n)
  {
    DecimalValue(n);
    if n == 0 { assert Decimal(0) == "0" && Digits("0"[1..], 8, 0) == 0; }
  }

  /** %o */
  function Octal(n: nat): (s: string)
    ensures s != [] && AllDigits(s)
  {
    if n < 8 then [Digit(n)] else Octal(n / 8) + [Digit(n % 8)]
  }

  lemma {:induction false} OctalAppend(s: string, c: char, acc: nat)
    requires AllDigits(s) && IsDigit(c) && Value(c) < 8 && forall i :: 0 <= i < |s| ==> Value(s[i]) < 8
    ensures AllDigits(s + [c]) && Digits(s + [c], 8, acc) == Digits(s, 8, acc) * 8 + Value(c)
  {
    if s == [] {
      assert [] + [c] == [c] && Digits([c][1..], 8, acc * 8 + Value(c)) == acc * 8 + Value(c);
    } else {
      assert (s + [c])[1..] == s[1..] + [c];
      OctalAppend(s[1..], c, acc * 8 + Value(s[0]));
    }
  }

  lemma {:induction false} OctalValue(n: nat)
    ensures var s := Octal(n);
            Digits(s, 8, 0) == n && forall i :: 0 <= i < |s| ==> Value(s[i]) < 8
  {
    if n >= 8 {
      OctalValue(n / 8);
      OctalAppend(Octal(n / 8), Digit(n % 8), 0);
    } else {
      assert Digits([Digit(n)][1..], 8, n) == n;
    }
  }

  /** A number with a leading 0 is octal, of any length modulo 2^32, and ends before a digit
      8 or 9. */
  lemma OctalBack(n: nat, t: string)
    requires AllDigits(t) && (t == [] || Value(t[0]) >= 8)
    ensures AllDigits("0" + Octal(n) + t) && Strtol("0" + Octal(n) + t) == n % 0x1_0000_0000
  {
    var s := "0" + Octal(n) + t;
    assert s[1..] == Octal(n) + t;
    OctalValue(n);
    OctalEnds(Octal(n), t, 0);
  }

  lemma {:induction false} OctalEnds(s: string, t: string, acc: nat)
    requires AllDigits(s) && AllDigits(t) && (t == [] || Value(t[0]) >= 8)
    requires forall i :: 0 <= i < |s| ==> Value(s[i]) < 8
    ensures AllDigits(s + t) && Digits(s + t, 8, acc) == Digits(s, 8, acc)
  {
    if s == [] {
      assert s + t == t;
    } else {
      assert (s + t)[1..] == s[1..] + t;
      OctalEnds(s[1..], t, acc * 8 + Value(s[0]));
    }
  }

  // ---- scanning printed text ----

  lemma {:induction false} WordStops(id: string, t: string)
    requires AllWord(id) && (t == [] || !IsWord(t[0]))
    ensures Word(id + t) == |id|
  {
    if id == [] {
      assert id + t == t;
    } else {
      assert (id + t)[1..] == id[1..] + t;
      WordStops(id[1..], t);
    }
  }

  /** Text without parentheses, or with matching ones, is passed over. */
  ghost predicate Balanced(x: string) {
    forall t: string, d: nat :: Close(x + t, d) == After(|x|, Close(t, d))
  }

  function After(n: nat, k: Option<nat>): Option<nat> { if k.None? then None else Some(n + k.value) }

  lemma {:induction false} WordBalanced(x: string)
    requires AllWord(x)
    ensures Balanced(x)
  {
    forall t: string, d: nat ensures Close(x + t, d) == After(|x|, Close(t, d)) {
      if x == [] {
        assert x + t == t;
      } else {
        assert (x + t)[1..] == x[1..] + t;
        WordBalanced(x[1..]);
      }
    }
  }

  lemma CommaBalanced()
    ensures Balanced(",")
  {
    forall t: string, d: nat ensures Close("," + t, d) == After(1, Close(t, d)) {
      assert ("," + t)[1..] == t;
    }
  }

  lemma BothBalanced(x: string, y: string)
    requires Balanced(x) && Balanced(y)
    ensures Balanced(x + y)
  {
    forall t: string, d: nat ensures Close(x + y + t, d) == After(|x + y|, Close(t, d)) {
      assert x + y + t == x + (y + t);
    }
  }

  lemma ClosedBalanced(x: string)
    requires Balanced(x)
    ensures Balanced("(" + x + ")")
  {
    forall t: string, d: nat ensures Close("(" + x + ")" + t, d) == After(|x| + 2, Close(t, d)) {
      var y := "(" + x + ")" + t;
      assert y[1..] == x + (")" + t);
      assert (")" + t)[1..] == t;
    }
  }

  lemma {:induction false} PrintBalanced(name: Name)
    requires Printable(name)
    ensures Balanced(Print(name))
    decreases name, 0
  {
    hide Balanced, AllWord;
    match name
    case Leaf(id) => WordBalanced(id);
    case Inst(t, args) =>
      ArgsBalanced(args);
      WordBalanced(t);
      ClosedBalanced(PrintArgs(args));
      BothBalanced(t, "(" + PrintArgs(args) + ")");
      assert Print(name) == t + ("(" + PrintArgs(args) + ")");
  }

  lemma {:induction false} ArgsBalanced(args: seq<Arg>)
    requires forall i :: 0 <= i < |args| ==> PrintableArg(args[i])
    ensures Balanced(PrintArgs(args))
    decreases args, 1
  {
    hide Balanced, AllWord;
    if args == [] {
      NothingWord();
      WordBalanced("");
    } else {
      ArgBalanced(args[0]);
      if |args| > 1 {
        ArgsBalanced(args[1..]);
        CommaBalanced();
        BothBalanced(PrintArg(args[0]), ",");
        BothBalanced(PrintArg(args[0]) + ",", PrintArgs(args[1..]));
      }
    }
  }

  lemma {:induction false} ArgBalanced(arg: Arg)
    requires PrintableArg(arg)
    ensures Balanced(PrintArg(arg))
    decreases arg, 0
  {
    hide Balanced;
    match arg
    case Number(n) => DigitsWord(Decimal(n)); WordBalanced(Decimal(n));
    case Named(name) => PrintBalanced(name);
  }

  lemma NothingWord()
    ensures AllWord("")
  {
  }

  lemma DigitsWord(s: string)
    requires AllDigits(s)
    ensures AllWord(s)
  {
  }

  // ---- the parser undoes the printers ----

  /** What the parser shall return for an argument. */
  function Expected(arg: Arg): Param {
    match arg
    case Number(n) => U32(n)
    case Named(name) => Alg(Print(name))
  }

  function ExpectedAll(args: seq<Arg>): (r: seq<Param>)
    ensures |r| == |args|
  {
    seq(|args|, i requires 0 <= i < |args| => Expected(args[i]))
  }

  /** The name of an algorithm must not look like a number. */
  predicate NotANumber(arg: Arg) { arg.Named? && arg.name.Leaf? ==> !AllDigits(arg.name.id) }

  predicate AllNamed(args: seq<Arg>) { forall k :: 0 <= k < |args| ==> NotANumber(args[k]) }

  lemma ArgScanned(arg: Arg, t: string)
    requires PrintableArg(arg) && t != [] && (t[0] == ',' || t[0] == ')')
    ensures var s := PrintArg(arg); s != [] && ArgLength(s + t) == Some(|s|)
  {
    var s := PrintArg(arg);
    match arg
    case Number(n) => DigitsWord(Decimal(n)); WordStops(Decimal(n), t);
    case Named(Leaf(id)) => WordStops(id, t);
    case Named(Inst(id, args)) =>
      ArgsBalanced(args);
      ParensScanned(id, PrintArgs(args), t);
      assert s == id + "(" + PrintArgs(args) + ")";
  }

  lemma ParensScanned(id: string, x: string, t: string)
    requires AllWord(id) && Balanced(x)
    ensures ArgLength(id + "(" + x + ")" + t) == Some(|id| + |x| + 2)
  {
    var s, u := id + "(" + x + ")" + t, "(" + x + ")" + t;
    assert s == id + u;
    WordStops(id, u);
    assert s[|id| + 1..] == x + (")" + t);
    assert Close(x + (")" + t), 0) == After(|x|, Close(")" + t, 0));
    hide Balanced, AllWord, Word;
    assert Close(")" + t, 0) == Some(0);
  }

  lemma ParenNotDigits(s: string, i: nat)
    requires i < |s| && s[i] == '('
    ensures !AllDigits(s)
  {
  }

  lemma ArgClassified(arg: Arg)
    requires PrintableArg(arg)
    ensures var s := PrintArg(arg); s != [] && (ParamOf(s) == Expected(arg) <==> NotANumber(arg))
  {
    match arg
    case Number(n) => NumberBack(n);
    case Named(Leaf(id)) =>
    case Named(Inst(id, args)) =>
      assert PrintArg(arg) == id + ("(" + PrintArgs(args) + ")");
      ParenNotDigits(PrintArg(arg), |id|);
  }

  lemma LastArg(x: string, t: string, i: nat)
    requires x != [] && ArgLength(x + (")" + t)) == Some(|x|)
    ensures ParseArgs(x + (")" + t), i) == if i + 1 >= MAX_ATTRS then None else Some([ParamOf(x)])
  {
    var s := x + (")" + t);
    assert s[..|x|] == x && s[|x|] == ')';
    hide ArgLength, ParamOf;
  }

  lemma NextArg(x: string, u: string, i: nat)
    requires x != [] && ArgLength(x + ("," + u)) == Some(|x|)
    ensures var rest := ParseArgs(u, i + 1);
            ParseArgs(x + ("," + u), i) == if i + 1 >= MAX_ATTRS || rest.None? then None
                else Some([ParamOf(x)] + rest.value)
  {
    var s := x + ("," + u);
    assert s[..|x|] == x && s[|x|] == ',' && s[|x| + 1..] == u;
    hide ArgLength, ParamOf;
  }

  lemma {:induction false} ArgsParsed(args: seq<Arg>, i: nat, t: string)
    requires args != [] && forall k :: 0 <= k < |args| ==> PrintableArg(args[k])
    ensures var r := ParseArgs(PrintArgs(args) + ")" + t, i);
            && (r.Some? <==> i + |args| < MAX_ATTRS)
            && (r == Some(ExpectedAll(args)) <==> i + |args| < MAX_ATTRS && AllNamed(args))
    decreases |args|
  {
    hide PrintArg, PrintableArg, ParamOf, ParseArgs, ArgLength, Expected, ExpectedAll, NotANumber, AllNamed;
    var s, x := PrintArgs(args) + ")" + t, PrintArg(args[0]);
    ArgClassified(args[0]);
    if |args| == 1 {
      ArgScanned(args[0], ")" + t);
      assert s == x + (")" + t);
      LastArg(x, t, i);
      OneExpected(args);
    } else {
      var u := PrintArgs(args[1..]) + ")" + t;
      assert s == x + ("," + u);
      ArgScanned(args[0], "," + u);
      NextArg(x, u, i);
      ArgsParsed(args[1..], i + 1, t);
      var r := ParseArgs(u, i + 1);
      MoreExpected(args, ParamOf(x), if r.Some? then r.value else []);
    }
  }

  lemma OneExpected(args: seq<Arg>)
    requires |args| == 1
    ensures ExpectedAll(args) == [Expected(args[0])]
    ensures forall p :: [p] == ExpectedAll(args) <==> p == Expected(args[0])
    ensures AllNamed(args) <==> NotANumber(args[0])
  {
  }

  lemma MoreExpected(args: seq<Arg>, p: Param, rest: seq<Param>)
    requires |args| > 1
    ensures [p] + rest == ExpectedAll(args) <==> p == Expected(args[0]) && rest == ExpectedAll(args[1..])
    ensures AllNamed(args) <==> NotANumber(args[0]) && AllNamed(args[1..])
  {
    assert ExpectedAll(args) == [Expected(args[0])] + ExpectedAll(args[1..]);
    if [p] + rest == [Expected(args[0])] + ExpectedAll(args[1..]) {
      assert rest == ([p] + rest)[1..] && ExpectedAll(args[1..]) == ([Expected(args[0])] + ExpectedAll(args[1..]))[1..];
    }
    assert args == [args[0]] + args[1..];
    forall k | 0 <= k < |args| && NotANumber(args[0]) && AllNamed(args[1..]) ensures NotANumber(args[k]) {
      if k > 0 { assert args[k] == args[1..][k - 1]; }
    }
  }

  /** Parsing a printed name gives back the template and its arguments, if and only if there
      are arguments, fewer than CRYPTO_MAX_ATTRS, and no algorithm is named like a number.
      What follows the last parenthesis does not matter. */
  lemma ParserUndoesPrinter(template: string, args: seq<Arg>, t: string)
    requires Printable(Inst(template, args))
    ensures Parse(Print(Inst(template, args)) + t) == Some((template, ExpectedAll(args)))
            <==> 0 < |args| < MAX_ATTRS && AllNamed(args)
  {
    var s, u := Print(Inst(template, args)) + t, PrintArgs(args) + ")" + t;
    assert s == template + ("(" + u);
    WordStops(template, "(" + u);
    assert s[..|template|] == template && s[|template| + 1..] == u;
    if args == [] {
      assert u == ")" + t && Word(u) == 0;
    } else {
      ArgsParsed(args, 0, t);
    }
  }

  /** An algorithm with the name 12 is taken for the number. */
  lemma DigitNameMisread()
    ensures var name := Inst("cbc", [Named(Leaf("12"))]);
            Printable(name) && Print(name) == "cbc(12)" && Parse("cbc(12)") == Some(("cbc", [U32(12)]))
  {
    hide AllWord, ParseArgs, Word;
    TwelvePrinted();
    TwelveWord();
    OnlyTwelve();
    assert "cbc(12)"[..3] == "cbc" && "cbc(12)"[4..] == "12)";
  }

  lemma TwelvePrinted()
    ensures var name := Inst("cbc", [Named(Leaf("12"))]); Printable(name) && Print(name) == "cbc(12)"
  {
    assert PrintArgs([Named(Leaf("12"))]) == "12";
  }

  lemma TwelveWord()
    ensures Word("cbc(12)") == 3
  {
    WordStops("cbc", "(12)");
    assert "cbc(12)" == "cbc" + "(12)";
  }

  lemma OnlyTwelve()
    ensures ParseArgs("12)", 0) == Some([U32(12)])
  {
    WordStops("12", ")");
    assert "12" + ")" == "12" + (")" + "") == "12)";
    hide ParseArgs, Word;
    LastArg("12", "", 0);
    assert "12"[1..] == "2" && "2"[1..] == "";
    assert Digits("", 10, 12) == 12;
    assert Digits("2", 10, 1) == 12;
    assert Digits("12", 10, 0) == 12;
  }

  /** 32 arguments or more are refused. */
  lemma TooManyArgs(template: string, args: seq<Arg>, t: string)
    requires Printable(Inst(template, args)) && |args| >= MAX_ATTRS
    ensures Parse(Print(Inst(template, args)) + t) == None
  {
    var s, u := Print(Inst(template, args)) + t, PrintArgs(args) + ")" + t;
    assert s == template + ("(" + u);
    WordStops(template, "(" + u);
    assert s[|template| + 1..] == u;
    ArgsParsed(args, 0, t);
  }

  // ---- the printers ----

  /** The name that crypto_alloc_instance prints; None is -ENAMETOOLONG. */
  function InstanceName(template: string, alg: string): Option<string> {
    var s := template + "(" + alg + ")";
    if |s| >= MAX_ALG_NAME then None else Some(s)
  }

  /** The name that crypto_authenc_alloc prints. */
  function AuthencName(auth: string, authsize: nat, enc: string, enckeylen: nat): Option<string> {
    var s := "authenc(" + auth + "," + Decimal(authsize) + "," + enc + "," + Decimal(enckeylen) + ")";
    if |s| >= MAX_ALG_NAME then None else Some(s)
  }

  predicate GoodName(name: Name) { Printable(name) && NotANumber(Named(name)) }

  lemma InstanceParsed(template: string, alg: Name)
    requires template != [] && AllWord(template) && GoodName(alg)
    ensures var s := InstanceName(template, Print(alg));
            && (s.Some? <==> |template| + |Print(alg)| + 2 < 64)
            && (s.Some? ==> Parse(s.value) == Some((template, [Alg(Print(alg))])))
  {
    var args := [Named(alg)];
    ParserUndoesPrinter(template, args, "");
    assert PrintArgs(args) == Print(alg);
    var s := Print(Inst(template, args));
    assert s + "" == s == template + "(" + Print(alg) + ")";
    assert ExpectedAll(args) == [Alg(Print(alg))];
  }

  /** Only too long a name is refused. */
  lemma AuthencPrints(auth: string, authsize: nat, enc: string, enckeylen: nat)
    ensures AuthencName(auth, authsize, enc, enckeylen).Some? <==>
            |auth| + |Decimal(authsize)| + |enc| + |Decimal(enckeylen)| + 12 < 64
  {
    hide Decimal;
  }

  lemma AuthencParsed(auth: Name, authsize: nat, enc: Name, enckeylen: nat)
    requires GoodName(auth) && GoodName(enc) && authsize < W32 && enckeylen < W32
    ensures var s := AuthencName(Print(auth), authsize, Print(enc), enckeylen);
            s.Some? ==> Parse(s.value) == Some(("authenc",
                                                [Alg(Print(auth)), U32(authsize), Alg(Print(enc)), U32(enckeylen)]))
  {
    var args := [Named(auth), Number(authsize), Named(enc), Number(enckeylen)];
    AuthencPrinted(auth, authsize, enc, enckeylen);
    hide Print, PrintArgs, Decimal, Parse, Printable;
    AuthencPrintable(args);
    ParserUndoesPrinter("authenc", args, "");
    assert Print(Inst("authenc", args)) + "" == Print(Inst("authenc", args));
    assert ExpectedAll(args) == [Alg(Print(auth)), U32(authsize), Alg(Print(enc)), U32(enckeylen)];
  }

  lemma AuthencPrintable(args: seq<Arg>)
    requires forall i :: 0 <= i < |args| ==> PrintableArg(args[i])
    ensures Printable(Inst("authenc", args))
  {
  }

  lemma PrintIs(template: string, args: seq<Arg>)
    ensures Print(Inst(template, args)) == template + "(" + PrintArgs(args) + ")"
  {
  }

  lemma AuthencPrinted(auth: Name, authsize: nat, enc: Name, enckeylen: nat)
    ensures var args := [Named(auth), Number(authsize), Named(enc), Number(enckeylen)];
            Print(Inst("authenc", args))
            == "authenc(" + Print(auth) + "," + Decimal(authsize) + "," + Print(enc) + "," + Decimal(enckeylen) + ")"
  {
    hide Decimal, Print;
    PrintIs("authenc", [Named(auth), Number(authsize), Named(enc), Number(enckeylen)]);
    var a, b, c, d := Named(auth), Number(authsize), Named(enc), Number(enckeylen);
    assert [a, b, c, d][1..] == [b, c, d] && [b, c, d][1..] == [c, d] && [c, d][1..] == [d];
    assert PrintArgs([d]) == Decimal(enckeylen);
    assert PrintArgs([c, d]) == PrintArg(c) + "," + PrintArgs([d]);
    assert PrintArgs([b, c, d]) == PrintArg(b) + "," + PrintArgs([c, d]);
    assert PrintArgs([a, b, c, d]) == PrintArg(a) + "," + PrintArgs([b, c, d]);
    assert PrintArg(c) == Print(enc) && PrintArg(a) == Print(auth);
  }
}
