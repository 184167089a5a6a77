/**
 Names of algorithm instances: the parser of cryptomgr_schedule_probe in crypto/cryptomgr.c
 reads back the names that the templates print.
 */
module AlgName {
  import opened Common

  const MAX_ATTRS: nat := 32

  predicate IsDigit(c: char) {
    '0' <= c <= '9'
  }

  /** isalnum of lib/ctype.c, a hyphen or an underscore. */
  predicate IsWord(c: char) {
    IsDigit(c) || 'a' <= c <= 'z' || 'A' <= c <= 'Z' || c == '-' || c == '_' ||
    ('\U{00C0}' <= c <= '\U{00FF}' && c != '\U{00D7}' && c != '\U{00F7}')
  }

  predicate AllWord(s: string) {
    forall i :: 0 <= i < |s| ==> IsWord(s[i])
  }

  predicate AllDigits(s: string) {
    forall i :: 0 <= i < |s| ==> IsDigit(s[i])
  }

  // ----- what a template prints -----

  /** An argument: a number, or an algorithm with arguments of its own. */
  datatype Term = Num(n: nat) | Alg(ident: string, args: Terms)
  datatype Terms = Nil | Cons(head: Term, tail: Terms)

  function Digit(d: nat): (c: char)
    requires d < 10
    ensures IsDigit(c) && c as int == d + '0' as int
  {
    ('0' as int + d) as char
  }

  /** %u */
  function Decimal(n: nat): (s: string)
    ensures |s| > 0 && AllDigits(s) && (s[0] == '0' <==> n == 0)
  {
    if n < 10 then [Digit(n)] else Decimal(n / 10) + [Digit(n % 10)]
  }

  function Print(t: Term): string {
    match t
    case Num(n) => Decimal(n)
    case Alg(ident, args) => if args.Nil? then ident else ident + "(" + PrintArgs(args) + ")"
  }

  function PrintArgs(ts: Terms): string {
    match ts
    case Nil => ""
    case Cons(t, Nil) => Print(t)
    case Cons(t, rest) => Print(t) + "," + PrintArgs(rest)
  }

  /** Identifiers are not empty; one that stands alone is not a number. */
  predicate TermOk(t: Term) {
    match t
    case Num(n) => n < 0x1_0000_0000
    case Alg(ident, args) => ident != "" && AllWord(ident) && TermsOk(args) && (args.Nil? ==> !AllDigits(ident))
  }

  predicate TermsOk(ts: Terms) {
    match ts
    case Nil => true
    case Cons(t, rest) => TermOk(t) && TermsOk(rest)
  }

  function Length(ts: Terms): nat {
    if ts.Nil? then 0 else 1 + Length(ts.tail)
  }

  // ----- what the parser reads -----

  datatype Attr = U32(n: nat) | Name(name: string)

  /** How many word characters a text starts with. */
  function Word(t: string): (n: nat)
    ensures n <= |t| && AllWord(t[..n]) && (n < |t| ==> !IsWord(t[n]))
  {
    if t == "" || !IsWord(t[0]) then 0 else 1 + Word(t[1..])
  }

  /** The distance to the parenthesis that closes the current list. */
  function Close(t: string, depth: nat): (r: Option<nat>)
    ensures r.Some? ==> r.value < |t|
    decreases |t|
  {
    if t == "" then None
    else if t[0] == ')' && depth == 0 then Some(0)
    else
      var r := Close(t[1..], if t[0] == '(' then depth + 1 else if t[0] == ')' then depth - 1 else depth);
      if r.None? then None else Some(r.value + 1)
  }

  /** The length of an argument, with its own list if it has one. */
  function ArgLength(t: string): (r: Option<nat>)
    ensures r.Some? ==> r.value <= |t|
  {
    var w := Word(t);
    if w < |t| && t[w] == '(' then
      var c := Close(t[w + 1..], 0);
      if c.None? then None else Some(w + 1 + c.value + 1)
    else Some(w)
  }

  /** simple_strtoul on a string of digits: up to the first that the base does not have. */
  function Value(s: string, base: nat, acc: nat): nat
    requires AllDigits(s)
    decreases |s|
  {
    if s == "" || s[0] as int - '0' as int >= base then acc
    else Value(s[1..], base, acc * base + (s[0] as int - '0' as int))
  }

  /** Base 0: a leading zero means octal. */
  function Number(s: string): nat
    requires s != "" && AllDigits(s)
  {
    (if s[0] == '0' then Value(s[1..], 8, 0) else Value(s, 10, 0)) % 0x1_0000_0000
  }

  function AttrOf(s: string): Attr {
    if s != "" && AllDigits(s) then U32(Number(s)) else Name(s)
  }

  /** How the loop over the arguments measures and stores one. */
  datatype Reader = Reader(length: string -> Option<nat>, attr: string -> Attr)

  function Kernel(): Reader {
    Reader((t: string) => ArgLength(t), (t: string) => AttrOf(t))
  }

  /** The arguments from i on; None is the error exit. */
  function Args(k: Reader, t: string, i: nat): Option<seq<Attr>>
    decreases |t|
  {
    var n := k.length(t);
    if n.None? || n.value == 0 || n.value >= |t| || i + 1 >= MAX_ATTRS then None
    else
      var e := n.value;
      if t[e] == ')' then Some([k.attr(t[..e])])
      else if t[e] != ',' then None
      else
        var r := Args(k, t[e + 1..], i + 1);
        if r.None? then None else Some([k.attr(t[..e])] + r.value)
  }

  datatype Parsed = Parsed(template: string, attrs: seq<Attr>)

  function Parse(s: string): Option<Parsed> {
    var w := Word(s);
    if w == 0 || w == |s| || s[w] != '(' then None
    else
      var r := Args(Kernel(), s[w + 1..], 0);
      if r.None? then None else Some(Parsed(s[..w], r.value))
  }

  // ----- the round trip -----

  function AttrOfTerm(t: Term): Attr {
    match t
    case Num(n) => U32(n)
    case Alg(_, _) => Name(Print(t))
  }

  function AttrsOf(ts: Terms): (r: seq<Attr>)
    ensures |r| == Length(ts)
  {
    if ts.Nil? then [] else [AttrOfTerm(ts.head)] + AttrsOf(ts.tail)
  }

  lemma {:induction false} WordOf(a: string, t: string)
    requires AllWord(a) && (t != "" ==> !IsWord(t[0]))
    ensures Word(a + t) == |a|
    decreases |a|
  {
    if a == "" {
      assert a + t == t;
    } else {
      assert (a + t)[1..] == a[1..] + t;
      WordOf(a[1..], t);
    }
  }

  function Plus(n: nat, r: Option<nat>): Option<nat> {
    if r.None? then None else Some(n + r.value)
  }

  lemma {:induction false} CloseWord(a: string, t: string, depth: nat)
    requires AllWord(a)
    ensures Close(a + t, depth) == Plus(|a|, Close(t, depth))
    decreases |a|
  {
    if a == "" {
      assert a + t == t;
    } else {
      assert (a + t)[1..] == a[1..] + t;
      CloseWord(a[1..], t, depth);
    }
  }

  lemma {:induction false} CloseChar(c: char, t: string, depth: nat)
    requires c == ')' ==> depth > 0
    ensures Close([c] + t, depth) ==
            Plus(1, Close(t, if c == '(' then depth + 1 else if c == ')' then depth - 1 else depth))
  {
    assert ([c] + t)[1..] == t;
  }

  lemma DecimalIsWord(n: nat)
    ensures AllWord(Decimal(n))
  {
  }

  /** What a term prints is balanced: the search for the closing parenthesis passes it. */
  lemma {:induction false} CloseTerm(x: Term, t: string, depth: nat)
    requires TermOk(x)
    ensures Close(Print(x) + t, depth) == Plus(|Print(x)|, Close(t, depth))
  {
    match x
    case Num(n) =>
      DecimalIsWord(n);
      CloseWord(Decimal(n), t, depth);
    case Alg(ident, args) =>
      if args.Nil? {
        CloseWord(ident, t, depth);
      } else {
        var inner := PrintArgs(args);
        assert Print(x) + t == ident + ("(" + (inner + (")" + t)));
        CloseWord(ident, "(" + (inner + (")" + t)), depth);
        CloseChar('(', inner + (")" + t), depth);
        CloseTerms(args, ")" + t, depth + 1);
        CloseChar(')', t, depth + 1);
      }
  }

  lemma {:induction false} CloseTerms(xs: Terms, t: string, depth: nat)
    requires TermsOk(xs)
    ensures Close(PrintArgs(xs) + t, depth) == Plus(|PrintArgs(xs)|, Close(t, depth))
  {
    match xs
    case Nil =>
      assert PrintArgs(xs) + t == t;
    case Cons(x, rest) =>
      if rest.Nil? {
        CloseTerm(x, t, depth);
      } else {
        assert PrintArgs(xs) + t == Print(x) + ("," + (PrintArgs(rest) + t));
        CloseTerm(x, "," + (PrintArgs(rest) + t), depth);
        CloseChar(',', PrintArgs(rest) + t, depth);
        CloseTerms(rest, t, depth);
      }
  }

  /** What follows an argument in a list. */
  predicate Ends(t: string) {
    t != "" && (t[0] == ',' || t[0] == ')')
  }

  lemma {:induction false} ArgLengthTerm(x: Term, t: string)
    requires TermOk(x) && Ends(t)
    ensures ArgLength(Print(x) + t) == Some(|Print(x)|)
  {
    match x
    case Num(n) =>
      DecimalIsWord(n);
      ArgLengthWord(Decimal(n), t);
    case Alg(ident, args) =>
      if args.Nil? {
        ArgLengthWord(ident, t);
      } else {
        ArgLengthNested(x, t);
      }
  }

  lemma {:induction false} ArgLengthNested(x: Term, t: string)
    requires TermOk(x) && x.Alg? && x.args.Cons?
    ensures ArgLength(Print(x) + t) == Some(|Print(x)|)
  {
    var ident, inner := x.ident, PrintArgs(x.args);
    var list := inner + (")" + t);
    assert Print(x) + t == ident + ("(" + list);
    CloseTerms(x.args, ")" + t, 0);
    ArgLengthList(ident, list);
  }

  lemma {:induction false} ArgLengthWord(a: string, t: string)
    requires AllWord(a) && Ends(t)
    ensures ArgLength(a + t) == Some(|a|)
  {
    WordOf(a, t);
    assert (a + t)[|a|] == t[0];
  }

  lemma {:induction false} ArgLengthList(ident: string, list: string)
    requires AllWord(ident)
    ensures ArgLength(ident + ("(" + list)) == Plus(|ident| + 2, Close(list, 0))
  {
    var whole := ident + ("(" + list);
    WordOf(ident, "(" + list);
    assert whole[|ident|] == '(' && whole[|ident| + 1..] == list;
  }

  lemma {:induction false} ValueConcat(a: string, b: string, acc: nat)
    requires AllDigits(a) && AllDigits(b)
    ensures Value(a + b, 10, acc) == Value(b, 10, Value(a, 10, acc))
    decreases |a|
  {
    if a == "" {
      assert a + b == b;
    } else {
      assert (a + b)[1..] == a[1..] + b;
      ValueConcat(a[1..], b, acc * 10 + (a[0] as int - '0' as int));
    }
  }

  lemma {:induction false} ValueDecimal(n: nat)
    ensures Value(Decimal(n), 10, 0) == n
  {
    if n >= 10 {
      ValueDecimal(n / 10);
      ValueConcat(Decimal(n / 10), [Digit(n % 10)], 0);
    }
  }

  /** A printed number reads back: it has no leading zero unless it is zero. */
  lemma NumberDecimal(n: nat)
    requires n < 0x1_0000_0000
    ensures Number(Decimal(n)) == n
  {
    ValueDecimal(n);
  }

  lemma AttrOfPrint(x: Term)
    requires TermOk(x)
    ensures Print(x) != "" && AttrOf(Print(x)) == AttrOfTerm(x)
  {
    match x
    case Num(n) => NumberDecimal(n);
    case Alg(ident, args) =>
      if !args.Nil? { assert Print(x)[|ident|] == '('; }
  }

  function Prefixed(found: seq<Attr>, r: Option<seq<Attr>>): Option<seq<Attr>> {
    if r.None? then None else Some(found + r.value)
  }

  lemma {:induction false} ArgsStep(k: Reader, s: string, p: nat, q: nat, i: nat)
    requires p < q <= |s| && k.length(s[p..]) == Some(q - p)
    ensures Args(k, s[p..], i) ==
            if i + 1 >= MAX_ATTRS || q == |s| then None
            else if s[q] == ')' then Some([k.attr(s[p..q])])
            else if s[q] != ',' then None
            else Prefixed([k.attr(s[p..q])], Args(k, s[q + 1..], i + 1))
  {
    assert s[p..][..q - p] == s[p..q];
    if q < |s| { assert s[p..][q - p + 1..] == s[q + 1..]; }
  }

  lemma PrefixedLaws(a: seq<Attr>, b: seq<Attr>, r: Option<seq<Attr>>)
    ensures Prefixed([], r) == r && Prefixed(a, Prefixed(b, r)) == Prefixed(a + b, r)
  {
    if r.Some? {
      assert [] + r.value == r.value && a + (b + r.value) == (a + b) + r.value;
    }
  }

  lemma {:induction false} ArgsFirst(k: Reader, p: string, t: string, i: nat)
    requires p != "" && t != "" && k.length(p + t) == Some(|p|)
    ensures Args(k, p + t, i) ==
            if i + 1 >= MAX_ATTRS then None
            else if t[0] == ')' then Some([k.attr(p)])
            else if t[0] != ',' then None
            else Prefixed([k.attr(p)], Args(k, t[1..], i + 1))
  {
    var s := p + t;
    assert s[..|p|] == p && s[|p|] == t[0] && s[|p| + 1..] == t[1..];
  }

  /** A reader that takes a printed term for what it is. */
  ghost predicate Reads(k: Reader, x: Term) {
    Print(x) != "" && k.attr(Print(x)) == AttrOfTerm(x) &&
    forall t :: Ends(t) ==> k.length(Print(x) + t) == Some(|Print(x)|)
  }

  ghost predicate ReadsAll(k: Reader, xs: Terms) {
    xs.Nil? || (Reads(k, xs.head) && ReadsAll(k, xs.tail))
  }

  lemma {:induction false} KernelReads(xs: Terms)
    requires TermsOk(xs)
    ensures ReadsAll(Kernel(), xs)
  {
    if xs.Cons? {
      AttrOfPrint(xs.head);
      forall t | Ends(t) ensures ArgLength(Print(xs.head) + t) == Some(|Print(xs.head)|) {
        ArgLengthTerm(xs.head, t);
      }
      KernelReads(xs.tail);
    }
  }

  lemma {:induction false} LastArg(k: Reader, x: Term, rest: string, i: nat)
    requires Reads(k, x)
    ensures Args(k, Print(x) + (")" + rest), i) == if i + 1 < MAX_ATTRS then Some([AttrOfTerm(x)]) else None
  {
    var p, t := Print(x), ")" + rest;
    assert Ends(t);
    ArgsFirst(k, p, t, i);
  }

  lemma {:induction false} NextArg(k: Reader, x: Term, more: string, i: nat)
    requires Reads(k, x)
    ensures Args(k, Print(x) + ("," + more), i) ==
            if i + 1 < MAX_ATTRS then Prefixed([AttrOfTerm(x)], Args(k, more, i + 1)) else None
  {
    var p, t := Print(x), "," + more;
    assert Ends(t) && t[1..] == more;
    ArgsFirst(k, p, t, i);
  }

  /** The arguments read back, unless there are too many. */
  lemma {:induction false} ArgsRoundTrip(k: Reader, xs: Terms, rest: string, i: nat)
    requires ReadsAll(k, xs) && xs.Cons? && i < MAX_ATTRS
    ensures Args(k, PrintArgs(xs) + (")" + rest), i) ==
            if i + Length(xs) < MAX_ATTRS then Some(AttrsOf(xs)) else None
  {
    var x, end := xs.head, ")" + rest;
    if xs.tail.Nil? {
      LastArg(k, x, rest, i);
      assert AttrsOf(xs) == [AttrOfTerm(x)];
    } else {
      var more := PrintArgs(xs.tail) + end;
      assert PrintArgs(xs) + end == Print(x) + ("," + more);
      NextArg(k, x, more, i);
      if i + 1 < MAX_ATTRS { ArgsRoundTrip(k, xs.tail, rest, i + 1); }
    }
  }

  /** Parsing a printed name gives back the template and the arguments, exactly if there are
      fewer arguments than the parser has room for. */
  lemma {:induction false} RoundTrip(template: string, xs: Terms)
    requires template != "" && AllWord(template) && TermsOk(xs) && xs.Cons?
    ensures Parse(Print(Alg(template, xs))) ==
            if Length(xs) < MAX_ATTRS then Some(Parsed(template, AttrsOf(xs))) else None
  {
    var inner := PrintArgs(xs) + (")" + "");
    assert Print(Alg(template, xs)) == template + ("(" + inner);
    KernelReads(xs);
    ArgsRoundTrip(Kernel(), xs, "", 0);
    ParseTemplate(template, inner);
  }

  lemma {:induction false} ParseTemplate(template: string, inner: string)
    requires template != "" && AllWord(template)
    ensures Parse(template + ("(" + inner)) ==
            var r := Args(Kernel(), inner, 0);
            if r.None? then None else Some(Parsed(template, r.value))
  {
    var s := template + ("(" + inner);
    WordOf(template, "(" + inner);
    assert s[..|template|] == template && s[|template|] == '(' && s[|template| + 1..] == inner;
  }

  // ----- the scan -----

  function At(s: string, p: nat): char {
    if p < |s| then s[p] else '\0'
  }

  lemma DigitsSnoc(a: string, c: char)
    ensures AllDigits(a + [c]) <==> AllDigits(a) && IsDigit(c)
  {
    if AllDigits(a + [c]) {
      assert (a + [c])[|a|] == c;
      assert forall i :: 0 <= i < |a| ==> (a + [c])[i] == a[i];
    }
  }

  lemma {:induction false} WordStep(s: string, start: nat, p: nat)
    requires start <= p < |s| && IsWord(s[p])
    ensures Word(s[p..]) == 1 + Word(s[p + 1..])
    ensures AllDigits(s[start..p + 1]) <==> AllDigits(s[start..p]) && IsDigit(s[p])
  {
    assert s[p..][1..] == s[p + 1..];
    assert s[start..p + 1] == s[start..p] + [s[p]];
    DigitsSnoc(s[start..p], s[p]);
  }

  /** The scan over word characters, which notes whether all are digits. */
  method ScanWord(s: string, start: nat) returns (p: nat, notnum: bool)
    requires start <= |s|
    ensures p == start + Word(s[start..]) && p <= |s| && notnum == !AllDigits(s[start..p])
  {
    p, notnum := start, false;
    while IsWord(At(s, p))
      invariant start <= p <= |s| && start + Word(s[start..]) == p + Word(s[p..])
      invariant notnum == !AllDigits(s[start..p])
      decreases |s| - p
    {
      WordStep(s, start, p);
      notnum := notnum || !IsDigit(s[p]);
      p := p + 1;
    }
  }

  lemma {:induction false} CloseStep(s: string, q: nat, depth: nat)
    requires q < |s| && !(s[q] == ')' && depth == 0)
    ensures Plus(q, Close(s[q..], depth)) ==
            Plus(q + 1, Close(s[q + 1..], if s[q] == '(' then depth + 1 else if s[q] == ')' then depth - 1 else depth))
  {
    assert s[q..][1..] == s[q + 1..];
  }

  /** The loop over a nested argument list, from behind its opening parenthesis. */
  method ScanClose(s: string, start: nat) returns (p: Option<nat>)
    requires start <= |s|
    ensures p == Plus(start, Close(s[start..], 0))
  {
    var q, depth := start, 0;
    while q < |s|
      invariant start <= q <= |s| && depth >= 0
      invariant Plus(start, Close(s[start..], 0)) == Plus(q, Close(s[q..], depth))
    {
      if s[q] == ')' && depth == 0 { return Some(q); }
      CloseStep(s, q, depth);
      if s[q] == '(' {
        depth := depth + 1;
      } else if s[q] == ')' {
        depth := depth - 1;
      }
      q := q + 1;
    }
    p := None;
  }

  // ----- only such names are accepted -----

  function Join(raws: seq<string>): string {
    if raws == [] then "" else if |raws| == 1 then raws[0] else raws[0] + "," + Join(raws[1..])
  }

  /** An accepted list is a sequence of arguments that are not empty, between commas and up to a
      closing parenthesis, and each of them is stored. */
  lemma {:induction false} ArgsAccepted(k: Reader, t: string, i: nat) returns (raws: seq<string>, rest: string)
    requires Args(k, t, i).Some?
    ensures var r := Args(k, t, i).value;
            |raws| == |r| > 0 && i + |r| < MAX_ATTRS &&
            forall j :: 0 <= j < |r| ==> raws[j] != "" && r[j] == k.attr(raws[j])
    ensures t == Join(raws) + ")" + rest
    decreases |t|
  {
    var e := k.length(t).value;
    if t[e] == ')' {
      raws, rest := [t[..e]], t[e + 1..];
      assert t == t[..e] + ")" + t[e + 1..];
    } else {
      var more, last := ArgsAccepted(k, t[e + 1..], i + 1);
      raws, rest := [t[..e]] + more, last;
      assert raws[1..] == more;
      assert t == t[..e] + "," + t[e + 1..];
      assert t[..e] + "," + (Join(more) + ")" + rest) == t[..e] + "," + Join(more) + ")" + rest;
    }
  }

  lemma {:induction false} NameAccepted(k: Reader, s: string, w: nat) returns (raws: seq<string>, rest: string)
    requires w < |s| && s[w] == '(' && Args(k, s[w + 1..], 0).Some?
    ensures var r := Args(k, s[w + 1..], 0).value;
            0 < |r| == |raws| < MAX_ATTRS && forall j :: 0 <= j < |r| ==> raws[j] != "" && r[j] == k.attr(raws[j])
    ensures s == s[..w] + "(" + Join(raws) + ")" + rest
  {
    raws, rest := ArgsAccepted(k, s[w + 1..], 0);
    var a, j := s[..w], Join(raws);
    assert s == a + "(" + s[w + 1..];
    assert a + "(" + (j + ")" + rest) == a + "(" + j + ")" + rest;
  }

  lemma {:induction false} KernelStores(k: Reader, raws: seq<string>, r: seq<Attr>)
    requires k == Kernel() && |r| == |raws| && forall j :: 0 <= j < |r| ==> r[j] == k.attr(raws[j])
    ensures forall j :: 0 <= j < |r| ==> r[j] == AttrOf(raws[j])
  {
  }

  lemma {:induction false} ParseIs(s: string, k: Reader, w: nat)
    requires k == Kernel() && w == Word(s) && Parse(s).Some?
    ensures 0 < w < |s| && s[w] == '(' && Args(k, s[w + 1..], 0).Some?
    ensures Parse(s).value == Parsed(s[..w], Args(k, s[w + 1..], 0).value)
  {
  }

  /** An accepted name is a template, an argument list, and perhaps more. */
  lemma {:induction false} ParseAccepted(s: string, k: Reader) returns (raws: seq<string>, rest: string)
    requires Parse(s).Some? && k == Kernel()
    ensures var p := Parse(s).value;
            && p.template != "" && AllWord(p.template) && 0 < |p.attrs| == |raws| < MAX_ATTRS
            && (forall j :: 0 <= j < |raws| ==> raws[j] != "" && p.attrs[j] == AttrOf(raws[j]))
            && s == p.template + "(" + Join(raws) + ")" + rest
  {
    var w := Word(s);
    ParseIs(s, k, w);
    raws, rest := NameAccepted(k, s, w);
    KernelStores(k, raws, Parse(s).value.attrs);
  }

  /** What is still to be parsed at a place, as a value that stays folded. */
  type Rest = (nat, nat) -> Option<seq<Attr>>

  ghost function RestOf(k: Reader, s: string): Rest {
    (p: nat, i: nat) => if p <= |s| then Args(k, s[p..], i) else None
  }

  ghost predicate IsRest(t: Rest, k: Reader, s: string) {
    forall u {:trigger Open(u)} :: Open(u) ==> t == RestOf(k, s)
  }

  lemma {:induction false} LoopStart(k: Reader, s: string, start: nat) returns (t: Rest)
    requires start <= |s|
    ensures IsRest(t, k, s) && Args(k, s[start..], 0) == Prefixed([], t(start, 0))
  {
    t := RestOf(k, s);
    PrefixedLaws([], [], t(start, 0));
  }

  lemma {:induction false} LoopFails(k: Reader, s: string, t: Rest, p: nat, i: nat)
    requires p <= |s| && IsRest(t, k, s) && (k.length(s[p..]).None? || k.length(s[p..]).value == 0)
    ensures t(p, i) == None
  {
    assert Open(true);
  }

  lemma {:induction false} RestAt(k: Reader, s: string, t: Rest, p: nat, i: nat)
    requires IsRest(t, k, s) && p <= |s|
    ensures t(p, i) == Args(k, s[p..], i)
  {
    assert Open(true);
  }

  lemma {:induction false} RestStep(k: Reader, s: string, t: Rest, p: nat, q: nat, i: nat, attr: Attr)
    requires p < q <= |s| && k.length(s[p..]) == Some(q - p) && attr == k.attr(s[p..q]) && IsRest(t, k, s)
    ensures t(p, i) == if i + 1 >= MAX_ATTRS || q == |s| then None
                       else if s[q] == ')' then Some([attr])
                       else if s[q] != ',' then None
                       else Prefixed([attr], t(q + 1, i + 1))
  {
    RestAt(k, s, t, p, i);
    ArgsStep(k, s, p, q, i);
    if q < |s| { RestAt(k, s, t, q + 1, i + 1); }
  }

  lemma {:induction false} LoopStep(k: Reader, s: string, t: Rest, p: nat, q: nat, i: nat, found: seq<Attr>,
                                    goal: Option<seq<Attr>>)
    requires p < q <= |s| && k.length(s[p..]) == Some(q - p)
    requires IsRest(t, k, s) && goal == Prefixed(found, t(p, i))
    ensures i + 1 >= MAX_ATTRS || q == |s| || (s[q] != ')' && s[q] != ',') ==> goal == None
    ensures i + 1 < MAX_ATTRS && q < |s| && s[q] == ')' ==> goal == Some(found + [k.attr(s[p..q])])
    ensures i + 1 < MAX_ATTRS && q < |s| && s[q] == ',' ==>
              goal == Prefixed(found + [k.attr(s[p..q])], t(q + 1, i + 1))
  {
    var attr := k.attr(s[p..q]);
    RestStep(k, s, t, p, q, i, attr);
    PrefixedLaws(found, [attr], t(q + 1, i + 1));
  }

  ghost predicate IsKernel(k: Reader) {
    forall u {:trigger Open(u)} :: Open(u) ==> k == Kernel()
  }

  /** The loop of cryptomgr_schedule_probe over the arguments. */
  method ScanArgs(ghost k: Reader, s: string, start: nat) returns (attrs: Option<seq<Attr>>)
    requires start <= |s| && IsKernel(k)
    ensures attrs == Args(k, s[start..], 0)
  {
    var p, i := start, 0;
    var found: seq<Attr> := [];
    ghost var goal := Args(k, s[start..], 0);
    ghost var t := LoopStart(k, s, start);
    while true
      invariant start <= p <= |s| && i == |found| && goal == Prefixed(found, t(p, i))
      decreases |s| - p
    {
      var e, attr := ScanArg(k, s, p);
      if e.None? || e.value == p {
        LoopFails(k, s, t, p, i);
        return None;
      }
      var q := e.value;
      LoopStep(k, s, t, p, q, i, found, goal);
      if i + 1 >= MAX_ATTRS { return None; }
      if q < |s| && s[q] == ')' { return Some(found + [attr]); }
      if q == |s| || s[q] != ',' { return None; }
      found, i, p := found + [attr], i + 1, q + 1;
    }
  }

  lemma {:induction false} ArgLengthAt(s: string, p: nat, q: nat)
    requires p <= q <= |s| && q == p + Word(s[p..])
    ensures ArgLength(s[p..]) ==
            if q < |s| && s[q] == '(' then Plus(q - p + 2, Close(s[q + 1..], 0)) else Some(q - p)
  {
    var t := s[p..];
    if q < |s| {
      assert t[q - p] == s[q] && t[q - p + 1..] == s[q + 1..];
    }
  }

  lemma NotDigits(s: string, i: nat)
    requires i < |s| && !IsDigit(s[i])
    ensures !AllDigits(s)
  {
  }

  /** The argument list of an argument, and the place behind it. */
  method ScanList(s: string, p: nat, q: nat) returns (e: Option<nat>)
    requires p <= q < |s| && s[q] == '('
    ensures e == Plus(q + 2, Close(s[q + 1..], 0)) && (e.Some? ==> q < e.value <= |s| && !AllDigits(s[p..e.value]))
  {
    var c := ScanClose(s, q + 1);
    if c.None? { return None; }
    NotDigits(s[p..c.value + 1], q - p);
    e := Some(c.value + 1);
  }

  /** One argument. */
  method ScanOne(s: string, p: nat) returns (e: Option<nat>, notnum: bool)
    requires p <= |s|
    ensures e == Plus(p, ArgLength(s[p..])) && (e.Some? ==> p <= e.value <= |s| && notnum == !AllDigits(s[p..e.value]))
  {
    var q;
    q, notnum := ScanWord(s, p);
    ArgLengthAt(s, p, q);
    if At(s, q) != '(' { return Some(q), notnum; }
    e := ScanList(s, p, q);
    notnum := true;
  }

  method ScanArg(ghost k: Reader, s: string, p: nat) returns (e: Option<nat>, attr: Attr)
    requires p <= |s| && IsKernel(k)
    ensures e == Plus(p, k.length(s[p..])) && (e.Some? ==> p <= e.value <= |s|)
    ensures e.Some? && e.value > p ==> attr == k.attr(s[p..e.value])
  {
    assert Open(true);
    var notnum;
    e, notnum := ScanOne(s, p);
    attr := U32(0);
    if e.Some? && e.value > p {
      attr := if notnum then Name(s[p..e.value]) else U32(Number(s[p..e.value]));
    }
  }

  /** cryptomgr_schedule_probe, as far as it parses the name. */
  method ScheduleProbe(s: string) returns (r: Option<Parsed>)
    ensures r == Parse(s)
  {
    assert s[0..] == s;
    var p, notnum := ScanWord(s, 0);
    if p == 0 || At(s, p) != '(' { return None; }
    var attrs := ScanArgs(Kernel(), s, p + 1);
    r := if attrs.None? then None else Some(Parsed(s[..p], attrs.value));
  }
}
