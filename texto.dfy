/** The parts of Python's `str` that the documentation generators use:
    case mapping, `title()`, `replace()`, the `in` substring test, `join`,
    and `str()` of an integer. Case mapping covers ASCII and Latin-1, the
    letters Portuguese text is written with; which characters are cased
    follows Python over that range. */
module Texto {

  datatype Option<T> = None | Some(value: T)

  // ---------------------------------------------------------------------
  // Characters

  predicate IsUpper(c: char) {
    ('A' <= c <= 'Z') || ('\U{C0}' <= c <= '\U{DE}' && c != '\U{D7}')
  }

  /** Lower-case letters, including the ordinal indicators 'ª' and 'º' and
      the micro sign 'µ', which Python counts as cased. */
  predicate IsLower(c: char) {
    ('a' <= c <= 'z') || ('\U{DF}' <= c <= '\U{FF}' && c != '\U{F7}')
    || c == '\U{AA}' || c == '\U{B5}' || c == '\U{BA}'
  }

  /** A letter that has case; every other character is "uncased" to `title()`. */
  predicate IsCased(c: char) {
    IsUpper(c) || IsLower(c)
  }

  function LowerChar(c: char): (d: char)
    ensures IsCased(d) <==> IsCased(c)
    ensures !IsUpper(d)
    ensures !IsUpper(c) ==> d == c
  {
    if IsUpper(c) then (c as int + 32) as char else c
  }

  /** Upper case of a lower-case letter. 'ª' and 'º', which have no upper
      form, and 'µ', 'ß' and 'ÿ', whose upper forms lie outside Latin-1, are
      kept as they are. */
  function UpperChar(c: char): (d: char)
    ensures IsCased(d) <==> IsCased(c)
    ensures !IsCased(c) ==> d == c
    ensures (IsLower(c) && c != '\U{DF}' && c != '\U{FF}'
             && c != '\U{AA}' && c != '\U{B5}' && c != '\U{BA}') ==> IsUpper(d)
  {
    if ('a' <= c <= 'z') || ('\U{E0}' <= c <= '\U{FE}' && c != '\U{F7}') then (c as int - 32) as char else c
  }

  // ---------------------------------------------------------------------
  // lower() and title()

  /** Python's `s.lower()`. */
  function Lower(s: string): (r: string)
    ensures |r| == |s|
    ensures forall i :: 0 <= i < |s| ==> r[i] == LowerChar(s[i])
  {
    seq(|s|, i requires 0 <= i < |s| => LowerChar(s[i]))
  }

  lemma LowerIdempotent(s: string)
    ensures Lower(Lower(s)) == Lower(s)
  {
  }

  /** Python's `s.title()`: a cased character is upper-cased when the
      character before it is not cased, and lower-cased when it is. */
  function Title(s: string): (r: string)
    ensures |r| == |s|
    ensures forall i :: 0 <= i < |s| && !IsCased(s[i]) ==> r[i] == s[i]
    ensures forall i :: 0 <= i < |s| && IsCased(s[i]) ==>
              r[i] == if i > 0 && IsCased(s[i - 1]) then LowerChar(s[i]) else UpperChar(s[i])
  {
    TitleFrom(s, false)
  }

  function TitleFrom(s: string, afterCased: bool): (r: string)
    ensures |r| == |s|
    ensures forall i :: 0 <= i < |s| ==> (IsCased(r[i]) <==> IsCased(s[i]))
    ensures forall i :: 0 <= i < |s| && !IsCased(s[i]) ==> r[i] == s[i]
    ensures forall i :: 0 <= i < |s| && IsCased(s[i]) ==>
              r[i] == if (if i == 0 then afterCased else IsCased(s[i - 1])) then LowerChar(s[i]) else UpperChar(s[i])
    decreases |s|
  {
    if s == [] then []
    else
      var c := if !IsCased(s[0]) then s[0] else if afterCased then LowerChar(s[0]) else UpperChar(s[0]);
      [c] + TitleFrom(s[1..], IsCased(s[0]))
  }

  /** `title()` never creates or removes an uncased character such as '_'. */
  lemma TitleKeepsUncased(s: string, c: char)
    requires !IsCased(c)
    ensures c in Title(s) <==> c in s
  {
    var r := Title(s);
    if c in r {
      var i :| 0 <= i < |r| && r[i] == c;
      assert s[i] == c;
    }
    if c in s {
      var i :| 0 <= i < |s| && s[i] == c;
      assert r[i] == c;
    }
  }

  // ---------------------------------------------------------------------
  // replace(), the `in` operator, startswith/endswith

  /** Python's `s.replace(pat, rep)`: non-overlapping occurrences, left to right. */
  function Replace(s: string, pat: string, rep: string): (r: string)
    requires |pat| > 0
    ensures |rep| <= |pat| ==> |r| <= |s|
    ensures |rep| == |pat| ==> |r| == |s|
    ensures |pat| == 1 && pat[0] !in rep ==> pat[0] !in r
    ensures forall c :: c in r ==> c in s || c in rep
    decreases |s|
  {
    if |s| < |pat| then s
    else if s[..|pat|] == pat then rep + Replace(s[|pat|..], pat, rep)
    else
      assert s[0] in s;
      [s[0]] + Replace(s[1..], pat, rep)
  }

  predicate StartsWith(s: string, p: string) {
    |p| <= |s| && s[..|p|] == p
  }

  predicate EndsWith(s: string, p: string) {
    |p| <= |s| && s[|s| - |p|..] == p
  }

  /** A concatenation starts with its first part and ends with its last. */
  lemma Emenda(a: string, b: string)
    ensures StartsWith(a + b, a) && EndsWith(a + b, b)
  {
    assert (a + b)[..|a|] == a;
    assert (a + b)[|a + b| - |b|..] == b;
  }

  /** Python's `sub in s`. */
  predicate Contains(s: string, sub: string)
    decreases |s|
  {
    StartsWith(s, sub) || (|s| > 0 && Contains(s[1..], sub))
  }

  /** `sub` occurs in `s` starting at index `i`. */
  predicate OccursAt(s: string, sub: string, i: int) {
    0 <= i <= |s| - |sub| && s[i..i + |sub|] == sub
  }

  /** `sub` occurs at some position of `s`. */
  ghost predicate Ocorre(s: string, sub: string) {
    exists i :: OccursAt(s, sub, i)
  }

  /** `Contains` holds exactly when `sub` occurs at some position of `s`. */
  lemma {:induction false} ContainsAt(s: string, sub: string)
    ensures Contains(s, sub) <==> exists i :: OccursAt(s, sub, i)
    decreases |s|
  {
    if |s| > 0 {
      ContainsAt(s[1..], sub);
      if StartsWith(s, sub) {
        assert OccursAt(s, sub, 0);
      } else if Contains(s[1..], sub) {
        var i :| OccursAt(s[1..], sub, i);
        assert s[i + 1..i + 1 + |sub|] == s[1..][i..i + |sub|];
        assert OccursAt(s, sub, i + 1);
      }
      if exists i :: OccursAt(s, sub, i) {
        var i :| OccursAt(s, sub, i);
        if i > 0 {
          assert s[1..][i - 1..i - 1 + |sub|] == s[i..i + |sub|];
          assert OccursAt(s[1..], sub, i - 1);
        }
      }
    } else {
      if StartsWith(s, sub) {
        assert OccursAt(s, sub, 0);
      }
      if exists i :: OccursAt(s, sub, i) {
        var i :| OccursAt(s, sub, i);
        assert i == 0 && sub == [];
        assert StartsWith(s, sub);
      }
    }
  }

  // ---------------------------------------------------------------------
  // ''.join and sep.join

  /** Python's `''.join(xs)`. */
  function Concat(xs: seq<string>): string {
    if xs == [] then "" else Concat(xs[..|xs| - 1]) + xs[|xs| - 1]
  }

  lemma {:induction false} ConcatAppend(xs: seq<string>, ys: seq<string>)
    ensures Concat(xs + ys) == Concat(xs) + Concat(ys)
    decreases |ys|
  {
    if ys == [] {
      assert xs + ys == xs;
    } else {
      var zs := ys[..|ys| - 1];
      assert (xs + ys)[..|xs + ys| - 1] == xs + zs;
      ConcatAppend(xs, zs);
    }
  }

  /** Python's `sep.join(xs)`. */
  function Join(sep: string, xs: seq<string>): string {
    if |xs| == 0 then ""
    else if |xs| == 1 then xs[0]
    else Join(sep, xs[..|xs| - 1]) + sep + xs[|xs| - 1]
  }

  lemma JoinPair(sep: string)
    ensures forall a, b :: Join(sep, [a, b]) == a + sep + b
  {
    forall a, b
      ensures Join(sep, [a, b]) == a + sep + b
    {
      assert [a, b][..1] == [a];
    }
  }

  /** The joined string is the first item followed by every later item,
      each preceded by the separator. */
  lemma {:induction false} JoinAsConcat(sep: string, xs: seq<string>)
    requires |xs| > 0
    ensures Join(sep, xs) == xs[0] + Concat(seq(|xs| - 1, k requires 0 <= k < |xs| - 1 => sep + xs[k + 1]))
    decreases |xs|
  {
    var tail := seq(|xs| - 1, k requires 0 <= k < |xs| - 1 => sep + xs[k + 1]);
    if |xs| == 1 {
      assert tail == [];
    } else {
      var init := xs[..|xs| - 1];
      JoinAsConcat(sep, init);
      var initTail := seq(|init| - 1, k requires 0 <= k < |init| - 1 => sep + init[k + 1]);
      assert tail[..|tail| - 1] == initTail;
    }
  }

  /** The blocks `f(1, xs[0]) + f(2, xs[1]) + ...`: one block of lines per
      item, numbered from 1 in order. */
  function Numerados<T>(xs: seq<T>, f: (nat, T) -> seq<string>): seq<string>
    decreases |xs|
  {
    if xs == [] then [] else Numerados(xs[..|xs| - 1], f) + f(|xs|, xs[|xs| - 1])
  }

  lemma NumeradosPasso<T>(xs: seq<T>, f: (nat, T) -> seq<string>, k: nat)
    requires k < |xs|
    ensures Numerados(xs[..k + 1], f) == Numerados(xs[..k], f) + f(k + 1, xs[k])
  {
    assert xs[..k + 1][..k] == xs[..k];
  }

  /** The blocks of the first `m` items start the blocks of all of them. */
  lemma {:induction false} NumeradosPrefixo<T>(xs: seq<T>, f: (nat, T) -> seq<string>, m: nat)
    requires m <= |xs|
    ensures Numerados(xs[..m], f) <= Numerados(xs, f)
    decreases |xs| - m
  {
    if m < |xs| {
      NumeradosPrefixo(xs, f, m + 1);
      NumeradosPasso(xs, f, m);
    } else {
      assert xs[..m] == xs;
    }
  }

  /** The lines `g(1, xs[0]), g(2, xs[1]), ...`: one line per item,
      numbered from 1 in order. */
  function Enumerados<T>(xs: seq<T>, g: (nat, T) -> string): (r: seq<string>)
    ensures |r| == |xs|
    decreases |xs|
  {
    if xs == [] then [] else Enumerados(xs[..|xs| - 1], g) + [g(|xs|, xs[|xs| - 1])]
  }

  lemma EnumeradosPasso<T>(xs: seq<T>, g: (nat, T) -> string, k: nat)
    requires k < |xs|
    ensures Enumerados(xs[..k + 1], g) == Enumerados(xs[..k], g) + [g(k + 1, xs[k])]
  {
    assert xs[..k + 1][..k] == xs[..k];
  }

  /** Line k is the one of item k, numbered k + 1. */
  lemma {:induction false} EnumeradosLinha<T>(xs: seq<T>, g: (nat, T) -> string, k: nat)
    requires k < |xs|
    ensures Enumerados(xs, g)[k] == g(k + 1, xs[k])
    decreases |xs|
  {
    if k < |xs| - 1 {
      EnumeradosLinha(xs[..|xs| - 1], g, k);
    }
  }

  /** The block function that puts `sep` after every block except the one
      numbered `n`. */
  function ComSeparador<T>(g: (nat, T) -> seq<string>, sep: string, n: nat): (nat, T) -> seq<string> {
    (i: nat, x: T) => if i < n then g(i, x) + [sep] else g(i, x)
  }

  /** The numbered blocks of `xs` in order, with `sep` between consecutive ones. */
  function Separados<T>(xs: seq<T>, g: (nat, T) -> seq<string>, sep: string): seq<string> {
    Numerados(xs, ComSeparador(g, sep, |xs|))
  }

  /** The block of item k sits in the whole right after the blocks of the
      items before it. */
  lemma NumeradosBloco<T>(xs: seq<T>, f: (nat, T) -> seq<string>, k: nat)
    requires k < |xs|
    ensures var j := |Numerados(xs[..k], f)|;
            var b := f(k + 1, xs[k]);
            j + |b| <= |Numerados(xs, f)| && Numerados(xs, f)[j..j + |b|] == b
  {
    NumeradosPrefixo(xs, f, k + 1);
    NumeradosPasso(xs, f, k);
    var a, b := Numerados(xs[..k], f), f(k + 1, xs[k]);
    assert Numerados(xs, f)[|a|..|a| + |b|] == (a + b)[|a|..];
  }

  /** A slice equal to `a + c` starts with `a`, and then comes `c`. */
  lemma Encaixe<T>(xs: seq<T>, j: nat, a: seq<T>, c: seq<T>)
    requires j + |a + c| <= |xs| && xs[j..j + |a + c|] == a + c
    ensures j + |a| <= |xs| && xs[j..j + |a|] == a
    ensures c != [] ==> j + |a| < |xs| && xs[j + |a|] == c[0]
  {
    assert xs[j..j + |a|] == xs[j..j + |a + c|][..|a|];
    if c != [] {
      assert xs[j + |a|] == xs[j..j + |a + c|][|a|];
    }
  }

  /** Block k comes right after the blocks before it; `sep` follows it
      exactly when it is not the last, and the last block closes the whole. */
  lemma SeparadosBloco<T>(xs: seq<T>, g: (nat, T) -> seq<string>, sep: string, k: nat)
    requires k < |xs|
    ensures var d := Separados(xs, g, sep);
            var j := |Numerados(xs[..k], ComSeparador(g, sep, |xs|))|;
            var s := g(k + 1, xs[k]);
            j + |s| <= |d| && d[j..j + |s|] == s
            && (k + 1 < |xs| ==> j + |s| < |d| && d[j + |s|] == sep)
            && (k + 1 == |xs| ==> j + |s| == |d|)
  {
    var f := ComSeparador(g, sep, |xs|);
    NumeradosBloco(xs, f, k);
    var s := g(k + 1, xs[k]);
    if k + 1 < |xs| {
      assert f(k + 1, xs[k]) == s + [sep];
      Encaixe(Numerados(xs, f), |Numerados(xs[..k], f)|, s, [sep]);
    } else {
      assert f(k + 1, xs[k]) == s;
      NumeradosPasso(xs, f, k);
      assert xs[..k + 1] == xs;
    }
  }

  /** After a header `p`, the block of item `k` (counted from 0) starts right
      after the blocks of the items before it. */
  lemma NumeradosFatia<T>(p: seq<string>, xs: seq<T>, f: (nat, T) -> seq<string>, k: nat)
    requires k < |xs|
    ensures var j := |p| + |Numerados(xs[..k], f)|;
            var b := f(k + 1, xs[k]);
            j + |b| <= |p + Numerados(xs, f)| && (p + Numerados(xs, f))[j..j + |b|] == b
  {
    NumeradosPrefixo(xs, f, k + 1);
    NumeradosPasso(xs, f, k);
    var a, b := Numerados(xs[..k], f), f(k + 1, xs[k]);
    var s := Numerados(xs, f);
    assert (p + s)[|p| + |a|..|p| + |a| + |b|] == (a + b)[|a|..];
  }

  // ---------------------------------------------------------------------
  // str() of an integer

  function DigitChar(d: nat): (c: char)
    requires d < 10
    ensures '0' <= c <= '9'
  {
    ('0' as int + d) as char
  }

  predicate AllDigits(s: string) {
    forall i :: 0 <= i < |s| ==> '0' <= s[i] <= '9'
  }

  /** Python's `str(n)` for a natural number: decimal digits, no leading zero. */
  function NatToString(n: nat): (r: string)
    ensures |r| > 0 && AllDigits(r)
    ensures |r| > 1 ==> r[0] != '0'
    decreases n
  {
    if n < 10 then [DigitChar(n)] else NatToString(n / 10) + [DigitChar(n % 10)]
  }

  /** Python's `str(i)`: a minus sign exactly for a negative number, then
      the digits of its magnitude. */
  function IntToString(i: int): (r: string)
    ensures |r| > 0 && (r[0] == '-' <==> i < 0)
    ensures AllDigits(if r[0] == '-' then r[1..] else r)
  {
    if i < 0 then "-" + NatToString(-i) else NatToString(i)
  }

  /** Reads back an optional minus sign followed by decimal digits. */
  function ParseInt(s: string): int
    requires |s| > 0 && AllDigits(if s[0] == '-' then s[1..] else s)
  {
    if s[0] == '-' then -(ParseNat(s[1..]) as int) else ParseNat(s)
  }

  lemma IntToStringRoundTrip(i: int)
    ensures ParseInt(IntToString(i)) == i
  {
    if i < 0 {
      assert IntToString(i)[1..] == NatToString(-i);
      NatToStringRoundTrip(-i);
    } else {
      NatToStringRoundTrip(i);
    }
  }

  /** Reads back a string of decimal digits. */
  function ParseNat(s: string): nat
    requires AllDigits(s)
  {
    if s == [] then 0 else ParseNat(s[..|s| - 1]) * 10 + (s[|s| - 1] as int - '0' as int)
  }

  lemma {:induction false} NatToStringRoundTrip(n: nat)
    ensures ParseNat(NatToString(n)) == n
    decreases n
  {
    if n >= 10 {
      var r := NatToString(n);
      assert r[..|r| - 1] == NatToString(n / 10);
      NatToStringRoundTrip(n / 10);
    }
  }

  /** Distinct numbers print differently: the numbering of report sections
      identifies each section. */
  lemma NatToStringInjective(m: nat, n: nat)
    requires NatToString(m) == NatToString(n)
    ensures m == n
  {
    NatToStringRoundTrip(m);
    NatToStringRoundTrip(n);
  }

  /** The text of each item, in order. */
  function Rotulos<T>(xs: seq<T>, texto: T -> string): (r: seq<string>)
    ensures |r| == |xs|
    ensures forall i :: 0 <= i < |xs| ==> r[i] == texto(xs[i])
  {
    seq(|xs|, i requires 0 <= i < |xs| => texto(xs[i]))
  }
}
