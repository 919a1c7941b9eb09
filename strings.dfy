/**
 * Text as the JavaScript runtime reads and writes it: the white space that
 * `trim` and `parseInt` skip, digits in a radix, the decimal text of an
 * integer (`String(n)`), and `parseInt` itself.
 */
module Strings {
  import opened Wrappers

  /** JavaScript's WhiteSpace and LineTerminator code points. */
  predicate IsWhitespace(c: char) {
    || c == '\t' || c == '\n' || c == '\U{000B}' || c == '\U{000C}' || c == '\r'
    || c == ' ' || c == '\U{00A0}' || c == '\U{1680}'
    || ('\U{2000}' <= c <= '\U{200A}')
    || c == '\U{2028}' || c == '\U{2029}' || c == '\U{202F}' || c == '\U{205F}'
    || c == '\U{3000}' || c == '\U{FEFF}'
  }

  /** Every character of `s` is white space. */
  predicate AllWhitespace(s: string) {
    forall i :: 0 <= i < |s| ==> IsWhitespace(s[i])
  }

  /** `s` without its leading white space. */
  function TrimStart(s: string): (r: string)
    ensures |r| <= |s| && r == s[|s| - |r|..]
    ensures r == [] || !IsWhitespace(r[0])
    ensures AllWhitespace(s[..|s| - |r|])
  {
    if s != [] && IsWhitespace(s[0]) then TrimStart(s[1..]) else s
  }

  /** `s` without its trailing white space. */
  function TrimEnd(s: string): (r: string)
    ensures |r| <= |s| && r == s[..|r|]
    ensures r == [] || !IsWhitespace(r[|r| - 1])
    ensures AllWhitespace(s[|r|..])
  {
    if s != [] && IsWhitespace(s[|s| - 1]) then TrimEnd(s[..|s| - 1]) else s
  }

  /** `s` is `r` with white space before it (its first `k` characters) and after it. */
  predicate Padded(s: string, k: int, r: string) {
    && 0 <= k && k + |r| <= |s| && r == s[k..][..|r|]
    && AllWhitespace(s[..k]) && AllWhitespace(s[k + |r|..])
  }

  /** Neither end of `s` is white space. */
  predicate Trimmed(s: string) {
    s == [] || (!IsWhitespace(s[0]) && !IsWhitespace(s[|s| - 1]))
  }

  /** String.prototype.trim: white space removed from both ends, nothing else. */
  function Trim(s: string): (r: string)
    ensures Padded(s, |s| - |TrimStart(s)|, r)
    ensures Trimmed(r)
    ensures Trimmed(s) ==> r == s
  {
    TrimPadded(s);
    TrimEnds(s);
    TrimFixes(s);
    TrimEnd(TrimStart(s))
  }

  /** The trimmed text sits in `s` between two runs of white space. */
  lemma TrimPadded(s: string)
    ensures Padded(s, |s| - |TrimStart(s)|, TrimEnd(TrimStart(s)))
  {
    var t := TrimStart(s);
    Span(s, t, TrimEnd(t));
  }

  /** The trimmed text neither starts nor ends with white space. */
  lemma TrimEnds(s: string)
    ensures Trimmed(TrimEnd(TrimStart(s)))
  {
    var t := TrimStart(s);
    var r := TrimEnd(t);
    if r != [] {
      assert r[0] == t[0];
    }
  }

  /** Text without white space at either end is its own trim. */
  lemma TrimFixes(s: string)
    ensures Trimmed(s) ==> TrimEnd(TrimStart(s)) == s
  {
    if Trimmed(s) {
      assert TrimStart(s) == s;
      EndKept(s);
      assert TrimEnd(TrimStart(s)) == TrimEnd(s);
    }
  }

  /** Text that does not end in white space is its own TrimEnd. */
  lemma EndKept(s: string)
    requires s == [] || !IsWhitespace(s[|s| - 1])
    ensures TrimEnd(s) == s
  {
  }

  /**
   * `t` a suffix of `s` after white space only, and `r` a prefix of `t`
   * before white space only: `r` sits in `s` between two runs of white space.
   */
  lemma Span(s: string, t: string, r: string)
    requires |t| <= |s| && t == s[|s| - |t|..]
    requires AllWhitespace(s[..|s| - |t|])
    requires |r| <= |t| && r == t[..|r|]
    requires AllWhitespace(t[|r|..])
    ensures Padded(s, |s| - |t|, r)
  {
    var k := |s| - |t|;
    forall i | k + |r| <= i < |s|
      ensures IsWhitespace(s[i])
    {
      assert s[i] == t[i - k];
    }
  }

  /** The value of `c` as a digit of a radix up to 36 (0-9, then a-z or A-Z); 36 for any other character. */
  function DigitValue(c: char): nat {
    if '0' <= c <= '9' then c as int - '0' as int
    else if 'a' <= c <= 'z' then c as int - 'a' as int + 10
    else if 'A' <= c <= 'Z' then c as int - 'A' as int + 10
    else 36
  }

  predicate IsDigitIn(c: char, radix: nat) {
    DigitValue(c) < radix
  }

  /** An ASCII decimal digit: what a regular expression's `\d` matches. */
  predicate IsDigit(c: char) {
    IsDigitIn(c, 10)
  }

  predicate AllDigits(s: string) {
    forall i :: 0 <= i < |s| ==> IsDigit(s[i])
  }

  /** A decimal numeral without superfluous leading zeros. */
  predicate Canonical(s: string) {
    s != [] && AllDigits(s) && (s[0] == '0' ==> |s| == 1)
  }

  /** The length of the longest prefix of `s` made of digits of `radix`. */
  function DigitsPrefix(s: string, radix: nat): (n: nat)
    ensures n <= |s|
    ensures forall i :: 0 <= i < n ==> IsDigitIn(s[i], radix)
    ensures n == |s| || !IsDigitIn(s[n], radix)
  {
    if s == [] || !IsDigitIn(s[0], radix) then 0 else 1 + DigitsPrefix(s[1..], radix)
  }

  /** The value of the numeral `s` in `radix`, most significant digit first. */
  function ValueIn(s: string, radix: nat): nat {
    if s == [] then 0 else ValueIn(s[..|s| - 1], radix) * radix + DigitValue(s[|s| - 1])
  }

  function DigitChar(d: nat): (c: char)
    requires d < 10
    ensures IsDigit(c) && DigitValue(c) == d
  {
    ('0' as int + d) as char
  }

  /** The decimal text of `n`, as JavaScript's String(n) writes an integer below 10^21. */
  function Decimal(n: nat): (s: string)
    ensures Canonical(s)
    ensures s[0] == '0' <==> n == 0
  {
    if n < 10 then [DigitChar(n)] else Decimal(n / 10) + [DigitChar(n % 10)]
  }

  /** String(i) for an integer `i` of magnitude below 10^21. */
  function IntText(i: int): string {
    if i < 0 then "-" + Decimal(-i) else Decimal(i)
  }

  /** Reading a numeral back gives the number it was written from. */
  lemma {:induction false} DecimalValue(n: nat)
    ensures ValueIn(Decimal(n), 10) == n
  {
    if n >= 10 {
      var s := Decimal(n);
      assert s[..|s| - 1] == Decimal(n / 10);
      DecimalValue(n / 10);
    }
  }

  lemma {:induction false} ValueAtLeastLeading(s: string)
    requires s != [] && AllDigits(s)
    ensures ValueIn(s, 10) >= DigitValue(s[0])
  {
    if |s| > 1 {
      ValueAtLeastLeading(s[..|s| - 1]);
    }
  }

  /** Writing the value of a canonical numeral gives the numeral back. */
  lemma {:induction false} ValueDecimal(s: string)
    requires Canonical(s)
    ensures Decimal(ValueIn(s, 10)) == s
  {
    var n := ValueIn(s, 10);
    var last := s[|s| - 1];
    if |s| == 1 {
      assert s[..0] == [];
      assert ValueIn(s[..0], 10) == 0;
      assert n == DigitValue(last);
      assert DigitChar(n) == last;
    } else {
      var p := s[..|s| - 1];
      assert p[0] == s[0];
      ValueAtLeastLeading(p);
      ValueDecimal(p);
      DivModBy(n, ValueIn(p, 10), DigitValue(last), 10);
      assert DigitChar(n % 10) == last;
      assert s == p + [last];
    }
  }

  /** Division with remainder has only one answer. */
  lemma DivModBy(a: int, q: int, r: int, m: int)
    requires m > 0 && a == q * m + r && 0 <= r < m
    ensures a / m == q && a % m == r
  {
    var q' := a / m;
    if q' > q {
      MulMono(q + 1, q', m);
    } else if q' < q {
      MulMono(q' + 1, q, m);
    }
  }

  lemma MulMono(x: int, y: int, m: int)
    requires x <= y && m > 0
    ensures x * m <= y * m
  {
  }

  /** Reading digits stops exactly where a run of digits meets a non-digit. */
  lemma {:induction false} DigitsPrefixOf(d: string, rest: string, radix: nat)
    requires forall i :: 0 <= i < |d| ==> IsDigitIn(d[i], radix)
    requires rest == [] || !IsDigitIn(rest[0], radix)
    ensures DigitsPrefix(d + rest, radix) == |d|
  {
    if d != [] {
      assert (d + rest)[0] == d[0] && (d + rest)[1..] == d[1..] + rest;
      DigitsPrefixOf(d[1..], rest, radix);
    }
  }

  /** parseInt's first steps: leading white space skipped, then an optional sign read and dropped. */
  function SplitSign(s: string): (bool, string) {
    var t := TrimStart(s);
    if t != [] && (t[0] == '-' || t[0] == '+') then (t[0] == '-', t[1..]) else (false, t)
  }

  /** parseInt's choice of radix when none is given: a "0x" or "0X" prefix selects 16 and is dropped. */
  function SplitRadix(u: string): (nat, string) {
    if |u| >= 2 && u[0] == '0' && (u[1] == 'x' || u[1] == 'X') then (16, u[2..]) else (10, u)
  }

  /** The value of the longest numeral in `radix` that `digits` starts with; None when it starts with none. */
  function LeadingValue(digits: string, radix: nat): Option<nat> {
    var n := DigitsPrefix(digits, radix);
    if n == 0 then None else Some(ValueIn(digits[..n], radix))
  }

  /** JavaScript's parseInt(s) with no radix argument; None stands for NaN. */
  function ParseInt(s: string): Option<int> {
    var sign := SplitSign(s);
    var base := SplitRadix(sign.1);
    var magnitude := LeadingValue(base.1, base.0);
    if magnitude.None? then None
    else
      var v: int := magnitude.value;
      if sign.0 then Some(-v) else Some(v)
  }

  /** A run of digits followed by a non-digit is read as exactly that run. */
  lemma LeadingValueOf(d: string, rest: string, radix: nat)
    requires d != [] && forall i :: 0 <= i < |d| ==> IsDigitIn(d[i], radix)
    requires rest == [] || !IsDigitIn(rest[0], radix)
    ensures LeadingValue(d + rest, radix) == Some(ValueIn(d, radix))
  {
    DigitsPrefixOf(d, rest, radix);
    assert (d + rest)[..|d|] == d;
  }

  lemma DigitIsNotWhitespace(c: char)
    requires IsDigit(c)
    ensures !IsWhitespace(c) && c != '-' && c != '+'
  {
  }

  /**
   * parseInt reads the leading decimal numeral and ignores what follows it,
   * unless a lone "0" is followed by "x", which makes the text hexadecimal.
   */
  lemma ParseIntPrefix(n: nat, rest: string)
    requires rest == [] || !IsDigit(rest[0])
    requires n == 0 && rest != [] ==> rest[0] != 'x' && rest[0] != 'X'
    ensures ParseInt(Decimal(n) + rest) == Some(n)
  {
    var d := Decimal(n);
    var s := d + rest;
    assert s[0] == d[0];
    DigitIsNotWhitespace(s[0]);
    assert SplitSign(s) == (false, s);
    assert SplitRadix(s) == (10, s) by {
      if |s| >= 2 && s[0] == '0' {
        assert n == 0 && |d| == 1 && s[1] == rest[0];
      }
    }
    LeadingValueOf(d, rest, 10);
    DecimalValue(n);
  }

  /** A minus sign followed by the numeral of a positive number reads as the negated number. */
  lemma ParseIntNegative(s: string, n: nat, rest: string)
    requires n > 0
    requires rest == [] || !IsDigit(rest[0])
    requires |s| > 0 && s[0] == '-' && s[1..] == Decimal(n) + rest
    ensures ParseInt(s) == Some(-(n as int))
  {
    var d := Decimal(n);
    var u := d + rest;
    assert !IsWhitespace('-');
    assert TrimStart(s) == s;
    assert SplitSign(s) == (true, u);
    assert u[0] == d[0];
    assert SplitRadix(u) == (10, u);
    LeadingValueOf(d, rest, 10);
    DecimalValue(n);
  }

  lemma ParseIntNegativeText(i: int, rest: string)
    requires i < 0
    requires rest == [] || !IsDigit(rest[0])
    ensures ParseInt(IntText(i) + rest) == Some(i)
  {
    var s := IntText(i) + rest;
    SignedText('-', Decimal(-i), rest);
    ParseIntNegative(s, -i, rest);
  }

  lemma SignedText(sign: char, d: string, rest: string)
    ensures ([sign] + d + rest)[0] == sign && ([sign] + d + rest)[1..] == d + rest
  {
  }

  /** parseInt inverts String on integers, whatever non-digit text follows the number. */
  lemma ParseIntTextPrefix(i: int, rest: string)
    requires rest == [] || !IsDigit(rest[0])
    requires i == 0 && rest != [] ==> rest[0] != 'x' && rest[0] != 'X'
    ensures ParseInt(IntText(i) + rest) == Some(i)
  {
    if i < 0 {
      ParseIntNegativeText(i, rest);
    } else {
      ParseIntPrefix(i, rest);
    }
  }

  /** parseInt inverts String on integers. */
  lemma ParseIntText(i: int)
    ensures ParseInt(IntText(i)) == Some(i)
  {
    ParseIntTextPrefix(i, []);
    assert IntText(i) + [] == IntText(i);
  }

  /** Text with no decimal digit anywhere is NaN. */
  lemma ParseIntNaN(s: string)
    requires forall i :: 0 <= i < |s| ==> !IsDigit(s[i])
    ensures ParseInt(s) == None
  {
    var u := SplitSign(s).1;
    SplitSignSuffix(s);
    assert u == [] || u[0] == s[|s| - |u|];
    assert u == [] || (!IsDigit(u[0]) && u[0] != '0');
  }

  /** What is left after the sign is a suffix of the input. */
  lemma SplitSignSuffix(s: string)
    ensures |SplitSign(s).1| <= |s| && SplitSign(s).1 == s[|s| - |SplitSign(s).1|..]
  {
    var t := TrimStart(s);
    var k := |s| - |t|;
    assert t == s[k..];
    if t != [] && (t[0] == '-' || t[0] == '+') {
      assert SplitSign(s).1 == t[1..] == s[k + 1..];
    } else {
      assert SplitSign(s).1 == t;
    }
  }
}
