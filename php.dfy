/** The slices of PHP's runtime that the client relies on: a nullable string,
    `sprintf` with `%s` conversions, the rendering of an `int` as text, and the
    `(int)` cast of a string or of null, on a 64-bit build. */
module Php {

  /** `string|null`. */
  datatype Option<T> = None | Some(value: T)

  const IntMin: int := -0x8000_0000_0000_0000
  const IntMax: int := 0x7FFF_FFFF_FFFF_FFFF

  predicate IsDigit(c: char) { '0' <= c <= '9' }

  /** The characters the numeric-string reader skips before a number. */
  predicate IsSpace(c: char)
  {
    c == ' ' || c == '\t' || c == '\n' || c == '\r' || c == '\U{B}' || c == '\U{C}'
  }

  predicate AllDigits(s: string) { forall i :: 0 <= i < |s| ==> IsDigit(s[i]) }

  // ---------------------------------------------------------------------------
  // sprintf

  /** `lit` prepended to a formatted result, failure passing through. */
  function Prefixed(lit: string, o: Option<string>): Option<string>
  {
    match o
    case None => None
    case Some(s) => Some(lit + s)
  }

  /** `sprintf(template, ...args)` for templates whose conversions are `%s` (the next
      argument, verbatim) and `%%` (a literal percent sign). Too few arguments is
      an error (None); surplus arguments are ignored. Any other conversion is
      outside this model and also gives None. */
  function Format(template: string, args: seq<string>): Option<string>
    decreases |template|
  {
    if template == [] then Some([])
    else if template[0] != '%' then Prefixed([template[0]], Format(template[1..], args))
    else if |template| >= 2 && template[1] == '%' then Prefixed("%", Format(template[2..], args))
    else if |template| >= 2 && template[1] == 's' then
      if args == [] then None else Prefixed(args[0], Format(template[2..], args[1..]))
    else None
  }

  /** Text without a percent sign is copied unchanged and consumes no argument. */
  lemma {:induction false} FormatLiteral(lit: string, rest: string, args: seq<string>)
    requires '%' !in lit
    ensures Format(lit + rest, args) == Prefixed(lit, Format(rest, args))
  {
    if lit == [] {
      assert lit + rest == rest;
      match Format(rest, args)
      case None =>
      case Some(s) => assert lit + s == s;
    } else {
      assert (lit + rest)[0] == lit[0];
      assert (lit + rest)[1..] == lit[1..] + rest;
      assert lit == [lit[0]] + lit[1..];
      FormatLiteral(lit[1..], rest, args);
      match Format(rest, args)
      case None =>
      case Some(s) => assert [lit[0]] + (lit[1..] + s) == lit + s;
    }
  }

  /** A `%s` conversion is replaced by the next argument, which is then consumed;
      with no argument left, formatting fails. */
  lemma FormatConversion(rest: string, args: seq<string>)
    ensures Format("%s" + rest, args) ==
      if args == [] then None else Prefixed(args[0], Format(rest, args[1..]))
  {
    assert ("%s" + rest)[2..] == rest;
  }

  /** Literal text and then a `%s`: the text, then the next argument. */
  lemma LiteralThenConversion(lit: string, rest: string, args: seq<string>)
    requires '%' !in lit
    ensures Format(lit + ("%s" + rest), args) ==
      if args == [] then None else Prefixed(lit + args[0], Format(rest, args[1..]))
  {
    FormatLiteral(lit, "%s" + rest, args);
    FormatConversion(rest, args);
    if args != [] {
      match Format(rest, args[1..])
      case None =>
      case Some(t) => assert lit + (args[0] + t) == lit + args[0] + t;
    }
  }

  // ---------------------------------------------------------------------------
  // int to string

  function DigitChar(d: nat): (c: char)
    requires d < 10
    ensures IsDigit(c)
  {
    "0123456789"[d]
  }

  function DigitValue(c: char): (d: nat)
    requires IsDigit(c)
    ensures d < 10
  {
    c as int - '0' as int
  }

  /** The decimal digits of `n`, most significant first, with no leading zero. */
  function NatToString(n: nat): (s: string)
    ensures |s| > 0 && AllDigits(s)
    ensures |s| > 1 ==> s[0] != '0'
  {
    if n < 10 then [DigitChar(n)] else NatToString(n / 10) + [DigitChar(n % 10)]
  }

  /** How PHP renders an `int` as a string, as `%s` and string conversion do. */
  function IntToString(n: int): (s: string)
  {
    if n < 0 then "-" + NatToString(-n) else NatToString(n)
  }

  /** Distinct integers render as distinct strings. */
  lemma IntToStringInjective(a: int, b: int)
    requires IntToString(a) == IntToString(b)
    ensures a == b
  {
    SignedDigitsOfIntToString(a, []);
    SignedDigitsOfIntToString(b, []);
    assert IntToString(a) + [] == IntToString(a);
    assert IntToString(b) + [] == IntToString(b);
  }

  /** `(string) $v` for `$v` a string or null: null becomes the empty string. */
  function StringCast(v: Option<string>): (s: string)
  {
    match v
    case None => ""
    case Some(s) => s
  }

  // ---------------------------------------------------------------------------
  // (int) cast

  /** `s` without its leading whitespace. */
  function SkipSpace(s: string): (r: string)
    ensures |r| <= |s| && r == s[|s| - |r|..]
    ensures r == [] || !IsSpace(r[0])
    ensures forall i :: 0 <= i < |s| - |r| ==> IsSpace(s[i])
  {
    if s != [] && IsSpace(s[0]) then SkipSpace(s[1..]) else s
  }

  /** The longest prefix of `s` made of decimal digits. */
  function DigitPrefix(s: string): (r: string)
    ensures AllDigits(r)
  {
    if s != [] && IsDigit(s[0]) then [s[0]] + DigitPrefix(s[1..]) else []
  }

  /** `DigitPrefix` is a prefix, of digits only, that stops at the first non-digit. */
  lemma {:induction false} DigitPrefixIsLongestRun(s: string)
    ensures var r := DigitPrefix(s);
      |r| <= |s| && r == s[..|r|] && (|r| == |s| || !IsDigit(s[|r|]))
  {
    if s != [] && IsDigit(s[0]) {
      DigitPrefixIsLongestRun(s[1..]);
      var tail := DigitPrefix(s[1..]);
      assert s[..|tail| + 1] == [s[0]] + s[1..][..|tail|];
    }
  }

  /** The number a string of decimal digits denotes (0 for no digits). */
  function DigitsValue(d: string): (n: nat)
    requires AllDigits(d)
  {
    if d == [] then 0 else DigitsValue(d[..|d| - 1]) * 10 + DigitValue(d[|d| - 1])
  }

  /** A value outside the 64-bit range is clamped to its nearest end. */
  function Saturate(n: int): (r: int)
    ensures IntMin <= r <= IntMax
    ensures IntMin <= n <= IntMax ==> r == n
    ensures n > IntMax ==> r == IntMax
    ensures n < IntMin ==> r == IntMin
  {
    if n < IntMin then IntMin else if n > IntMax then IntMax else n
  }

  /** The optionally signed run of digits `t` starts with, without bound. */
  function SignedDigits(t: string): (n: int)
  {
    if t != [] && (t[0] == '-' || t[0] == '+') then
      var v: int := DigitsValue(DigitPrefix(t[1..]));
      if t[0] == '-' then -v else v
    else
      DigitsValue(DigitPrefix(t))
  }

  /** The integer a string begins with, as the `(int)` cast reads it: leading
      whitespace is skipped, then an optional sign, then as many decimal digits as
      follow; the rest is ignored, no digits give 0, and a value beyond 64 bits
      saturates. */
  function StringToInt(s: string): (n: int)
  {
    Saturate(SignedDigits(SkipSpace(s)))
  }

  /** `(int) $v` for `$v` a string or null. */
  function IntCast(v: Option<string>): (n: int)
    ensures IntMin <= n <= IntMax
    ensures v == None || v == Some("") ==> n == 0
  {
    match v
    case None => 0
    case Some(s) => StringToInt(s)
  }

  lemma {:induction false} DigitsValueOfNatToString(n: nat)
    ensures DigitsValue(NatToString(n)) == n
  {
    var s := NatToString(n);
    if n >= 10 {
      DigitsValueOfNatToString(n / 10);
      assert s[..|s| - 1] == NatToString(n / 10);
    }
  }

  lemma {:induction false} DigitPrefixStops(d: string, rest: string)
    requires AllDigits(d)
    requires rest == [] || !IsDigit(rest[0])
    ensures DigitPrefix(d + rest) == d
  {
    if d != [] {
      assert (d + rest)[1..] == d[1..] + rest;
      DigitPrefixStops(d[1..], rest);
    } else {
      assert d + rest == rest;
    }
  }

  /** A rendered integer followed by a non-digit: its digits are read back
      and no whitespace is skipped. */
  lemma SignedDigitsOfIntToString(n: int, rest: string)
    requires rest == [] || !IsDigit(rest[0])
    ensures SignedDigits(IntToString(n) + rest) == n
    ensures SkipSpace(IntToString(n) + rest) == IntToString(n) + rest
  {
    if n < 0 {
      NegativeRendering(n, rest);
    } else {
      NonNegativeRendering(n, rest);
    }
  }

  lemma NegativeRendering(n: int, rest: string)
    requires n < 0
    requires rest == [] || !IsDigit(rest[0])
    ensures SignedDigits(IntToString(n) + rest) == n
    ensures SkipSpace(IntToString(n) + rest) == IntToString(n) + rest
  {
    var m: nat := -n;
    var u := NatToString(m) + rest;
    NegativeConcat(n, m, rest, u);
    MinusRendered(m, rest, u);
  }

  lemma MinusRendered(m: nat, rest: string, u: string)
    requires u == NatToString(m) + rest
    requires rest == [] || !IsDigit(rest[0])
    ensures SignedDigits("-" + u) == -(m as int)
    ensures SkipSpace("-" + u) == "-" + u
  {
    DigitsReadBack(m, rest);
    MinusDigits(u, m);
  }

  lemma NonNegativeRendering(n: int, rest: string)
    requires n >= 0
    requires rest == [] || !IsDigit(rest[0])
    ensures SignedDigits(IntToString(n) + rest) == n
    ensures SkipSpace(IntToString(n) + rest) == IntToString(n) + rest
  {
    var u := NatToString(n) + rest;
    assert IntToString(n) + rest == u;
    PlainRendered(n, rest, u);
  }

  lemma PlainRendered(m: nat, rest: string, u: string)
    requires u == NatToString(m) + rest
    requires rest == [] || !IsDigit(rest[0])
    ensures SignedDigits(u) == m
    ensures SkipSpace(u) == u
  {
    DigitsReadBack(m, rest);
    assert u[0] == NatToString(m)[0];
    PlainDigits(u, m);
  }

  lemma NegativeConcat(n: int, m: nat, rest: string, u: string)
    requires n < 0 && m == -n && u == NatToString(m) + rest
    ensures IntToString(n) + rest == "-" + u
  {
    assert IntToString(n) == "-" + NatToString(m);
  }

  /** The digits of a rendered natural, followed by a non-digit, read back as it. */
  lemma DigitsReadBack(m: nat, rest: string)
    requires rest == [] || !IsDigit(rest[0])
    ensures DigitsValue(DigitPrefix(NatToString(m) + rest)) == m
  {
    DigitsValueOfNatToString(m);
    DigitPrefixStops(NatToString(m), rest);
  }

  lemma MinusDigits(u: string, m: nat)
    requires DigitsValue(DigitPrefix(u)) == m
    ensures SignedDigits("-" + u) == -(m as int) && SkipSpace("-" + u) == "-" + u
  {
    assert ("-" + u)[1..] == u;
  }

  lemma PlainDigits(u: string, m: nat)
    requires u != [] && IsDigit(u[0])
    requires DigitsValue(DigitPrefix(u)) == m
    ensures SignedDigits(u) == m && SkipSpace(u) == u
  {
    NoSpaceBeforeDigit(u);
  }

  lemma NoSpaceBeforeDigit(u: string)
    requires u != [] && !IsSpace(u[0])
    ensures SkipSpace(u) == u
  {
  }

  /** The cast reads back the integer at the start of a string, whatever text
      follows it that is not a further digit: `"120 reviews"` gives 120. Values
      beyond 64 bits come back saturated. */
  lemma CastReadsLeadingInt(n: int, rest: string)
    requires rest == [] || !IsDigit(rest[0])
    ensures StringToInt(IntToString(n) + rest) == Saturate(n)
  {
    SignedDigitsOfIntToString(n, rest);
  }

  /** Rendering an in-range `int` and casting it back is the identity; so an `int`
      and its decimal rendering behave alike under both operations. */
  lemma CastOfIntToString(n: int)
    requires IntMin <= n <= IntMax
    ensures StringToInt(IntToString(n)) == n
  {
    CastReadsLeadingInt(n, []);
    assert IntToString(n) + [] == IntToString(n);
  }

  /** Leading whitespace does not change what the cast reads. */
  lemma {:induction false} CastSkipsSpace(ws: string, s: string)
    requires forall i :: 0 <= i < |ws| ==> IsSpace(ws[i])
    ensures StringToInt(ws + s) == StringToInt(s)
  {
    if ws != [] {
      assert (ws + s)[1..] == ws[1..] + s;
      CastSkipsSpace(ws[1..], s);
    } else {
      assert ws + s == s;
    }
  }

  /** A string with no digit where the number should start casts to 0. */
  lemma CastOfNonNumeric(s: string)
    requires var t := SkipSpace(s);
      t == [] || (!IsDigit(t[0]) && (t[0] == '-' || t[0] == '+' ==> |t| == 1 || !IsDigit(t[1])))
    ensures StringToInt(s) == 0
  {
  }
}
