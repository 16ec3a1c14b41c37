// The behaviour of the PHP built-ins the library relies on, on ASCII text:
// strtoupper, trim, empty(), implode, ctype_*, the PCRE `\s` class and `$`
// anchor, numeric strings, (float) casts and number_format(x, 2, '.', '').
module Php {
  import opened Wrappers

  // ---------------------------------------------------------------- characters

  predicate IsDigit(c: char) { '0' <= c <= '9' }
  predicate IsUpperLetter(c: char) { 'A' <= c <= 'Z' }
  predicate IsLowerLetter(c: char) { 'a' <= c <= 'z' }
  /** ctype_alpha on one byte. */
  predicate IsAlpha(c: char) { IsUpperLetter(c) || IsLowerLetter(c) }
  /** ctype_alnum on one byte. */
  predicate IsAlnum(c: char) { IsAlpha(c) || IsDigit(c) }
  /** The PCRE class `\s`: space, tab, newline, vertical tab, form feed, carriage return. */
  predicate IsSpace(c: char) { c == ' ' || '\t' <= c <= '\r' }
  /** The characters trim() strips by default: " \t\n\r\0\x0B". */
  predicate IsTrimChar(c: char) { c == ' ' || c == '\t' || c == '\n' || c == '\r' || c == '\0' || c == 11 as char }

  predicate AllDigits(s: string) { forall i :: 0 <= i < |s| ==> IsDigit(s[i]) }
  predicate AllUpperLetters(s: string) { forall i :: 0 <= i < |s| ==> IsUpperLetter(s[i]) }
  /** ctype_alnum: false for the empty string. */
  predicate CtypeAlnum(s: string) { |s| > 0 && forall i :: 0 <= i < |s| ==> IsAlnum(s[i]) }
  predicate HasSpace(s: string) { exists i :: 0 <= i < |s| && IsSpace(s[i]) }

  // ---------------------------------------------------------------- strtoupper

  function UpperChar(c: char): char { if IsLowerLetter(c) then (c as int - 32) as char else c }

  /** strtoupper: ASCII lower-case letters become upper case, every other byte is kept. */
  function Upper(s: string): (r: string)
    ensures |r| == |s|
    ensures forall i :: 0 <= i < |s| ==> r[i] == UpperChar(s[i])
  {
    seq(|s|, i requires 0 <= i < |s| => UpperChar(s[i]))
  }

  lemma UpperIdempotent(s: string)
    ensures Upper(Upper(s)) == Upper(s)
  {
  }

  // ---------------------------------------------------------------- trim

  function TrimLeft(s: string): (r: string)
    ensures |r| <= |s|
    ensures r == [] || !IsTrimChar(r[0])
  {
    if s != [] && IsTrimChar(s[0]) then TrimLeft(s[1..]) else s
  }

  function TrimRight(s: string): (r: string)
    ensures |r| <= |s|
    ensures r == [] || (!IsTrimChar(r[|r| - 1]) && r[0] == s[0])
  {
    if s != [] && IsTrimChar(s[|s| - 1]) then TrimRight(s[..|s| - 1]) else s
  }

  /** trim() with its default character list. */
  function Trim(s: string): (r: string)
    ensures |r| <= |s|
    ensures r == [] || (!IsTrimChar(r[0]) && !IsTrimChar(r[|r| - 1]))
  {
    var l := TrimLeft(s);
    var r := TrimRight(l);
    assert r != [] ==> r[0] == l[0];
    r
  }

  /** A string that neither starts nor ends with a trimmed character is its own trim. */
  lemma TrimFixedPoint(s: string)
    requires s == [] || (!IsTrimChar(s[0]) && !IsTrimChar(s[|s| - 1]))
    ensures Trim(s) == s
  {
  }

  lemma TrimIdempotent(s: string)
    ensures Trim(Trim(s)) == Trim(s)
  {
    TrimFixedPoint(Trim(s));
  }

  /** strtoupper maps trimmed characters to themselves and no other character to one. */
  lemma TrimUpperCommute(s: string)
    requires s == [] || (!IsTrimChar(s[0]) && !IsTrimChar(s[|s| - 1]))
    ensures Trim(Upper(s)) == Upper(s)
  {
    TrimFixedPoint(Upper(s));
  }

  /** strtoupper never turns a character into a trimmed one or back. */
  lemma {:induction false} TrimLeftUpper(s: string)
    ensures TrimLeft(Upper(s)) == Upper(TrimLeft(s))
    decreases |s|
  {
    if s != [] {
      assert IsTrimChar(UpperChar(s[0])) == IsTrimChar(s[0]);
      if IsTrimChar(s[0]) {
        assert Upper(s)[1..] == Upper(s[1..]);
        TrimLeftUpper(s[1..]);
      }
    }
  }

  lemma {:induction false} TrimRightUpper(s: string)
    ensures TrimRight(Upper(s)) == Upper(TrimRight(s))
    decreases |s|
  {
    if s != [] {
      assert IsTrimChar(UpperChar(s[|s| - 1])) == IsTrimChar(s[|s| - 1]);
      if IsTrimChar(s[|s| - 1]) {
        assert Upper(s)[..|s| - 1] == Upper(s[..|s| - 1]);
        TrimRightUpper(s[..|s| - 1]);
      }
    }
  }

  /** Trimming and upper-casing can be done in either order. */
  lemma UpperTrimSwap(s: string)
    ensures Trim(Upper(s)) == Upper(Trim(s))
  {
    TrimLeftUpper(s);
    TrimRightUpper(TrimLeft(s));
  }

  // ---------------------------------------------------------------- empty() and truthiness

  /** empty() on a string: true for "" and for "0". */
  predicate EmptyString(s: string) { s == "" || s == "0" }

  /** empty() on a nullable string. */
  predicate EmptyOpt(o: Option<string>) { o.None? || EmptyString(o.value) }

  /** A value read from a PHP array: a missing key, null, a string or a number. */
  datatype Value = Absent | Null | Str(s: string) | Num(x: real)

  /** isset(): the key exists and its value is not null. */
  predicate IsSet(v: Value) { v.Str? || v.Num? }

  /** empty() on an array element. */
  predicate IsEmptyValue(v: Value)
  {
    match v
    case Absent => true
    case Null => true
    case Str(s) => EmptyString(s)
    case Num(x) => x == 0.0
  }

  /** The value of `$v ?? ''` as a string, for fields used as text. */
  function TextOr(v: Value, default: string): string
  {
    match v
    case Str(s) => s
    case Num(x) => NumberText(x)
    case _ => default
  }

  /** A value passed to a `?string` parameter: null stays null, a number becomes its text. */
  function ToText(v: Value): (r: Option<string>)
    ensures r.None? <==> !IsSet(v)
  {
    match v
    case Str(s) => Some(s)
    case Num(x) => Some(NumberText(x))
    case _ => None
  }

  /** The text PHP gives a number (`precision` 14): the shortest decimal that shows it exactly,
    * with no "." for a whole number and no trailing zeros, for every number that has one within
    * 14 decimals; other numbers are shown to two decimals here. */
  function NumberText(x: real): string
  {
    var a := if x < 0.0 then -x else x;
    var sign := if x < 0.0 then "-" else "";
    match DecimalScale(a, 0)
    case Some(k) => sign + PointText(Shifted(a, k).Floor, k)
    case None => FormatAmount(x)
  }

  /** x shifted k decimal places to the left. */
  function Shifted(x: real, k: nat): (r: real)
    ensures x >= 0.0 ==> r >= 0.0
  {
    if k == 0 then x else Shifted(x, k - 1) * 10.0
  }

  /** y shifted k decimal places to the right. */
  function Unshifted(y: real, k: nat): real
    decreases k
  {
    if k == 0 then y else Unshifted(y / 10.0, k - 1)
  }

  /** Shifting right undoes shifting left. */
  lemma {:induction false} UnshiftShift(x: real, k: nat)
    ensures Unshifted(Shifted(x, k), k) == x
  {
    if k > 0 {
      UnshiftShift(x, k - 1);
      assert Shifted(x, k) / 10.0 == Shifted(x, k - 1);
      UnshiftedStep(Shifted(x, k), k);
    }
  }

  lemma UnshiftedStep(y: real, k: nat)
    requires k > 0
    ensures Unshifted(y, k) == Unshifted(y / 10.0, k - 1)
  {
  }

  /** Shifting right by k places divides by 10^k. */
  lemma {:induction false} UnshiftedPow(y: real, k: nat)
    ensures Unshifted(y, k) == y / Pow10(k) as real
    decreases k
  {
    if k > 0 {
      UnshiftedPow(y / 10.0, k - 1);
      DivTen(y, Pow10(k - 1) as real);
    }
  }

  lemma DivTen(y: real, p: real)
    requires p > 0.0
    ensures y / 10.0 / p == y / (10.0 * p)
  {
  }

  predicate Whole(x: real) { x.Floor as real == x }

  /** The fewest decimals, from k up to 14, with which x is a whole number of units. */
  function DecimalScale(x: real, k: nat): (r: Option<nat>)
    ensures r.Some? ==> k <= r.value <= 14 && Whole(Shifted(x, r.value))
    decreases 15 - k
  {
    if k > 14 then None
    else if Whole(Shifted(x, k)) then Some(k)
    else DecimalScale(x, k + 1)
  }

  /** The scale found is the fewest decimals: one fewer does not make a whole number. */
  lemma {:induction false} ScaleMinimal(x: real, k: nat)
    requires DecimalScale(x, k).Some? && DecimalScale(x, k).value > k
    ensures !Whole(Shifted(x, DecimalScale(x, k).value - 1))
    decreases 15 - k
  {
    if DecimalScale(x, k + 1).value > k + 1 {
      ScaleMinimal(x, k + 1);
    }
  }

  /** n / 10^k written out: the integer part, then for k > 0 a "." and k fraction digits. */
  function PointText(n: nat, k: nat): string
  {
    if k == 0 then IntToString(n)
    else IntToString(DropDigits(n, k)) + "." + Digits(n, k)
  }

  /** n without its last k decimal digits. */
  function DropDigits(n: nat, k: nat): nat
  {
    if k == 0 then n else DropDigits(n / 10, k - 1)
  }

  // ---------------------------------------------------------------- decimal digits

  function Abs(n: int): nat { if n < 0 then -n else n }

  function DigitValue(c: char): nat requires IsDigit(c) { c as int - '0' as int }

  function DigitChar(d: nat): (c: char)
    requires d < 10
    ensures IsDigit(c) && DigitValue(c) == d
  {
    ('0' as int + d) as char
  }

  /** The number a string of decimal digits denotes (the empty string denotes 0). */
  function DigitsValue(s: string): nat
    requires AllDigits(s)
  {
    if s == [] then 0 else DigitsValue(s[..|s| - 1]) * 10 + DigitValue(s[|s| - 1])
  }

  function Pow10(k: nat): (p: nat)
    ensures p >= 1
  {
    if k == 0 then 1 else 10 * Pow10(k - 1)
  }

  /** Decimal rendering of a natural number, without leading zeros. */
  function IntToString(n: nat): (r: string)
    ensures |r| > 0 && AllDigits(r) && DigitsValue(r) == n
    ensures r[0] != '0' || n == 0
    ensures n < 10 ==> |r| == 1
  {
    if n < 10 then [DigitChar(n)]
    else
      var r := IntToString(n / 10) + [DigitChar(n % 10)];
      assert r[..|r| - 1] == IntToString(n / 10);
      r
  }

  /** The last w decimal digits of n, zero-padded. */
  function Digits(n: nat, w: nat): (r: string)
    ensures |r| == w && AllDigits(r)
  {
    if w == 0 then [] else Digits(n / 10, w - 1) + [DigitChar(n % 10)]
  }

  lemma {:induction false} DigitsValueOf(n: nat, w: nat)
    requires n < Pow10(w)
    ensures DigitsValue(Digits(n, w)) == n
    decreases w
  {
    if w > 0 {
      var r := Digits(n, w);
      assert r[..|r| - 1] == Digits(n / 10, w - 1);
      DigitsValueOf(n / 10, w - 1);
    }
  }

  // ---------------------------------------------------------------- numeric strings

  /** Removes PCRE whitespace from both ends (the whitespace a numeric string may carry). */
  function StripSpaces(s: string): (r: string)
    ensures |r| <= |s|
  {
    if s != [] && IsSpace(s[0]) then StripSpaces(s[1..])
    else if s != [] && IsSpace(s[|s| - 1]) then StripSpaces(s[..|s| - 1])
    else s
  }

  function IndexOf(s: string, c: char): (k: nat)
    ensures k <= |s|
    ensures k < |s| ==> s[k] == c
    ensures forall i :: 0 <= i < k ==> s[i] != c
  {
    if s == [] then 0 else if s[0] == c then 0 else 1 + IndexOf(s[1..], c)
  }

  predicate IsExponentMark(c: char) { c == 'e' || c == 'E' }

  function IndexOfExponent(t: string): (k: nat)
    ensures k <= |t|
    ensures k < |t| ==> IsExponentMark(t[k])
    ensures forall i :: 0 <= i < k ==> !IsExponentMark(t[i])
  {
    if t == [] then 0 else if IsExponentMark(t[0]) then 0 else 1 + IndexOfExponent(t[1..])
  }

  /** digits, digits `.` digits, `.` digits or digits `.`, read as an exact decimal. */
  function ParseMantissa(t: string): Option<real>
  {
    var k := IndexOf(t, '.');
    if k == |t| then
      if t != [] && AllDigits(t) then Some(DigitsValue(t) as real) else None
    else
      var ip, fp := t[..k], t[k + 1..];
      if AllDigits(ip) && AllDigits(fp) && (ip != [] || fp != []) then
        Some(DigitsValue(ip) as real + Unshifted(DigitsValue(fp) as real, |fp|))
      else None
  }

  /** The exponent after `e` or `E`: an optional sign and at least one digit. */
  function ParseExponent(t: string): Option<int>
  {
    if t != [] && (t[0] == '+' || t[0] == '-') then
      if |t| > 1 && AllDigits(t[1..]) then
        var n: int := DigitsValue(t[1..]);
        Some(if t[0] == '-' then -n else n)
      else None
    else if t != [] && AllDigits(t) then Some(DigitsValue(t))
    else None
  }

  /** m × 10^e, exactly. */
  function TimesPow10(m: real, e: int): real
  {
    if e >= 0 then Shifted(m, e) else Unshifted(m, -e)
  }

  /** A mantissa with an optional exponent, read as an exact number. */
  function ParseUnsigned(t: string): Option<real>
  {
    var k := IndexOfExponent(t);
    if k == |t| then ParseMantissa(t)
    else
      var m, e := ParseMantissa(t[..k]), ParseExponent(t[k + 1..]);
      if m.Some? && e.Some? then Some(TimesPow10(m.value, e.value)) else None
  }

  /** is_numeric on a string, with its value: surrounding whitespace, an optional sign, a
    * decimal mantissa and an optional exponent. */
  function ParseNumeric(s: string): Option<real>
  {
    var t := StripSpaces(s);
    if t == [] then None
    else if t[0] == '-' then
      (match ParseUnsigned(t[1..]) case Some(x) => Some(-x) case None => None)
    else if t[0] == '+' then ParseUnsigned(t[1..])
    else ParseUnsigned(t)
  }

  /** is_numeric on an array element. */
  predicate IsNumeric(v: Value)
  {
    match v
    case Num(_) => true
    case Str(s) => ParseNumeric(s).Some?
    case _ => false
  }

  /** The value of the longest numeric prefix of s[..k], if any. */
  function NumericPrefix(s: string, k: nat): Option<real>
    requires k <= |s|
  {
    if ParseNumeric(s[..k]).Some? then ParseNumeric(s[..k])
    else if k == 0 then None
    else NumericPrefix(s, k - 1)
  }

  /** The (float) cast: numbers as they are, strings by their leading numeric part, else 0. */
  function ToFloat(v: Value): (x: real)
    ensures v.Num? ==> x == v.x
    ensures v.Str? && IsNumeric(v) ==> x == ParseNumeric(v.s).value
    ensures !IsSet(v) ==> x == 0.0
  {
    match v
    case Num(y) => y
    case Str(s) =>
      assert s[..|s|] == s;
      (match NumericPrefix(s, |s|) case Some(y) => y case None => 0.0)
    case _ => 0.0
  }

  /** An operand of `*`: null counts as 0, a string needs a numeric prefix (PHP 8 throws a
    * TypeError for any other string). */
  function ArithOperand(v: Value): (r: Option<real>)
    ensures IsNumeric(v) ==> r == Some(ToFloat(v))
  {
    match v
    case Str(s) =>
      assert s[..|s|] == s;
      NumericPrefix(s, |s|)
    case _ => Some(ToFloat(v))
  }

  // ---------------------------------------------------------------- number_format(x, 2, '.', '')

  /** Rounds to a whole number of cents, halves away from zero. */
  function Cents(x: real): int
  {
    if x >= 0.0 then (x * 100.0 + 0.5).Floor else -((-x) * 100.0 + 0.5).Floor
  }

  lemma CentsClose(x: real)
    ensures -0.5 <= x * 100.0 - Cents(x) as real <= 0.5
  {
  }

  function TwoDigits(n: nat): (r: string)
    requires n < 100
    ensures |r| == 2 && AllDigits(r) && DigitsValue(r) == n
  {
    var hi, lo := DigitChar(n / 10), DigitChar(n % 10);
    assert [hi][..0] == [];
    assert DigitsValue([hi]) == n / 10;
    assert [hi, lo][..1] == [hi];
    assert DigitsValue([hi, lo]) == DigitsValue([hi]) * 10 + n % 10;
    [hi, lo]
  }

  /** "<sign><integer part>.<two digits>" for an amount held in cents; no "-" on zero. */
  function FormatCents(c: int): (r: string)
    ensures |r| >= 4 && r[|r| - 3] == '.'
    ensures AllDigits(r[|r| - 2..])
  {
    var u := UnsignedCents(Abs(c));
    if c < 0 then "-" + u else u
  }

  /** "<integer part>.<two digits>" for a non-negative number of cents. */
  function UnsignedCents(a: nat): (u: string)
    ensures |u| >= 4 && u[|u| - 3] == '.' && AllDigits(u[|u| - 2..])
    ensures IsDigit(u[0]) && IsDigit(u[|u| - 1])
  {
    var i, f := IntToString(a / 100), TwoDigits(a % 100);
    var u := i + "." + f;
    assert u[|u| - 2..] == f && u[0] == i[0];
    u
  }

  /** number_format($x, 2, '.', '') on an exact amount. */
  function FormatAmount(x: real): string
  {
    FormatCents(Cents(x))
  }

  /** The rendered amount reads back as the amount rounded to cents. */
  lemma FormatAmountParses(x: real)
    ensures ParseNumeric(FormatAmount(x)) == Some(Cents(x) as real / 100.0)
  {
    FormatCentsParses(Cents(x));
  }

  lemma {:induction false} DigitsValueAppend(a: string, b: string)
    requires AllDigits(a) && AllDigits(b)
    ensures AllDigits(a + b)
    ensures DigitsValue(a + b) == DigitsValue(a) * Pow10(|b|) + DigitsValue(b)
    decreases |b|
  {
    assert AllDigits(a + b);
    if b == [] {
      assert a + b == a;
    } else {
      var b' := b[..|b| - 1];
      var ab := a + b;
      assert ab[..|ab| - 1] == a + b';
      assert ab[|ab| - 1] == b[|b| - 1];
      DigitsValueAppend(a, b');
      var d := DigitValue(b[|b| - 1]);
      assert DigitsValue(ab) == DigitsValue(a + b') * 10 + d;
      assert DigitsValue(b) == DigitsValue(b') * 10 + d;
      assert Pow10(|b|) == Pow10(|b'|) * 10;
      MulShift(DigitsValue(a), Pow10(|b'|), DigitsValue(b'), d);
    }
  }

  lemma MulShift(x: nat, p: nat, y: nat, d: nat)
    ensures (x * p + y) * 10 + d == x * (p * 10) + (y * 10 + d)
  {
  }

  lemma StripSpacesNoSpace(s: string)
    requires s != [] && !IsSpace(s[0]) && !IsSpace(s[|s| - 1])
    ensures StripSpaces(s) == s
  {
  }

  /** "<digits>.<two digits>" reads back as an exact decimal. */
  lemma UnsignedCentsParse(q: nat, m: nat)
    requires m < 100
    ensures ParseUnsigned(IntToString(q) + "." + TwoDigits(m)) == Some(q as real + m as real / 100.0)
  {
    var i, f := IntToString(q), TwoDigits(m);
    DecimalParse(i, f);
    assert DigitsValue(i) == q && DigitsValue(f) == m && |f| == 2;
    assert Unshifted(m as real, 2) == m as real / 100.0 by {
      assert Unshifted(m as real, 2) == Unshifted(m as real / 10.0, 1) == Unshifted(m as real / 10.0 / 10.0, 0);
    }
  }

  /** Digits, ".", digits reads back as the integer part plus the fraction. */
  lemma DecimalParse(i: string, f: string)
    requires i != [] && AllDigits(i) && AllDigits(f)
    ensures ParseUnsigned(i + "." + f) == Some(DigitsValue(i) as real + Unshifted(DigitsValue(f) as real, |f|))
  {
    var u := i + "." + f;
    DotAfterDigits(i, f);
    NoExponentMark(i, f);
    var k := IndexOf(u, '.');
    assert k == |i| < |u|;
    assert u[..k] == i;
    assert u[k + 1..] == f;
    var v := DigitsValue(i) as real + Unshifted(DigitsValue(f) as real, |f|);
    assert ParseUnsigned(u) == Some(v);
  }

  /** Digits, ".", digits hold no exponent mark. */
  lemma NoExponentMark(i: string, f: string)
    requires AllDigits(i) && AllDigits(f)
    ensures IndexOfExponent(i + "." + f) == |i + "." + f|
  {
    var u := i + "." + f;
    forall j | 0 <= j < |u|
      ensures !IsExponentMark(u[j])
    {
      if j < |i| { assert u[j] == i[j]; } else if j > |i| { assert u[j] == f[j - |i| - 1]; }
    }
  }

  /** The first "." after a run of digits is the one that ends it. */
  lemma {:induction false} DotAfterDigits(i: string, f: string)
    requires AllDigits(i)
    ensures IndexOf(i + "." + f, '.') == |i|
    decreases |i|
  {
    var u := i + "." + f;
    if i != [] {
      assert u[0] == i[0] && u[1..] == i[1..] + "." + f;
      DotAfterDigits(i[1..], f);
    }
  }

  lemma CentsSplit(a: nat)
    ensures (a / 100) as real + (a % 100) as real / 100.0 == a as real / 100.0
  {
    assert a == (a / 100) * 100 + a % 100;
  }

  /** A bare decimal reads as itself, and with a leading "-" as its negation. */
  lemma SignedParse(u: string, v: real)
    requires u != [] && IsDigit(u[0]) && IsDigit(u[|u| - 1])
    requires ParseUnsigned(u) == Some(v)
    ensures ParseNumeric(u) == Some(v)
    ensures ParseNumeric("-" + u) == Some(-v)
  {
    StripSpacesNoSpace(u);
    var t := "-" + u;
    StripSpacesNoSpace(t);
    assert t[1..] == u;
  }

  /** The unsigned rendering of a number of cents reads back as a / 100. */
  lemma UnsignedCentsText(a: nat)
    ensures ParseUnsigned(UnsignedCents(a)) == Some(a as real / 100.0)
  {
    UnsignedCentsParse(a / 100, a % 100);
    CentsSplit(a);
  }

  /** The rendering of an amount reads back, as a numeric string, as that amount. */
  lemma {:induction false} FormatCentsParses(c: int)
    ensures ParseNumeric(FormatCents(c)) == Some(c as real / 100.0)
  {
    var a := Abs(c);
    var u := UnsignedCents(a);
    var v := a as real / 100.0;
    UnsignedCentsText(a);
    SignedParse(u, v);
    if c < 0 {
      assert FormatCents(c) == "-" + u;
      NegatedCents(c);
      assert ParseNumeric(FormatCents(c)) == Some(-v);
    } else {
      assert FormatCents(c) == u;
      assert ParseNumeric(FormatCents(c)) == Some(v);
      assert v == c as real / 100.0;
    }
  }

  lemma NegatedCents(c: int)
    requires c < 0
    ensures c as real / 100.0 == -((-c) as real / 100.0)
  {
  }

  // ---------------------------------------------------------------- number text reads back

  /** A run of digits reads as the number it denotes. */
  lemma DigitsParse(u: string)
    requires u != [] && AllDigits(u)
    ensures ParseUnsigned(u) == Some(DigitsValue(u) as real)
  {
  }

  /** The point text of n reads back as n / 10^k. */
  lemma PointTextParses(n: nat, k: nat)
    ensures ParseUnsigned(PointText(n, k)) == Some(Unshifted(n as real, k))
    ensures var u := PointText(n, k); u != [] && IsDigit(u[0]) && IsDigit(u[|u| - 1])
  {
    if k == 0 {
      DigitsParse(IntToString(n));
    } else {
      FractionParse(n, k);
    }
  }

  lemma FractionParse(n: nat, k: nat)
    requires k > 0
    ensures ParseUnsigned(PointText(n, k)) == Some(Unshifted(n as real, k))
    ensures var u := PointText(n, k); u != [] && IsDigit(u[0]) && IsDigit(u[|u| - 1])
  {
    var i, f := IntToString(DropDigits(n, k)), Digits(n, k);
    assert PointText(n, k) == i + "." + f;
    DecimalParse(i, f);
    SplitValue(n, k);
    var u := i + "." + f;
    assert u[0] == i[0] && u[|u| - 1] == f[k - 1];
  }

  /** The digits dropped plus the last k digits shifted right make n shifted right. */
  lemma SplitValue(n: nat, k: nat)
    ensures DropDigits(n, k) as real + Unshifted(DigitsValue(Digits(n, k)) as real, k) == Unshifted(n as real, k)
  {
    SplitDigits(n, k);
    ShiftSplit(DropDigits(n, k), DigitsValue(Digits(n, k)), k, n);
  }

  /** The digits dropped and the last k digits make up n again. */
  lemma {:induction false} SplitDigits(n: nat, k: nat)
    ensures DropDigits(n, k) * Pow10(k) + DigitsValue(Digits(n, k)) == n
    decreases k
  {
    if k > 0 {
      var f := Digits(n, k);
      SplitDigits(n / 10, k - 1);
      assert f[..k - 1] == Digits(n / 10, k - 1);
      assert DigitsValue(f) == DigitsValue(Digits(n / 10, k - 1)) * 10 + n % 10;
      MulShift(DropDigits(n / 10, k - 1), Pow10(k - 1), DigitsValue(Digits(n / 10, k - 1)), n % 10);
    }
  }

  /** i + f / 10^k == n / 10^k when i × 10^k + f == n. */
  lemma ShiftSplit(i: nat, f: nat, k: nat, n: nat)
    requires i * Pow10(k) + f == n
    ensures i as real + Unshifted(f as real, k) == Unshifted(n as real, k)
  {
    UnshiftedPow(f as real, k);
    UnshiftedPow(n as real, k);
    SumOver(i, f, Pow10(k), n);
  }

  lemma SumOver(i: nat, f: nat, p: nat, n: nat)
    requires p > 0 && i * p + f == n
    ensures i as real + f as real / p as real == n as real / p as real
  {
  }

  function AbsReal(x: real): real { if x < 0.0 then -x else x }

  /** The text of a number with an exact decimal form of at most 14 decimals reads back, as a
    * numeric string, as that number. */
  lemma NumberTextParses(x: real)
    requires DecimalScale(AbsReal(x), 0).Some?
    ensures ParseNumeric(NumberText(x)) == Some(x)
  {
    var a := AbsReal(x);
    var k := DecimalScale(a, 0).value;
    var n := Shifted(a, k).Floor;
    var u := PointText(n, k);
    assert NumberText(x) == if x < 0.0 then "-" + u else u;
    assert Whole(Shifted(a, k));
    UnshiftShift(a, k);
    PointTextParses(n, k);
    SignedParse(u, a);
  }

  /** The text is the shortest: a whole number has no ".", and a fraction ends in a non-zero
    * digit. */
  lemma NumberTextShortest(x: real)
    requires DecimalScale(AbsReal(x), 0).Some?
    ensures Whole(x) ==> '.' !in NumberText(x)
    ensures '.' in NumberText(x) ==> NumberText(x)[|NumberText(x)| - 1] != '0'
  {
    var a := AbsReal(x);
    var k := DecimalScale(a, 0).value;
    var n := Shifted(a, k).Floor;
    var u := PointText(n, k);
    var t := NumberText(x);
    assert t == if x < 0.0 then "-" + u else u;
    WholeAbs(x);
    if k == 0 {
      NoPointInSigned(x < 0.0, u);
    } else {
      ScaleMinimal(a, 0);
      LastDigitNonZero(a, k);
      PointTextLast(n, k);
    }
  }

  lemma NoPointInSigned(negative: bool, u: string)
    requires AllDigits(u)
    ensures '.' !in (if negative then "-" + u else u)
  {
    var t := if negative then "-" + u else u;
    assert forall j :: 0 <= j < |t| ==> t[j] == '-' || IsDigit(t[j]);
  }

  /** The point text of n ends in the last digit of n. */
  lemma PointTextLast(n: nat, k: nat)
    requires k > 0
    ensures var u := PointText(n, k); u != [] && u[|u| - 1] == DigitChar(n % 10)
  {
    var f := Digits(n, k);
    assert PointText(n, k) == IntToString(DropDigits(n, k)) + "." + f;
    assert f[k - 1] == DigitChar(n % 10);
  }

  /** A number is whole exactly when its magnitude is. */
  lemma WholeAbs(x: real)
    ensures Whole(x) <==> Whole(AbsReal(x))
  {
    if x < 0.0 {
      assert (-x).Floor == -x.Floor || (-x).Floor == -x.Floor - 1;
    }
  }

  /** The last digit of a whole number that is not whole one place to the right is not 0. */
  lemma LastDigitNonZero(a: real, k: nat)
    requires k > 0 && Whole(Shifted(a, k)) && !Whole(Shifted(a, k - 1))
    ensures Shifted(a, k).Floor % 10 != 0
  {
    TenthWhole(a, k);
  }

  /** A whole number of units ending in 0 is still whole one place to the right. */
  lemma TenthWhole(a: real, k: nat)
    requires k > 0
    ensures Whole(Shifted(a, k)) && Shifted(a, k).Floor % 10 == 0 ==> Whole(Shifted(a, k - 1))
  {
    var n := Shifted(a, k).Floor;
    if Whole(Shifted(a, k)) && n % 10 == 0 {
      var m := n / 10;
      assert Shifted(a, k) == Shifted(a, k - 1) * 10.0;
      assert Shifted(a, k - 1) == m as real;
    }
  }

  lemma IntToStringLast(n: nat)
    ensures var s := IntToString(n); s[|s| - 1] == DigitChar(n % 10)
  {
  }

  /** A whole number and a number with one decimal are shown as PHP shows them. */
  lemma NumberTextExamples()
    ensures NumberText(21.0) == "21"
    ensures NumberText(1.5) == "1.5"
  {
    assert DecimalScale(21.0, 0) == Some(0) by {
      assert Shifted(21.0, 0) == 21.0;
    }
    assert IntToString(21) == "21";
    assert DecimalScale(1.5, 0) == Some(1) by {
      assert Shifted(1.5, 0) == 1.5 && !Whole(1.5);
      assert Pow10(1) == 10;
      assert Shifted(1.5, 1) == 15.0;
    }
    assert PointText(15, 1) == "1.5" by {
      assert IntToString(1) == "1";
      assert Digits(15, 1) == "5";
    }
  }

  /** A numeric string may carry an exponent: "1e3" is 1000, as a numeric string and as a float. */
  lemma ExponentNumeric()
    ensures ParseNumeric("1e3") == Some(1000.0) && ToFloat(Str("1e3")) == 1000.0
  {
    var s := "1e3";
    StripSpacesNoSpace(s);
    assert IndexOfExponent(s) == 1;
    assert s[..1] == "1" && s[2..] == "3";
    assert ParseMantissa("1") == Some(1.0) by {
      assert IndexOf("1", '.') == 1;
      assert DigitsValue("1") == 1 by { assert "1"[..0] == []; }
    }
    assert ParseExponent("3") == Some(3) by {
      assert DigitsValue("3") == 3 by { assert "3"[..0] == []; }
    }
    assert Shifted(1.0, 3) == 1000.0;
    assert ParseUnsigned(s) == Some(1000.0);
  }

  /** ... and "2.5E-1" is 0.25: a negative exponent divides. */
  lemma NegativeExponentNumeric()
    ensures ParseNumeric("2.5E-1") == Some(0.25)
  {
    var t := "2.5E-1";
    StripSpacesNoSpace(t);
    assert IndexOfExponent(t) == 3;
    assert t[..3] == "2.5" && t[4..] == "-1";
    TwoPointFive();
    assert "-1"[1..] == "1";
    assert DigitsValue("1") == 1 by { assert "1"[..0] == []; }
    assert ParseExponent(t[4..]) == Some(-1);
    assert Unshifted(2.5, 1) == 0.25;
    assert ParseUnsigned(t) == Some(0.25);
  }

  lemma TwoPointFive()
    ensures ParseMantissa("2.5") == Some(2.5)
  {
    var m := "2.5";
    assert IndexOf(m, '.') == 1;
    assert m[..1] == "2" && m[2..] == "5";
    assert DigitsValue("2") == 2 by { assert "2"[..0] == []; }
    assert DigitsValue("5") == 5 by { assert "5"[..0] == []; }
    assert Unshifted(5.0, 1) == 0.5;
  }

  // ---------------------------------------------------------------- implode

  /** implode($sep, $parts). */
  function Join(sep: string, parts: seq<string>): string
  {
    if parts == [] then ""
    else if |parts| == 1 then parts[0]
    else parts[0] + sep + Join(sep, parts[1..])
  }

  lemma {:induction false} JoinSnoc(sep: string, parts: seq<string>, last: string)
    requires parts != []
    ensures Join(sep, parts + [last]) == Join(sep, parts) + sep + last
    decreases |parts|
  {
    if |parts| == 1 {
      assert parts + [last] == [parts[0], last];
    } else {
      assert (parts + [last])[1..] == parts[1..] + [last];
      JoinSnoc(sep, parts[1..], last);
    }
  }

  function SumLengths(parts: seq<string>): nat
  {
    if parts == [] then 0 else |parts[0]| + SumLengths(parts[1..])
  }

  /** The joined string holds every part and one separator between each two. */
  lemma {:induction false} JoinLength(sep: string, parts: seq<string>)
    requires parts != []
    ensures |Join(sep, parts)| == SumLengths(parts) + (|parts| - 1) * |sep|
    decreases |parts|
  {
    if |parts| > 1 {
      JoinLength(sep, parts[1..]);
    }
  }

  // ---------------------------------------------------------------- preg_match anchors

  /** A pattern `^…$`: PCRE's `$` also matches just before a final newline. */
  predicate Anchored(body: string -> bool, s: string)
  {
    body(s) || (|s| > 0 && s[|s| - 1] == '\n' && body(s[..|s| - 1]))
  }

  /** For a string that does not end in a newline, `^…$` is a whole-string match. */
  lemma AnchoredPlain(body: string -> bool, s: string)
    requires s == [] || s[|s| - 1] != '\n'
    ensures Anchored(body, s) == body(s)
  {
  }
}
