// The IBAN check of the NL builder: the ISO 13616 test, which rearranges the account number,
// replaces letters by two-digit numbers and requires the remainder modulo 97 to be 1
// (ISO 7064 MOD 97-10).
module Iban {
  import opened Wrappers
  import opened Php
  import opened Document

  /** str_replace(' ', '', s): every space removed, nothing else. */
  function RemoveSpaces(s: string): (r: string)
    ensures |r| <= |s|
    ensures forall i :: 0 <= i < |r| ==> r[i] != ' '
  {
    if s == [] then [] else RemoveSpaces(s[..|s| - 1]) + (if s[|s| - 1] == ' ' then [] else [s[|s| - 1]])
  }

  /** The normalised account number: spaces removed, letters upper-cased. */
  function Normalize(iban: string): string
  {
    Upper(RemoveSpaces(iban))
  }

  /** What a character becomes: a letter its code minus 55 (A=10 … Z=35), anything else itself. */
  function CharCode(c: char): (r: string)
    ensures IsUpperLetter(c) ==> |r| == 2 && AllDigits(r) && DigitsValue(r) == c as int - 55
    ensures !IsAlpha(c) ==> r == [c]
  {
    if IsAlpha(c) then IntToString(c as int - 55) else [c]
  }

  /** Every character of s replaced by its code, in order. */
  function Convert(s: string): string
  {
    if s == [] then [] else Convert(s[..|s| - 1]) + CharCode(s[|s| - 1])
  }

  const NotWellFormed := "bcmod(): Argument #1 ($num1) is not well-formed"

  /** The text of a bcmath number after its optional sign. */
  function Unsigned(s: string): string
  {
    if s != [] && (s[0] == '+' || s[0] == '-') then s[1..] else s
  }

  /** bcmath's number syntax: an optional sign, digits, and an optional "." followed by digits
    * (any of the digit runs may be empty). */
  predicate WellFormed(s: string)
  {
    var u := Unsigned(s);
    var k := IndexOf(u, '.');
    AllDigits(u[..k]) && (k == |u| || AllDigits(u[k + 1..]))
  }

  /** The digits before the "." of a well-formed number. */
  function IntegerPart(s: string): string
    requires WellFormed(s)
    ensures AllDigits(IntegerPart(s))
  {
    var u := Unsigned(s);
    u[..IndexOf(u, '.')]
  }

  /** `(int)bcmod($s, '97')` on a well-formed number: the remainder takes the sign of the
    * dividend and the fraction is cut off at scale 0. */
  function BcMod97(s: string): int
    requires WellFormed(s)
  {
    var r := DigitsValue(IntegerPart(s)) % 97;
    if s != [] && s[0] == '-' then -r else r
  }

  /** isValidIban: too short is false; otherwise the rearranged, converted number must leave
    * remainder 1 modulo 97; bcmod throws a ValueError on text that is not a number. */
  function IbanCheck(iban: string): Result<bool, Exception>
  {
    var n := Normalize(iban);
    if |n| < 4 then Success(false)
    else
      var converted := Convert(n[4..] + n[..4]);
      if WellFormed(converted) then Success(BcMod97(converted) == 1)
      else Failure(ValueError(NotWellFormed))
  }

  /** The remainder modulo 97 computed digit by digit, as bcmod's long division does. */
  function Mod97(s: string): (r: nat)
    requires AllDigits(s)
    ensures r < 97
  {
    if s == [] then 0 else (Mod97(s[..|s| - 1]) * 10 + DigitValue(s[|s| - 1])) % 97
  }

  lemma {:induction false} Mod97IsRemainder(s: string)
    requires AllDigits(s)
    ensures Mod97(s) == DigitsValue(s) % 97
    decreases |s|
  {
    if s != [] {
      var init := s[..|s| - 1];
      assert AllDigits(init) by {
        assert forall i :: 0 <= i < |init| ==> init[i] == s[i];
      }
      Mod97IsRemainder(init);
      var v, d := DigitsValue(init), DigitValue(s[|s| - 1]);
      assert DigitsValue(s) == v * 10 + d;
      ModStep(v, d);
    }
  }

  lemma ModStep(v: nat, d: nat)
    ensures ((v % 97) * 10 + d) % 97 == (v * 10 + d) % 97
  {
    var q := v / 97;
    assert v * 10 + d == (v % 97) * 10 + d + q * 97 * 10;
    ModPlusMultiple((v % 97) * 10 + d, q * 10);
  }

  lemma ModPlusMultiple(a: nat, k: nat)
    ensures (a + k * 97) % 97 == a % 97
  {
  }

  /** isValidIban as the code runs it: the conversion loop, then bcmod's digit-by-digit division. */
  method IsValidIban(iban: string) returns (r: Result<bool, Exception>)
    ensures r == IbanCheck(iban)
  {
    var n := Normalize(iban);
    if |n| < 4 {
      return Success(false);
    }
    var converted := ConvertLoop(n[4..] + n[..4]);
    if !WellFormed(converted) {
      return Failure(ValueError(NotWellFormed));
    }
    var rem := Remainder97(IntegerPart(converted));
    Mod97IsRemainder(IntegerPart(converted));
    var negative := converted != [] && converted[0] == '-';
    r := Success(!negative && rem == 1);
  }

  /** The foreach over the characters that builds `$converted`. */
  method ConvertLoop(moved: string) returns (converted: string)
    ensures converted == Convert(moved)
  {
    converted := "";
    for i := 0 to |moved|
      invariant converted == Convert(moved[..i])
    {
      assert moved[..i + 1][..i] == moved[..i];
      converted := converted + CharCode(moved[i]);
    }
    assert moved[..|moved|] == moved;
  }

  /** Long division by 97, one digit at a time. */
  method Remainder97(digits: string) returns (rem: nat)
    requires AllDigits(digits)
    ensures rem == Mod97(digits)
  {
    rem := 0;
    for i := 0 to |digits|
      invariant AllDigits(digits[..i]) && rem == Mod97(digits[..i])
    {
      assert digits[..i + 1][..i] == digits[..i];
      rem := (rem * 10 + DigitValue(digits[i])) % 97;
    }
    assert digits[..|digits|] == digits;
  }

  // ------------------------------------------------------------ properties

  /** When the converted number is plain digits, the check is its remainder modulo 97 being 1. */
  lemma PlainDigitsCheck(iban: string)
    requires var n := Normalize(iban); |n| >= 4 && AllDigits(Convert(n[4..] + n[..4]))
    ensures var n := Normalize(iban);
      IbanCheck(iban) == Success(DigitsValue(Convert(n[4..] + n[..4])) % 97 == 1)
  {
    var n := Normalize(iban);
    var c := Convert(n[4..] + n[..4]);
    PlainDigitsNumber(c);
  }

  /** Plain digits are a well-formed number whose integer part is the whole text. */
  lemma PlainDigitsNumber(s: string)
    requires AllDigits(s)
    ensures WellFormed(s) && IntegerPart(s) == s
  {
    if s != [] {
      assert IsDigit(s[0]);
    }
    var k := IndexOf(s, '.');
    assert k < |s| ==> IsDigit(s[k]);
    assert s[..|s|] == s;
  }

  /** A number with a leading "-" never leaves remainder 1, so an account number that moves a
    * "-" to the front is rejected without an error: "NL91-1234" becomes "-1234232191". */
  lemma MinusFirstRejected(iban: string)
    requires var n := Normalize(iban); |n| > 4 && n[4] == '-' && WellFormed(Convert(n[4..] + n[..4]))
    ensures IbanCheck(iban) == Success(false)
  {
    var n := Normalize(iban);
    var m := n[4..] + n[..4];
    assert m[0] == '-';
    ConvertFirst(m);
  }

  /** A character that is neither a letter, a digit, a sign nor "." always raises the
    * ValueError. */
  lemma StrayCharacterRaises(iban: string, i: nat)
    requires var n := Normalize(iban); |n| >= 4 && i < |n|
    requires var c := Normalize(iban)[i]; !IsAlnum(c) && c != '+' && c != '-' && c != '.'
    ensures IbanCheck(iban) == Failure(ValueError(NotWellFormed))
  {
    var n := Normalize(iban);
    var m := n[4..] + n[..4];
    var j := if i >= 4 then i - 4 else |n| - 4 + i;
    assert m[j] == n[i];
    ConvertKeeps(m, j);
    var c := Convert(m);
    if WellFormed(c) {
      WellFormedChars(c);
      assert false;
    }
  }

  /** A character that is not a letter survives the conversion. */
  lemma {:induction false} ConvertKeeps(m: string, j: nat)
    requires j < |m| && !IsAlpha(m[j])
    ensures m[j] in Convert(m)
    decreases |m|
  {
    var init := m[..|m| - 1];
    if j == |m| - 1 {
      assert Convert(m) == Convert(init) + [m[j]];
    } else {
      assert init[j] == m[j];
      ConvertKeeps(init, j);
    }
  }

  /** A well-formed number holds only digits, a sign and a ".". */
  lemma WellFormedChars(s: string)
    requires WellFormed(s)
    ensures forall c :: c in s ==> IsDigit(c) || c == '+' || c == '-' || c == '.'
  {
    var u := Unsigned(s);
    var k := IndexOf(u, '.');
    forall c | c in s
      ensures IsDigit(c) || c == '+' || c == '-' || c == '.'
    {
      var j :| 0 <= j < |s| && s[j] == c;
      if u != s {
        if j > 0 {
          assert c == u[j - 1];
          CharOfNumber(u, k, j - 1);
        }
      } else {
        CharOfNumber(u, k, j);
      }
    }
  }

  lemma CharOfNumber(u: string, k: nat, j: nat)
    requires k == IndexOf(u, '.') && j < |u|
    requires AllDigits(u[..k]) && (k == |u| || AllDigits(u[k + 1..]))
    ensures IsDigit(u[j]) || u[j] == '.'
  {
    if j < k {
      assert u[j] == u[..k][j];
    } else if j > k {
      assert u[j] == u[k + 1..][j - k - 1];
    }
  }

  /** A character that is not a letter is copied to the front unchanged. */
  lemma {:induction false} ConvertFirst(m: string)
    requires m != [] && !IsAlpha(m[0])
    ensures Convert(m) != [] && Convert(m)[0] == m[0]
    decreases |m|
  {
    if |m| > 1 {
      var init := m[..|m| - 1];
      assert init[0] == m[0];
      ConvertFirst(init);
    }
  }

  /** The converted number is plain digits exactly when the account number holds only digits
    * and letters; only then is the check the plain remainder test. */
  lemma {:induction false} ConvertDigitsIff(s: string)
    requires forall i :: 0 <= i < |s| ==> !IsLowerLetter(s[i])
    ensures AllDigits(Convert(s)) <==> forall i :: 0 <= i < |s| ==> IsDigit(s[i]) || IsUpperLetter(s[i])
    decreases |s|
  {
    if s != [] {
      var init, c := s[..|s| - 1], s[|s| - 1];
      assert forall i :: 0 <= i < |init| ==> init[i] == s[i];
      ConvertDigitsIff(init);
      AllDigitsAppend(Convert(init), CharCode(c));
      assert AllDigits(CharCode(c)) <==> IsDigit(c) || IsUpperLetter(c) by {
        if !IsAlpha(c) {
          assert CharCode(c) == [c] && CharCode(c)[0] == c;
        }
      }
      assert (forall i :: 0 <= i < |s| ==> IsDigit(s[i]) || IsUpperLetter(s[i])) <==>
        (forall i :: 0 <= i < |init| ==> IsDigit(init[i]) || IsUpperLetter(init[i])) && (IsDigit(c) || IsUpperLetter(c));
    }
  }

  lemma AllDigitsAppend(a: string, b: string)
    ensures AllDigits(a + b) <==> AllDigits(a) && AllDigits(b)
  {
    if AllDigits(a + b) {
      assert forall i :: 0 <= i < |a| ==> a[i] == (a + b)[i];
      assert forall i :: 0 <= i < |b| ==> b[i] == (a + b)[|a| + i];
    }
  }

  /** Spaces anywhere in the input do not matter. */
  lemma SpacesIgnored(iban: string)
    ensures IbanCheck(RemoveSpaces(iban)) == IbanCheck(iban)
  {
    RemoveSpacesIdempotent(iban);
  }

  lemma {:induction false} RemoveSpacesIdempotent(s: string)
    ensures RemoveSpaces(RemoveSpaces(s)) == RemoveSpaces(s)
    decreases |s|
  {
    if s != [] {
      var init := s[..|s| - 1];
      RemoveSpacesIdempotent(init);
      RemoveSpacesAppend(RemoveSpaces(init), if s[|s| - 1] == ' ' then [] else [s[|s| - 1]]);
    }
  }

  lemma {:induction false} RemoveSpacesAppend(a: string, b: string)
    ensures RemoveSpaces(a + b) == RemoveSpaces(a) + RemoveSpaces(b)
    decreases |b|
  {
    if b == [] {
      assert a + b == a;
    } else {
      var init := b[..|b| - 1];
      assert (a + b)[..|a + b| - 1] == a + init;
      RemoveSpacesAppend(a, init);
    }
  }

  /** Letter case does not matter. */
  lemma CaseIgnored(iban: string)
    ensures IbanCheck(Upper(iban)) == IbanCheck(iban)
  {
    RemoveSpacesUpper(iban);
    UpperIdempotent(RemoveSpaces(iban));
  }

  lemma {:induction false} RemoveSpacesUpper(s: string)
    ensures RemoveSpaces(Upper(s)) == Upper(RemoveSpaces(s))
    decreases |s|
  {
    if s != [] {
      var init := s[..|s| - 1];
      assert Upper(s)[..|s| - 1] == Upper(init);
      RemoveSpacesUpper(init);
      UpperAppend(RemoveSpaces(init), if s[|s| - 1] == ' ' then [] else [s[|s| - 1]]);
    }
  }

  lemma UpperAppend(a: string, b: string)
    ensures Upper(a + b) == Upper(a) + Upper(b)
  {
  }

  /** ISO 7064 MOD 97-10 catches every single-digit error: two digit strings of the same length
    * that differ in exactly one position never leave the same remainder. */
  lemma SingleDigitErrorDetected(s: string, t: string, k: nat)
    requires AllDigits(s) && AllDigits(t) && |s| == |t| && k < |s|
    requires s[k] != t[k] && forall i :: 0 <= i < |s| && i != k ==> s[i] == t[i]
    ensures DigitsValue(s) % 97 != DigitsValue(t) % 97
  {
    var p := Pow10(|s| - 1 - k);
    DigitsDifference(s, t, k);
    var m := DigitValue(s[k]) - DigitValue(t[k]);
    assert DigitsValue(s) - DigitsValue(t) == m * p;
    NotMultipleOf97(m, |s| - 1 - k);
    if DigitsValue(s) % 97 == DigitsValue(t) % 97 {
      SameRemainderDivides(DigitsValue(s), DigitsValue(t));
    }
  }

  /** Changing the digit at position k changes the value by the digit difference times the
    * place value of k. */
  lemma {:induction false} DigitsDifference(s: string, t: string, k: nat)
    requires AllDigits(s) && AllDigits(t) && |s| == |t| && k < |s|
    requires forall i :: 0 <= i < |s| && i != k ==> s[i] == t[i]
    ensures DigitsValue(s) - DigitsValue(t) == (DigitValue(s[k]) - DigitValue(t[k])) * Pow10(|s| - 1 - k)
    decreases |s|
  {
    var si, ti := s[..|s| - 1], t[..|t| - 1];
    DigitsInit(s);
    DigitsInit(t);
    var m := DigitValue(s[k]) - DigitValue(t[k]);
    if k == |s| - 1 {
      assert si == ti;
    } else {
      assert forall i :: 0 <= i < |si| && i != k ==> si[i] == ti[i];
      DigitsDifference(si, ti, k);
      assert si[k] == s[k] && ti[k] == t[k];
      ShiftDifference(DigitsValue(si), DigitsValue(ti), DigitValue(s[|s| - 1]), m, Pow10(|si| - 1 - k));
    }
  }

  lemma DigitsInit(s: string)
    requires AllDigits(s) && s != []
    ensures AllDigits(s[..|s| - 1])
    ensures DigitsValue(s) == DigitsValue(s[..|s| - 1]) * 10 + DigitValue(s[|s| - 1])
  {
    assert forall i :: 0 <= i < |s| - 1 ==> s[..|s| - 1][i] == s[i];
  }

  lemma ShiftDifference(a: int, b: int, d: int, m: int, p: int)
    requires a - b == m * p
    ensures (a * 10 + d) - (b * 10 + d) == m * (10 * p)
  {
  }

  /** A non-zero digit difference times a power of ten is never a multiple of 97. */
  lemma {:induction false} NotMultipleOf97(m: int, e: nat)
    requires -9 <= m <= 9 && m != 0
    ensures (m * Pow10(e)) % 97 != 0
    decreases e
  {
    if e > 0 {
      NotMultipleOf97(m, e - 1);
      var x := m * Pow10(e - 1);
      assert m * Pow10(e) == 10 * x;
      TenInvertible(x);
    }
  }

  /** 10 has an inverse modulo 97 (10 × 68 = 680 = 7 × 97 + 1), so 97 divides 10x only when it
    * divides x. */
  lemma TenInvertible(x: int)
    requires x % 97 != 0
    ensures (10 * x) % 97 != 0
  {
    if (10 * x) % 97 == 0 {
      var q := (10 * x) / 97;
      assert 10 * x == 97 * q;
      assert x == 680 * x - 679 * x;
      assert x == 68 * (97 * q) - 97 * (7 * x);
      assert x == 97 * (68 * q - 7 * x);
      MultipleMod(68 * q - 7 * x);
    }
  }

  lemma MultipleMod(j: int)
    ensures (97 * j) % 97 == 0
  {
  }

  lemma SameRemainderDivides(a: nat, b: nat)
    requires a % 97 == b % 97
    ensures (a - b) % 97 == 0
  {
    assert a == (a / 97) * 97 + a % 97;
    assert b == (b / 97) * 97 + b % 97;
    assert a - b == 97 * (a / 97 - b / 97);
    MultipleMod(a / 97 - b / 97);
  }
}
