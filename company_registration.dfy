// National company-registration numbers: Dutch KVK, Belgian KBO, Luxembourg RCS,
// French SIREN/SIRET and German Handelsregister numbers.
module CompanyRegistration {
  import opened Wrappers
  import opened Php

  /** The result array; a key the source leaves out of the array and a key set to null
    * are both None. `regType` is the 'type' key. */
  datatype Registration = Registration(
    valid: bool,
    country: string,
    countryName: Option<string>,
    number: string,
    formatted: Option<string>,
    regType: Option<string>,
    typeName: Option<string>,
    siren: Option<string>,
    nic: Option<string>,
    registrationNumber: Option<string>,
    error: Option<string>)

  // ---------------------------------------------------------------- cleanNumber

  /** The class `[\s.\-]`. */
  predicate IsSeparator(c: char) { IsSpace(c) || c == '.' || c == '-' }

  /** preg_replace('/[\s.\-]/', '', s): s without its separators, the rest in order. */
  function RemoveSeparators(s: string): (r: string)
    ensures |r| <= |s|
    ensures forall i :: 0 <= i < |r| ==> !IsSeparator(r[i])
  {
    if s == [] then []
    else (if IsSeparator(s[0]) then [] else [s[0]]) + RemoveSeparators(s[1..])
  }

  /** cleanNumber: trim, then drop every whitespace character, dot and dash. */
  function CleanNumber(number: string): (r: string)
    ensures forall i :: 0 <= i < |r| ==> !IsSeparator(r[i])
  {
    RemoveSeparators(Trim(number))
  }

  /** The separators are dropped wherever they stand: cleaning distributes over concatenation. */
  lemma {:induction false} RemoveSeparatorsAppend(a: string, b: string)
    ensures RemoveSeparators(a + b) == RemoveSeparators(a) + RemoveSeparators(b)
    decreases |a|
  {
    if a == [] {
      assert a + b == b;
    } else {
      assert (a + b)[0] == a[0] && (a + b)[1..] == a[1..] + b;
      RemoveSeparatorsAppend(a[1..], b);
    }
  }

  /** A string without separators is left as it is. */
  lemma {:induction false} RemoveSeparatorsNone(s: string)
    requires forall i :: 0 <= i < |s| ==> !IsSeparator(s[i])
    ensures RemoveSeparators(s) == s
    decreases |s|
  {
    if s != [] {
      RemoveSeparatorsNone(s[1..]);
    }
  }

  lemma RemoveSeparatorsSpace()
    ensures RemoveSeparators(" ") == []
  {
    assert " "[1..] == [];
  }

  /** A number made of letters and digits only is left as it is. */
  lemma CleanAlnum(s: string)
    requires forall i :: 0 <= i < |s| ==> IsAlnum(s[i])
    ensures CleanNumber(s) == s
  {
    RemoveSeparatorsNone(s);
    TrimFixedPoint(s);
  }

  // ---------------------------------------------------------------- patterns

  /** `[0-9]{k}` as a whole-string body. */
  predicate DigitRun(s: string, k: nat) { |s| == k && AllDigits(s) }

  /** `[A-Z][0-9]{6}` as a whole-string body. */
  predicate LetterSixDigits(s: string) { |s| == 7 && IsUpperLetter(s[0]) && AllDigits(s[1..]) }

  /** `(HR[AB])\s?([0-9]{1,6})` against the whole of s, with its two captures. */
  function HrBody(s: string): (r: Option<(string, string)>)
    ensures r.Some? ==> (r.value.0 == "HRA" || r.value.0 == "HRB") && 1 <= |r.value.1| <= 6 && AllDigits(r.value.1)
  {
    if |s| >= 4 && s[..2] == "HR" && (s[2] == 'A' || s[2] == 'B') then
      var rest := if IsSpace(s[3]) then s[4..] else s[3..];
      if 1 <= |rest| <= 6 && AllDigits(rest) then Some((s[..3], rest)) else None
    else None
  }

  /** preg_match('/^(HR[AB])\s?([0-9]{1,6})$/', s, $matches), `$` matching before a final newline too. */
  function HrMatch(s: string): Option<(string, string)>
  {
    if HrBody(s).Some? then HrBody(s)
    else if |s| > 0 && s[|s| - 1] == '\n' then HrBody(s[..|s| - 1])
    else None
  }

  // ---------------------------------------------------------------- per-country checks

  const KvkName := "Kamer van Koophandel"
  const KboName := "Kruispuntbank van Ondernemingen"
  const RcsName := "Registre de Commerce et des Sociétés"
  const SirenName := "Système d'Identification du Répertoire des Entreprises"
  const SiretName := "Système d'Identification du Répertoire des Établissements"
  const HraName := "Handelsregister Abteilung A (Personengesellschaften)"
  const HrbName := "Handelsregister Abteilung B (Kapitalgesellschaften)"

  /** Dutch KVK number: eight digits. */
  function ValidateNL(number: string): Registration
  {
    var valid := Anchored(s => DigitRun(s, 8), number);
    Registration(valid, "NL", Some("Netherlands"), number, if valid then Some(number) else None,
      Some("KVK"), Some(KvkName), None, None, None,
      if valid then None else Some("Invalid format. Expected 8 digits."))
  }

  /** The KBO check: the last two digits equal 97 minus the first eight modulo 97. */
  predicate KboChecksum(number: string)
    requires |number| >= 10 && AllDigits(number[..10])
  {
    assert AllDigits(number[..8]) && AllDigits(number[8..10]) by {
      assert forall i :: 0 <= i < 8 ==> number[..8][i] == number[..10][i];
      assert forall i :: 0 <= i < 2 ==> number[8..10][i] == number[..10][8 + i];
    }
    DigitsValue(number[8..10]) == 97 - DigitsValue(number[..8]) % 97
  }

  /** Belgian KBO number: ten digits whose last two are the mod-97 check of the first eight. */
  function ValidateBE(number: string): Registration
  {
    if !Anchored(s => DigitRun(s, 10), number) then
      Registration(false, "BE", Some("Belgium"), number, None, Some("KBO"), Some(KboName), None, None, None,
        Some("Invalid format. Expected 10 digits."))
    else
      assert AllDigits(number[..10]) by {
        if !DigitRun(number, 10) {
          assert number[..|number| - 1][..10] == number[..10];
        }
      }
      var valid := KboChecksum(number);
      Registration(valid, "BE", Some("Belgium"), number, if valid then Some(number) else None,
        Some("KBO"), Some(KboName), None, None, None,
        if valid then None else Some("Invalid checksum. KBO number failed mod97 validation."))
  }

  /** Luxembourg RCS number: one letter and six digits, compared in upper case. */
  function ValidateLU(number: string): Registration
  {
    var upper := Upper(number);
    var valid := Anchored(LetterSixDigits, upper);
    Registration(valid, "LU", Some("Luxembourg"), number, if valid then Some(upper) else None,
      Some("RCS"), Some(RcsName), None, None, None,
      if valid then None else Some("Invalid format. Expected 1 letter + 6 digits (e.g., B123456)."))
  }

  /** French SIREN (nine digits) or SIRET (fourteen digits: the SIREN and a five-digit NIC). */
  function ValidateFR(number: string): Registration
  {
    if |number| == 9 then
      var valid := Anchored(s => DigitRun(s, 9), number);
      Registration(valid, "FR", Some("France"), number, if valid then Some(number) else None,
        Some("SIREN"), Some(SirenName), None, None, None,
        if valid then None else Some("Invalid SIREN format. Expected 9 digits."))
    else if |number| == 14 then
      var valid := Anchored(s => DigitRun(s, 14), number);
      Registration(valid, "FR", Some("France"), number, if valid then Some(number) else None,
        Some("SIRET"), Some(SiretName),
        if valid then Some(number[..9]) else None, if valid then Some(number[9..14]) else None, None,
        if valid then None else Some("Invalid SIRET format. Expected 14 digits."))
    else
      Registration(false, "FR", Some("France"), number, None, None, None, None, None, None,
        Some("Invalid format. Expected 9 digits (SIREN) or 14 digits (SIRET)."))
  }

  /** German Handelsregister number: HRA or HRB, an optional space and one to six digits. */
  function ValidateDE(number: string): Registration
  {
    var upper := Upper(number);
    match HrMatch(upper)
    case Some((kind, digits)) =>
      Registration(true, "DE", Some("Germany"), number, Some(kind + " " + digits), Some(kind),
        Some(if kind == "HRA" then HraName else HrbName), None, None, Some(digits), None)
    case None =>
      Registration(false, "DE", Some("Germany"), number, None, None, None, None, None, None,
        Some("Invalid format. Expected HRA or HRB followed by 1-6 digits (e.g., HRB 12345)."))
  }

  /** validate: the country code is trimmed and upper-cased, the number cleaned, and the
    * country's check applied; any other country is unsupported. */
  function Validate(number: string, countryCode: string): Registration
  {
    var cc := Upper(Trim(countryCode));
    var clean := CleanNumber(number);
    if cc == "NL" then ValidateNL(clean)
    else if cc == "BE" then ValidateBE(clean)
    else if cc == "LU" then ValidateLU(clean)
    else if cc == "FR" then ValidateFR(clean)
    else if cc == "DE" then ValidateDE(clean)
    else Registration(false, cc, None, number, None, None, None, None, None, None,
      Some("Unsupported country code: " + cc))
  }

  // ---------------------------------------------------------------- getSupportedCountries

  datatype CountryInfo = CountryInfo(name: string, regType: string, typeName: string, format: string, example: string)

  /** getSupportedCountries: the five countries validate() dispatches on. */
  function GetSupportedCountries(): (r: map<string, CountryInfo>)
    ensures r.Keys == {"NL", "BE", "LU", "FR", "DE"}
  {
    map[
      "NL" := CountryInfo("Netherlands", "KVK", KvkName, "8 digits", "12345678"),
      "BE" := CountryInfo("Belgium", "KBO", KboName, "10 digits with mod97 checksum", "0681845662"),
      "LU" := CountryInfo("Luxembourg", "RCS", RcsName, "1 letter + 6 digits", "B123456"),
      "FR" := CountryInfo("France", "SIREN/SIRET", "SIREN (9 digits) or SIRET (14 digits)", "9 or 14 digits",
        "732829320 or 73282932000074"),
      "DE" := CountryInfo("Germany", "Handelsregister",
        "HRA (Personengesellschaften) or HRB (Kapitalgesellschaften)", "HRA/HRB + 1-6 digits", "HRB 12345")
    ]
  }

  // ---------------------------------------------------------------- properties

  /** A cleaned number never ends in a newline, so `^…$` on it is a whole-string match. */
  lemma CleanIsPlain(number: string, body: string -> bool)
    ensures Anchored(body, CleanNumber(number)) == body(CleanNumber(number))
  {
    var c := CleanNumber(number);
    assert c == [] || !IsSeparator(c[|c| - 1]);
    AnchoredPlain(body, c);
  }

  /** Upper-casing keeps the newline where it is. */
  lemma UpperCleanIsPlain(number: string, body: string -> bool)
    ensures Anchored(body, Upper(CleanNumber(number))) == body(Upper(CleanNumber(number)))
  {
    var c := CleanNumber(number);
    assert c == [] || !IsSeparator(c[|c| - 1]);
    AnchoredPlain(body, Upper(c));
  }

  /** Which check validate applies, by the trimmed upper-cased country code. */
  lemma DispatchNL(number: string, countryCode: string)
    requires Upper(Trim(countryCode)) == "NL"
    ensures Validate(number, countryCode) == ValidateNL(CleanNumber(number))
  {
  }

  lemma DispatchBE(number: string, countryCode: string)
    requires Upper(Trim(countryCode)) == "BE"
    ensures Validate(number, countryCode) == ValidateBE(CleanNumber(number))
  {
    assert "BE" != "NL";
  }

  lemma DispatchLU(number: string, countryCode: string)
    requires Upper(Trim(countryCode)) == "LU"
    ensures Validate(number, countryCode) == ValidateLU(CleanNumber(number))
  {
    assert "LU" != "NL" && "LU" != "BE";
  }

  lemma DispatchFR(number: string, countryCode: string)
    requires Upper(Trim(countryCode)) == "FR"
    ensures Validate(number, countryCode) == ValidateFR(CleanNumber(number))
  {
    assert "FR" != "NL" && "FR" != "BE" && "FR" != "LU";
  }

  lemma DispatchDE(number: string, countryCode: string)
    requires Upper(Trim(countryCode)) == "DE"
    ensures Validate(number, countryCode) == ValidateDE(CleanNumber(number))
  {
    assert "DE" != "NL" && "DE" != "BE" && "DE" != "LU" && "DE" != "FR";
  }

  /** The country is dispatched on after trimming and upper-casing: exactly the listed
    * countries are supported, and any other code is reported with the original number. */
  lemma SupportedIffListed(number: string, countryCode: string)
    ensures var cc := Upper(Trim(countryCode)); var r := Validate(number, countryCode);
      r.country == cc
      && (r.countryName.Some? <==> cc in GetSupportedCountries())
      && (cc in GetSupportedCountries() ==> r.countryName == Some(GetSupportedCountries()[cc].name) && r.number == CleanNumber(number))
      && (cc !in GetSupportedCountries() ==>
            !r.valid && r.regType.None? && r.number == number && r.error == Some("Unsupported country code: " + cc))
  {
    if Upper(Trim(countryCode)) in GetSupportedCountries() {
      ListedCountry(number, countryCode);
    } else {
      UnlistedCountry(number, countryCode);
    }
  }

  lemma ListedCountry(number: string, countryCode: string)
    requires Upper(Trim(countryCode)) in GetSupportedCountries()
    ensures var cc := Upper(Trim(countryCode)); var r := Validate(number, countryCode);
      r.country == cc && r.countryName == Some(GetSupportedCountries()[cc].name) && r.number == CleanNumber(number)
  {
    var cc := Upper(Trim(countryCode));
    SupportedNames();
    if cc == "NL" {
      DispatchNL(number, countryCode);
    } else if cc == "BE" {
      DispatchBE(number, countryCode);
    } else if cc == "LU" {
      DispatchLU(number, countryCode);
    } else if cc == "FR" {
      DispatchFR(number, countryCode);
    } else {
      DispatchDE(number, countryCode);
    }
  }

  lemma UnlistedCountry(number: string, countryCode: string)
    requires Upper(Trim(countryCode)) !in GetSupportedCountries()
    ensures var cc := Upper(Trim(countryCode));
      Validate(number, countryCode) == Registration(false, cc, None, number, None, None, None, None, None, None,
                                                    Some("Unsupported country code: " + cc))
  {
    var cc := Upper(Trim(countryCode));
    assert cc != "NL" && cc != "BE" && cc != "LU" && cc != "FR" && cc != "DE";
  }

  /** The country names getSupportedCountries lists. */
  lemma SupportedNames()
    ensures var m := GetSupportedCountries();
      m["NL"].name == "Netherlands" && m["BE"].name == "Belgium" && m["LU"].name == "Luxembourg"
      && m["FR"].name == "France" && m["DE"].name == "Germany"
  {
  }

  /** A result reports a formatted number exactly when it accepts, and an error exactly when it rejects. */
  predicate Consistent(r: Registration)
  {
    (r.valid <==> r.formatted.Some?) && (r.valid <==> r.error.None?)
  }

  lemma ConsistentNL(c: string) ensures Consistent(ValidateNL(c)) {}
  lemma ConsistentBE(c: string) ensures Consistent(ValidateBE(c)) {}
  lemma ConsistentLU(c: string) ensures Consistent(ValidateLU(c)) {}
  lemma ConsistentFR(c: string) ensures Consistent(ValidateFR(c)) {}
  lemma ConsistentDE(c: string) ensures Consistent(ValidateDE(c)) {}

  /** Every check reports a formatted number exactly when it accepts, and an error exactly when it rejects. */
  lemma FormattedIffValid(number: string, countryCode: string)
    ensures var r := Validate(number, countryCode); (r.valid <==> r.formatted.Some?) && (r.valid <==> r.error.None?)
  {
    var cc := Upper(Trim(countryCode));
    var c := CleanNumber(number);
    if cc == "NL" {
      DispatchNL(number, countryCode);
      ConsistentNL(c);
    } else if cc == "BE" {
      DispatchBE(number, countryCode);
      ConsistentBE(c);
    } else if cc == "LU" {
      DispatchLU(number, countryCode);
      ConsistentLU(c);
    } else if cc == "FR" {
      DispatchFR(number, countryCode);
      ConsistentFR(c);
    } else if cc == "DE" {
      DispatchDE(number, countryCode);
      ConsistentDE(c);
    }
  }

  /** NL: valid iff the cleaned number is eight digits; formatted is that number. */
  lemma ValidNL(number: string, countryCode: string)
    requires Upper(Trim(countryCode)) == "NL"
    ensures var c := CleanNumber(number); var r := Validate(number, countryCode);
      (r.valid <==> DigitRun(c, 8)) && r.formatted == (if r.valid then Some(c) else None) && r.regType == Some("KVK")
  {
    DispatchNL(number, countryCode);
    CleanIsPlain(number, s => DigitRun(s, 8));
  }

  /** BE: other than ten digits is a format error; ten digits are valid iff the mod-97 check holds,
    * and otherwise a checksum error. */
  lemma ValidBE(number: string, countryCode: string)
    requires Upper(Trim(countryCode)) == "BE"
    ensures var c := CleanNumber(number); var r := Validate(number, countryCode);
      (!DigitRun(c, 10) ==> !r.valid && r.error == Some("Invalid format. Expected 10 digits."))
      && (DigitRun(c, 10) ==> (r.valid <==> KboChecksum(c)))
      && (DigitRun(c, 10) && !KboChecksum(c) ==> r.error == Some("Invalid checksum. KBO number failed mod97 validation."))
      && r.formatted == (if r.valid then Some(c) else None)
  {
    DispatchBE(number, countryCode);
    CleanIsPlain(number, s => DigitRun(s, 10));
  }

  /** LU: valid iff the upper-cased number is one letter and six digits; formatted is upper case. */
  lemma ValidLU(number: string, countryCode: string)
    requires Upper(Trim(countryCode)) == "LU"
    ensures var u := Upper(CleanNumber(number)); var r := Validate(number, countryCode);
      (r.valid <==> LetterSixDigits(u)) && r.formatted == (if r.valid then Some(u) else None)
  {
    DispatchLU(number, countryCode);
    UpperCleanIsPlain(number, LetterSixDigits);
  }

  /** FR: nine characters are a SIREN, fourteen a SIRET split into SIREN and NIC, any other length
    * is rejected without a type. */
  lemma ValidFR(number: string, countryCode: string)
    requires Upper(Trim(countryCode)) == "FR"
    ensures var c := CleanNumber(number); var r := Validate(number, countryCode);
      (|c| == 9 ==> r.regType == Some("SIREN") && (r.valid <==> AllDigits(c)))
      && (|c| == 14 ==>
            r.regType == Some("SIRET") && (r.valid <==> AllDigits(c))
            && (r.valid ==> r.siren == Some(c[..9]) && r.nic == Some(c[9..])))
      && (|c| != 9 && |c| != 14 ==> !r.valid && r.regType.None?)
  {
    var c := CleanNumber(number);
    DispatchFR(number, countryCode);
    CleanIsPlain(number, s => DigitRun(s, 9));
    CleanIsPlain(number, s => DigitRun(s, 14));
    assert |c| == 14 ==> c[9..14] == c[9..];
  }

  /** DE: valid iff the upper-cased number is HRA or HRB followed by one to six digits;
    * formatted puts one space between the two parts. */
  lemma ValidDE(number: string, countryCode: string)
    requires Upper(Trim(countryCode)) == "DE"
    ensures var u := Upper(CleanNumber(number)); var r := Validate(number, countryCode);
      (r.valid <==> HrBody(u).Some?)
      && (r.valid ==>
            var (kind, digits) := HrBody(u).value;
            r.formatted == Some(kind + " " + digits) && r.regType == Some(kind)
            && r.typeName == Some(if kind == "HRA" then HraName else HrbName) && r.registrationNumber == Some(digits))
  {
    var c := CleanNumber(number);
    DispatchDE(number, countryCode);
    UpperCleanNoNewline(number);
    HrMatchPlain(Upper(c));
    DEWrites(c);
  }

  /** A cleaned number, upper-cased, does not end in a newline. */
  lemma UpperCleanNoNewline(number: string)
    ensures var u := Upper(CleanNumber(number)); |u| == 0 || u[|u| - 1] != '\n'
  {
    var c := CleanNumber(number);
    if |c| > 0 {
      assert !IsSeparator(c[|c| - 1]);
    }
  }

  /** What the German check writes, in terms of the match on the upper-cased number. */
  lemma DEWrites(c: string)
    ensures var m := HrMatch(Upper(c)); var r := ValidateDE(c);
      (r.valid <==> m.Some?)
      && (r.valid ==>
            var (kind, digits) := m.value;
            r.formatted == Some(kind + " " + digits) && r.regType == Some(kind)
            && r.typeName == Some(if kind == "HRA" then HraName else HrbName) && r.registrationNumber == Some(digits))
  {
  }

  /** Text that does not end in a newline matches `^…$` only as a whole. */
  lemma HrMatchPlain(s: string)
    requires |s| == 0 || s[|s| - 1] != '\n'
    ensures HrMatch(s) == HrBody(s)
  {
  }

  // ---------------------------------------------------------------- formatted numbers revalidate

  /** Dropping the one space between two separator-free parts joins them. */
  lemma RemoveSpaceBetween(a: string, b: string)
    requires forall i :: 0 <= i < |a| ==> !IsSeparator(a[i])
    requires forall i :: 0 <= i < |b| ==> !IsSeparator(b[i])
    ensures RemoveSeparators(a + " " + b) == a + b
  {
    RemoveSeparatorsNone(a);
    RemoveSeparatorsNone(b);
    RemoveSeparatorsSpace();
    RemoveSeparatorsAppend(a, " ");
    assert RemoveSeparators(a + " ") == a by {
      assert a + [] == a;
    }
    RemoveSeparatorsAppend(a + " ", b);
  }

  /** `kind digits` cleans to `kinddigits`. */
  lemma HrFormattedCleans(kind: string, digits: string)
    requires (kind == "HRA" || kind == "HRB") && 1 <= |digits| <= 6 && AllDigits(digits)
    ensures CleanNumber(kind + " " + digits) == kind + digits
  {
    var f := kind + " " + digits;
    assert !IsTrimChar(f[0]) && !IsTrimChar(f[|f| - 1]);
    TrimFixedPoint(f);
    RemoveSpaceBetween(kind, digits);
  }

  /** `kinddigits` matches again, with the same two parts. */
  lemma HrJoinedMatches(kind: string, digits: string)
    requires (kind == "HRA" || kind == "HRB") && 1 <= |digits| <= 6 && AllDigits(digits)
    ensures Upper(kind + digits) == kind + digits && HrBody(kind + digits) == Some((kind, digits))
  {
    var g := kind + digits;
    assert g[..2] == "HR" && g[..3] == kind && g[3..] == digits;
  }

  /** Validating the formatted number again accepts it and formats it to itself. */
  predicate Revalidates(number: string, countryCode: string)
    requires Validate(number, countryCode).formatted.Some?
  {
    var f := Validate(number, countryCode).formatted.value;
    Validate(f, countryCode).valid && Validate(f, countryCode).formatted == Some(f)
  }

  /** A formatted number validates again, to the same formatted number. */
  lemma FormattedRevalidates(number: string, countryCode: string)
    requires Validate(number, countryCode).valid
    ensures Validate(number, countryCode).formatted.Some?
    ensures Revalidates(number, countryCode)
  {
    var cc := Upper(Trim(countryCode));
    FormattedIffValid(number, countryCode);
    if cc == "NL" {
      RevalidatesNL(number, countryCode);
    } else if cc == "BE" {
      RevalidatesBE(number, countryCode);
    } else if cc == "LU" {
      RevalidatesLU(number, countryCode);
    } else if cc == "FR" {
      RevalidatesFR(number, countryCode);
    } else if cc == "DE" {
      RevalidatesDE(number, countryCode);
    }
  }

  lemma RevalidatesNL(number: string, countryCode: string)
    requires Upper(Trim(countryCode)) == "NL" && Validate(number, countryCode).valid && Validate(number, countryCode).formatted.Some?
    ensures Revalidates(number, countryCode)
  {
    var f := Validate(number, countryCode).formatted.value;
    ValidNL(number, countryCode);
    CleanAlnum(f);
    ValidNL(f, countryCode);
  }

  lemma RevalidatesBE(number: string, countryCode: string)
    requires Upper(Trim(countryCode)) == "BE" && Validate(number, countryCode).valid && Validate(number, countryCode).formatted.Some?
    ensures Revalidates(number, countryCode)
  {
    var f := Validate(number, countryCode).formatted.value;
    ValidBE(number, countryCode);
    CleanAlnum(f);
    ValidBE(f, countryCode);
  }

  lemma RevalidatesLU(number: string, countryCode: string)
    requires Upper(Trim(countryCode)) == "LU" && Validate(number, countryCode).valid && Validate(number, countryCode).formatted.Some?
    ensures Revalidates(number, countryCode)
  {
    var c := CleanNumber(number);
    var f := Validate(number, countryCode).formatted.value;
    ValidLU(number, countryCode);
    var u := Upper(c);
    assert f == u;
    CleanAlnum(u);
    UpperIdempotent(c);
    ValidLU(f, countryCode);
  }

  lemma RevalidatesFR(number: string, countryCode: string)
    requires Upper(Trim(countryCode)) == "FR" && Validate(number, countryCode).valid && Validate(number, countryCode).formatted.Some?
    ensures Revalidates(number, countryCode)
  {
    var f := Validate(number, countryCode).formatted.value;
    ValidFR(number, countryCode);
    CleanAlnum(f);
    ValidFR(f, countryCode);
  }

  lemma RevalidatesDE(number: string, countryCode: string)
    requires Upper(Trim(countryCode)) == "DE" && Validate(number, countryCode).valid && Validate(number, countryCode).formatted.Some?
    ensures Revalidates(number, countryCode)
  {
    var c := CleanNumber(number);
    var f := Validate(number, countryCode).formatted.value;
    ValidDE(number, countryCode);
    var (kind, digits) := HrBody(Upper(c)).value;
    HrFormattedCleans(kind, digits);
    HrJoinedMatches(kind, digits);
    ValidDE(f, countryCode);
  }
}

// The example numbers getSupportedCountries documents, each run through validate().
module CompanyRegistrationExamples {
  import opened Wrappers
  import opened Php
  import opened CompanyRegistration

  /** Each of the five country codes is its own trimmed upper-case form. */
  lemma CodeNL()
    ensures Upper(Trim("NL")) == "NL"
  {
    assert TrimLeft("NL") == "NL" && TrimRight("NL") == "NL" && Upper("NL") == "NL";
  }

  lemma CodeBE()
    ensures Upper(Trim("BE")) == "BE"
  {
    assert TrimLeft("BE") == "BE" && TrimRight("BE") == "BE" && Upper("BE") == "BE";
  }

  lemma CodeLU()
    ensures Upper(Trim("LU")) == "LU"
  {
    assert TrimLeft("LU") == "LU" && TrimRight("LU") == "LU" && Upper("LU") == "LU";
  }

  lemma CodeFR()
    ensures Upper(Trim("FR")) == "FR"
  {
    assert TrimLeft("FR") == "FR" && TrimRight("FR") == "FR" && Upper("FR") == "FR";
  }

  lemma CodeDE()
    ensures Upper(Trim("DE")) == "DE"
  {
    assert TrimLeft("DE") == "DE" && TrimRight("DE") == "DE" && Upper("DE") == "DE";
  }


  /** A run of digits is its own cleaned form. */
  lemma CleanDigits(n: string, k: nat)
    requires |n| == k && AllDigits(n)
    ensures CleanNumber(n) == n && DigitRun(n, k)
  {
    CleanAlnum(n);
  }

  lemma ExampleNL()
    ensures Validate("12345678", "NL").valid && Validate("12345678", "NL").formatted == Some("12345678")
  {
    CodeNL();
    CleanDigits("12345678", 8);
    ValidNL("12345678", "NL");
  }


  /** 6818456 mod 97 is 35, and 97 - 35 is 62. */
  lemma KboExample()
    ensures DigitRun("0681845662", 10) && KboChecksum("0681845662")
  {
    assert DigitRun("0681845662", 10);
    assert DigitsValue("0") == 0;
    assert DigitsValue("06") == 6 by { assert "06"[..1] == "0"; }
    assert DigitsValue("068") == 68 by { assert "068"[..2] == "06"; }
    assert DigitsValue("0681") == 681 by { assert "0681"[..3] == "068"; }
    assert DigitsValue("06818") == 6818 by { assert "06818"[..4] == "0681"; }
    assert DigitsValue("068184") == 68184 by { assert "068184"[..5] == "06818"; }
    assert DigitsValue("0681845") == 681845 by { assert "0681845"[..6] == "068184"; }
    assert DigitsValue("06818456") == 6818456 by { assert "06818456"[..7] == "0681845"; }
    assert DigitsValue("62") == 62 by { assert "62"[..1] == "6"; }
    assert "0681845662"[..8] == "06818456" && "0681845662"[8..10] == "62";
  }

  /** The Belgian example passes the mod-97 check. */
  lemma ExampleBE()
    ensures Validate("0681845662", "BE").valid
  {
    CodeBE();
    CleanDigits("0681845662", 10);
    KboExample();
    ValidBE("0681845662", "BE");
  }


  lemma UpperLU()
    ensures Upper("B123456") == "B123456" && LetterSixDigits("B123456")
  {
  }

  lemma ExampleLU()
    ensures Validate("B123456", "LU").valid && Validate("B123456", "LU").formatted == Some("B123456")
  {
    CodeLU();
    CleanAlnum("B123456");
    UpperLU();
    ValidLU("B123456", "LU");
  }


  lemma SiretParts()
    ensures "73282932000074"[..9] == "732829320" && "73282932000074"[9..] == "00074"
  {
  }


  /** The French example's SIREN. */
  lemma ExampleSiren()
    ensures Validate("732829320", "FR").valid && Validate("732829320", "FR").regType == Some("SIREN")
  {
    CodeFR();
    CleanDigits("732829320", 9);
    ValidFR("732829320", "FR");
  }

  /** The French example's SIRET: that SIREN followed by the NIC 00074. */
  lemma ExampleSiret()
    ensures var r := Validate("73282932000074", "FR");
      r.valid && r.regType == Some("SIRET") && r.siren == Some("732829320") && r.nic == Some("00074")
  {
    CodeFR();
    CleanDigits("73282932000074", 14);
    SiretParts();
    ValidFR("73282932000074", "FR");
  }

  lemma CleanDE()
    ensures CleanNumber("HRB 12345") == "HRB12345" && Upper("HRB12345") == "HRB12345"
    ensures HrBody("HRB12345") == Some(("HRB", "12345")) && "HRB" + " " + "12345" == "HRB 12345"
  {
    assert AllDigits("12345");
    assert "HRB 12345" == "HRB" + " " + "12345" && "HRB12345" == "HRB" + "12345";
    HrFormattedCleans("HRB", "12345");
    HrJoinedMatches("HRB", "12345");
  }

  /** The German example is written with a space; cleaning drops it and formatting puts it back. */
  lemma ExampleDE()
    ensures Validate("HRB 12345", "DE").valid && Validate("HRB 12345", "DE").formatted == Some("HRB 12345")
  {
    CodeDE();
    CleanDE();
    ValidDE("HRB 12345", "DE");
  }
}
