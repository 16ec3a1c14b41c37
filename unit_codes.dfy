// The UN/ECE Recommendation 20 (with Recommendation 21) unit-code table and its lookups.
module UnitCodes {
  import opened Wrappers
  import Php

  /** A code and its description. */
  type Entry = (string, string)

  /** CODES, lines 13-48. */
  const Part1: seq<Entry> := [
    ("C62", "unit"),
    ("HUR", "hour"),
    ("DAY", "day"),
    ("TNE", "tonne"),
    ("KGM", "kilogram"),
    ("GRM", "gram"),
    ("MTR", "metre"),
    ("CMT", "centimetre"),
    ("MMT", "millimetre"),
    ("M2", "square metre"),
    ("MTK", "square metre"),
    ("M3", "cubic metre"),
    ("MTQ", "cubic metre"),
    ("LTR", "litre"),
    ("MLT", "millilitre"),
    ("KWH", "kilowatt hour"),
    ("KWT", "kilowatt"),
    ("ANN", "year"),
    ("MON", "month"),
    ("WEE", "week"),
    ("DZN", "dozen"),
    ("SET", "set"),
    ("PCE", "piece"),
    ("PR", "pair"),
    ("PK", "package"),
    ("BG", "bag"),
    ("BX", "box"),
    ("CT", "carton"),
    ("CS", "case"),
    ("EA", "each"),
    ("GLL", "gallon"),
    ("KTM", "kilometre"),
    ("KMT", "kilometre"),
    ("KQ", "kilogram"),
    ("LBR", "pound"),
    ("MIN", "minute")
  ]

  /** CODES, lines 49-84. */
  const Part2: seq<Entry> := [
    ("SEC", "second"),
    ("HIT", "hundred items"),
    ("TNE", "tonne"),
    ("TNS", "ton (US)"),
    ("TNI", "ton (UK)"),
    ("KNT", "knot"),
    ("KT", "kit"),
    ("KUR", "kilovolt ampere reactive hour"),
    ("KVA", "kilovolt ampere"),
    ("KVR", "kilovar"),
    ("KVT", "kilovolt"),
    ("KWH", "kilowatt hour"),
    ("KWN", "kilowatt hour per normalized cubic metre"),
    ("KWO", "kilogram of uranium trioxide"),
    ("KWS", "kilowatt hour per standard cubic metre"),
    ("KWT", "kilowatt"),
    ("KX", "millilitre per kilogram"),
    ("L10", "quart (US) per minute"),
    ("L11", "volt per metre"),
    ("L12", "millivolt per metre"),
    ("L13", "kilopascal per second"),
    ("L14", "kilopascal per minute"),
    ("L15", "metre per second kelvin"),
    ("L16", "metre per second bar"),
    ("L17", "cubic metre per second bar"),
    ("L18", "cubic metre per second"),
    ("L19", "cubic metre per minute bar"),
    ("L2", "litre per minute"),
    ("L20", "cubic metre per day"),
    ("L21", "cubic metre per hour bar"),
    ("L23", "cubic metre per day bar"),
    ("L24", "cubic metre per hour kelvin"),
    ("L25", "cubic metre per day kelvin"),
    ("L26", "cubic metre per second kelvin"),
    ("L27", "cubic metre per second bar"),
    ("L28", "cubic metre per minute kelvin")
  ]

  /** CODES, lines 85-120. */
  const Part3: seq<Entry> := [
    ("L29", "cubic centimetre per second bar"),
    ("L30", "cubic centimetre per second kelvin"),
    ("L31", "litre per second bar"),
    ("L32", "litre per second kelvin"),
    ("L33", "litre per minute bar"),
    ("L34", "litre per minute kelvin"),
    ("L35", "litre per day bar"),
    ("L36", "litre per day kelvin"),
    ("L37", "cubic metre per hour bar"),
    ("L38", "cubic metre per day bar"),
    ("L39", "cubic metre per hour kelvin"),
    ("L40", "cubic metre per day kelvin"),
    ("L41", "millilitre per second kelvin"),
    ("L42", "millilitre per second bar"),
    ("L43", "millilitre per minute kelvin"),
    ("L44", "millilitre per minute bar"),
    ("L45", "millilitre per day kelvin"),
    ("L46", "millilitre per day bar"),
    ("L47", "millilitre per hour kelvin"),
    ("L48", "millilitre per hour bar"),
    ("L49", "cubic centimetre per second bar"),
    ("L50", "cubic centimetre per second kelvin"),
    ("L51", "cubic centimetre per minute bar"),
    ("L52", "cubic centimetre per minute kelvin"),
    ("L53", "cubic centimetre per hour bar"),
    ("L54", "cubic centimetre per hour kelvin"),
    ("L55", "cubic centimetre per day bar"),
    ("L56", "cubic centimetre per day kelvin"),
    ("L57", "cubic metre per second bar"),
    ("L58", "cubic metre per second kelvin"),
    ("L59", "cubic metre per minute bar"),
    ("L60", "cubic metre per minute kelvin"),
    ("L61", "cubic metre per hour bar"),
    ("L62", "cubic metre per hour kelvin"),
    ("L63", "cubic metre per day bar"),
    ("L64", "cubic metre per day kelvin")
  ]

  /** CODES, lines 121-154. */
  const Part4: seq<Entry> := [
    ("L65", "litre per second bar"),
    ("L66", "litre per second kelvin"),
    ("L67", "litre per minute bar"),
    ("L68", "litre per minute kelvin"),
    ("L69", "litre per hour bar"),
    ("L70", "litre per hour kelvin"),
    ("L71", "litre per day bar"),
    ("L72", "litre per day kelvin"),
    ("L73", "cubic metre per second pascal"),
    ("L74", "cubic metre per second kelvin"),
    ("L75", "cubic metre per minute pascal"),
    ("L76", "cubic metre per minute kelvin"),
    ("L77", "cubic metre per hour pascal"),
    ("L78", "cubic metre per hour kelvin"),
    ("L79", "cubic metre per day pascal"),
    ("L80", "cubic metre per day kelvin"),
    ("L81", "litre per second pascal"),
    ("L82", "litre per second kelvin"),
    ("L83", "litre per minute pascal"),
    ("L84", "litre per minute kelvin"),
    ("L85", "litre per hour pascal"),
    ("L86", "litre per hour kelvin"),
    ("L87", "litre per day pascal"),
    ("L88", "litre per day kelvin"),
    ("L89", "cubic metre per second bar"),
    ("L90", "cubic metre per minute bar"),
    ("L91", "cubic metre per hour bar"),
    ("L92", "cubic metre per day bar"),
    ("L93", "litre per second bar"),
    ("L94", "litre per minute bar"),
    ("L95", "litre per hour bar"),
    ("L96", "litre per day bar"),
    ("L98", "cubic metre per second pascal"),
    ("L99", "cubic metre per minute pascal")
  ]

  /** The CODES array literal as written, in order, duplicated keys included. */
  const Codes: seq<Entry> := Part1 + Part2 + Part3 + Part4

  predicate HasKey(t: seq<Entry>, k: string)
  {
    exists i :: 0 <= i < |t| && t[i].0 == k
  }

  /** `$t[$k] ?? null` on the array the literal t builds: a later entry overwrites an earlier
    * one with the same key. */
  function Lookup(t: seq<Entry>, k: string): (r: Option<string>)
    ensures r.Some? <==> HasKey(t, k)
    ensures r.Some? ==> exists i :: 0 <= i < |t| && t[i] == (k, r.value) && forall j :: i < j < |t| ==> t[j].0 != k
  {
    if t == [] then None
    else if t[|t| - 1].0 == k then Some(t[|t| - 1].1)
    else
      var r := Lookup(t[..|t| - 1], k);
      assert forall i :: 0 <= i < |t| - 1 ==> t[..|t| - 1][i] == t[i];
      r
  }

  /** isValid: the upper-cased code is a key of CODES. */
  predicate IsValid(code: string)
  {
    HasKey(Codes, Php.Upper(code))
  }

  /** getDescription: the description of the upper-cased code, or null. */
  function GetDescription(code: string): (r: Option<string>)
    ensures r.Some? <==> IsValid(code)
  {
    Lookup(Codes, Php.Upper(code))
  }

  /** The first components of t, in order: the keys array_keys() reports, before merging. */
  function KeysOf(t: seq<Entry>): (r: seq<string>)
    ensures |r| == |t| && forall i :: 0 <= i < |t| ==> r[i] == t[i].0
  {
    seq(|t|, i requires 0 <= i < |t| => t[i].0)
  }

  predicate Distinct(s: seq<string>)
  {
    forall i, j :: 0 <= i < j < |s| ==> s[i] != s[j]
  }

  /** ks with every repeated key dropped at its later occurrences: the key order of the array
    * that a literal with repeated keys builds. */
  function Dedup(ks: seq<string>): (r: seq<string>)
    ensures Distinct(r)
    ensures forall k :: k in r <==> k in ks
  {
    if ks == [] then []
    else
      var r := Dedup(ks[..|ks| - 1]);
      var last := ks[|ks| - 1];
      assert forall k :: k in ks <==> k in ks[..|ks| - 1] || k == last by {
        assert ks == ks[..|ks| - 1] + [last];
      }
      if last in r then r else r + [last]
  }

  /** getAll: array_keys(CODES). */
  function GetAll(): (r: seq<string>)
    ensures Distinct(r)
    ensures forall k :: k in r <==> HasKey(Codes, k)
  {
    var ks := KeysOf(Codes);
    var r := Dedup(ks);
    assert forall k :: k in ks <==> HasKey(Codes, k);
    r
  }

  // ------------------------------------------------------------ properties

  /** isValid does not depend on letter case. */
  lemma ValidIgnoresCase(code: string)
    ensures IsValid(code) == IsValid(Php.Upper(code))
  {
    Php.UpperIdempotent(code);
  }

  /** A code is valid exactly when it has a description. */
  lemma ValidIffDescribed(code: string)
    ensures IsValid(code) <==> GetDescription(code) != None
  {
  }

  predicate NoLowerCase(s: string)
  {
    forall j :: 0 <= j < |s| ==> !Php.IsLowerLetter(s[j])
  }

  lemma UpperOfUpper(s: string)
    requires NoLowerCase(s)
    ensures Php.Upper(s) == s
  {
  }

  lemma HasKeyAppend(a: seq<Entry>, b: seq<Entry>, k: string)
    ensures HasKey(a + b, k) <==> HasKey(a, k) || HasKey(b, k)
  {
    if HasKey(a + b, k) {
      var i :| 0 <= i < |a + b| && (a + b)[i].0 == k;
      if i >= |a| { assert b[i - |a|].0 == k; }
    }
    if HasKey(a, k) {
      var i :| 0 <= i < |a| && a[i].0 == k;
      assert (a + b)[i].0 == k;
    }
    if HasKey(b, k) {
      var i :| 0 <= i < |b| && b[i].0 == k;
      assert (a + b)[|a| + i].0 == k;
    }
  }

  /** Looking a key up in a concatenation: the later part wins. */
  lemma {:induction false} LookupAppend(a: seq<Entry>, b: seq<Entry>, k: string)
    ensures Lookup(a + b, k) == if HasKey(b, k) then Lookup(b, k) else Lookup(a, k)
    decreases |b|
  {
    if b == [] {
      assert a + b == a;
    } else {
      var b' := b[..|b| - 1];
      assert (a + b)[..|a + b| - 1] == a + b';
      LookupAppend(a, b', k);
      HasKeyAppend(b', [b[|b| - 1]], k);
      assert b == b' + [b[|b| - 1]];
    }
  }

  /** Every key of the table is written in upper case. */
  predicate UpperKeys(t: seq<Entry>)
  {
    forall i :: 0 <= i < |t| ==> NoLowerCase(t[i].0)
  }

  lemma Part1Upper() ensures UpperKeys(Part1) { }
  lemma Part2Upper() ensures UpperKeys(Part2) { }
  lemma Part3Upper() ensures UpperKeys(Part3) { }
  lemma Part4Upper() ensures UpperKeys(Part4) { }

  lemma UpperKeysAppend(a: seq<Entry>, b: seq<Entry>)
    requires UpperKeys(a) && UpperKeys(b)
    ensures UpperKeys(a + b)
  {
    forall i | 0 <= i < |a + b| ensures NoLowerCase((a + b)[i].0) {
      if i >= |a| { assert (a + b)[i] == b[i - |a|]; }
    }
  }

  lemma KeysAreUpperCase(k: string)
    requires HasKey(Codes, k)
    ensures NoLowerCase(k)
  {
    Part1Upper(); Part2Upper(); Part3Upper(); Part4Upper();
    UpperKeysAppend(Part1, Part2);
    UpperKeysAppend(Part1 + Part2, Part3);
    UpperKeysAppend(Part1 + Part2 + Part3, Part4);
  }

  /** Every code getAll reports is accepted by isValid. */
  lemma {:induction false} AllCodesValid()
    ensures forall k :: k in GetAll() ==> IsValid(k)
  {
    forall k | k in GetAll() ensures IsValid(k) {
      KeysAreUpperCase(k);
      UpperOfUpper(k);
    }
  }

  lemma L22NotInPart1() ensures !HasKey(Part1, "L22") { }
  lemma L22NotInPart2() ensures !HasKey(Part2, "L22") { }
  lemma L22NotInPart3() ensures !HasKey(Part3, "L22") { }
  lemma L22NotInPart4() ensures !HasKey(Part4, "L22") { }

  lemma C62NotInPart2() ensures !HasKey(Part2, "C62") { }
  lemma C62NotInPart3() ensures !HasKey(Part3, "C62") { }
  lemma C62NotInPart4() ensures !HasKey(Part4, "C62") { }

  lemma C62FirstOfPart1()
    ensures Lookup(Part1, "C62") == Some("unit")
  {
    assert Part1[0] == ("C62", "unit");
    assert forall j :: 0 < j < |Part1| ==> Part1[j].0 != "C62";
  }

  /** C62, the first entry, is valid and described as "unit". */
  lemma {:induction false} CommonC62()
    ensures IsValid("C62") && GetDescription("C62") == Some("unit")
  {
    var p12 := Part1 + Part2;
    var p123 := p12 + Part3;
    assert Codes == p123 + Part4;
    assert Php.Upper("C62") == "C62";
    C62FirstOfPart1(); C62NotInPart2(); C62NotInPart3(); C62NotInPart4();
    LookupAppend(Part1, Part2, "C62");
    LookupAppend(p12, Part3, "C62");
    LookupAppend(p123, Part4, "C62");
  }

  /** The time and piece codes are in the table. */
  lemma {:induction false} CommonHurDayPce()
    ensures IsValid("HUR") && IsValid("DAY") && IsValid("PCE")
  {
    assert Php.Upper("HUR") == "HUR" && Php.Upper("DAY") == "DAY" && Php.Upper("PCE") == "PCE";
    assert Part1[1].0 == "HUR" && Part1[2].0 == "DAY" && Part1[22].0 == "PCE";
    assert Codes[1] == Part1[1] && Codes[2] == Part1[2] && Codes[22] == Part1[22];
  }

  /** L22, skipped between L21 and L23, is not in the table. */
  lemma {:induction false} L22Invalid()
    ensures !IsValid("L22")
  {
    var p12 := Part1 + Part2;
    var p123 := p12 + Part3;
    assert Codes == p123 + Part4;
    assert Php.Upper("L22") == "L22";
    L22NotInPart1(); L22NotInPart2(); L22NotInPart3(); L22NotInPart4();
    HasKeyAppend(Part1, Part2, "L22");
    HasKeyAppend(p12, Part3, "L22");
    HasKeyAppend(p123, Part4, "L22");
  }
}
