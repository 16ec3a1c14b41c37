// Static checks on unit codes, classification schemes, tax categories and VAT numbers.
module UblValidator {
  import Php
  import UnitCodes

  /** isValidUnitCode: delegates to the unit-code table. */
  function IsValidUnitCode(unitCode: string): (r: bool)
    ensures r == UnitCodes.IsValid(unitCode)
    ensures r == UnitCodes.IsValid(Php.Upper(unitCode))
  {
    UnitCodes.ValidIgnoresCase(unitCode);
    UnitCodes.IsValid(unitCode)
  }

  // ------------------------------------------------------------ classification schemes

  // The UNTDID 7143 codes of $validSchemes, split into predicates of about 25 codes each.
  predicate SchemesA(n: string) { n in {"AA", "AB", "AC", "AD", "AE", "AF", "AG", "AH", "AI", "AJ", "AK", "AL", "AM", "AN", "AO", "AP", "AQ", "AR", "AS", "AT", "AU", "AV", "AW", "AX", "AY", "AZ"} }
  predicate SchemesB(n: string) { n in {"BA", "BB", "BC", "BD", "BE", "BF", "BG", "BH", "BI", "BJ", "BK", "BL", "BM", "BN", "BO", "BP", "BQ", "BR", "BS", "BT", "BU", "BV", "BW", "BX", "BY", "BZ"} }
  predicate SchemesCToM(n: string) { n in {"CC", "CG", "CL", "CR", "CV", "DR", "DW", "EC", "EF", "EMD", "EN", "FS", "GB", "GN", "GMN", "GS", "HS", "IB", "IN", "IS", "IT", "IZ", "MA", "MF", "MN", "MP"} }
  predicate SchemesNToSR(n: string) { n in {"NB", "ON", "PD", "PL", "PO", "PPI", "PV", "QS", "RC", "RN", "RU", "RY", "SA", "SG", "SK", "SN", "SRS", "SRT", "SRU", "SRV", "SRW", "SRX", "SRY", "SRZ"} }
  predicate SchemesSS(n: string) { n in {"SS", "SSA", "SSB", "SSC", "SSD", "SSE", "SSF", "SSG", "SSH", "SSI", "SSJ", "SSK", "SSL", "SSM", "SSN", "SSO", "SSP", "SSQ", "SSR", "SSS", "SST", "SSU", "SSV", "SSW", "SSX", "SSY", "SSZ"} }
  predicate SchemesST(n: string) { n in {"ST", "STA", "STB", "STC", "STD", "STE", "STF", "STG", "STH", "STI", "STJ", "STK", "STL", "STM", "STN", "STO", "STP", "STQ", "STR", "STS", "STT", "STU", "STV", "STW", "STX", "STY", "STZ"} }
  predicate SchemesSUToT(n: string) { n in {"SUA", "SUB", "SUC", "SUD", "SUE", "SUF", "SUG", "SUH", "SUI", "SUJ", "SUK", "SUL", "SUM", "TG", "TSN", "TSO", "TSP", "TSQ", "TSR", "TSS", "TST", "TSU"} }
  predicate SchemesUToZ(n: string) { n in {"UA", "UP", "VN", "VP", "VS", "VX", "ZZZ"} }

  /** in_array($n, $validSchemes, true). */
  predicate InValidSchemes(n: string)
  {
    SchemesA(n) || SchemesB(n) || SchemesCToM(n) || SchemesNToSR(n) || SchemesSS(n) || SchemesST(n) || SchemesSUToT(n) || SchemesUToZ(n)
  }

  /** The PEPPOL-specific schemes, with their names. */
  const PeppolSchemes: map<string, string> := map["CPV" := "Common Procurement Vocabulary", "SRV" := "Service Type Code"]

  /** The identifier as the validator compares it: trimmed and upper-cased. */
  function NormalizeScheme(schemeId: string): (r: string)
    ensures r == [] || (!Php.IsTrimChar(r[0]) && !Php.IsTrimChar(r[|r| - 1]))
  {
    Php.Upper(Php.Trim(schemeId))
  }

  /** isValidClassificationScheme. */
  predicate IsValidClassificationScheme(schemeId: string)
  {
    var n := NormalizeScheme(schemeId);
    InValidSchemes(n) || n in PeppolSchemes
  }

  /** Normalising twice is normalising once, so the check ignores surrounding whitespace and
    * letter case: isValidClassificationScheme(s) depends on NormalizeScheme(s) alone. */
  lemma NormalizeSchemeIdempotent(schemeId: string)
    ensures NormalizeScheme(NormalizeScheme(schemeId)) == NormalizeScheme(schemeId)
  {
    var t := Php.Trim(schemeId);
    Php.TrimUpperCommute(t);
    Php.UpperIdempotent(t);
  }

  lemma NormalizePaddedStd()
    ensures NormalizeScheme(" std ") == "STD"
  {
    assert Php.TrimLeft(" std ") == "std ";
    assert Php.TrimRight("std ") == "std";
    assert Php.Upper("std") == "STD";
  }

  lemma NormalizePaddedCpv()
    ensures NormalizeScheme(" cpv") == "CPV"
  {
    assert Php.TrimLeft(" cpv") == "cpv";
    assert Php.TrimRight("cpv") == "cpv";
    assert Php.Upper("cpv") == "CPV";
  }

  /** " std " is accepted as the UNTDID code STD; " cpv" as the PEPPOL code CPV. */
  lemma {:induction false} PaddedSchemesAccepted()
    ensures IsValidClassificationScheme(" std ")
    ensures IsValidClassificationScheme(" cpv")
  {
    NormalizePaddedStd();
    NormalizePaddedCpv();
    assert SchemesST("STD");
  }

  /** The scheme names of getClassificationSchemeDescription. */
  const Descriptions: map<string, string> := map[
    "CPV" := "Common Procurement Vocabulary",
    "SRV" := "Service Type Code",
    "STD" := "Standard",
    "HS" := "Harmonized System",
    "GS1" := "GS1 Global Trade Item Number"]

  /** getClassificationSchemeDescription: the name of the upper-cased identifier, or ''. */
  function GetClassificationSchemeDescription(schemeId: string): (r: string)
    ensures r != "" <==> Php.Upper(schemeId) in Descriptions
    ensures r != "" ==> r == Descriptions[Php.Upper(schemeId)]
  {
    var k := Php.Upper(schemeId);
    if k in Descriptions then Descriptions[k] else ""
  }

  /** The name lookup does not depend on letter case. */
  lemma DescriptionIgnoresCase(schemeId: string)
    ensures GetClassificationSchemeDescription(Php.Upper(schemeId)) == GetClassificationSchemeDescription(schemeId)
  {
    Php.UpperIdempotent(schemeId);
  }

  /** The two lookups disagree: GS1 has a name but is not an accepted scheme, and the name
    * lookup does not trim, so " std " is accepted but has no name. */
  lemma {:induction false} DescriptionAndValidityDiffer()
    ensures GetClassificationSchemeDescription("GS1") == "GS1 Global Trade Item Number"
    ensures !IsValidClassificationScheme("GS1")
    ensures GetClassificationSchemeDescription(" std ") == ""
  {
    Gs1Normal();
    Gs1NotListed();
    PaddedStdUpper();
    assert " STD " !in Descriptions;
  }

  lemma Gs1NotListed()
    ensures !InValidSchemes("GS1") && "GS1" !in PeppolSchemes
  {
    assert !SchemesA("GS1") && !SchemesB("GS1");
    assert !SchemesCToM("GS1") && !SchemesNToSR("GS1");
    assert !SchemesSS("GS1") && !SchemesST("GS1");
    assert !SchemesSUToT("GS1") && !SchemesUToZ("GS1");
  }

  lemma Gs1Normal()
    ensures Php.Upper("GS1") == "GS1" && NormalizeScheme("GS1") == "GS1"
  {
    assert Php.Upper("GS1") == "GS1";
    Php.TrimFixedPoint("GS1");
  }

  lemma PaddedStdUpper()
    ensures Php.Upper(" std ") == " STD "
  {
  }

  // ------------------------------------------------------------ tax categories

  const TaxCategories: set<string> := {"S", "Z", "E", "AE", "K", "G", "O"}

  /** isValidTaxCategory. */
  predicate IsValidTaxCategory(categoryId: string)
  {
    Php.Upper(categoryId) in TaxCategories
  }

  /** Lower-case categories are accepted; surrounding blanks are not. */
  lemma {:induction false} TaxCategoryCases()
    ensures IsValidTaxCategory("s") && IsValidTaxCategory("ae")
    ensures !IsValidTaxCategory(" S")
  {
    assert Php.Upper("s") == "S";
    assert Php.Upper("ae") == "AE";
    assert Php.Upper(" S") == " S";
  }

  // ------------------------------------------------------------ VAT numbers

  /** The country prefixes a VAT number may carry (EL for Greece, XI for Northern Ireland). */
  const VatCountryCodes: set<string> := {
    "AT", "BE", "BG", "CY", "CZ", "DE", "DK", "EE", "EL", "ES", "FI", "FR", "GB", "HR", "HU", "IE", "IT", "LT",
    "LU", "LV", "MT", "NL", "PL", "PT", "RO", "SE", "SI", "SK", "XI"}

  /** isValidVatNumber: a listed country prefix in any letter case and at least one more
    * character, all of them ASCII letters or digits. */
  function IsValidVatNumber(vatNumber: string): (r: bool)
    ensures |vatNumber| < 3 ==> !r
    ensures r <==> |vatNumber| >= 3 && Php.Upper(vatNumber[..2]) in VatCountryCodes
                   && forall i :: 2 <= i < |vatNumber| ==> Php.IsAlnum(vatNumber[i])
  {
    if |vatNumber| < 3 then false
    else
      var countryCode := Php.Upper(vatNumber[..2]);
      var number := vatNumber[2..];
      assert forall i :: 2 <= i < |vatNumber| ==> vatNumber[i] == number[i - 2];
      if countryCode !in VatCountryCodes then false
      else Php.CtypeAlnum(number) && !Php.HasSpace(number)
  }

  lemma {:induction false} VatExamples()
    ensures IsValidVatNumber("NL123456789B01")
    ensures IsValidVatNumber("el123456789")
    ensures !IsValidVatNumber("NL 123")
    ensures !IsValidVatNumber("US123")
  {
    DutchVatAccepted();
    GreekVatAccepted();
    SpacedVatRejected();
    UnlistedVatRejected();
  }

  lemma DutchVatAccepted()
    ensures IsValidVatNumber("NL123456789B01")
  {
    assert "NL123456789B01"[..2] == "NL" && Php.Upper("NL") == "NL";
  }

  lemma GreekVatAccepted()
    ensures IsValidVatNumber("el123456789")
  {
    assert "el123456789"[..2] == "el" && Php.Upper("el") == "EL";
  }

  lemma SpacedVatRejected()
    ensures !IsValidVatNumber("NL 123")
  {
    assert "NL 123"[2] == ' ';
  }

  lemma UnlistedVatRejected()
    ensures !IsValidVatNumber("US123")
  {
    assert "US123"[..2] == "US" && Php.Upper("US") == "US";
  }
}
