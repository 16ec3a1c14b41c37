// The ISO 3166-1 alpha-2 prefixes the NL builder accepts at the start of a customer VAT
// number: the officially assigned codes plus "1A" (Kosovo), "EL" (Greece in VAT numbers) and
// "XI" (Northern Ireland).
module IsoCountries {
  // The 252 codes, split into predicates of about 26 codes each.
  predicate Codes1AToBJ(c: string) { c in {"1A", "AD", "AE", "AF", "AG", "AI", "AL", "AM", "AO", "AQ", "AR", "AS", "AT", "AU", "AW", "AX", "AZ", "BA", "BB", "BD", "BE", "BF", "BG", "BH", "BI", "BJ"} }
  predicate CodesBLToCU(c: string) { c in {"BL", "BM", "BN", "BO", "BQ", "BR", "BS", "BT", "BV", "BW", "BY", "BZ", "CA", "CC", "CD", "CF", "CG", "CH", "CI", "CK", "CL", "CM", "CN", "CO", "CR", "CU"} }
  predicate CodesCVToGA(c: string) { c in {"CV", "CW", "CX", "CY", "CZ", "DE", "DJ", "DK", "DM", "DO", "DZ", "EC", "EE", "EG", "EH", "EL", "ER", "ES", "ET", "FI", "FJ", "FK", "FM", "FO", "FR", "GA"} }
  predicate CodesGBToIE(c: string) { c in {"GB", "GD", "GE", "GF", "GG", "GH", "GI", "GL", "GM", "GN", "GP", "GQ", "GR", "GS", "GT", "GU", "GW", "GY", "HK", "HM", "HN", "HR", "HT", "HU", "ID", "IE"} }
  predicate CodesILToLC(c: string) { c in {"IL", "IM", "IN", "IO", "IQ", "IR", "IS", "IT", "JE", "JM", "JO", "JP", "KE", "KG", "KH", "KI", "KM", "KN", "KP", "KR", "KW", "KY", "KZ", "LA", "LB", "LC"} }
  predicate CodesLIToMU(c: string) { c in {"LI", "LK", "LR", "LS", "LT", "LU", "LV", "LY", "MA", "MC", "MD", "ME", "MF", "MG", "MH", "MK", "ML", "MM", "MN", "MO", "MP", "MQ", "MR", "MS", "MT", "MU"} }
  predicate CodesMVToPM(c: string) { c in {"MV", "MW", "MX", "MY", "MZ", "NA", "NC", "NE", "NF", "NG", "NI", "NL", "NO", "NP", "NR", "NU", "NZ", "OM", "PA", "PE", "PF", "PG", "PH", "PK", "PL", "PM"} }
  predicate CodesPNToSO(c: string) { c in {"PN", "PR", "PS", "PT", "PW", "PY", "QA", "RE", "RO", "RS", "RU", "RW", "SA", "SB", "SC", "SD", "SE", "SG", "SH", "SI", "SJ", "SK", "SL", "SM", "SN", "SO"} }
  predicate CodesSRToUM(c: string) { c in {"SR", "SS", "ST", "SV", "SX", "SY", "SZ", "TC", "TD", "TF", "TG", "TH", "TJ", "TK", "TL", "TM", "TN", "TO", "TR", "TT", "TV", "TW", "TZ", "UA", "UG", "UM"} }
  predicate CodesUSToZW(c: string) { c in {"US", "UY", "UZ", "VA", "VC", "VE", "VG", "VI", "VN", "VU", "WF", "WS", "XI", "YE", "YT", "ZA", "ZM", "ZW"} }

  predicate IsListed(c: string)
  {
    Codes1AToBJ(c)
    || CodesBLToCU(c)
    || CodesCVToGA(c)
    || CodesGBToIE(c)
    || CodesILToLC(c)
    || CodesLIToMU(c)
    || CodesMVToPM(c)
    || CodesPNToSO(c)
    || CodesSRToUM(c)
    || CodesUSToZW(c)
  }

  /** Every listed code is two characters long. */
  lemma {:induction false} ListedHaveTwoCharacters(c: string)
    requires IsListed(c)
    ensures |c| == 2
  {
  }

  /** The VAT-specific prefixes are listed. */
  lemma {:induction false} VatPrefixesListed()
    ensures IsListed("NL") && IsListed("BE") && IsListed("EL") && IsListed("XI") && IsListed("1A")
  {
  }

  /** "UK", which is not an ISO code, is not listed; nor is a one-letter prefix. */
  lemma {:induction false} UkNotListed()
    ensures !IsListed("UK") && !IsListed("N")
  {
    assert !Codes1AToBJ("UK");
    assert !CodesBLToCU("UK");
    assert !CodesCVToGA("UK");
    assert !CodesGBToIE("UK");
    assert !CodesILToLC("UK");
    assert !CodesLIToMU("UK");
    assert !CodesMVToPM("UK");
    assert !CodesPNToSO("UK");
    assert !CodesSRToUM("UK");
    assert !CodesUSToZW("UK");
    if IsListed("N") {
      ListedHaveTwoCharacters("N");
    }
  }
}
