// The seller, buyer and delivery blocks of the NL (PEPPOL BIS 3.0) builder: the checks each
// runs on its arguments and the element each builds.
module Bis3Parties {
  import opened Wrappers
  import opened Php
  import opened Xml
  import opened Document
  import IsoCountries

  /** A PostalAddress: street, the additional street line when not null, city, postal zone,
    * and the country last. */
  function PostalAddressOf(street: string, additionalStreet: Option<string>, city: string, postalCode: string,
                           countryCode: string): Element
  {
    Node(PostalAddress,
      [Text("cbc:StreetName", street)] + IfSet("cbc:AdditionalStreetName", additionalStreet)
      + [Text("cbc:CityName", city), Text("cbc:PostalZone", postalCode),
         Node(Country, [Text("cbc:IdentificationCode", Upper(countryCode))])])
  }

  lemma PostalAddressCountryLast(street: string, additionalStreet: Option<string>, city: string, postalCode: string,
                                 countryCode: string)
    ensures CountryLast(PostalAddressOf(street, additionalStreet, city, postalCode, countryCode))
    ensures var cs := PostalAddressOf(street, additionalStreet, city, postalCode, countryCode).children;
      cs[|cs| - 1] == Node(Country, [Text("cbc:IdentificationCode", Upper(countryCode))])
  {
    var a := PostalAddressOf(street, additionalStreet, city, postalCode, countryCode);
    var country := Node(Country, [Text("cbc:IdentificationCode", Upper(countryCode))]);
    FlatCountryLast(country);
    forall i | 0 <= i < |a.children| - 1
      ensures CountryLast(a.children[i])
    {
      FlatCountryLast(a.children[i]);
    }
    CountryLastByIndex(a);
  }

  // ------------------------------------------------------------ the seller

  datatype SupplierArgs = SupplierArgs(
    endpointId: string, endpointSchemeId: string, partyId: string, partyName: string, street: string,
    postalCode: string, city: string, countryCode: string, companyId: string, additionalStreet: Option<string>)

  /** `empty(trim($x ?? ''))`: the message when the value is blank or "0". */
  function Required(value: string, message: string): seq<string>
  {
    if EmptyString(Trim(value)) then [message] else []
  }

  const SupplierErrorsPrefix := "Validatiefout(en) in addAccountingSupplierParty():\n"
  const CountryRequiredNl := "Landcode is verplicht"
  const CountryLengthNl := "Landcode moet uit precies 2 tekens bestaan (bijv. \"NL\")"

  /** The seller check: every field required, the country code two characters once trimmed. */
  function SupplierErrors(a: SupplierArgs): seq<string>
  {
    Required(a.endpointId, "Endpoint ID (bijv. KVK-nummer) is verplicht")
    + Required(a.endpointSchemeId, "Endpoint Scheme ID (bijv. \"0106\" voor KVK) is verplicht")
    + Required(a.partyId, "Interne partij ID is verplicht")
    + Required(a.partyName, "Bedrijfsnaam is verplicht")
    + Required(a.street, "Straat en huisnummer zijn verplicht")
    + Required(a.postalCode, "Postcode is verplicht")
    + Required(a.city, "Plaatsnaam is verplicht")
    + (if EmptyString(Trim(a.countryCode)) then [CountryRequiredNl]
       else if |Trim(a.countryCode)| != 2 then [CountryLengthNl] else [])
    + Required(a.companyId, "BTW-nummer of fiscaal identificatienummer is verplicht")
  }

  /** A field is filled in the sense of the checks: not blank and not "0" once trimmed. */
  predicate Filled(s: string) { !EmptyString(Trim(s)) }

  lemma SupplierAcceptedIff(a: SupplierArgs)
    ensures SupplierErrors(a) == [] <==>
      Filled(a.endpointId) && Filled(a.endpointSchemeId) && Filled(a.partyId) && Filled(a.partyName)
      && Filled(a.street) && Filled(a.postalCode) && Filled(a.city) && Filled(a.companyId)
      && |Trim(a.countryCode)| == 2
  {
  }

  /** The seller's Party: endpoint, identification, name, address, VAT scheme and legal entity. */
  function SupplierParty(a: SupplierArgs): Element
  {
    Node("cac:Party", [
      Leaf("cbc:EndpointID", Some(a.endpointId), map["schemeID" := a.endpointSchemeId]),
      Node("cac:PartyIdentification", [Text("cbc:ID", a.partyId)]),
      Node("cac:PartyName", [Text("cbc:Name", a.partyName)]),
      PostalAddressOf(a.street, a.additionalStreet, a.city, a.postalCode, a.countryCode),
      Node("cac:PartyTaxScheme", [Text("cbc:CompanyID", a.companyId), Node("cac:TaxScheme", [Text("cbc:ID", "VAT")])]),
      Node("cac:PartyLegalEntity", [
        Text("cbc:RegistrationName", "SupplierOfficialName Ltd"),
        Leaf("cbc:CompanyID", Some(a.companyId), map["schemeID" := "0106"])])])
  }

  /** The empty shell appended before the arguments are checked. */
  const SupplierShell := Node("cac:AccountingSupplierParty", [Node("cac:Party", [])])

  /** The filled seller block keeps Country last in its address. */
  lemma SupplierCountryLast(a: SupplierArgs)
    ensures CountryLast(Node("cac:AccountingSupplierParty", [SupplierParty(a)]))
  {
    var p := SupplierParty(a);
    FlatCountryLast(p.children[0]);
    FlatCountryLast(p.children[1]);
    FlatCountryLast(p.children[2]);
    PostalAddressCountryLast(a.street, a.additionalStreet, a.city, a.postalCode, a.countryCode);
    var taxScheme := p.children[4];
    FlatCountryLast(taxScheme.children[0]);
    FlatCountryLast(taxScheme.children[1]);
    CountryLastByIndex(taxScheme);
    FlatCountryLast(p.children[5]);
    CountryLastByIndex(p);
    CountryLastByIndex(Node("cac:AccountingSupplierParty", [p]));
  }

  // ------------------------------------------------------------ the buyer

  datatype CustomerArgs = CustomerArgs(
    endpointId: string, endpointSchemeId: string, partyId: string, partyName: string, street: string,
    postalCode: string, city: string, countryCode: string, additionalStreet: Option<string>,
    companyId: Option<string>, contactName: Option<string>, contactPhone: Option<string>,
    contactEmail: Option<string>, taxSchemeId: string)

  const EndpointRequired := "Endpoint ID is required"
  const CustomerErrorsPrefix := "Validation error(s) in customer information:\n"
  const CountryLength := "Country code must be exactly 2 characters (e.g., \"NL\")"
  const BadEmail := "Invalid email format for contact email"
  const BadPhone := "Invalid phone number format. Only numbers, +, -, spaces and parentheses are allowed"

  /** `substr($s, 0, 2)`. */
  function Prefix2(s: string): (r: string)
    ensures |r| == if |s| < 2 then |s| else 2
  {
    if |s| < 2 then s else s[..2]
  }

  /** The country code the buyer block uses: the VAT number's upper-cased prefix when a VAT
    * number is given, the argument otherwise. */
  function EffectiveCountry(a: CustomerArgs): string
  {
    if !EmptyOpt(a.companyId) then Upper(Prefix2(a.companyId.value)) else a.countryCode
  }

  /** Each field named by its label and checked for `empty(trim(...))`, in order. */
  function MissingFields(fields: seq<(string, string)>): seq<string>
  {
    if fields == [] then []
    else
      var last := fields[|fields| - 1];
      MissingFields(fields[..|fields| - 1]) + (if EmptyString(Trim(last.1)) then [last.0 + " is required"] else [])
  }

  function CustomerFields(a: CustomerArgs, country: string): seq<(string, string)>
  {
    [("Endpoint ID", a.endpointId), ("Endpoint Scheme ID", a.endpointSchemeId), ("Party ID", a.partyId),
     ("Party name", a.partyName), ("Street", a.street), ("Postal code", a.postalCode), ("City", a.city),
     ("Country code", country)]
  }

  /** A character the phone pattern `[+0-9\s\-\(\)]` allows. */
  predicate PhoneChar(c: char) { c == '+' || IsDigit(c) || IsSpace(c) || c == '-' || c == '(' || c == ')' }

  /** The body of `^[+0-9\s\-\(\)]{6,20}$`. */
  predicate PhoneBody(s: string) { 6 <= |s| <= 20 && forall i :: 0 <= i < |s| ==> PhoneChar(s[i]) }

  /** The buyer check after the VAT prefix: required fields, country length, e-mail and phone.
    * `isEmail` is PHP's FILTER_VALIDATE_EMAIL. */
  function CustomerErrors(a: CustomerArgs, country: string, isEmail: string -> bool): seq<string>
  {
    MissingFields(CustomerFields(a, country))
    + (if !EmptyString(country) && |Trim(country)| != 2 then [CountryLength] else [])
    + (if !EmptyOpt(a.contactEmail) && !isEmail(a.contactEmail.value) then [BadEmail] else [])
    + (if !EmptyOpt(a.contactPhone) && !Anchored(PhoneBody, a.contactPhone.value) then [BadPhone] else [])
  }

  /** The message for a VAT number whose prefix is not a listed country code. */
  function BadVatPrefix(country: string): string
  {
    "Invalid VAT number format. Must start with a valid ISO 3166-1 alpha-2 country code. Got: " + country
  }

  /** addAccountingCustomerParty's checks, in order: the endpoint, the VAT prefix, then every
    * remaining fault at once. On success, the country code to use. */
  function CustomerCheck(a: CustomerArgs, isEmail: string -> bool): Result<string, Exception>
  {
    if EmptyString(Trim(a.endpointId)) then Failure(InvalidArgumentException(EndpointRequired))
    else
      var country := EffectiveCountry(a);
      if !EmptyOpt(a.companyId) && !IsoCountries.IsListed(country) then Failure(InvalidArgumentException(BadVatPrefix(country)))
      else
        var errors := CustomerErrors(a, country, isEmail);
        if errors != [] then Failure(InvalidArgumentException(ErrorList(CustomerErrorsPrefix, errors)))
        else Success(country)
  }

  /** The scheme for endpoint and party identification: the Italian tax code scheme 0210 is
    * replaced by 0106 for Dutch buyers. */
  function EffectiveScheme(country: string, scheme: string): string
  {
    if Upper(country) == "NL" && scheme == "0210" then "0106" else scheme
  }

  /** The Contact block: only when some contact value is truthy, with one child per truthy value. */
  function ContactBlock(name: Option<string>, phone: Option<string>, email: Option<string>): seq<Element>
  {
    if !EmptyOpt(name) || !EmptyOpt(phone) || !EmptyOpt(email) then
      [Node("cac:Contact", IfTruthy("cbc:Name", name) + IfTruthy("cbc:Telephone", phone) + IfTruthy("cbc:ElectronicMail", email))]
    else []
  }

  /** The buyer's Party, built with the country code the check settled on. */
  function CustomerParty(a: CustomerArgs, country: string): Element
  {
    var scheme := EffectiveScheme(country, a.endpointSchemeId);
    Node("cac:Party",
      BuyerIds(a, scheme)
      + [PostalAddressOf(a.street, a.additionalStreet, a.city, a.postalCode, country), BuyerTaxScheme(a), BuyerLegalEntity(a)]
      + ContactBlock(a.contactName, a.contactPhone, a.contactEmail))
  }

  /** EndpointID, PartyIdentification and PartyName, the first two with the effective scheme. */
  function BuyerIds(a: CustomerArgs, scheme: string): seq<Element>
  {
    [Leaf("cbc:EndpointID", Some(a.endpointId), map["schemeID" := scheme]),
     Node("cac:PartyIdentification", [Leaf("cbc:ID", Some(a.partyId), map["schemeID" := scheme])]),
     Node("cac:PartyName", [Text("cbc:Name", a.partyName)])]
  }

  /** PartyTaxScheme: CompanyID and TaxScheme when the company id is truthy, empty otherwise. */
  function BuyerTaxScheme(a: CustomerArgs): Element
  {
    Node("cac:PartyTaxScheme",
      if !EmptyOpt(a.companyId) then [Text("cbc:CompanyID", a.companyId.value), Node("cac:TaxScheme", [Text("cbc:ID", a.taxSchemeId)])] else [])
  }

  /** PartyLegalEntity: the registration name, then the company id under scheme 0106 when truthy. */
  function BuyerLegalEntity(a: CustomerArgs): Element
  {
    Node("cac:PartyLegalEntity",
      [Text("cbc:RegistrationName", a.partyName)]
      + (if !EmptyOpt(a.companyId) then [Leaf("cbc:CompanyID", a.companyId, map["schemeID" := "0106"])] else []))
  }

  // ------------------------------------------------------------ properties of the buyer block

  /** Every blank field is named, and the list is empty exactly when no field is blank. */
  lemma {:induction false} MissingFieldsEmptyIff(fields: seq<(string, string)>)
    ensures MissingFields(fields) == [] <==> forall i :: 0 <= i < |fields| ==> !EmptyString(Trim(fields[i].1))
    decreases |fields|
  {
    if fields != [] {
      var init := fields[..|fields| - 1];
      MissingFieldsEmptyIff(init);
      assert forall i :: 0 <= i < |init| ==> init[i] == fields[i];
    }
  }

  lemma {:induction false} MissingFieldsNamed(fields: seq<(string, string)>, i: nat)
    requires i < |fields| && EmptyString(Trim(fields[i].1))
    ensures fields[i].0 + " is required" in MissingFields(fields)
    decreases |fields|
  {
    var init := fields[..|fields| - 1];
    if i < |init| {
      assert init[i] == fields[i];
      MissingFieldsNamed(init, i);
    }
  }

  /** A VAT number that is accepted starts with a listed country code, and that code is what the
    * address carries. */
  lemma VatPrefixIsCountry(a: CustomerArgs, isEmail: string -> bool)
    requires CustomerCheck(a, isEmail).Success? && !EmptyOpt(a.companyId)
    ensures var country := CustomerCheck(a, isEmail).value;
      IsoCountries.IsListed(country) && country == Upper(Prefix2(a.companyId.value))
  {
  }

  /** The buyer block is accepted exactly when the endpoint is filled, a VAT number if given has
    * a listed prefix, and every other field passes. */
  lemma CustomerAcceptedIff(a: CustomerArgs, isEmail: string -> bool)
    ensures CustomerCheck(a, isEmail).Success? <==>
      Filled(a.endpointId)
      && (EmptyOpt(a.companyId) || IsoCountries.IsListed(EffectiveCountry(a)))
      && (forall i :: 0 <= i < 8 ==> Filled(CustomerFields(a, EffectiveCountry(a))[i].1))
      && (EmptyString(EffectiveCountry(a)) || |Trim(EffectiveCountry(a))| == 2)
      && (EmptyOpt(a.contactEmail) || isEmail(a.contactEmail.value))
      && (EmptyOpt(a.contactPhone) || Anchored(PhoneBody, a.contactPhone.value))
  {
    MissingFieldsEmptyIff(CustomerFields(a, EffectiveCountry(a)));
  }

  /** A Dutch VAT number turns the 0210 scheme into 0106 whatever country code was passed. */
  lemma DutchVatMapsScheme(a: CustomerArgs)
    requires a.companyId.Some? && |a.companyId.value| >= 2 && a.companyId.value[..2] == "NL"
    requires a.endpointSchemeId == "0210"
    ensures EffectiveCountry(a) == "NL"
    ensures EffectiveScheme(EffectiveCountry(a), a.endpointSchemeId) == "0106"
  {
    assert Upper("NL") == "NL";
  }

  /** Contact appears exactly when some contact value is truthy, and holds a child for each
    * truthy value, in the order name, telephone, e-mail. */
  lemma ContactIff(name: Option<string>, phone: Option<string>, email: Option<string>)
    ensures |ContactBlock(name, phone, email)| == (if !EmptyOpt(name) || !EmptyOpt(phone) || !EmptyOpt(email) then 1 else 0)
    ensures ContactBlock(name, phone, email) != [] ==>
      var cs := ContactBlock(name, phone, email)[0].children;
      |cs| == (if EmptyOpt(name) then 0 else 1) + (if EmptyOpt(phone) then 0 else 1) + (if EmptyOpt(email) then 0 else 1)
      && (!EmptyOpt(name) ==> cs[0] == Text("cbc:Name", name.value))
      && (!EmptyOpt(email) ==> cs[|cs| - 1] == Text("cbc:ElectronicMail", email.value))
  {
  }

  /** The buyer block keeps Country last in its address. */
  lemma CustomerCountryLast(a: CustomerArgs, country: string)
    ensures CountryLast(Node("cac:AccountingCustomerParty", [CustomerParty(a, country)]))
  {
    var ids := BuyerIds(a, EffectiveScheme(country, a.endpointSchemeId));
    var mid := [PostalAddressOf(a.street, a.additionalStreet, a.city, a.postalCode, country), BuyerTaxScheme(a), BuyerLegalEntity(a)];
    var c := ContactBlock(a.contactName, a.contactPhone, a.contactEmail);
    FlatCountryLast(ids[0]);
    FlatCountryLast(ids[1]);
    FlatCountryLast(ids[2]);
    PostalAddressCountryLast(a.street, a.additionalStreet, a.city, a.postalCode, country);
    BuyerTaxSchemeCountryLast(a);
    FlatCountryLast(BuyerLegalEntity(a));
    ContactCountryLast(a.contactName, a.contactPhone, a.contactEmail);
    AllCountryLastAppend(ids, mid);
    AllCountryLastAppend(ids + mid, c);
    ParentCountryLast("cac:Party", ids + mid + c);
    ParentCountryLast("cac:AccountingCustomerParty", [CustomerParty(a, country)]);
  }

  lemma BuyerTaxSchemeCountryLast(a: CustomerArgs)
    ensures CountryLast(BuyerTaxScheme(a))
  {
    var t := BuyerTaxScheme(a);
    if t.children != [] {
      FlatCountryLast(t.children[0]);
      FlatCountryLast(t.children[1]);
    }
    CountryLastByIndex(t);
  }

  /** The Contact block, when present, is flat. */
  lemma ContactCountryLast(name: Option<string>, phone: Option<string>, email: Option<string>)
    ensures AllCountryLast(ContactBlock(name, phone, email))
  {
    var c := ContactBlock(name, phone, email);
    if c != [] {
      FlatCountryLast(c[0]);
    }
  }

  // ------------------------------------------------------------ delivery

  datatype DeliveryArgs = DeliveryArgs(
    deliveryDate: string, locationId: Option<string>, locationSchemeId: string, street: Option<string>,
    additionalStreet: Option<string>, city: Option<string>, postalCode: Option<string>,
    countryCode: Option<string>, partyName: Option<string>)

  /** The Address inside DeliveryLocation: only the parts given, Country last. */
  function DeliveryAddress(a: DeliveryArgs): seq<Element>
  {
    if a.street.Some? || a.city.Some? || a.postalCode.Some? || a.countryCode.Some? then
      [Node("cac:Address",
        IfSet("cbc:StreetName", a.street) + IfSet("cbc:AdditionalStreetName", a.additionalStreet)
        + IfSet("cbc:CityName", a.city) + IfSet("cbc:PostalZone", a.postalCode)
        + (if a.countryCode.Some? then [Node(Country, [Text("cbc:IdentificationCode", Upper(a.countryCode.value))])] else []))]
    else []
  }

  /** addDelivery: the date, a DeliveryLocation when there is an id, street or city, and a
    * DeliveryParty when there is a name. */
  function Delivery(a: DeliveryArgs): Element
  {
    Node("cac:Delivery",
      [Text("cbc:ActualDeliveryDate", a.deliveryDate)]
      + (if a.locationId.Some? || a.street.Some? || a.city.Some? then
           [Node("cac:DeliveryLocation",
             (if a.locationId.Some? then [Leaf("cbc:ID", a.locationId, map["schemeID" := a.locationSchemeId])] else [])
             + DeliveryAddress(a))]
         else [])
      + (if a.partyName.Some? then [Node("cac:DeliveryParty", [Node("cac:PartyName", [Text("cbc:Name", a.partyName.value)])])] else []))
  }

  /** The blocks of a delivery: the location exactly when an id, street or city is given, the
    * party exactly when a name is given; a postal code or country given without an id, street
    * or city is not written at all. */
  lemma DeliveryBlocks(a: DeliveryArgs)
    ensures var cs := Delivery(a).children;
      cs[0].name == "cbc:ActualDeliveryDate"
      && ((exists c :: c in cs && c.name == "cac:DeliveryLocation") <==> a.locationId.Some? || a.street.Some? || a.city.Some?)
      && ((exists c :: c in cs && c.name == "cac:DeliveryParty") <==> a.partyName.Some?)
      && |cs| == 1 + (if a.locationId.Some? || a.street.Some? || a.city.Some? then 1 else 0) + (if a.partyName.Some? then 1 else 0)
  {
    var cs := Delivery(a).children;
    if a.locationId.Some? || a.street.Some? || a.city.Some? {
      assert cs[1].name == "cac:DeliveryLocation";
    }
    if a.partyName.Some? {
      assert cs[|cs| - 1].name == "cac:DeliveryParty";
    }
  }
}
