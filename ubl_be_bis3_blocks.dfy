// The blocks of the UBL.BE (Belgian BIS 3.0) builder. Apart from the header, this builder
// checks nothing: every block is written from its arguments as given, optional parts only when
// their argument is truthy, and array arguments read key by key with PHP's casts.
module BeBis3Blocks {
  import opened Wrappers
  import opened Php
  import opened Xml
  import opened Document
  import opened Bis3Totals
  import Bis3Parties
  import Bis3Payment
  import Bis3Line

  const BeCustomizationId := "urn:cen.eu:en16931:2017#conformant#urn:UBL.BE:1.0.0.20180214"

  /** number_format($amount, 2, '.', '') on the documented examples. */
  lemma FormatAmountExamples()
    ensures FormatAmount(100.0) == "100.00"
    ensures FormatAmount(100.5) == "100.50"
    ensures FormatAmount(100.123) == "100.12"
  {
    HundredAnd(100.0, 0);
    HundredAnd(100.5, 50);
    HundredAnd(100.123, 12);
  }

  /** An amount that rounds to 100 and c cents renders as "100." and two digits. */
  lemma HundredAnd(x: real, c: nat)
    requires c < 100 && Cents(x) == 10000 + c
    ensures FormatAmount(x) == "100." + TwoDigits(c)
  {
    var n := 10000 + c;
    assert n / 100 == 100 && n % 100 == c;
    HundredText();
    assert FormatCents(n) == UnsignedCents(n);
  }

  lemma HundredText()
    ensures IntToString(100) == "100"
  {
    assert IntToString(1) == "1";
    assert IntToString(10) == "10";
  }

  // ------------------------------------------------------------ references

  /** AdditionalDocumentReference: the ID, and the DocumentDescription only for a truthy type. */
  function AdditionalDocumentReference(id: string, documentType: Option<string>): (e: Element)
    ensures e.name == "cac:AdditionalDocumentReference" && 1 <= |e.children| <= 2
    ensures e.children[0] == Text("cbc:ID", id)
    ensures |e.children| == 2 <==> !EmptyOpt(documentType)
    ensures |e.children| == 2 ==> e.children[1] == Text("cbc:DocumentDescription", documentType.value)
  {
    Node("cac:AdditionalDocumentReference", [Text("cbc:ID", id)] + IfTruthy("cbc:DocumentDescription", documentType))
  }

  // ------------------------------------------------------------ parties and delivery

  /** An address: street, the additional line when truthy, city, postal zone, Country last. */
  function AddressOf(qname: string, street: string, additionalStreet: Option<string>, city: string,
                     postalCode: string, country: string): Element
  {
    Node(qname,
      [Text("cbc:StreetName", street)] + IfTruthy("cbc:AdditionalStreetName", additionalStreet)
      + [Text("cbc:CityName", city), Text("cbc:PostalZone", postalCode),
         Node(Country, [Text("cbc:IdentificationCode", country)])])
  }

  /** The address ends with the country as given (not upper-cased), and has the additional
    * street line exactly when it is truthy. */
  lemma AddressShape(qname: string, street: string, additionalStreet: Option<string>, city: string,
                     postalCode: string, country: string)
    requires qname != Country
    ensures var a := AddressOf(qname, street, additionalStreet, city, postalCode, country);
      CountryLast(a)
      && a.children[|a.children| - 1] == Node(Country, [Text("cbc:IdentificationCode", country)])
      && ChildNames(a.children) == ["cbc:StreetName"] + (if EmptyOpt(additionalStreet) then [] else ["cbc:AdditionalStreetName"])
                                   + ["cbc:CityName", "cbc:PostalZone", Country]
  {
    AddressCountryLast(qname, street, additionalStreet, city, postalCode, country);
  }

  lemma AddressCountryLast(qname: string, street: string, additionalStreet: Option<string>, city: string,
                           postalCode: string, country: string)
    requires qname != Country
    ensures CountryLast(AddressOf(qname, street, additionalStreet, city, postalCode, country))
  {
    var a := AddressOf(qname, street, additionalStreet, city, postalCode, country);
    var c := Node(Country, [Text("cbc:IdentificationCode", country)]);
    FlatCountryLast(c);
    forall i | 0 <= i < |a.children| - 1
      ensures CountryLast(a.children[i])
    {
      FlatCountryLast(a.children[i]);
    }
    CountryLastByIndex(a);
  }

  /** EndpointID with its scheme, PartyIdentification and PartyName: how both parties start. */
  function PartyHead(endpointId: string, endpointScheme: string, partyId: string, name: string): seq<Element>
  {
    [Leaf("cbc:EndpointID", Some(endpointId), map["schemeID" := endpointScheme]),
     Node("cac:PartyIdentification", [Text("cbc:ID", partyId)]),
     Node("cac:PartyName", [Text("cbc:Name", name)])]
  }

  /** The party head holds no address. */
  lemma PartyHeadCountryLast(endpointId: string, endpointScheme: string, partyId: string, name: string)
    ensures AllCountryLast(PartyHead(endpointId, endpointScheme, partyId, name))
  {
    var h := PartyHead(endpointId, endpointScheme, partyId, name);
    FlatCountryLast(h[0]);
    FlatCountryLast(h[1]);
    FlatCountryLast(h[2]);
  }

  /** PartyLegalEntity: the name as registration name, the company id when truthy. */
  function LegalEntity(name: string, registrationNumber: Option<string>): (e: Element)
    ensures e.name == "cac:PartyLegalEntity" && 1 <= |e.children| <= 2
    ensures e.children[0] == Text("cbc:RegistrationName", name)
    ensures |e.children| == 2 <==> !EmptyOpt(registrationNumber)
  {
    Node("cac:PartyLegalEntity", [Text("cbc:RegistrationName", name)] + IfTruthy("cbc:CompanyID", registrationNumber))
  }

  /** The VAT scheme block holds no address. */
  lemma VatSchemeCountryLast(vatNumber: string)
    ensures CountryLast(VatScheme(vatNumber))
  {
    var v := VatScheme(vatNumber);
    FlatCountryLast(v.children[1]);
    CountryLastByIndex(v);
  }

  /** The legal entity block holds no address. */
  lemma LegalEntityCountryLast(name: string, registrationNumber: Option<string>)
    ensures CountryLast(LegalEntity(name, registrationNumber))
  {
    FlatCountryLast(LegalEntity(name, registrationNumber));
  }

  /** The party head names its three parts and holds no address. */
  lemma PartyHeadShape(endpointId: string, endpointScheme: string, partyId: string, name: string)
    ensures var h := PartyHead(endpointId, endpointScheme, partyId, name);
      ChildNames(h) == ["cbc:EndpointID", "cac:PartyIdentification", "cac:PartyName"]
      && h[0].attrs == map["schemeID" := endpointScheme]
      && forall i :: 0 <= i < |h| ==> CountryLast(h[i])
  {
    var h := PartyHead(endpointId, endpointScheme, partyId, name);
    assert ChildNames(h) == [h[0].name, h[1].name, h[2].name];
    FlatCountryLast(h[0]);
    FlatCountryLast(h[1]);
    FlatCountryLast(h[2]);
  }

  datatype SupplierArgs = SupplierArgs(
    endpointId: string, endpointScheme: string, partyId: string, name: string, street: string,
    postalCode: string, city: string, country: string, vatNumber: string, additionalStreet: Option<string>)

  /** PartyTaxScheme: the VAT number under the VAT scheme. */
  function VatScheme(vatNumber: string): Element
  {
    Node("cac:PartyTaxScheme", [Text("cbc:CompanyID", vatNumber), Node("cac:TaxScheme", [Text("cbc:ID", "VAT")])])
  }

  /** The seller's Party: endpoint, identification, name, address, VAT scheme and legal entity. */
  function SupplierParty(a: SupplierArgs): Element
  {
    Node("cac:Party",
      PartyHead(a.endpointId, a.endpointScheme, a.partyId, a.name)
      + [AddressOf(PostalAddress, a.street, a.additionalStreet, a.city, a.postalCode, a.country),
         VatScheme(a.vatNumber), LegalEntity(a.name, None)])
  }

  /** The seller block has its six parts in order, the VAT number under the VAT scheme and the
    * name also as the registration name. */
  lemma SupplierShape(a: SupplierArgs)
    ensures var p := SupplierParty(a);
      ChildNames(p.children) == ["cbc:EndpointID", "cac:PartyIdentification", "cac:PartyName", PostalAddress,
                                 "cac:PartyTaxScheme", "cac:PartyLegalEntity"]
      && p.children[0].attrs == map["schemeID" := a.endpointScheme]
      && p.children[4] == VatScheme(a.vatNumber)
      && p.children[5].children == [Text("cbc:RegistrationName", a.name)]
  {
    var h := PartyHead(a.endpointId, a.endpointScheme, a.partyId, a.name);
    var t := [AddressOf(PostalAddress, a.street, a.additionalStreet, a.city, a.postalCode, a.country),
              VatScheme(a.vatNumber), LegalEntity(a.name, None)];
    PartyHeadShape(a.endpointId, a.endpointScheme, a.partyId, a.name);
    ChildNamesAppend(h, t);
    assert ChildNames(t) == [t[0].name, t[1].name, t[2].name];
  }

  /** The seller block keeps Country last in its address. */
  lemma SupplierCountryLast(a: SupplierArgs)
    ensures CountryLast(Node("cac:AccountingSupplierParty", [SupplierParty(a)]))
  {
    var p := SupplierParty(a);
    PartyHeadShape(a.endpointId, a.endpointScheme, a.partyId, a.name);
    AddressShape(PostalAddress, a.street, a.additionalStreet, a.city, a.postalCode, a.country);
    VatSchemeCountryLast(a.vatNumber);
    LegalEntityCountryLast(a.name, None);
    CountryLastByIndex(p);
    CountryLastByIndex(Node("cac:AccountingSupplierParty", [p]));
  }

  datatype CustomerArgs = CustomerArgs(
    endpointId: string, endpointScheme: string, partyId: string, name: string, street: string,
    postalCode: string, city: string, country: string, additionalStreet: Option<string>,
    registrationNumber: Option<string>, contactName: Option<string>, contactPhone: Option<string>,
    contactEmail: Option<string>)

  /** The buyer's Party: no VAT scheme, the company id only when truthy, the contact block only
    * when some contact value is truthy. */
  function CustomerParty(a: CustomerArgs): Element
  {
    Node("cac:Party",
      PartyHead(a.endpointId, a.endpointScheme, a.partyId, a.name)
      + [AddressOf(PostalAddress, a.street, a.additionalStreet, a.city, a.postalCode, a.country),
         LegalEntity(a.name, a.registrationNumber)]
      + Bis3Parties.ContactBlock(a.contactName, a.contactPhone, a.contactEmail))
  }

  /** The buyer block: five parts, then Contact exactly when a contact value is truthy; the
    * legal entity carries the CompanyID exactly when the registration number is truthy. */
  lemma CustomerShape(a: CustomerArgs)
    ensures var p := CustomerParty(a);
      var contact := !EmptyOpt(a.contactName) || !EmptyOpt(a.contactPhone) || !EmptyOpt(a.contactEmail);
      ChildNames(p.children) == ["cbc:EndpointID", "cac:PartyIdentification", "cac:PartyName", PostalAddress,
                                 "cac:PartyLegalEntity"] + (if contact then ["cac:Contact"] else [])
      && p.children[4] == LegalEntity(a.name, a.registrationNumber)
  {
    var h := PartyHead(a.endpointId, a.endpointScheme, a.partyId, a.name);
    var t := [AddressOf(PostalAddress, a.street, a.additionalStreet, a.city, a.postalCode, a.country),
              LegalEntity(a.name, a.registrationNumber)];
    var c := Bis3Parties.ContactBlock(a.contactName, a.contactPhone, a.contactEmail);
    Bis3Parties.ContactIff(a.contactName, a.contactPhone, a.contactEmail);
    PartyHeadShape(a.endpointId, a.endpointScheme, a.partyId, a.name);
    ChildNamesAppend(h + t, c);
    ChildNamesAppend(h, t);
    assert ChildNames(t) == [t[0].name, t[1].name];
    if c != [] {
      assert ChildNames(c) == [c[0].name];
    }
  }

  /** The buyer block keeps Country last in its address. */
  lemma CustomerCountryLast(a: CustomerArgs)
    ensures CountryLast(Node("cac:AccountingCustomerParty", [CustomerParty(a)]))
  {
    var h := PartyHead(a.endpointId, a.endpointScheme, a.partyId, a.name);
    var t := [AddressOf(PostalAddress, a.street, a.additionalStreet, a.city, a.postalCode, a.country),
              LegalEntity(a.name, a.registrationNumber)];
    var c := Bis3Parties.ContactBlock(a.contactName, a.contactPhone, a.contactEmail);
    PartyHeadCountryLast(a.endpointId, a.endpointScheme, a.partyId, a.name);
    AddressCountryLast(PostalAddress, a.street, a.additionalStreet, a.city, a.postalCode, a.country);
    LegalEntityCountryLast(a.name, a.registrationNumber);
    Bis3Parties.ContactCountryLast(a.contactName, a.contactPhone, a.contactEmail);
    AllCountryLastAppend(h, t);
    AllCountryLastAppend(h + t, c);
    ParentCountryLast("cac:Party", h + t + c);
    ParentCountryLast("cac:AccountingCustomerParty", [CustomerParty(a)]);
  }

  datatype DeliveryArgs = DeliveryArgs(
    date: string, locationId: string, locationScheme: string, street: string, additionalStreet: Option<string>,
    city: string, postalCode: string, country: string, partyName: Option<string>)

  /** addDelivery: the date, the location with its full address, and the party when its name
    * is truthy. */
  function Delivery(a: DeliveryArgs): Element
  {
    Node("cac:Delivery",
      [Text("cbc:ActualDeliveryDate", a.date),
       Node("cac:DeliveryLocation",
         [Leaf("cbc:ID", Some(a.locationId), map["schemeID" := a.locationScheme]),
          AddressOf("cac:Address", a.street, a.additionalStreet, a.city, a.postalCode, a.country)])]
      + (if EmptyOpt(a.partyName) then [] else [Node("cac:DeliveryParty", [Node("cac:PartyName", [Text("cbc:Name", a.partyName.value)])])]))
  }

  lemma DeliveryShape(a: DeliveryArgs)
    ensures var cs := Delivery(a).children;
      ChildNames(cs) == ["cbc:ActualDeliveryDate", "cac:DeliveryLocation"] + (if EmptyOpt(a.partyName) then [] else ["cac:DeliveryParty"])
      && cs[1].children[0].attrs == map["schemeID" := a.locationScheme]
      && cs[1].children[1].children[|cs[1].children[1].children| - 1] == Node(Country, [Text("cbc:IdentificationCode", a.country)])
  {
    var cs := Delivery(a).children;
    var fixed, party := cs[..2], cs[2..];
    assert cs == fixed + party;
    ChildNamesAppend(fixed, party);
    assert ChildNames(fixed) == [fixed[0].name, fixed[1].name];
    AddressShape("cac:Address", a.street, a.additionalStreet, a.city, a.postalCode, a.country);
  }

  // ------------------------------------------------------------ payment

  /** The arguments of addPaymentMeans that reach the document; the channel code and the due
    * date are accepted and never used. */
  datatype PaymentArgs = PaymentArgs(
    code: string, name: Option<string>, paymentId: string, iban: string, accountName: Option<string>, bic: Option<string>)

  function PayeeAccount(a: PaymentArgs): Element
  {
    Node("cac:PayeeFinancialAccount",
      [Text("cbc:ID", a.iban)] + IfTruthy("cbc:Name", a.accountName)
      + (if EmptyOpt(a.bic) then [] else [Node("cac:FinancialInstitutionBranch", [Text("cbc:ID", a.bic.value)])]))
  }

  /** addPaymentMeans: code (with its name attribute when truthy), PaymentID and the account,
    * none of them checked. */
  function PaymentMeans(a: PaymentArgs): Element
  {
    Node("cac:PaymentMeans", [
      Leaf("cbc:PaymentMeansCode", Some(a.code), if EmptyOpt(a.name) then map[] else map["name" := a.name.value]),
      Text("cbc:PaymentID", a.paymentId),
      PayeeAccount(a)])
  }

  /** The code carries a name exactly when the name is truthy; the account is always written,
    * its Name and its branch exactly when their arguments are truthy. */
  lemma PaymentMeansShape(a: PaymentArgs)
    ensures var e := PaymentMeans(a);
      ChildNames(e.children) == ["cbc:PaymentMeansCode", "cbc:PaymentID", "cac:PayeeFinancialAccount"]
      && ("name" in e.children[0].attrs <==> !EmptyOpt(a.name))
      && e.children[2].children[0] == Text("cbc:ID", a.iban)
      && (FindChild(e.children[2], "cbc:Name").Some? <==> !EmptyOpt(a.accountName))
      && (FindChild(e.children[2], "cac:FinancialInstitutionBranch").Some? <==> !EmptyOpt(a.bic))
  {
    var cs := PaymentMeans(a).children;
    assert ChildNames(cs) == [cs[0].name, cs[1].name, cs[2].name];
    var acc := cs[2];
    if !EmptyOpt(a.accountName) {
      assert acc.children[1].name == "cbc:Name";
    }
    if !EmptyOpt(a.bic) {
      assert acc.children[|acc.children| - 1].name == "cac:FinancialInstitutionBranch";
    }
  }

  /** addPaymentTerms: always written; the Note only for a truthy note. The discount
    * arguments are accepted and never used. */
  function PaymentTerms(note: Option<string>): (e: Element)
    ensures e.name == "cac:PaymentTerms"
    ensures e.children == [] <==> EmptyOpt(note)
    ensures e.children != [] ==> e.children == [Text("cbc:Note", note.value)]
  {
    Node("cac:PaymentTerms", IfTruthy("cbc:Note", note))
  }

  /** addAllowanceCharge: unlike the PEPPOL builder, nothing is checked and the tax category is
    * written whatever the rate. */
  function AllowanceCharge(a: Bis3Payment.AllowanceArgs): Element
  {
    Node("cac:AllowanceCharge", [
      Text("cbc:ChargeIndicator", if a.isCharge then "true" else "false"),
      Text("cbc:AllowanceChargeReason", a.reason),
      Leaf("cbc:Amount", Some(FormatAmount(a.amount)), map["currencyID" := a.currency]),
      Node("cac:TaxCategory", [
        Text("cbc:ID", a.taxCategoryId), Text("cbc:Percent", FormatAmount(a.taxPercent)),
        Node("cac:TaxScheme", [Text("cbc:ID", "VAT")])])])
  }

  /** The tax category is always there, whatever the rate, with the VAT scheme last. */
  lemma AllowanceChargeShape(a: Bis3Payment.AllowanceArgs)
    ensures var e := AllowanceCharge(a);
      ChildNames(e.children) == ["cbc:ChargeIndicator", "cbc:AllowanceChargeReason", "cbc:Amount", "cac:TaxCategory"]
      && e.children[0].text == Some(if a.isCharge then "true" else "false")
      && e.children[3].children[2] == Node("cac:TaxScheme", [Text("cbc:ID", "VAT")])
  {
    var cs := AllowanceCharge(a).children;
    assert ChildNames(cs) == [cs[0].name, cs[1].name, cs[2].name, cs[3].name];
  }

  /** The amount, in the given currency, and the rate read back rounded to cents. */
  lemma AllowanceChargeAmounts(a: Bis3Payment.AllowanceArgs)
    ensures var e := AllowanceCharge(a);
      e.children[2].attrs == map["currencyID" := a.currency]
      && ParseNumeric(e.children[2].text.value) == Some(Cents(a.amount) as real / 100.0)
      && ParseNumeric(e.children[3].children[1].text.value) == Some(Cents(a.taxPercent) as real / 100.0)
  {
    FormatAmountParses(a.amount);
    FormatAmountParses(a.taxPercent);
  }

  // ------------------------------------------------------------ tax total

  const TaxTotalName := "cac:TaxTotal"
  const MonetaryTotalName := "cac:LegalMonetaryTotal"

  /** The sum of `(float)$tax['tax_amount']` over the entries. */
  function TaxAmountSum(taxes: seq<Fields>): real
  {
    if taxes == [] then 0.0 else TaxAmountSum(taxes[..|taxes| - 1]) + ToFloat(Get(taxes[|taxes| - 1], "tax_amount"))
  }

  /** Summing two runs of entries one after the other. */
  lemma {:induction false} TaxAmountSumAppend(a: seq<Fields>, b: seq<Fields>)
    ensures TaxAmountSum(a + b) == TaxAmountSum(a) + TaxAmountSum(b)
    decreases |b|
  {
    if b == [] {
      assert a + b == a;
    } else {
      var b' := b[..|b| - 1];
      assert (a + b)[..|a + b| - 1] == a + b';
      TaxAmountSumAppend(a, b');
    }
  }

  /** `$taxTotals[0]['currency'] ?? 'EUR'`. */
  function HeaderCurrency(taxes: seq<Fields>): (c: string)
    ensures taxes == [] ==> c == "EUR"
    ensures taxes != [] && !IsSet(Get(taxes[0], "currency")) ==> c == "EUR"
    ensures taxes != [] && Get(taxes[0], "currency").Str? ==> c == Get(taxes[0], "currency").s
  {
    if taxes == [] then "EUR" else TextOr(Get(taxes[0], "currency"), "EUR")
  }

  /** The category name: "Standard rated" for the category "S" exactly, else the given name
    * when truthy. */
  function CategoryName(tax: Fields): seq<Element>
  {
    if Get(tax, "tax_category_id") == Str("S") then [Text("cbc:Name", "Standard rated")]
    else if !IsEmptyValue(Get(tax, "tax_category_name")) then [Leaf("cbc:Name", ToText(Get(tax, "tax_category_name")), map[])]
    else []
  }

  /** ID, the name when there is one, and Percent: the category before its scheme. */
  function CategoryHead(tax: Fields): seq<Element>
  {
    [Leaf("cbc:ID", ToText(Get(tax, "tax_category_id")), map[])] + CategoryName(tax)
    + [Text("cbc:Percent", FormatAmount(ToFloat(Get(tax, "tax_percent"))))]
  }

  function TaxCategory(tax: Fields): Element
  {
    Node("cac:TaxCategory",
      CategoryHead(tax) + [CategoryScheme(tax)])
  }

  function CategoryScheme(tax: Fields): Element
  {
    Node("cac:TaxScheme", [Leaf("cbc:ID", ToText(Get(tax, "tax_scheme_id")), map[])])
  }

  /** The taxable and tax amounts, each in the entry's currency. */
  function SubtotalAmounts(tax: Fields): seq<Element>
  {
    var currency := map["currencyID" := TextOr(Get(tax, "currency"), "")];
    [Leaf("cbc:TaxableAmount", Some(FormatAmount(ToFloat(Get(tax, "taxable_amount")))), currency),
     Leaf("cbc:TaxAmount", Some(FormatAmount(ToFloat(Get(tax, "tax_amount")))), currency)]
  }

  function TaxSubtotal(tax: Fields): Element
  {
    Node("cac:TaxSubtotal", SubtotalAmounts(tax) + [TaxCategory(tax)])
  }

  function TaxSubtotals(taxes: seq<Fields>): (r: seq<Element>)
    ensures |r| == |taxes| && forall i :: 0 <= i < |taxes| ==> r[i] == TaxSubtotal(taxes[i])
  {
    seq(|taxes|, i requires 0 <= i < |taxes| => TaxSubtotal(taxes[i]))
  }

  /** The TaxTotal: the total in the header currency, then one subtotal per entry. */
  function TaxTotal(taxes: seq<Fields>, total: real): Element
  {
    Node(TaxTotalName,
      [Leaf("cbc:TaxAmount", Some(FormatAmount(total)), map["currencyID" := HeaderCurrency(taxes)])]
      + TaxSubtotals(taxes))
  }

  /** The header amount reads back as the total rounded to cents, in the header currency. */
  lemma TaxTotalHeader(taxes: seq<Fields>, total: real)
    ensures var e := TaxTotal(taxes, total);
      e.children[0].name == "cbc:TaxAmount"
      && e.children[0].attrs == map["currencyID" := HeaderCurrency(taxes)]
      && ParseNumeric(e.children[0].text.value) == Some(Cents(total) as real / 100.0)
  {
    FormatAmountParses(total);
  }

  /** One subtotal per entry, in the entries' order, after the header amount. */
  lemma TaxTotalEntries(taxes: seq<Fields>, total: real)
    ensures var e := TaxTotal(taxes, total);
      |e.children| == |taxes| + 1 && e.children[1..] == TaxSubtotals(taxes)
  {
    var e := TaxTotal(taxes, total);
    var head := [Leaf("cbc:TaxAmount", Some(FormatAmount(total)), map["currencyID" := HeaderCurrency(taxes)])];
    assert e.children == head + TaxSubtotals(taxes);
  }

  /** A category "S" is always named "Standard rated"; another category is named exactly when
    * its name is truthy; the scheme comes last. */
  lemma CategoryNamed(tax: Fields)
    ensures var cat := TaxCategory(tax).children;
      (Get(tax, "tax_category_id") == Str("S") ==> cat[1] == Text("cbc:Name", "Standard rated"))
      && (cat[1].name == "cbc:Name" <==> Get(tax, "tax_category_id") == Str("S") || !IsEmptyValue(Get(tax, "tax_category_name")))
      && cat[|cat| - 1].name == "cac:TaxScheme"
  {
  }

  /** A subtree built by the tax total holds no TaxTotal below its root. */
  lemma NoNestedTaxTotal(taxes: seq<Fields>, total: real)
    ensures CountL(TaxTotal(taxes, total).children, TaxTotalName) == 0
  {
    var head := [Leaf("cbc:TaxAmount", Some(FormatAmount(total)), map["currencyID" := HeaderCurrency(taxes)])];
    CountAppend(head, TaxSubtotals(taxes), TaxTotalName);
    NoneInFlat(head);
    SubtotalsHaveNone(taxes);
  }

  lemma {:induction false} SubtotalsHaveNone(taxes: seq<Fields>)
    ensures CountL(TaxSubtotals(taxes), TaxTotalName) == 0
    decreases |taxes|
  {
    if taxes != [] {
      var s := TaxSubtotals(taxes);
      assert s[1..] == TaxSubtotals(taxes[1..]);
      SubtotalsHaveNone(taxes[1..]);
      SubtotalHasNone(taxes[0]);
    }
  }

  lemma SubtotalHasNone(tax: Fields)
    ensures CountE(TaxSubtotal(tax), TaxTotalName) == 0
  {
    CategoryHasNone(tax);
    OneHasNone(TaxCategory(tax));
    AmountsHaveNone(tax);
    CountAppend(SubtotalAmounts(tax), [TaxCategory(tax)], TaxTotalName);
  }

  lemma AmountsHaveNone(tax: Fields)
    ensures CountL(SubtotalAmounts(tax), TaxTotalName) == 0
  {
    NoneInFlat(SubtotalAmounts(tax));
  }

  lemma CategoryHasNone(tax: Fields)
    ensures CountL(TaxCategory(tax).children, TaxTotalName) == 0
  {
    var scheme := CategoryScheme(tax);
    NoneInFlat(scheme.children);
    OneHasNone(scheme);
    CategoryHeadHasNone(tax);
    CountAppend(CategoryHead(tax), [scheme], TaxTotalName);
  }

  lemma CategoryHeadHasNone(tax: Fields)
    ensures CountL(CategoryHead(tax), TaxTotalName) == 0
  {
    var n := CategoryName(tax);
    assert |n| <= 1 && forall i :: 0 <= i < |n| ==> n[i].name == "cbc:Name" && n[i].children == [];
    var h := CategoryHead(tax);
    assert forall i :: 0 <= i < |h| ==> h[i].children == [] && h[i].name != TaxTotalName;
    NoneInFlat(h);
  }

  /** A one-element list holds what its element holds. */
  lemma OneHasNone(e: Element)
    requires e.name != TaxTotalName && CountL(e.children, TaxTotalName) == 0
    ensures CountL([e], TaxTotalName) == 0
  {
    assert [e][1..] == [];
  }

  /** Childless elements not named TaxTotal hold none. */
  lemma {:induction false} NoneInFlat(cs: seq<Element>)
    requires forall i :: 0 <= i < |cs| ==> cs[i].children == [] && cs[i].name != TaxTotalName
    ensures CountL(cs, TaxTotalName) == 0
    decreases |cs|
  {
    if cs != [] {
      NoneInFlat(cs[1..]);
      assert CountL(cs[0].children, TaxTotalName) == 0;
    }
  }

  /** What addTaxTotal leaves: every earlier TaxTotal gone, anywhere in the tree, and the new
    * one placed before the first LegalMonetaryTotal among the root's children (or last when
    * there is none). Afterwards there is exactly one TaxTotal, nothing before it is a
    * LegalMonetaryTotal, the next child is one when there was one, and removing the TaxTotals
    * again gives back the old tree with its TaxTotals removed: nothing else changed. */
  lemma TaxTotalReplaced(cs: seq<Element>, e: Element)
    requires e.name == TaxTotalName && CountL(e.children, TaxTotalName) == 0
    ensures var p := PruneL(cs, TaxTotalName);
      var k := IndexOfName(p, MonetaryTotalName);
      var r := InsertAt(p, k, e);
      CountL(r, TaxTotalName) == 1
      && r[k] == e
      && (forall i :: 0 <= i < k ==> r[i].name != MonetaryTotalName)
      && (k < |p| ==> r[k + 1].name == MonetaryTotalName)
      && (k == |p| <==> forall i :: 0 <= i < |p| ==> p[i].name != MonetaryTotalName)
      && PruneL(r, TaxTotalName) == PruneL(cs, TaxTotalName)
  {
    var p := PruneL(cs, TaxTotalName);
    var k := IndexOfName(p, MonetaryTotalName);
    PruneLeavesNone(cs, TaxTotalName);
    InsertCount(p, k, e, TaxTotalName);
    InsertPrune(p, k, e, TaxTotalName);
  }

  /** The names addTaxTotal looks up with `getElementsByTagName`. The builder makes its
    * elements with `createElement('cac:TaxTotal')`, without a namespace, so their names are the
    * prefixed texts and the lookup, which compares names as they stand, does not match them. */
  const TaxTotalLookup := "TaxTotal"
  const MonetaryTotalLookup := "LegalMonetaryTotal"

  /** The root's children after addTaxTotal as written: what the lookups match is removed, and
    * the new TaxTotal goes before the first match of the second lookup, or last. */
  function TaxTotalPlacedAsWritten(cs: seq<Element>, e: Element): seq<Element>
  {
    var p := PruneL(cs, TaxTotalLookup);
    InsertAt(p, IndexOfName(p, MonetaryTotalLookup), e)
  }

  /** On a tree of prefixed names the lookups match nothing: the new TaxTotal is appended at
    * the end, after any LegalMonetaryTotal, and the earlier TaxTotals stay. */
  lemma AsWrittenAppends(cs: seq<Element>, e: Element)
    requires CountL(cs, TaxTotalLookup) == 0 && IndexOfName(cs, MonetaryTotalLookup) == |cs|
    requires e.name == TaxTotalName && CountL(e.children, TaxTotalName) == 0
    ensures TaxTotalPlacedAsWritten(cs, e) == cs + [e]
    ensures CountL(TaxTotalPlacedAsWritten(cs, e), TaxTotalName) == CountL(cs, TaxTotalName) + 1
  {
    PlacedLast(cs, e);
    InsertLast(cs, e);
    AppendCount(cs, e, TaxTotalName);
  }

  lemma PlacedLast(cs: seq<Element>, e: Element)
    requires CountL(cs, TaxTotalLookup) == 0 && IndexOfName(cs, MonetaryTotalLookup) == |cs|
    ensures TaxTotalPlacedAsWritten(cs, e) == InsertAt(cs, |cs|, e)
  {
    PruneNoneIdentity(cs, TaxTotalLookup);
  }

  lemma InsertLast(cs: seq<Element>, e: Element)
    ensures InsertAt(cs, |cs|, e) == cs + [e]
  {
  }

  /** Appending one element adds its own count. */
  lemma AppendCount(cs: seq<Element>, e: Element, n: string)
    ensures CountL(cs + [e], n) == CountL(cs, n) + CountE(e, n)
  {
    CountAppend(cs, [e], n);
    assert [e][1..] == [];
  }

  /** Appending an element of another name does not give the name a first match. */
  lemma {:induction false} AppendIndex(cs: seq<Element>, e: Element, n: string)
    requires IndexOfName(cs, n) == |cs| && e.name != n
    ensures IndexOfName(cs + [e], n) == |cs| + 1
    decreases |cs|
  {
    if cs == [] {
      assert [e][1..] == [];
    } else {
      assert (cs + [e])[1..] == cs[1..] + [e];
      AppendIndex(cs[1..], e, n);
    }
  }

  /** Calling addTaxTotal twice, as written, leaves two TaxTotals in the invoice. */
  lemma SecondCallDuplicates(cs: seq<Element>, e: Element)
    requires CountL(cs, TaxTotalLookup) == 0 && CountL(cs, TaxTotalName) == 0
    requires IndexOfName(cs, MonetaryTotalLookup) == |cs|
    requires e.name == TaxTotalName && CountL(e.children, TaxTotalName) == 0 && CountL(e.children, TaxTotalLookup) == 0
    ensures CountL(TaxTotalPlacedAsWritten(TaxTotalPlacedAsWritten(cs, e), e), TaxTotalName) == 2
  {
    var once := TaxTotalPlacedAsWritten(cs, e);
    AsWrittenAppends(cs, e);
    StillUnmatched(cs, e);
    assert CountL(once, TaxTotalLookup) == 0 && IndexOfName(once, MonetaryTotalLookup) == |once|;
    AsWrittenAppends(once, e);
    assert CountL(once, TaxTotalName) == 1;
  }

  /** After the first call the lookups still match nothing. */
  lemma StillUnmatched(cs: seq<Element>, e: Element)
    requires CountL(cs, TaxTotalLookup) == 0 && IndexOfName(cs, MonetaryTotalLookup) == |cs|
    requires e.name == TaxTotalName && CountL(e.children, TaxTotalLookup) == 0
    ensures CountL(cs + [e], TaxTotalLookup) == 0 && IndexOfName(cs + [e], MonetaryTotalLookup) == |cs + [e]|
  {
    AppendCount(cs, e, TaxTotalLookup);
    AppendIndex(cs, e, MonetaryTotalLookup);
  }

  /** Inserting one element named n, with none below it, into a list holding none. */
  lemma InsertCount(p: seq<Element>, k: nat, e: Element, n: string)
    requires CountL(p, n) == 0 && k <= |p| && e.name == n && CountL(e.children, n) == 0
    ensures CountL(InsertAt(p, k, e), n) == 1
  {
    var a, b := p[..k], p[k..];
    assert InsertAt(p, k, e) == (a + [e]) + b;
    assert a + b == p;
    CountAppend(a + [e], b, n);
    CountAppend(a, [e], n);
    CountAppend(a, b, n);
    assert [e][1..] == [];
  }

  /** Pruning after such an insertion gives the list back. */
  lemma InsertPrune(p: seq<Element>, k: nat, e: Element, n: string)
    requires CountL(p, n) == 0 && k <= |p| && e.name == n
    ensures PruneL(InsertAt(p, k, e), n) == p
  {
    var a, b := p[..k], p[k..];
    assert InsertAt(p, k, e) == (a + [e]) + b;
    assert a + b == p;
    PruneAppend(a + [e], b, n);
    PruneAppend(a, [e], n);
    PruneNamed(e, n);
    assert PruneL(a + [e], n) == PruneL(a, n);
    PruneAppend(a, b, n);
    PruneNoneIdentity(p, n);
  }

  /** A list of one element named n prunes to nothing. */
  lemma PruneNamed(e: Element, n: string)
    requires e.name == n
    ensures PruneL([e], n) == []
  {
    assert [e][1..] == [];
  }

  /** The legal monetary total: the five amounts cast with (float), a missing key as 0. */
  function MonetaryTotal(totals: Fields, currency: string): Element
  {
    LegalMonetaryTotal(MonetaryValues(totals), currency)
  }

  // ------------------------------------------------------------ invoice line

  /** `$lineData[k]` passed as a nullable string: a missing key or null gives no text. */
  function LineText(d: Fields, k: string): Option<string> { ToText(Get(d, k)) }

  /** `$lineData[k]` passed as an attribute value: null becomes "". */
  function LineAttr(d: Fields, k: string): string { TextOr(Get(d, k), "") }

  /** `formatAmount((float)$lineData[k])`. */
  function LineAmount(d: Fields, k: string): string { FormatAmount(ToFloat(Get(d, k))) }

  function ClassifiedTaxCategory(d: Fields): Element
  {
    Node("cac:ClassifiedTaxCategory",
      [Leaf("cbc:ID", LineText(d, "tax_category_id"), map[])]
      + IfSet("cbc:Name", Bis3Line.Truthy(Get(d, "tax_category_name")))
      + [Text("cbc:Percent", LineAmount(d, "tax_percent")),
         Node("cac:TaxScheme", [Leaf("cbc:ID", LineText(d, "tax_scheme_id"), map[])])])
  }

  function Item(d: Fields): Element
  {
    Node("cac:Item", [
      Leaf("cbc:Description", LineText(d, "description"), map[]),
      Leaf("cbc:Name", LineText(d, "name"), map[]),
      ClassifiedTaxCategory(d)])
  }

  /** ID, quantity in its unit, and the line amount in its currency. */
  function LineHead(d: Fields): seq<Element>
  {
    [Leaf("cbc:ID", LineText(d, "id"), map[]),
     Leaf("cbc:InvoicedQuantity", Some(LineAmount(d, "quantity")), map["unitCode" := LineAttr(d, "unit_code")]),
     Leaf("cbc:LineExtensionAmount", Some(LineAmount(d, "line_extension_amount")), map["currencyID" := LineAttr(d, "currency")])]
  }

  /** The part of a line written before its tax is computed: the head, AccountingCost and
    * OrderLineReference when truthy, the Item. */
  function LineOpening(d: Fields): seq<Element>
  {
    LineHead(d)
    + Bis3Line.AccountingCostBlock(Bis3Line.Truthy(Get(d, "accounting_cost")))
    + Bis3Line.OrderLineBlock(Bis3Line.Truthy(Get(d, "order_line_id")))
    + [Item(d)]
  }

  /** `($lineData['line_extension_amount'] * $lineData['tax_percent']) / 100`, or None where
    * PHP throws a TypeError for a non-numeric string operand. */
  function LineTax(d: Fields): Option<real>
  {
    var a, b := ArithOperand(Get(d, "line_extension_amount")), ArithOperand(Get(d, "tax_percent"));
    if a.Some? && b.Some? then Some(a.value * b.value / 100.0) else None
  }

  const NonNumericOperand := TypeError("Unsupported operand types")

  function Price(d: Fields): Element
  {
    Node("cac:Price", [
      Leaf("cbc:PriceAmount", Some(LineAmount(d, "price_amount")), map["currencyID" := LineAttr(d, "currency")]),
      Leaf("cbc:BaseQuantity", Some("1"), map["unitCode" := LineAttr(d, "unit_code")])])
  }

  function LineTaxTotal(d: Fields, tax: real): Element
  {
    Node(TaxTotalName, [Leaf("cbc:TaxAmount", Some(FormatAmount(tax)), map["currencyID" := LineAttr(d, "currency")])])
  }

  /** The whole line, once its tax is known. */
  function InvoiceLine(d: Fields, tax: real): Element
  {
    Node("cac:InvoiceLine", LineOpening(d) + [LineTaxTotal(d, tax), Price(d)])
  }

  /** The line as the TypeError leaves it: the opening and an empty TaxTotal. */
  function PartialLine(d: Fields): Element
  {
    Node("cac:InvoiceLine", LineOpening(d) + [Node(TaxTotalName, [])])
  }

  /** The tax is computed exactly when both operands are numbers, numeric strings or strings
    * with a numeric prefix (or null or missing, read as 0), and is then the line amount times
    * the rate over 100, with the same values (float) gives. */
  lemma LineTaxIff(d: Fields)
    ensures LineTax(d).Some? <==>
      ArithOperand(Get(d, "line_extension_amount")).Some? && ArithOperand(Get(d, "tax_percent")).Some?
    ensures LineTax(d).Some? ==>
      LineTax(d).value == ToFloat(Get(d, "line_extension_amount")) * ToFloat(Get(d, "tax_percent")) / 100.0
    ensures IsNumeric(Get(d, "line_extension_amount")) && IsNumeric(Get(d, "tax_percent")) ==> LineTax(d).Some?
  {
    OperandIsFloat(Get(d, "line_extension_amount"));
    OperandIsFloat(Get(d, "tax_percent"));
  }

  /** A usable operand has the value (float) gives it. */
  lemma OperandIsFloat(v: Value)
    ensures ArithOperand(v).Some? ==> ArithOperand(v).value == ToFloat(v)
  {
    if v.Str? {
      assert v.s[..|v.s|] == v.s;
    }
  }

  /** The names of the opening: the head, the optional blocks when truthy, the Item. */
  lemma OpeningNames(d: Fields)
    ensures ChildNames(LineOpening(d))
      == ["cbc:ID", "cbc:InvoicedQuantity", "cbc:LineExtensionAmount"]
         + Bis3Line.NameIf(Bis3Line.Truthy(Get(d, "accounting_cost")), "cbc:AccountingCost")
         + Bis3Line.NameIf(Bis3Line.Truthy(Get(d, "order_line_id")), "cac:OrderLineReference")
         + ["cac:Item"]
  {
    var h := LineHead(d);
    var oac, ool := Bis3Line.Truthy(Get(d, "accounting_cost")), Bis3Line.Truthy(Get(d, "order_line_id"));
    var ac, ol := Bis3Line.AccountingCostBlock(oac), Bis3Line.OrderLineBlock(ool);
    ChildNamesAppend(h + ac + ol, [Item(d)]);
    LineHeadNames(d);
    Bis3Line.OptionalBlocksNames(h, ac, ol, oac, ool);
  }

  lemma LineHeadNames(d: Fields)
    ensures ChildNames(LineHead(d)) == ["cbc:ID", "cbc:InvoicedQuantity", "cbc:LineExtensionAmount"]
  {
    var h := LineHead(d);
    assert ChildNames(h) == [h[0].name, h[1].name, h[2].name];
  }

  /** The blocks of a line, in order, with its TaxTotal and Price last. */
  lemma LineNames(d: Fields, tax: real)
    ensures ChildNames(InvoiceLine(d, tax).children) == ChildNames(LineOpening(d)) + [TaxTotalName, "cac:Price"]
  {
    var t := [LineTaxTotal(d, tax), Price(d)];
    ChildNamesAppend(LineOpening(d), t);
    assert ChildNames(t) == [t[0].name, t[1].name];
  }

  /** The line's TaxAmount reads back as the computed tax rounded to cents, in the line's
    * currency; the Price has a BaseQuantity of 1 in the line's unit. */
  lemma LineTaxWritten(d: Fields, tax: real)
    ensures var cs := InvoiceLine(d, tax).children;
      cs[|cs| - 2].children[0].attrs == map["currencyID" := LineAttr(d, "currency")]
      && ParseNumeric(cs[|cs| - 2].children[0].text.value) == Some(Cents(tax) as real / 100.0)
      && cs[|cs| - 1].children[1] == Leaf("cbc:BaseQuantity", Some("1"), map["unitCode" := LineAttr(d, "unit_code")])
  {
    var cs := InvoiceLine(d, tax).children;
    assert cs[|cs| - 2] == LineTaxTotal(d, tax) && cs[|cs| - 1] == Price(d);
    FormatAmountParses(tax);
  }

  /** A line whose tax cannot be computed keeps the whole opening, then an empty TaxTotal, and
    * has no Price. */
  lemma PartialLineIsPrefix(d: Fields, tax: real)
    ensures var full, part := InvoiceLine(d, tax).children, PartialLine(d).children;
      |part| == |full| - 1
      && part[..|part| - 1] == full[..|full| - 2] == LineOpening(d)
      && part[|part| - 1] == Node(TaxTotalName, [])
      && ChildNames(part) == ChildNames(LineOpening(d)) + [TaxTotalName]
  {
    var o := LineOpening(d);
    var full, part := InvoiceLine(d, tax).children, PartialLine(d).children;
    assert part[..|part| - 1] == o;
    assert full[..|full| - 2] == o;
    ChildNamesAppend(o, [Node(TaxTotalName, [])]);
  }
}
