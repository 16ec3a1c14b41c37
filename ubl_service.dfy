// The example builder: a PEPPOL invoice filled with fixed sample data, with a header whose
// due date is normalised and defaulted instead of checked, and free-form invoice lines.
module UblService {
  import opened Wrappers
  import opened Php
  import opened Xml
  import opened Document
  import opened Dates
  import BeBis3Blocks
  import Bis3Parties
  import UblBis3

  /** A day PHP's DateTime can hold. */
  type Day = d: Date | ValidDate(d) witness Date(2017, 11, 13)

  const AlreadyInitializedNl := RuntimeException("Document is al geïnitialiseerd. Voorkom dubbele initialisatie van het document.")
  const RootNotInitialized := RuntimeException("Root element is niet geïnitialiseerd. Roep createDocument() aan voordat je elementen toevoegt.")
  const ExampleFailurePrefix := "Fout bij het aanmaken van UBL document: "

  /** createExampleInvoice's catch: a RuntimeException comes back as a RuntimeException whose
    * message has the prefix in front; anything else passes through untouched. */
  function Rewrap(e: Exception): (r: Exception)
    ensures r.RuntimeException? <==> e.RuntimeException?
  {
    if e.RuntimeException? then RuntimeException(ExampleFailurePrefix + e.message) else e
  }

  /** The rewrapped message is the prefix and then the original message, which is kept whole. */
  lemma RewrapKeepsMessage(e: Exception)
    requires e.RuntimeException?
    ensures var m := Rewrap(e).message;
      |m| == |ExampleFailurePrefix| + |e.message|
      && m[..|ExampleFailurePrefix|] == ExampleFailurePrefix
      && m[|ExampleFailurePrefix|..] == e.message
  {
  }

  // ------------------------------------------------------------ header

  /** A date argument of addInvoiceHeader: a DateTime object or text. */
  datatype DateInput = DateObject(dt: DateTime) | DateText(s: string)

  /** The text the header works with: a DateTime object is formatted as Y-m-d first. */
  function DateString(a: DateInput): (s: string)
    ensures a.DateObject? ==> s == FormatYmd(a.dt.date)
    ensures a.DateText? ==> s == a.s
  {
    match a
    case DateObject(dt) => FormatYmd(dt.date)
    case DateText(s) => s
  }

  /** The day written as DueDate. `parse` is the DateTime constructor's reading of a text (None
    * where it throws) and `today` the current day. An empty due date becomes the issue date
    * plus 30 days; any other due date is read and normalised; a text that cannot be read falls
    * back to today plus 30 days. */
  function DueDay(issueText: string, dueText: string, parse: string -> Option<Day>, today: Day): Day
  {
    if EmptyString(dueText) then
      match parse(issueText)
      case Some(i) => AddDays(i, 30)
      case None => AddDays(today, 30)
    else
      match parse(dueText)
      case Some(d) => d
      case None => AddDays(today, 30)
  }

  /** The due day is 30 days after the issue date when none is given, the given day when it
    * can be read, and 30 days after today otherwise; in the first and last case it lies
    * strictly after the day it was counted from. */
  lemma DueDayCases(issueText: string, dueText: string, parse: string -> Option<Day>, today: Day)
    ensures var d := DueDay(issueText, dueText, parse, today);
      && (EmptyString(dueText) && parse(issueText).Some? ==>
            d == AddDays(parse(issueText).value, 30) && DateBefore(parse(issueText).value, d))
      && (!EmptyString(dueText) && parse(dueText).Some? ==> d == parse(dueText).value)
      && ((if EmptyString(dueText) then parse(issueText) else parse(dueText)).None? ==>
            d == AddDays(today, 30) && DateBefore(today, d))
  {
  }

  /** Whatever the arguments, the DueDate text is a well-formed Y-m-d date that reads back as
    * the day it was made from (for four-digit years). */
  lemma DueTextReadsBack(issueText: string, dueText: string, parse: string -> Option<Day>, today: Day)
    ensures var d := DueDay(issueText, dueText, parse, today);
      d.year < 10000 ==> ParseYmd(FormatYmd(d)).Some? && ParseYmd(FormatYmd(d)).value == d
  {
    var d := DueDay(issueText, dueText, parse, today);
    if d.year < 10000 {
      FormatThenParse(d);
    }
  }

  const PeppolCustomizationId := "urn:cen.eu:en16931:2017#compliant#urn:fdc:peppol.eu:2017:poacc:billing:3.0"
  const PeppolProfileId := "urn:fdc:peppol.eu:2017:poacc:billing:01:1.0"

  /** The eight header elements; the issue date is written as given. */
  function Header(number: string, issueText: string, due: Day): seq<Element>
  {
    [Text("cbc:CustomizationID", PeppolCustomizationId),
     Text("cbc:ProfileID", PeppolProfileId),
     Text("cbc:ID", number),
     Text("cbc:IssueDate", issueText),
     Text("cbc:DueDate", FormatYmd(due)),
     Text("cbc:InvoiceTypeCode", "380"),
     Text("cbc:DocumentCurrencyCode", "EUR"),
     Text("cbc:AccountingCost", "4025:123:4343")]
  }

  /** The header names its eight parts in order, carries the number and both dates, and is a
    * commercial invoice (type code 380) in euros. */
  lemma HeaderShape(number: string, issueText: string, due: Day)
    ensures var es := Header(number, issueText, due);
      ChildNames(es) == ["cbc:CustomizationID", "cbc:ProfileID", "cbc:ID", "cbc:IssueDate", "cbc:DueDate",
                         "cbc:InvoiceTypeCode", "cbc:DocumentCurrencyCode", "cbc:AccountingCost"]
      && es[2].text == Some(number) && es[3].text == Some(issueText)
      && es[4].text == Some(FormatYmd(due)) && es[5].text == Some("380") && es[6].text == Some("EUR")
  {
    var es := Header(number, issueText, due);
    assert ChildNames(es) == [es[0].name, es[1].name, es[2].name, es[3].name, es[4].name, es[5].name, es[6].name, es[7].name];
  }

  /** What addInvoiceHeader writes for its arguments. */
  function HeaderFor(number: string, issue: DateInput, due: DateInput, parse: string -> Option<Day>, today: Day): seq<Element>
  {
    Header(number, DateString(issue), DueDay(DateString(issue), DateString(due), parse, today))
  }

  // ------------------------------------------------------------ fixed sample blocks

  /** A party block of the example: its role element around a Party holding the identifying
    * head, the postal address and the remaining parts. */
  function SampleParty(role: string, head: seq<Element>, address: Element, rest: seq<Element>): Element
  {
    Node(role, [Node("cac:Party", head + [address] + rest)])
  }

  lemma SamplePartyCountryLast(role: string, head: seq<Element>, address: Element, rest: seq<Element>)
    requires role != PostalAddress && |head| == 3
    requires forall i :: 0 <= i < |head| ==> CountryLast(head[i])
    requires CountryLast(address)
    requires forall i :: 0 <= i < |rest| ==> CountryLast(rest[i])
    ensures CountryLast(SampleParty(role, head, address, rest))
    ensures SampleParty(role, head, address, rest).children[0].children[3] == address
  {
    var p := Node("cac:Party", head + [address] + rest);
    forall i | 0 <= i < |p.children|
      ensures CountryLast(p.children[i])
    {
      if i < 3 {
        assert p.children[i] == head[i];
      } else if i > 3 {
        assert p.children[i] == rest[i - 4];
      }
    }
    CountryLastByIndex(p);
    CountryLastByIndex(SampleParty(role, head, address, rest));
  }

  function SupplierHead(): seq<Element>
  {
    BeBis3Blocks.PartyHead("9482348239847239874", "0088", "99887766", "SupplierTradingName Ltd.")
  }

  function SupplierRest(): seq<Element>
  {
    [BeBis3Blocks.VatScheme("GB1232434"), BeBis3Blocks.LegalEntity("SupplierOfficialName Ltd", Some("GB983294"))]
  }

  lemma SupplierPartsFlat()
    ensures |SupplierHead()| == 3 && forall i :: 0 <= i < 3 ==> CountryLast(SupplierHead()[i])
    ensures forall i :: 0 <= i < |SupplierRest()| ==> CountryLast(SupplierRest()[i])
  {
    BeBis3Blocks.PartyHeadShape("9482348239847239874", "0088", "99887766", "SupplierTradingName Ltd.");
    BeBis3Blocks.VatSchemeCountryLast("GB1232434");
    BeBis3Blocks.LegalEntityCountryLast("SupplierOfficialName Ltd", Some("GB983294"));
  }

  function ExampleSupplier(): Element
  {
    SampleParty("cac:AccountingSupplierParty", SupplierHead(),
      BeBis3Blocks.AddressOf(PostalAddress, "Main street 1", Some("Postbox 123"), "London", "GB 123 EW", "GB"),
      SupplierRest())
  }

  /** The sample seller's address ends with its country, GB. */
  lemma ExampleSupplierCountryLast()
    ensures CountryLast(ExampleSupplier())
    ensures var a := ExampleSupplier().children[0].children[3];
      a.name == PostalAddress && a.children[|a.children| - 1] == Node(Country, [Text("cbc:IdentificationCode", "GB")])
  {
    SupplierPartsFlat();
    BeBis3Blocks.AddressShape(PostalAddress, "Main street 1", Some("Postbox 123"), "London", "GB 123 EW", "GB");
    SamplePartyCountryLast("cac:AccountingSupplierParty", SupplierHead(),
      BeBis3Blocks.AddressOf(PostalAddress, "Main street 1", Some("Postbox 123"), "London", "GB 123 EW", "GB"),
      SupplierRest());
  }

  function CustomerHead(): seq<Element>
  {
    [Leaf("cbc:EndpointID", Some("FR23342"), map["schemeID" := "0002"]),
     Node("cac:PartyIdentification", [Leaf("cbc:ID", Some("FR23342"), map["schemeID" := "0002"])]),
     Node("cac:PartyName", [Text("cbc:Name", "BuyerTradingName AS")])]
  }

  lemma CustomerHeadFlat()
    ensures |CustomerHead()| == 3 && forall i :: 0 <= i < 3 ==> CountryLast(CustomerHead()[i])
  {
    var h := CustomerHead();
    FlatCountryLast(h[0]);
    FlatCountryLast(h[1].children[0]);
    CountryLastByIndex(h[1]);
    FlatCountryLast(h[2].children[0]);
    CountryLastByIndex(h[2]);
  }

  function CustomerRest(): seq<Element>
  {
    [BeBis3Blocks.VatScheme("SE1234567801"), BeBis3Blocks.LegalEntity("Buyer Official Name", Some("SE5567894321"))]
    + Bis3Parties.ContactBlock(Some("Lisa Johnson"), Some("+46 12 34 56 78"), Some("lisa@buyer.se"))
  }

  lemma CustomerRestFlat()
    ensures forall i :: 0 <= i < |CustomerRest()| ==> CountryLast(CustomerRest()[i])
  {
    var c := Bis3Parties.ContactBlock(Some("Lisa Johnson"), Some("+46 12 34 56 78"), Some("lisa@buyer.se"));
    BeBis3Blocks.VatSchemeCountryLast("SE1234567801");
    BeBis3Blocks.LegalEntityCountryLast("Buyer Official Name", Some("SE5567894321"));
    FlatCountryLast(c[0]);
  }

  function ExampleCustomer(): Element
  {
    SampleParty("cac:AccountingCustomerParty", CustomerHead(),
      BeBis3Blocks.AddressOf(PostalAddress, "Hovedgatan 32", Some("Po box 878"), "Stockholm", "456 34", "SE"),
      CustomerRest())
  }

  /** The sample buyer's address ends with its country, SE. */
  lemma ExampleCustomerCountryLast()
    ensures CountryLast(ExampleCustomer())
    ensures var a := ExampleCustomer().children[0].children[3];
      a.name == PostalAddress && a.children[|a.children| - 1] == Node(Country, [Text("cbc:IdentificationCode", "SE")])
  {
    CustomerHeadFlat();
    CustomerRestFlat();
    BeBis3Blocks.AddressShape(PostalAddress, "Hovedgatan 32", Some("Po box 878"), "Stockholm", "456 34", "SE");
    SamplePartyCountryLast("cac:AccountingCustomerParty", CustomerHead(),
      BeBis3Blocks.AddressOf(PostalAddress, "Hovedgatan 32", Some("Po box 878"), "Stockholm", "456 34", "SE"),
      CustomerRest());
  }

  function ExampleDelivery(): Element
  {
    BeBis3Blocks.Delivery(BeBis3Blocks.DeliveryArgs("2017-11-01", "9483759475923478", "0088", "Delivery street 2",
      Some("Building 56"), "Stockholm", "21234", "SE", Some("Delivery party Name")))
  }

  /** PaymentMeans with the sample account; the code element has no text when the type is null. */
  function PaymentMeans(paymentType: Option<string>): (e: Element)
    ensures e.name == "cac:PaymentMeans" && |e.children| == 3
    ensures e.children[0].name == "cbc:PaymentMeansCode" && e.children[0].text == paymentType
    ensures e.children[0].attrs == map["name" := "Credit transfer"]
  {
    Node("cac:PaymentMeans",
      [Leaf("cbc:PaymentMeansCode", paymentType, map["name" := "Credit transfer"]),
       Text("cbc:PaymentID", "Snippet1"),
       Node("cac:PayeeFinancialAccount",
         [Text("cbc:ID", "IBAN32423940"), Text("cbc:Name", "AccountName"),
          Node("cac:FinancialInstitutionBranch", [Text("cbc:ID", "BIC324098")])])])
  }

  function ExamplePaymentTerms(): Element
  {
    Node("cac:PaymentTerms", [Text("cbc:Note", "Payment within 10 days, 2% discount")])
  }

  /** Tax category S at 25% under the VAT scheme. */
  function StandardCategory(qname: string): Element
  {
    Node(qname, [Text("cbc:ID", "S"), Text("cbc:Percent", "25.0"), Node("cac:TaxScheme", [Text("cbc:ID", "VAT")])])
  }

  function Euros(qname: string, amount: string): Element
  {
    Leaf(qname, Some(amount), map["currencyID" := "EUR"])
  }

  function ExampleAllowanceCharge(): Element
  {
    Node("cac:AllowanceCharge",
      [Text("cbc:ChargeIndicator", "true"), Text("cbc:AllowanceChargeReason", "Insurance"),
       Euros("cbc:Amount", "25"), StandardCategory("cac:TaxCategory")])
  }

  function ExampleTaxTotal(): Element
  {
    Node("cac:TaxTotal",
      [Euros("cbc:TaxAmount", "331.25"),
       Node("cac:TaxSubtotal",
         [Euros("cbc:TaxableAmount", "1325"), Euros("cbc:TaxAmount", "331.25"), StandardCategory("cac:TaxCategory")])])
  }

  function ExampleMonetaryTotal(): Element
  {
    Node("cac:LegalMonetaryTotal",
      [Euros("cbc:LineExtensionAmount", "1300"), Euros("cbc:TaxExclusiveAmount", "1325"),
       Euros("cbc:TaxInclusiveAmount", "1656.25"), Euros("cbc:ChargeTotalAmount", "25"),
       Euros("cbc:PayableAmount", "1656.25")])
  }

  // ------------------------------------------------------------ invoice lines

  /** The arguments of addInvoiceLine, all text; the four optional ones may be null. */
  datatype LineArgs = LineArgs(
    id: string, quantity: string, unitCode: string, lineExtensionAmount: string, description: string,
    name: string, priceAmount: string, accountingCost: Option<string>, orderLineId: Option<string>,
    standardItemId: Option<string>, originCountry: Option<string>, taxCategoryId: string, taxPercent: string)

  /** The Item: description and name, the standard identification and origin country when
    * truthy, then always the SRV commodity classification and the VAT tax category. */
  function Item(a: LineArgs): Element
  {
    Node("cac:Item",
      [Text("cbc:Description", a.description), Text("cbc:Name", a.name)]
      + StandardItemBlock(a.standardItemId) + OriginCountryBlock(a.originCountry) + ItemTail(a))
  }

  function StandardItemBlock(o: Option<string>): (r: seq<Element>)
    ensures |r| <= 1 && (r != [] <==> !EmptyOpt(o)) && (r != [] ==> r[0].name == "cac:StandardItemIdentification")
  {
    if EmptyOpt(o) then [] else [Node("cac:StandardItemIdentification", [Leaf("cbc:ID", o, map["schemeID" := "0088"])])]
  }

  function OriginCountryBlock(o: Option<string>): (r: seq<Element>)
    ensures |r| <= 1 && (r != [] <==> !EmptyOpt(o)) && (r != [] ==> r[0].name == "cac:OriginCountry")
  {
    if EmptyOpt(o) then [] else [Node("cac:OriginCountry", [Text("cbc:IdentificationCode", o.value)])]
  }

  function OrderLineBlock(o: Option<string>): (r: seq<Element>)
    ensures |r| <= 1 && (r != [] <==> !EmptyOpt(o)) && (r != [] ==> r[0].name == "cac:OrderLineReference")
  {
    if EmptyOpt(o) then [] else [Node("cac:OrderLineReference", [Text("cbc:LineID", o.value)])]
  }

  /** The name of an optional block, present when its argument is truthy. */
  function NameIfTruthy(o: Option<string>, qname: string): seq<string>
  {
    if EmptyOpt(o) then [] else [qname]
  }

  function ItemTail(a: LineArgs): seq<Element>
  {
    [Node("cac:CommodityClassification", [Leaf("cbc:ItemClassificationCode", Some("09348023"), map["listID" := "SRV"])]),
     Node("cac:ClassifiedTaxCategory",
       [Text("cbc:ID", a.taxCategoryId), Text("cbc:Percent", a.taxPercent), Node("cac:TaxScheme", [Text("cbc:ID", "VAT")])])]
  }

  function LineHead(a: LineArgs): seq<Element>
  {
    [Text("cbc:ID", a.id),
     Leaf("cbc:InvoicedQuantity", Some(a.quantity), map["unitCode" := a.unitCode]),
     Euros("cbc:LineExtensionAmount", a.lineExtensionAmount)]
  }

  function LineTail(a: LineArgs): seq<Element>
  {
    [Item(a), Node("cac:Price", [Euros("cbc:PriceAmount", a.priceAmount)])]
  }

  function InvoiceLine(a: LineArgs): Element
  {
    Node("cac:InvoiceLine",
      LineHead(a) + IfTruthy("cbc:AccountingCost", a.accountingCost) + OrderLineBlock(a.orderLineId) + LineTail(a))
  }

  /** A line holds its head, then AccountingCost and OrderLineReference exactly when their
    * arguments are truthy, then the Item and the Price. */
  lemma LineNames(a: LineArgs)
    ensures ChildNames(InvoiceLine(a).children)
      == ["cbc:ID", "cbc:InvoicedQuantity", "cbc:LineExtensionAmount"]
         + NameIfTruthy(a.accountingCost, "cbc:AccountingCost") + NameIfTruthy(a.orderLineId, "cac:OrderLineReference")
         + ["cac:Item", "cac:Price"]
  {
    var h, t := LineHead(a), LineTail(a);
    var ac, ol := IfTruthy("cbc:AccountingCost", a.accountingCost), OrderLineBlock(a.orderLineId);
    assert InvoiceLine(a).children == h + ac + ol + t;
    ChildNamesAppend(h + ac + ol, t);
    ChildNamesAppend(h + ac, ol);
    ChildNamesAppend(h, ac);
    assert ChildNames(h) == ["cbc:ID", "cbc:InvoicedQuantity", "cbc:LineExtensionAmount"];
    assert ChildNames(t) == ["cac:Item", "cac:Price"];
    assert ChildNames(ac) == NameIfTruthy(a.accountingCost, "cbc:AccountingCost");
    assert ChildNames(ol) == NameIfTruthy(a.orderLineId, "cac:OrderLineReference");
  }

  /** The Price comes last, in euros, right after the Item. */
  lemma LineEndsWithPrice(a: LineArgs)
    ensures var cs := InvoiceLine(a).children;
      |cs| >= 5 && cs[|cs| - 2] == Item(a)
      && cs[|cs| - 1] == Node("cac:Price", [Leaf("cbc:PriceAmount", Some(a.priceAmount), map["currencyID" := "EUR"])])
  {
    var cs := InvoiceLine(a).children;
    assert cs[|cs| - 2..] == LineTail(a);
  }

  /** The Item holds the identification and origin country exactly when their arguments are
    * truthy, and always ends with the commodity classification and the tax category. */
  lemma ItemNames(a: LineArgs)
    ensures ChildNames(Item(a).children)
      == ["cbc:Description", "cbc:Name"]
         + NameIfTruthy(a.standardItemId, "cac:StandardItemIdentification")
         + NameIfTruthy(a.originCountry, "cac:OriginCountry")
         + ["cac:CommodityClassification", "cac:ClassifiedTaxCategory"]
  {
    var d := [Text("cbc:Description", a.description), Text("cbc:Name", a.name)];
    var si, oc, t := StandardItemBlock(a.standardItemId), OriginCountryBlock(a.originCountry), ItemTail(a);
    assert Item(a).children == d + si + oc + t;
    ChildNamesAppend(d + si + oc, t);
    ChildNamesAppend(d + si, oc);
    ChildNamesAppend(d, si);
    assert ChildNames(d) == ["cbc:Description", "cbc:Name"];
    assert ChildNames(t) == ["cac:CommodityClassification", "cac:ClassifiedTaxCategory"];
    assert ChildNames(si) == NameIfTruthy(a.standardItemId, "cac:StandardItemIdentification");
    assert ChildNames(oc) == NameIfTruthy(a.originCountry, "cac:OriginCountry");
  }

  /** Every Item ends with the SRV classification and the VAT tax category of the line. */
  lemma ItemEndsWithCategory(a: LineArgs)
    ensures var cs := Item(a).children;
      |cs| >= 4
      && cs[|cs| - 2].children[0].attrs == map["listID" := "SRV"]
      && cs[|cs| - 1].children == [Text("cbc:ID", a.taxCategoryId), Text("cbc:Percent", a.taxPercent),
                                   Node("cac:TaxScheme", [Text("cbc:ID", "VAT")])]
  {
    var cs := Item(a).children;
    assert cs[|cs| - 2..] == ItemTail(a);
  }

  const FirstLine := LineArgs("1", "7", "DAY", "2800", "Description of item", "item name", "400",
    Some("Konteringsstreng"), Some("123"), Some("21382183120983"), Some("NO"), "S", "25.0")
  const SecondLine := LineArgs("2", "-3", "DAY", "-1500", "Description 2", "item name 2", "500",
    None, Some("123"), Some("21382183120983"), Some("NO"), "S", "25.0")

  /** createExampleInvoice puts under the root, after the header: the parties, the settlement
    * (payment, allowance and totals), then the lines. */
  function ExampleParties(): seq<Element>
  {
    [UblBis3.BuyerReference(Some("0150abc")), ExampleSupplier(), ExampleCustomer(), ExampleDelivery()]
  }

  function ExampleSettlement(): seq<Element>
  {
    [PaymentMeans(Some("30")), ExamplePaymentTerms(), ExampleAllowanceCharge(), ExampleTaxTotal(), ExampleMonetaryTotal()]
  }

  function ExampleLines(): seq<Element>
  {
    [InvoiceLine(FirstLine), InvoiceLine(SecondLine)]
  }

  /** The sample header: invoice Snippet1 of 13 November 2017, due on 1 December 2017 as far as
    * the DateTime constructor reads that text. */
  function ExampleHeader(parse: string -> Option<Day>, today: Day): seq<Element>
  {
    HeaderFor("Snippet1", DateText("2017-11-13"), DateText("2017-12-01"), parse, today)
  }

  /** After the header the example follows the PEPPOL order: buyer reference, the two parties,
    * delivery, then payment means and terms, allowance, tax total, monetary total, then the
    * two lines. */
  lemma ExampleSectionOrder()
    ensures ChildNames(ExampleParties()) == ["cbc:BuyerReference", "cac:AccountingSupplierParty",
                                             "cac:AccountingCustomerParty", "cac:Delivery"]
    ensures ChildNames(ExampleSettlement()) == ["cac:PaymentMeans", "cac:PaymentTerms", "cac:AllowanceCharge",
                                                "cac:TaxTotal", "cac:LegalMonetaryTotal"]
    ensures ChildNames(ExampleLines()) == ["cac:InvoiceLine", "cac:InvoiceLine"]
  {
    PartiesNames();
    SettlementNames();
    LinesNames();
  }

  lemma LinesNames()
    ensures ChildNames(ExampleLines()) == ["cac:InvoiceLine", "cac:InvoiceLine"]
  {
    var l := ExampleLines();
    assert ChildNames(l) == [l[0].name, l[1].name];
  }

  lemma PartiesNames()
    ensures ChildNames(ExampleParties()) == ["cbc:BuyerReference", "cac:AccountingSupplierParty",
                                             "cac:AccountingCustomerParty", "cac:Delivery"]
  {
    var t := ExampleParties();
    assert ChildNames(t) == [t[0].name, t[1].name, t[2].name, t[3].name];
  }

  lemma SettlementNames()
    ensures ChildNames(ExampleSettlement()) == ["cac:PaymentMeans", "cac:PaymentTerms", "cac:AllowanceCharge",
                                                "cac:TaxTotal", "cac:LegalMonetaryTotal"]
  {
    var t := ExampleSettlement();
    assert ChildNames(t) == [t[0].name, t[1].name, t[2].name, t[3].name, t[4].name];
  }

  /** The second sample line has no AccountingCost (null); the first has one. */
  lemma ExampleLinesAccountingCost()
    ensures ChildNames(InvoiceLine(FirstLine).children)[3] == "cbc:AccountingCost"
    ensures "cbc:AccountingCost" !in ChildNames(InvoiceLine(SecondLine).children)
  {
    LineNames(FirstLine);
    LineNames(SecondLine);
    var n2 := ChildNames(InvoiceLine(SecondLine).children);
    assert n2 == ["cbc:ID", "cbc:InvoicedQuantity", "cbc:LineExtensionAmount", "cac:OrderLineReference", "cac:Item", "cac:Price"];
  }

  // ------------------------------------------------------------ the builder

  class UblService {
    /** The Invoice element once CreateDocument has run. */
    var root: Option<Element>

    constructor()
      ensures root.None?
    {
      root := None;
    }

    /** createDocument: builds the root once (in a fresh document); a second call throws. */
    method CreateDocument() returns (r: Outcome<Exception>)
      modifies this
      ensures old(root).Some? ==> r == Fail(AlreadyInitializedNl) && root == old(root)
      ensures old(root).None? ==> r.Pass? && root == Some(InvoiceRoot(true))
    {
      if root.Some? {
        return Fail(AlreadyInitializedNl);
      }
      root := Some(InvoiceRoot(true));
      r := Pass;
    }

    /** addInvoiceHeader: no validation; the issue date is written as given, the due date as
      * DueDay makes it. Without a root the first createElement throws. */
    method AddInvoiceHeader(number: string, issue: DateInput, due: DateInput, parse: string -> Option<Day>, today: Day)
      returns (r: Outcome<Exception>)
      modifies this
      ensures old(root).None? ==> r == Fail(RootNotInitialized) && root == old(root)
      ensures old(root).Some? ==> r.Pass? && root == Some(AppendAll(old(root).value, HeaderFor(number, issue, due, parse, today)))
    {
      if root.None? {
        return Fail(RootNotInitialized);
      }
      var issueText := DateString(issue);
      var dueText := DateString(due);
      var header := Header(number, issueText, DueDay(issueText, dueText, parse, today));
      root := Some(AppendAll(root.value, header));
      r := Pass;
    }

    /** Appends one block under the root, or throws when there is none. */
    method Append(e: Element) returns (r: Outcome<Exception>)
      modifies this
      ensures old(root).None? ==> r == Fail(RootNotInitialized) && root == old(root)
      ensures old(root).Some? ==> r.Pass? && root == Some(AppendChild(old(root).value, e))
    {
      if root.None? {
        return Fail(RootNotInitialized);
      }
      root := Some(AppendChild(root.value, e));
      r := Pass;
    }

    /** addBuyerReference: null falls back to BUYER_REF. */
    method AddBuyerReference(buyerRef: Option<string>) returns (r: Outcome<Exception>)
      modifies this
      ensures old(root).None? ==> r == Fail(RootNotInitialized) && root == old(root)
      ensures old(root).Some? ==> r.Pass? && root == Some(AppendChild(old(root).value, UblBis3.BuyerReference(buyerRef)))
    {
      r := Append(UblBis3.BuyerReference(buyerRef));
    }

    method AddOrderReference(orderNumber: string) returns (r: Outcome<Exception>)
      modifies this
      ensures old(root).None? ==> r == Fail(RootNotInitialized) && root == old(root)
      ensures old(root).Some? ==> r.Pass? && root == Some(AppendChild(old(root).value, UblBis3.OrderReference(orderNumber)))
    {
      r := Append(UblBis3.OrderReference(orderNumber));
    }

    method AddPaymentMeans(paymentType: Option<string>) returns (r: Outcome<Exception>)
      modifies this
      ensures old(root).None? ==> r == Fail(RootNotInitialized) && root == old(root)
      ensures old(root).Some? ==> r.Pass? && root == Some(AppendChild(old(root).value, PaymentMeans(paymentType)))
    {
      r := Append(PaymentMeans(paymentType));
    }

    method AddAccountingSupplierParty() returns (r: Outcome<Exception>)
      modifies this
      ensures old(root).None? ==> r == Fail(RootNotInitialized) && root == old(root)
      ensures old(root).Some? ==> r.Pass? && root == Some(AppendChild(old(root).value, ExampleSupplier()))
    {
      r := Append(ExampleSupplier());
    }

    method AddAccountingCustomerParty() returns (r: Outcome<Exception>)
      modifies this
      ensures old(root).None? ==> r == Fail(RootNotInitialized) && root == old(root)
      ensures old(root).Some? ==> r.Pass? && root == Some(AppendChild(old(root).value, ExampleCustomer()))
    {
      r := Append(ExampleCustomer());
    }

    method AddDelivery() returns (r: Outcome<Exception>)
      modifies this
      ensures old(root).None? ==> r == Fail(RootNotInitialized) && root == old(root)
      ensures old(root).Some? ==> r.Pass? && root == Some(AppendChild(old(root).value, ExampleDelivery()))
    {
      r := Append(ExampleDelivery());
    }

    method AddPaymentTerms() returns (r: Outcome<Exception>)
      modifies this
      ensures old(root).None? ==> r == Fail(RootNotInitialized) && root == old(root)
      ensures old(root).Some? ==> r.Pass? && root == Some(AppendChild(old(root).value, ExamplePaymentTerms()))
    {
      r := Append(ExamplePaymentTerms());
    }

    method AddAllowanceCharge() returns (r: Outcome<Exception>)
      modifies this
      ensures old(root).None? ==> r == Fail(RootNotInitialized) && root == old(root)
      ensures old(root).Some? ==> r.Pass? && root == Some(AppendChild(old(root).value, ExampleAllowanceCharge()))
    {
      r := Append(ExampleAllowanceCharge());
    }

    method AddTaxTotal() returns (r: Outcome<Exception>)
      modifies this
      ensures old(root).None? ==> r == Fail(RootNotInitialized) && root == old(root)
      ensures old(root).Some? ==> r.Pass? && root == Some(AppendChild(old(root).value, ExampleTaxTotal()))
    {
      r := Append(ExampleTaxTotal());
    }

    method AddLegalMonetaryTotal() returns (r: Outcome<Exception>)
      modifies this
      ensures old(root).None? ==> r == Fail(RootNotInitialized) && root == old(root)
      ensures old(root).Some? ==> r.Pass? && root == Some(AppendChild(old(root).value, ExampleMonetaryTotal()))
    {
      r := Append(ExampleMonetaryTotal());
    }

    method AddInvoiceLine(a: LineArgs) returns (r: Outcome<Exception>)
      modifies this
      ensures old(root).None? ==> r == Fail(RootNotInitialized) && root == old(root)
      ensures old(root).Some? ==> r.Pass? && root == Some(AppendChild(old(root).value, InvoiceLine(a)))
    {
      r := Append(InvoiceLine(a));
    }

    /** addInvoiceLines: the two sample lines, the second with a negative amount and no
      * AccountingCost. */
    method AddInvoiceLines() returns (r: Outcome<Exception>)
      modifies this
      ensures old(root).None? ==> r == Fail(RootNotInitialized) && root == old(root)
      ensures old(root).Some? ==> r.Pass? && root == Some(AppendAll(old(root).value, ExampleLines()))
    {
      ghost var before := root;
      r := AddInvoiceLine(FirstLine);
      if r.Fail? {
        return;
      }
      r := AddInvoiceLine(SecondLine);
      assert root.value.children == before.value.children + ExampleLines();
    }

    /** The calls of createExampleInvoice from addBuyerReference to addDelivery. */
    method AddExampleParties()
      requires root.Some?
      modifies this
      ensures root == Some(AppendAll(old(root).value, ExampleParties()))
    {
      ghost var cs := root.value.children;
      var _ := AddBuyerReference(Some("0150abc"));
      cs := cs + [UblBis3.BuyerReference(Some("0150abc"))];
      var _ := AddAccountingSupplierParty();
      cs := cs + [ExampleSupplier()];
      var _ := AddAccountingCustomerParty();
      cs := cs + [ExampleCustomer()];
      var _ := AddDelivery();
      cs := cs + [ExampleDelivery()];
      assert root.value.children == cs;
      assert cs == old(root).value.children + ExampleParties();
    }

    /** The calls of createExampleInvoice from addPaymentMeans to addLegalMonetaryTotal. */
    method AddExampleSettlement()
      requires root.Some?
      modifies this
      ensures root == Some(AppendAll(old(root).value, ExampleSettlement()))
    {
      ghost var cs := root.value.children;
      var _ := AddPaymentMeans(Some("30"));
      cs := cs + [PaymentMeans(Some("30"))];
      var _ := AddPaymentTerms();
      cs := cs + [ExamplePaymentTerms()];
      assert root.value.children == cs;
      var _ := AddAllowanceCharge();
      cs := cs + [ExampleAllowanceCharge()];
      assert root.value.children == cs;
      var _ := AddTaxTotal();
      cs := cs + [ExampleTaxTotal()];
      assert root.value.children == cs;
      var _ := AddLegalMonetaryTotal();
      cs := cs + [ExampleMonetaryTotal()];
      assert root.value.children == cs;
      assert cs == old(root).value.children + ExampleSettlement();
    }

    /** createExampleInvoice: a fresh document with every sample section in order. On a second
      * call createDocument throws and the message comes back with the prefix. */
    method CreateExampleInvoice(parse: string -> Option<Day>, today: Day) returns (r: Outcome<Exception>)
      modifies this
      ensures old(root).Some? ==> r == Fail(Rewrap(AlreadyInitializedNl)) && root == old(root)
      ensures old(root).None? ==> r.Pass? && root == Some(AppendAll(InvoiceRoot(true), ExampleHeader(parse, today) + ExampleParties() + ExampleSettlement() + ExampleLines()))
    {
      var created := CreateDocument();
      if created.Fail? {
        return Fail(Rewrap(created.error));
      }
      // From here on the root exists, so no add below can throw.
      ghost var h, p, st, l := ExampleHeader(parse, today), ExampleParties(), ExampleSettlement(), ExampleLines();
      var _ := AddInvoiceHeader("Snippet1", DateText("2017-11-13"), DateText("2017-12-01"), parse, today);
      assert root.value.children == h;
      AddExampleParties();
      AddExampleSettlement();
      var _ := AddInvoiceLines();
      assert root.value.children == h + p + st + l;
      assert root.value == AppendAll(InvoiceRoot(true), h + p + st + l);
      r := Pass;
    }
  }
}
