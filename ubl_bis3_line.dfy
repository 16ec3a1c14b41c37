// The invoice line of the NL (PEPPOL BIS 3.0) builder: the line array is merged over its
// defaults, checked in order (required fields, numeric fields, unit code, classification
// scheme), read into typed values and written as an InvoiceLine.
module Bis3Line {
  import opened Wrappers
  import opened Php
  import opened Xml
  import opened Document
  import opened Bis3Totals
  import UblValidator

  /** The defaults array_merge puts under the given line (item_type_name is never read). */
  function LineDefault(key: string): Value
  {
    if key == "tax_category_id" then Str("S")
    else if key == "tax_percent" then Str("21.00")
    else if key == "tax_scheme_id" then Str("VAT")
    else if key == "item_type_scheme" then Str("STD")
    else if key == "item_type_name" then Str("Product")
    else Absent
  }

  /** A key of array_merge($defaults, $lineData): the given value when the key is there (even
    * null), else the default. */
  function Field(lineData: Fields, key: string): Value
  {
    if HasKey(lineData, key) then Get(lineData, key) else LineDefault(key)
  }

  const LineRequired := [
    ("id", "Line ID is required"), ("quantity", "Quantity is required"), ("unit_code", "Unit code is required"),
    ("line_extension_amount", "Line extension amount is required"), ("description", "Description is required"),
    ("name", "Name is required"), ("price_amount", "Price amount is required"), ("currency", "Currency is required")]

  const LineNumeric := [
    ("quantity", "Quantity must be a number"), ("line_extension_amount", "Line extension amount must be a number"),
    ("price_amount", "Price amount must be a number"), ("tax_percent", "Tax percent must be a number")]

  /** `!isset($v) || $v === ''`. */
  predicate Unset(v: Value) { !IsSet(v) || v == Str("") }

  /** `isset($v) && !is_numeric($v)`. */
  predicate SetButNotNumeric(v: Value) { IsSet(v) && !IsNumeric(v) }

  /** The message of the first field of the list whose value fails the test. */
  function FirstWhere(lineData: Fields, fields: seq<(string, string)>, fails: Value -> bool): (r: Option<string>)
    ensures r.None? <==> forall i :: 0 <= i < |fields| ==> !fails(Field(lineData, fields[i].0))
    ensures r.Some? ==> exists i :: 0 <= i < |fields| && fails(Field(lineData, fields[i].0)) && r.value == fields[i].1
  {
    if fields == [] then None
    else if fails(Field(lineData, fields[0].0)) then Some(fields[0].1)
    else
      var r := FirstWhere(lineData, fields[1..], fails);
      assert forall i :: 0 < i < |fields| ==> fields[i] == fields[1..][i - 1];
      r
  }

  /** A line once checked: the texts and numbers it is written from. */
  datatype Line = Line(
    id: string, quantity: real, unitCode: string, lineExtensionAmount: real, currency: string,
    accountingCost: Option<string>, orderLineId: Option<string>, description: string, name: string,
    standardItemId: Option<string>, originCountry: Option<string>, itemTypeCode: Option<string>,
    itemTypeScheme: string, taxCategoryId: Option<string>, taxPercent: real, taxSchemeId: Option<string>,
    priceAmount: real)

  /** The text a set value is written as. */
  function TextOf(v: Value): string { TextOr(v, "") }

  /** An optional field, present when not empty in PHP's sense. */
  function Truthy(v: Value): Option<string> { if IsEmptyValue(v) then None else ToText(v) }

  function BadUnitCode(code: string): string
  {
    "Invalid unit code: " + code + ". Must be a valid UN/ECE Recommendation 20 with Rec 21 extension unit code."
  }

  function BadScheme(scheme: string): string
  {
    "Invalid classification scheme: " + scheme + ". Must be a valid UNTDID 7143 scheme."
  }

  /** The values a line is written from, its defaults filled in. */
  function LineOf(lineData: Fields): Line
  {
    Line(TextOf(Field(lineData, "id")), ToFloat(Field(lineData, "quantity")), TextOf(Field(lineData, "unit_code")),
      ToFloat(Field(lineData, "line_extension_amount")), TextOf(Field(lineData, "currency")),
      Truthy(Field(lineData, "accounting_cost")), Truthy(Field(lineData, "order_line_id")),
      TextOf(Field(lineData, "description")), TextOf(Field(lineData, "name")),
      Truthy(Field(lineData, "standard_item_id")), Truthy(Field(lineData, "origin_country")),
      Truthy(Field(lineData, "item_type_code")), TextOf(Field(lineData, "item_type_scheme")),
      ToText(Field(lineData, "tax_category_id")), ToFloat(Field(lineData, "tax_percent")),
      ToText(Field(lineData, "tax_scheme_id")), ToFloat(Field(lineData, "price_amount")))
  }

  /** The first two checks of addInvoiceLine: every required field set and not '', then every
    * numeric field that is set numeric. */
  function FieldsCheck(lineData: Fields): Outcome<string>
  {
    var missing := FirstWhere(lineData, LineRequired, Unset);
    var notNumeric := FirstWhere(lineData, LineNumeric, SetButNotNumeric);
    if missing.Some? then Fail(missing.value)
    else if notNumeric.Some? then Fail(notNumeric.value)
    else Pass
  }

  /** The checks of addInvoiceLine, in order, on the line with its defaults: the fields, then the
    * unit code, then the classification scheme when not empty. */
  function LineCheck(lineData: Fields): Outcome<string>
  {
    var unit, scheme := TextOf(Field(lineData, "unit_code")), Field(lineData, "item_type_scheme");
    if FieldsCheck(lineData).Fail? then FieldsCheck(lineData)
    else if !UblValidator.IsValidUnitCode(unit) then Fail(BadUnitCode(unit))
    else if !IsEmptyValue(scheme) && !UblValidator.IsValidClassificationScheme(TextOf(scheme)) then
      Fail(BadScheme(TextOf(scheme)))
    else Pass
  }

  /** addInvoiceLine up to the first element: the line checked with its defaults, and read. */
  function ReadLine(lineData: Fields): (r: Result<Line, Exception>)
    ensures r.Success? ==> r.value == LineOf(lineData)
    ensures r.Failure? ==> LineCheck(lineData).Fail? && r.error == InvalidArgumentException(LineCheck(lineData).error)
  {
    match LineCheck(lineData)
    case Fail(m) => Failure(InvalidArgumentException(m))
    case Pass => Success(LineOf(lineData))
  }

  function AccountingCostBlock(o: Option<string>): (r: seq<Element>)
    ensures |r| <= 1 && (r != [] <==> o.Some?) && (r != [] ==> r[0].name == "cbc:AccountingCost")
  {
    if o.Some? then [Text("cbc:AccountingCost", o.value)] else []
  }

  function OrderLineBlock(o: Option<string>): (r: seq<Element>)
    ensures |r| <= 1 && (r != [] <==> o.Some?) && (r != [] ==> r[0].name == "cac:OrderLineReference")
  {
    if o.Some? then [Node("cac:OrderLineReference", [Text("cbc:LineID", o.value)])] else []
  }

  function StandardItemBlock(o: Option<string>): (r: seq<Element>)
    ensures |r| <= 1 && (r != [] <==> o.Some?) && (r != [] ==> r[0].name == "cac:StandardItemIdentification")
  {
    if o.Some? then [Node("cac:StandardItemIdentification", [Leaf("cbc:ID", Some(o.value), map["schemeID" := "GTIN"])])] else []
  }

  function OriginCountryBlock(o: Option<string>): (r: seq<Element>)
    ensures |r| <= 1 && (r != [] <==> o.Some?) && (r != [] ==> r[0].name == "cac:OriginCountry")
  {
    if o.Some? then [Node("cac:OriginCountry", [Text("cbc:IdentificationCode", o.value)])] else []
  }

  function ClassificationBlock(o: Option<string>, scheme: string): (r: seq<Element>)
    ensures |r| <= 1 && (r != [] <==> o.Some?) && (r != [] ==> r[0].name == "cac:CommodityClassification")
  {
    if o.Some? then [Node("cac:CommodityClassification", [Leaf("cbc:ItemClassificationCode", Some(o.value), map["listID" := scheme])])] else []
  }

  function Item(l: Line): Element
  {
    Node("cac:Item",
      [Text("cbc:Description", l.description), Text("cbc:Name", l.name)]
      + StandardItemBlock(l.standardItemId)
      + OriginCountryBlock(l.originCountry)
      + ClassificationBlock(l.itemTypeCode, l.itemTypeScheme)
      + [ClassifiedTaxCategory(l)])
  }

  function ClassifiedTaxCategory(l: Line): Element
  {
    Node("cac:ClassifiedTaxCategory", [
      Leaf("cbc:ID", l.taxCategoryId, map[]), Text("cbc:Percent", FormatAmount(l.taxPercent)),
      Node("cac:TaxScheme", [Leaf("cbc:ID", l.taxSchemeId, map[])])])
  }

  /** ID, quantity in its unit, and the line amount in the line's currency. */
  function LineHead(l: Line): seq<Element>
  {
    [Text("cbc:ID", l.id),
     Leaf("cbc:InvoicedQuantity", Some(FormatAmount(l.quantity)), map["unitCode" := l.unitCode]),
     Leaf("cbc:LineExtensionAmount", Some(FormatAmount(l.lineExtensionAmount)), map["currencyID" := l.currency])]
  }

  function Price(l: Line): Element
  {
    Node("cac:Price", [Leaf("cbc:PriceAmount", Some(FormatAmount(l.priceAmount)), map["currencyID" := l.currency])])
  }

  function InvoiceLine(l: Line): Element
  {
    Node("cac:InvoiceLine",
      LineHead(l)
      + AccountingCostBlock(l.accountingCost)
      + OrderLineBlock(l.orderLineId)
      + [Item(l), Price(l)])
  }

  // ------------------------------------------------------------ properties

  /** The field checks pass exactly when every required field is set and not '', and every
    * numeric field that is set is numeric; the defaults count as given. */
  lemma FieldsAcceptedIff(lineData: Fields)
    ensures FieldsCheck(lineData).Pass? <==>
      (forall i :: 0 <= i < |LineRequired| ==> !Unset(Field(lineData, LineRequired[i].0)))
      && (forall i :: 0 <= i < |LineNumeric| ==> !SetButNotNumeric(Field(lineData, LineNumeric[i].0)))
  {
  }

  /** A rejected field check names a field of its list that is missing or not numeric. */
  lemma FieldsRejectedNames(lineData: Fields)
    requires FieldsCheck(lineData).Fail?
    ensures (exists i :: 0 <= i < |LineRequired| && Unset(Field(lineData, LineRequired[i].0))
               && FieldsCheck(lineData).error == LineRequired[i].1)
         || (exists i :: 0 <= i < |LineNumeric| && SetButNotNumeric(Field(lineData, LineNumeric[i].0))
               && FieldsCheck(lineData).error == LineNumeric[i].1)
  {
  }

  /** A line is accepted exactly when its fields pass, the unit code is in the table, and a
    * non-empty classification scheme is a known one. */
  lemma LineAcceptedIff(lineData: Fields)
    ensures ReadLine(lineData).Success? <==>
      FieldsCheck(lineData).Pass?
      && UblValidator.IsValidUnitCode(TextOf(Field(lineData, "unit_code")))
      && (IsEmptyValue(Field(lineData, "item_type_scheme"))
          || UblValidator.IsValidClassificationScheme(TextOf(Field(lineData, "item_type_scheme"))))
    ensures ReadLine(lineData).Failure? ==> ReadLine(lineData).error.InvalidArgumentException?
  {
  }

  /** With the fields in order, an unknown unit code is reported with the code. */
  lemma UnitCodeRejected(lineData: Fields)
    requires FieldsCheck(lineData).Pass?
    requires !UblValidator.IsValidUnitCode(TextOf(Field(lineData, "unit_code")))
    ensures LineCheck(lineData) == Fail(BadUnitCode(TextOf(Field(lineData, "unit_code"))))
  {
  }

  /** With the fields and the unit code in order, an unknown non-empty classification scheme is
    * reported with the scheme. */
  lemma SchemeRejected(lineData: Fields)
    requires FieldsCheck(lineData).Pass? && UblValidator.IsValidUnitCode(TextOf(Field(lineData, "unit_code")))
    requires !IsEmptyValue(Field(lineData, "item_type_scheme"))
    requires !UblValidator.IsValidClassificationScheme(TextOf(Field(lineData, "item_type_scheme")))
    ensures LineCheck(lineData) == Fail(BadScheme(TextOf(Field(lineData, "item_type_scheme"))))
  {
  }

  /** A line that leaves out the tax and scheme fields gets the defaults: category S at 21.00
    * percent under VAT, and classification scheme STD. */
  lemma LineDefaultsApply(lineData: Fields)
    requires !HasKey(lineData, "tax_category_id") && !HasKey(lineData, "tax_percent")
    requires !HasKey(lineData, "tax_scheme_id") && !HasKey(lineData, "item_type_scheme")
    ensures var l := LineOf(lineData);
      l.taxCategoryId == Some("S") && l.taxSchemeId == Some("VAT") && l.itemTypeScheme == "STD"
      && l.taxPercent == 21.0
  {
    assert Field(lineData, "tax_percent") == Str("21.00");
    TwentyOne();
  }

  /** "21.00" reads as 21. */
  lemma TwentyOne()
    ensures ToFloat(Str("21.00")) == 21.0
  {
    var s := "21.00";
    assert StripSpaces(s) == s;
    assert IndexOf(s, '.') == 2;
    assert s[..2] == "21" && s[3..] == "00";
    assert DigitsValue("21") == 21 by {
      assert "21"[..1] == "2";
    }
    assert DigitsValue("00") == 0 by {
      assert "00"[..1] == "0";
    }
    assert ParseNumeric(s) == Some(21.0);
  }

  /** The name list of a block written only when its value is given. */
  function NameIf(o: Option<string>, qname: string): seq<string>
  {
    if o.Some? then [qname] else []
  }

  /** An optional block's names: its one name when the option is present, none otherwise. */
  lemma BlockNames(block: seq<Element>, o: Option<string>, qname: string)
    requires |block| <= 1 && (block != [] <==> o.Some?) && (block != [] ==> block[0].name == qname)
    ensures ChildNames(block) == NameIf(o, qname)
  {
    if block != [] {
      assert ChildNames(block) == [block[0].name];
    }
  }

  /** The names after a head of AccountingCost and OrderLineReference blocks that are there
    * exactly when their options are. */
  lemma OptionalBlocksNames(h: seq<Element>, ac: seq<Element>, ol: seq<Element>, oac: Option<string>, ool: Option<string>)
    requires |ac| <= 1 && (ac != [] <==> oac.Some?) && (ac != [] ==> ac[0].name == "cbc:AccountingCost")
    requires |ol| <= 1 && (ol != [] <==> ool.Some?) && (ol != [] ==> ol[0].name == "cac:OrderLineReference")
    ensures ChildNames(h + ac + ol) == ChildNames(h) + NameIf(oac, "cbc:AccountingCost") + NameIf(ool, "cac:OrderLineReference")
  {
    ChildNamesAppend(h + ac, ol);
    ChildNamesAppend(h, ac);
    BlockNames(ac, oac, "cbc:AccountingCost");
    BlockNames(ol, ool, "cac:OrderLineReference");
  }

  /** The blocks of a line, in order: ID, quantity, line amount, AccountingCost and
    * OrderLineReference exactly when given, the Item, and the Price last. */
  lemma InvoiceLineNames(l: Line)
    ensures ChildNames(InvoiceLine(l).children)
      == ["cbc:ID", "cbc:InvoicedQuantity", "cbc:LineExtensionAmount"]
         + NameIf(l.accountingCost, "cbc:AccountingCost") + NameIf(l.orderLineId, "cac:OrderLineReference")
         + ["cac:Item", "cac:Price"]
  {
    var h := LineHead(l);
    var ac := AccountingCostBlock(l.accountingCost);
    var ol := OrderLineBlock(l.orderLineId);
    var t := [Item(l), Price(l)];
    ChildNamesAppend(h + ac + ol, t);
    ChildNamesAppend(h + ac, ol);
    ChildNamesAppend(h, ac);
    assert ChildNames(h) == ["cbc:ID", "cbc:InvoicedQuantity", "cbc:LineExtensionAmount"];
    assert ChildNames(t) == ["cac:Item", "cac:Price"];
    assert ChildNames(ac) == NameIf(l.accountingCost, "cbc:AccountingCost");
    assert ChildNames(ol) == NameIf(l.orderLineId, "cac:OrderLineReference");
  }

  /** What the fixed blocks of a line hold: the quantity's unit, the line amount's currency,
    * the Item, and the Price in the line's currency. */
  lemma InvoiceLineShape(l: Line)
    ensures var e := InvoiceLine(l);
      var n := |e.children|;
      e.children[..3] == LineHead(l)
      && LineHead(l)[1].attrs == map["unitCode" := l.unitCode]
      && LineHead(l)[2].attrs == map["currencyID" := l.currency]
      && e.children[n - 2] == Item(l)
      && e.children[n - 1] == Price(l)
      && Price(l).children[0].attrs == map["currencyID" := l.currency]
  {
    var e := InvoiceLine(l);
    assert e.children == LineHead(l) + AccountingCostBlock(l.accountingCost) + OrderLineBlock(l.orderLineId) + [Item(l), Price(l)];
  }

  /** The Item: description and name, StandardItemIdentification, OriginCountry and
    * CommodityClassification exactly when given, and ClassifiedTaxCategory last. */
  lemma ItemNames(l: Line)
    ensures ChildNames(Item(l).children)
      == ["cbc:Description", "cbc:Name"]
         + NameIf(l.standardItemId, "cac:StandardItemIdentification") + NameIf(l.originCountry, "cac:OriginCountry")
         + NameIf(l.itemTypeCode, "cac:CommodityClassification") + ["cac:ClassifiedTaxCategory"]
  {
    var h := [Text("cbc:Description", l.description), Text("cbc:Name", l.name)];
    var si := StandardItemBlock(l.standardItemId);
    var oc := OriginCountryBlock(l.originCountry);
    var cc := ClassificationBlock(l.itemTypeCode, l.itemTypeScheme);
    var t := [ClassifiedTaxCategory(l)];
    ChildNamesAppend(h + si + oc + cc, t);
    ChildNamesAppend(h + si + oc, cc);
    ChildNamesAppend(h + si, oc);
    ChildNamesAppend(h, si);
    assert ChildNames(h) == ["cbc:Description", "cbc:Name"];
    assert ChildNames(t) == ["cac:ClassifiedTaxCategory"];
    assert ChildNames(si) == NameIf(l.standardItemId, "cac:StandardItemIdentification");
    assert ChildNames(oc) == NameIf(l.originCountry, "cac:OriginCountry");
    assert ChildNames(cc) == NameIf(l.itemTypeCode, "cac:CommodityClassification");
  }

  /** The tax category of a line item: its category, rate and scheme. */
  lemma ItemTaxCategory(l: Line)
    ensures var it := Item(l);
      var c := it.children[|it.children| - 1];
      c == ClassifiedTaxCategory(l)
      && c.children[0].text == l.taxCategoryId
      && ParseNumeric(c.children[1].text.value) == Some(Cents(l.taxPercent) as real / 100.0)
      && c.children[2].children[0].text == l.taxSchemeId
  {
    FormatAmountParses(l.taxPercent);
  }

  /** Each amount of the line is written rounded to cents and reads back as such. */
  lemma LineAmountsRead(l: Line)
    ensures ParseNumeric(LineHead(l)[1].text.value) == Some(Cents(l.quantity) as real / 100.0)
      && ParseNumeric(LineHead(l)[2].text.value) == Some(Cents(l.lineExtensionAmount) as real / 100.0)
      && ParseNumeric(Price(l).children[0].text.value) == Some(Cents(l.priceAmount) as real / 100.0)
  {
    FormatAmountParses(l.quantity);
    FormatAmountParses(l.lineExtensionAmount);
    FormatAmountParses(l.priceAmount);
  }
}
