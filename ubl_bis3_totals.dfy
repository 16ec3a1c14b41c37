// The tax total and the legal monetary total of the NL (PEPPOL BIS 3.0) builder. Their
// arguments arrive as PHP arrays; each is read once into typed values (the checks either stop
// at the first fault or give those values), and the elements are written from the values with
// every amount rounded to two decimals.
module Bis3Totals {
  import opened Wrappers
  import opened Php
  import opened Xml
  import opened Document

  /** A PHP array with string keys; a key mapped to Absent is a key that is not there. */
  type Fields = map<string, Value>

  function Get(m: Fields, k: string): Value
  {
    if k in m then m[k] else Absent
  }

  /** array_key_exists: the key is there, possibly holding null. */
  predicate HasKey(m: Fields, k: string) { Get(m, k) != Absent }

  /** is_numeric($v) && $v >= 0. */
  predicate NonNegativeNumber(v: Value) { IsNumeric(v) && ToFloat(v) >= 0.0 }

  /** is_string($v) && !empty(trim($v)). */
  predicate FilledString(v: Value) { v.Str? && !EmptyString(Trim(v.s)) }

  /** The first key of the list missing from m, reported by its message. */
  function FirstMissing(m: Fields, required: seq<(string, string)>): (r: Option<string>)
    ensures r.None? <==> forall i :: 0 <= i < |required| ==> HasKey(m, required[i].0)
    ensures r.Some? ==> exists i :: 0 <= i < |required| && !HasKey(m, required[i].0) && r.value == required[i].1
  {
    if required == [] then None
    else if !HasKey(m, required[0].0) then Some(required[0].1)
    else
      var r := FirstMissing(m, required[1..]);
      assert forall i :: 0 < i < |required| ==> required[i] == required[1..][i - 1];
      r
  }

  // ------------------------------------------------------------ tax total

  /** A tax entry once checked: the amounts and the rate as numbers, the codes as strings. */
  datatype TaxEntry = TaxEntry(
    taxableAmount: real, taxAmount: real, currency: string, categoryId: string, percent: real, schemeId: string)

  const NoTaxEntries := "At least one tax entry is required"

  const TaxRequired := [
    ("taxable_amount", "Taxable amount is required and must be a non-negative number"),
    ("tax_amount", "Tax amount is required and must be a non-negative number"),
    ("currency", "Currency code is required and must be 3 characters long"),
    ("tax_category_id", "Tax category ID is required"),
    ("tax_percent", "Tax percentage is required and must be between 0 and 100"),
    ("tax_scheme_id", "Tax scheme ID is required")]

  /** The checks on one tax entry, in order: the six keys, then each value; the first fault
    * (without its "Tax entry #n: " prefix) or the entry's values. */
  function ReadTaxEntry(tax: Fields): Result<TaxEntry, string>
  {
    var missing := FirstMissing(tax, TaxRequired);
    var taxable, amount, category := Get(tax, "taxable_amount"), Get(tax, "tax_amount"), Get(tax, "tax_category_id");
    var percent, currency, scheme := Get(tax, "tax_percent"), Get(tax, "currency"), Get(tax, "tax_scheme_id");
    if missing.Some? then Failure(missing.value)
    else if !NonNegativeNumber(taxable) then Failure("Taxable amount must be a non-negative number")
    else if !NonNegativeNumber(amount) then Failure("Tax amount must be a non-negative number")
    else if !FilledString(category) then Failure("Tax category ID must be a non-empty string")
    else if !IsNumeric(percent) || ToFloat(percent) < 0.0 || ToFloat(percent) > 100.0 then
      Failure("Tax percentage must be a number between 0 and 100")
    else if !currency.Str? || |currency.s| != 3 then Failure("Currency code must be exactly 3 characters long")
    else if !FilledString(scheme) then Failure("Tax scheme ID must be a non-empty string")
    else Success(TaxEntry(ToFloat(taxable), ToFloat(amount), currency.s, category.s, ToFloat(percent), scheme.s))
  }

  /** What an accepted entry satisfies. */
  predicate TaxEntryValid(e: TaxEntry)
  {
    e.taxableAmount >= 0.0 && e.taxAmount >= 0.0 && |e.currency| == 3 && !EmptyString(Trim(e.categoryId))
    && 0.0 <= e.percent <= 100.0 && !EmptyString(Trim(e.schemeId))
  }

  /** An entry is accepted exactly when all six keys are there and each value is valid; the
    * values read are the entry's numbers and strings. */
  lemma TaxEntryAcceptedIff(tax: Fields)
    ensures ReadTaxEntry(tax).Success? <==>
      NonNegativeNumber(Get(tax, "taxable_amount")) && NonNegativeNumber(Get(tax, "tax_amount"))
      && FilledString(Get(tax, "tax_category_id"))
      && IsNumeric(Get(tax, "tax_percent")) && 0.0 <= ToFloat(Get(tax, "tax_percent")) <= 100.0
      && Get(tax, "currency").Str? && |Get(tax, "currency").s| == 3
      && FilledString(Get(tax, "tax_scheme_id"))
    ensures ReadTaxEntry(tax).Success? ==>
      var e := ReadTaxEntry(tax).value;
      TaxEntryValid(e) && e.taxAmount == ToFloat(Get(tax, "tax_amount"))
      && e.taxableAmount == ToFloat(Get(tax, "taxable_amount")) && e.percent == ToFloat(Get(tax, "tax_percent"))
      && Get(tax, "currency") == Str(e.currency)
  {
    var v := Get(tax, "taxable_amount");
    if v.Str? || v.Num? {
      forall i | 0 <= i < |TaxRequired|
        ensures HasKey(tax, TaxRequired[i].0) <==> Get(tax, TaxRequired[i].0) != Absent
      {
      }
    }
  }

  /** Every entry read, in order. */
  function ReadAll(taxes: seq<Fields>): (rs: seq<Result<TaxEntry, string>>)
    ensures |rs| == |taxes| && forall i :: 0 <= i < |taxes| ==> rs[i] == ReadTaxEntry(taxes[i])
  {
    seq(|taxes|, i requires 0 <= i < |taxes| => ReadTaxEntry(taxes[i]))
  }

  /** The index of the first failure, |rs| when there is none. */
  function FirstFailure(rs: seq<Result<TaxEntry, string>>): (k: nat)
    ensures k <= |rs|
    ensures forall j :: 0 <= j < k ==> rs[j].Success?
    ensures k < |rs| ==> rs[k].Failure?
  {
    if rs == [] then 0
    else if rs[0].Failure? then 0
    else
      var k := FirstFailure(rs[1..]);
      assert forall j :: 1 <= j < 1 + k ==> rs[j] == rs[1..][j - 1];
      1 + k
  }

  /** The values of a list of successes. */
  function Values(rs: seq<Result<TaxEntry, string>>): (es: seq<TaxEntry>)
    requires forall j :: 0 <= j < |rs| ==> rs[j].Success?
    ensures |es| == |rs| && forall j :: 0 <= j < |rs| ==> es[j] == rs[j].value
  {
    seq(|rs|, j requires 0 <= j < |rs| && rs[j].Success? => rs[j].value)
  }

  /** The total of the entries' tax amounts. */
  function SumTax(es: seq<TaxEntry>): real
  {
    if es == [] then 0.0 else SumTax(es[..|es| - 1]) + es[|es| - 1].taxAmount
  }

  function EntryPrefix(n: nat): string { "Tax entry #" + IntToString(n) + ": " }

  /** The validation part of addTaxTotal: the first fault of the first faulty entry, numbered
    * from 1, or the entries read. */
  function TaxesCheck(taxes: seq<Fields>): Result<seq<TaxEntry>, Exception>
  {
    var rs := ReadAll(taxes);
    var k := FirstFailure(rs);
    if taxes == [] then Failure(InvalidArgumentException(NoTaxEntries))
    else if k < |rs| then Failure(InvalidArgumentException(EntryPrefix(k + 1) + rs[k].error))
    else Success(Values(rs))
  }

  /** The validation loop of addTaxTotal, summing the tax amounts as it goes. */
  method CheckTaxes(taxes: seq<Fields>) returns (r: Result<seq<TaxEntry>, Exception>, total: real)
    ensures r == TaxesCheck(taxes)
    ensures r.Success? ==> total == SumTax(r.value)
  {
    total := 0.0;
    if |taxes| == 0 {
      return Failure(InvalidArgumentException(NoTaxEntries)), total;
    }
    ghost var rs := ReadAll(taxes);
    var entries: seq<TaxEntry> := [];
    var entryNumber := 0;
    while entryNumber < |taxes|
      invariant 0 <= entryNumber <= |taxes|
      invariant forall j :: 0 <= j < entryNumber ==> rs[j].Success?
      invariant entries == Values(rs[..entryNumber])
      invariant total == SumTax(entries)
    {
      var read := ReadTaxEntry(taxes[entryNumber]);
      assert read == rs[entryNumber];
      if read.Failure? {
        TaxesCheckFails(taxes, entryNumber);
        return Failure(InvalidArgumentException(EntryPrefix(entryNumber + 1) + read.error)), total;
      }
      ValuesSnoc(rs, entryNumber);
      SumTaxSnoc(entries, read.value);
      entries := entries + [read.value];
      total := total + read.value.taxAmount;
      entryNumber := entryNumber + 1;
    }
    assert rs[..entryNumber] == rs;
    TaxesCheckPasses(taxes);
    r := Success(entries);
  }

  lemma TaxesCheckFails(taxes: seq<Fields>, k: nat)
    requires k < |taxes| && ReadAll(taxes)[k].Failure?
    requires forall j :: 0 <= j < k ==> ReadAll(taxes)[j].Success?
    ensures TaxesCheck(taxes) == Failure(InvalidArgumentException(EntryPrefix(k + 1) + ReadAll(taxes)[k].error))
  {
    FirstFailureIs(ReadAll(taxes), k);
  }

  lemma TaxesCheckPasses(taxes: seq<Fields>)
    requires taxes != [] && forall j :: 0 <= j < |taxes| ==> ReadAll(taxes)[j].Success?
    ensures TaxesCheck(taxes) == Success(Values(ReadAll(taxes)))
  {
    FirstFailureIs(ReadAll(taxes), |taxes|);
  }

  lemma ValuesSnoc(rs: seq<Result<TaxEntry, string>>, k: nat)
    requires k < |rs| && forall j :: 0 <= j <= k ==> rs[j].Success?
    ensures Values(rs[..k + 1]) == Values(rs[..k]) + [rs[k].value]
  {
  }

  lemma SumTaxSnoc(es: seq<TaxEntry>, e: TaxEntry)
    ensures SumTax(es + [e]) == SumTax(es) + e.taxAmount
  {
    assert (es + [e])[..|es|] == es;
  }

  /** The first failure is the one before which every read succeeded. */
  lemma FirstFailureIs(rs: seq<Result<TaxEntry, string>>, k: nat)
    requires k <= |rs| && forall j :: 0 <= j < k ==> rs[j].Success?
    requires k < |rs| ==> rs[k].Failure?
    ensures FirstFailure(rs) == k
  {
  }

  function TaxSubtotal(e: TaxEntry): Element
  {
    var currency := map["currencyID" := e.currency];
    Node("cac:TaxSubtotal", [
      Leaf("cbc:TaxableAmount", Some(FormatAmount(e.taxableAmount)), currency),
      Leaf("cbc:TaxAmount", Some(FormatAmount(e.taxAmount)), currency),
      Node("cac:TaxCategory", [
        Text("cbc:ID", e.categoryId), Text("cbc:Percent", FormatAmount(e.percent)),
        Node("cac:TaxScheme", [Text("cbc:ID", e.schemeId)])])])
  }

  function TaxSubtotals(es: seq<TaxEntry>): (r: seq<Element>)
    ensures |r| == |es| && forall i :: 0 <= i < |es| ==> r[i] == TaxSubtotal(es[i])
  {
    if es == [] then [] else [TaxSubtotal(es[0])] + TaxSubtotals(es[1..])
  }

  /** The TaxTotal: the summed tax amount in the first entry's currency, then one subtotal per
    * entry, in input order. */
  function TaxTotal(es: seq<TaxEntry>, total: real): Element
    requires es != []
  {
    Node("cac:TaxTotal",
      [Leaf("cbc:TaxAmount", Some(FormatAmount(total)), map["currencyID" := es[0].currency])] + TaxSubtotals(es))
  }

  /** The tax list is accepted exactly when it is not empty and every entry is accepted; the
    * entries are then read in input order and each is valid. */
  lemma TaxesAcceptedIff(taxes: seq<Fields>)
    ensures TaxesCheck(taxes).Success? <==>
      taxes != [] && forall i :: 0 <= i < |taxes| ==> ReadTaxEntry(taxes[i]).Success?
    ensures TaxesCheck(taxes).Success? ==>
      var es := TaxesCheck(taxes).value;
      |es| == |taxes| && forall i :: 0 <= i < |es| ==> es[i] == ReadTaxEntry(taxes[i]).value && TaxEntryValid(es[i])
  {
    if TaxesCheck(taxes).Success? {
      forall i | 0 <= i < |taxes|
        ensures TaxEntryValid(ReadTaxEntry(taxes[i]).value)
      {
        TaxEntryAcceptedIff(taxes[i]);
      }
    }
  }

  /** A rejected list names the first faulty entry by its position, counting from 1. */
  lemma TaxesRejectedNamesEntry(taxes: seq<Fields>, k: nat)
    requires k < |taxes| && ReadTaxEntry(taxes[k]).Failure?
    requires forall j :: 0 <= j < k ==> ReadTaxEntry(taxes[j]).Success?
    ensures TaxesCheck(taxes) == Failure(InvalidArgumentException(EntryPrefix(k + 1) + ReadTaxEntry(taxes[k]).error))
  {
    FirstFailureIs(ReadAll(taxes), k);
  }

  /** The total of valid entries is not negative and bounds each entry's tax amount. */
  lemma {:induction false} SumTaxBounds(es: seq<TaxEntry>)
    requires forall i :: 0 <= i < |es| ==> TaxEntryValid(es[i])
    ensures SumTax(es) >= 0.0
    ensures forall i :: 0 <= i < |es| ==> es[i].taxAmount <= SumTax(es)
    decreases |es|
  {
    if es != [] {
      var init := es[..|es| - 1];
      assert forall i :: 0 <= i < |init| ==> init[i] == es[i];
      SumTaxBounds(init);
    }
  }

  /** Splitting a list splits its total. */
  lemma {:induction false} SumTaxAppend(a: seq<TaxEntry>, b: seq<TaxEntry>)
    ensures SumTax(a + b) == SumTax(a) + SumTax(b)
    decreases |b|
  {
    if b != [] {
      assert (a + b)[..|a + b| - 1] == a + b[..|b| - 1];
      assert (a + b)[|a + b| - 1] == b[|b| - 1];
      assert SumTax(a + b) == SumTax(a + b[..|b| - 1]) + b[|b| - 1].taxAmount;
      SumTaxAppend(a, b[..|b| - 1]);
    } else {
      assert a + b == a;
    }
  }

  /** The TaxTotal written: the total rounded to cents and readable back, in the first entry's
    * currency, followed by exactly one subtotal per entry, in input order. */
  lemma TaxTotalShape(es: seq<TaxEntry>, total: real)
    requires es != []
    ensures var e := TaxTotal(es, total);
      |e.children| == |es| + 1
      && e.children[0].name == "cbc:TaxAmount" && e.children[0].attrs == map["currencyID" := es[0].currency]
      && ParseNumeric(e.children[0].text.value) == Some(Cents(total) as real / 100.0)
      && forall i :: 0 <= i < |es| ==> e.children[i + 1] == TaxSubtotal(es[i])
  {
    var head := Leaf("cbc:TaxAmount", Some(FormatAmount(total)), map["currencyID" := es[0].currency]);
    var subs := TaxSubtotals(es);
    assert TaxTotal(es, total).children == [head] + subs;
    FormatAmountParses(total);
  }

  /** A subtotal writes each amount of its entry in the entry's currency, rounded to cents. */
  lemma TaxSubtotalAmounts(e: TaxEntry)
    ensures var s := TaxSubtotal(e);
      ChildNames(s.children) == ["cbc:TaxableAmount", "cbc:TaxAmount", "cac:TaxCategory"]
      && s.children[0].attrs == map["currencyID" := e.currency] && s.children[1].attrs == map["currencyID" := e.currency]
      && ParseNumeric(s.children[0].text.value) == Some(Cents(e.taxableAmount) as real / 100.0)
      && ParseNumeric(s.children[1].text.value) == Some(Cents(e.taxAmount) as real / 100.0)
  {
    FormatAmountParses(e.taxableAmount);
    FormatAmountParses(e.taxAmount);
  }

  // ------------------------------------------------------------ legal monetary total

  /** The five amounts: their keys, the message when one is missing or not numeric, and the
    * element each is written as. */
  const MonetaryFields := [
    ("line_extension_amount", "Line extension amount is required", "cbc:LineExtensionAmount"),
    ("tax_exclusive_amount", "Tax exclusive amount is required", "cbc:TaxExclusiveAmount"),
    ("tax_inclusive_amount", "Tax inclusive amount is required", "cbc:TaxInclusiveAmount"),
    ("charge_total_amount", "Charge total amount is required", "cbc:ChargeTotalAmount"),
    ("payable_amount", "Payable amount is required", "cbc:PayableAmount")]

  const MonetaryCurrencyLength := "Currency code must be exactly 3 characters long"

  /** The first of the five amounts from k on that is missing or not numeric. */
  function FirstNonNumeric(amounts: Fields, k: nat): (r: nat)
    requires k <= |MonetaryFields|
    ensures k <= r <= |MonetaryFields|
    ensures forall j :: k <= j < r ==> IsNumeric(Get(amounts, MonetaryFields[j].0))
    ensures r < |MonetaryFields| ==> !IsNumeric(Get(amounts, MonetaryFields[r].0))
    decreases |MonetaryFields| - k
  {
    if k == |MonetaryFields| || !IsNumeric(Get(amounts, MonetaryFields[k].0)) then k
    else FirstNonNumeric(amounts, k + 1)
  }

  /** The five amounts as numbers, in element order. */
  function MonetaryValues(amounts: Fields): (vs: seq<real>)
    ensures |vs| == |MonetaryFields|
    ensures forall i :: 0 <= i < |MonetaryFields| ==> vs[i] == ToFloat(Get(amounts, MonetaryFields[i].0))
  {
    seq(|MonetaryFields|, i requires 0 <= i < |MonetaryFields| => ToFloat(Get(amounts, MonetaryFields[i].0)))
  }

  /** The checks of addLegalMonetaryTotal: each amount in turn, then the currency. */
  function MonetaryCheck(amounts: Fields, currency: string): Result<seq<real>, Exception>
  {
    var k := FirstNonNumeric(amounts, 0);
    if k < |MonetaryFields| then Failure(InvalidArgumentException(MonetaryFields[k].1))
    else if |currency| != 3 then Failure(InvalidArgumentException(MonetaryCurrencyLength))
    else Success(MonetaryValues(amounts))
  }

  /** The loop over the five amounts. */
  method CheckAmounts(amounts: Fields, currency: string) returns (r: Result<seq<real>, Exception>)
    ensures r == MonetaryCheck(amounts, currency)
  {
    for k := 0 to |MonetaryFields|
      invariant FirstNonNumeric(amounts, 0) == FirstNonNumeric(amounts, k)
    {
      var field := MonetaryFields[k];
      if !IsNumeric(Get(amounts, field.0)) {
        return Failure(InvalidArgumentException(field.1));
      }
    }
    if |currency| != 3 {
      return Failure(InvalidArgumentException(MonetaryCurrencyLength));
    }
    r := Success(MonetaryValues(amounts));
  }

  function LegalMonetaryTotal(values: seq<real>, currency: string): Element
    requires |values| == |MonetaryFields|
  {
    Node("cac:LegalMonetaryTotal",
      seq(|MonetaryFields|, i requires 0 <= i < |MonetaryFields| =>
        Leaf(MonetaryFields[i].2, Some(FormatAmount(values[i])), map["currencyID" := currency])))
  }

  /** The totals are accepted exactly when all five amounts are numeric and the currency has
    * three characters. */
  lemma MonetaryAcceptedIff(amounts: Fields, currency: string)
    ensures MonetaryCheck(amounts, currency).Success? <==>
      (forall i :: 0 <= i < |MonetaryFields| ==> IsNumeric(Get(amounts, MonetaryFields[i].0))) && |currency| == 3
  {
  }

  /** Each amount is written, in order, under its own element, in the given currency, and
    * reads back as its value rounded to cents. */
  lemma MonetaryWritten(values: seq<real>, currency: string, i: nat)
    requires |values| == |MonetaryFields| && i < |MonetaryFields|
    ensures var e := LegalMonetaryTotal(values, currency).children[i];
      e.name == MonetaryFields[i].2 && e.attrs == map["currencyID" := currency]
      && ParseNumeric(e.text.value) == Some(Cents(values[i]) as real / 100.0)
  {
    FormatAmountParses(values[i]);
  }
}
