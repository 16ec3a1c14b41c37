// The NL (PEPPOL BIS 3.0) invoice builder: a root element set once by CreateDocument, and add
// methods that check their arguments and append their blocks to the root.
module UblBis3 {
  import opened Wrappers
  import opened Xml
  import opened Document
  import opened InvoiceHeader
  import opened Bis3Parties
  import opened Iban
  import opened Bis3Payment
  import opened Bis3Totals
  import opened Bis3Line

  const NlCustomizationId := "urn:cen.eu:en16931:2017#compliant#urn:fdc:peppol.eu:2017:poacc:billing:3.0"

  /** BuyerReference: the reference given, or BUYER_REF for null. */
  function BuyerReference(buyerRef: Option<string>): (e: Element)
    ensures e.name == "cbc:BuyerReference" && e.children == []
    ensures e.text == Some(if buyerRef.Some? then buyerRef.value else "BUYER_REF")
  {
    Text("cbc:BuyerReference", if buyerRef.Some? then buyerRef.value else "BUYER_REF")
  }

  function OrderReference(orderNumber: string): Element
  {
    Node("cac:OrderReference", [Text("cbc:ID", orderNumber)])
  }

  /** An AccountingSupplierParty around a filled Party has the address's Country last. */
  lemma SupplierBlockCountryLast(a: SupplierArgs)
    ensures CountryLast(Node("cac:AccountingSupplierParty", [SupplierParty(a)]))
  {
    SupplierCountryLast(a);
    CountryLastByIndex(Node("cac:AccountingSupplierParty", [SupplierParty(a)]));
  }

  class UblBis3Service {
    /** The Invoice element once CreateDocument has run. */
    var root: Option<Element>

    constructor()
      ensures root.None?
    {
      root := None;
    }

    /** createDocument: builds the root once; a second call throws and leaves it as it was. */
    method CreateDocument() returns (r: Outcome<Exception>)
      modifies this
      ensures old(root).Some? ==> r == Fail(AlreadyInitialized) && root == old(root)
      ensures old(root).None? ==> r.Pass? && root == Some(InvoiceRoot(true))
    {
      if root.Some? {
        return Fail(AlreadyInitialized);
      }
      root := Some(InvoiceRoot(true));
      r := Pass;
    }

    /** `$this->rootElement->appendChild(...)` for each element in turn. */
    method AppendToRoot(es: seq<Element>)
      requires root.Some?
      modifies this
      ensures root == Some(AppendAll(old(root).value, es))
    {
      var start := root.value;
      assert start.children + es[..0] == start.children;
      var i := 0;
      while i < |es|
        invariant 0 <= i <= |es|
        invariant root == Some(AppendAll(start, es[..i]))
      {
        assert start.children + es[..i + 1] == (start.children + es[..i]) + [es[i]];
        root := Some(AppendChild(root.value, es[i]));
        i := i + 1;
      }
      assert es[..i] == es;
    }

    /** addInvoiceHeader: every fault of the arguments in one exception, checked before anything
      * is written; then the eight header elements with the PEPPOL CustomizationID. The issue
      * and due dates are compared by day. */
    method AddInvoiceHeader(number: string, issue: DateArg, due: DateArg, clock: Dates.Clock) returns (r: Outcome<Exception>)
      modifies this
      ensures var c := Check(ByDay, number, issue, due, clock);
        && (c.Failure? ==> r == Fail(c.error) && root == old(root))
        && (c.Success? && old(root).None? ==> r == Fail(NotInitialized) && root == old(root))
        && (c.Success? && old(root).Some? ==>
              r.Pass? && root == Some(AppendAll(old(root).value, HeaderElements(NlCustomizationId, c.value))))
    {
      var c := Check(ByDay, number, issue, due, clock);
      if c.Failure? {
        return Fail(c.error);
      }
      if root.None? {
        return Fail(NotInitialized);
      }
      AppendToRoot(HeaderElements(NlCustomizationId, c.value));
      r := Pass;
    }

    /** addBuyerReference: null falls back to BUYER_REF. */
    method AddBuyerReference(buyerRef: Option<string>) returns (r: Outcome<Exception>)
      modifies this
      ensures old(root).None? ==> r == Fail(NotInitialized) && root == old(root)
      ensures old(root).Some? ==> r.Pass? && root == Some(AppendChild(old(root).value, BuyerReference(buyerRef)))
    {
      if root.None? {
        return Fail(NotInitialized);
      }
      root := Some(AppendChild(root.value, BuyerReference(buyerRef)));
      r := Pass;
    }

    method AddOrderReference(orderNumber: string) returns (r: Outcome<Exception>)
      modifies this
      ensures old(root).None? ==> r == Fail(NotInitialized) && root == old(root)
      ensures old(root).Some? ==> r.Pass? && root == Some(AppendChild(old(root).value, OrderReference(orderNumber)))
    {
      if root.None? {
        return Fail(NotInitialized);
      }
      root := Some(AppendChild(root.value, OrderReference(orderNumber)));
      r := Pass;
    }

    /** addAccountingSupplierParty: the AccountingSupplierParty/Party shell is appended before the
      * arguments are checked, so a rejected call leaves it behind; an accepted one fills the
      * Party in place. */
    method AddAccountingSupplierParty(a: SupplierArgs) returns (r: Outcome<Exception>)
      modifies this
      ensures old(root).None? ==> r == Fail(NotInitialized) && root == old(root)
      ensures old(root).Some? && SupplierErrors(a) != [] ==>
        r == Fail(InvalidArgumentException(ErrorList(SupplierErrorsPrefix, SupplierErrors(a))))
        && root == Some(AppendChild(old(root).value, SupplierShell))
      ensures old(root).Some? && SupplierErrors(a) == [] ==>
        r.Pass? && root == Some(AppendChild(old(root).value, Node("cac:AccountingSupplierParty", [SupplierParty(a)])))
    {
      if root.None? {
        return Fail(NotInitialized);
      }
      var before := root.value;
      root := Some(AppendChild(before, SupplierShell));
      var errors := SupplierErrors(a);
      if errors != [] {
        return Fail(InvalidArgumentException(ErrorList(SupplierErrorsPrefix, errors)));
      }
      root := Some(AppendChild(before, Node("cac:AccountingSupplierParty", [SupplierParty(a)])));
      r := Pass;
    }

    /** addAccountingCustomerParty: every check runs before anything is written; the country the
      * check settles on (the VAT prefix when a VAT number is given) is the one written. */
    method AddAccountingCustomerParty(a: CustomerArgs, isEmail: string -> bool) returns (r: Outcome<Exception>)
      modifies this
      ensures var c := CustomerCheck(a, isEmail);
        && (c.Failure? ==> r == Fail(c.error) && root == old(root))
        && (c.Success? && old(root).None? ==> r == Fail(NotInitialized) && root == old(root))
        && (c.Success? && old(root).Some? ==>
              r.Pass? && root == Some(AppendChild(old(root).value, Node("cac:AccountingCustomerParty", [CustomerParty(a, c.value)]))))
    {
      var c := CustomerCheck(a, isEmail);
      if c.Failure? {
        return Fail(c.error);
      }
      if root.None? {
        return Fail(NotInitialized);
      }
      root := Some(AppendChild(root.value, Node("cac:AccountingCustomerParty", [CustomerParty(a, c.value)])));
      r := Pass;
    }

    method AddDelivery(a: DeliveryArgs) returns (r: Outcome<Exception>)
      modifies this
      ensures old(root).None? ==> r == Fail(NotInitialized) && root == old(root)
      ensures old(root).Some? ==> r.Pass? && root == Some(AppendChild(old(root).value, Delivery(a)))
    {
      if root.None? {
        return Fail(NotInitialized);
      }
      root := Some(AppendChild(root.value, Delivery(a)));
      r := Pass;
    }

    /** addPaymentMeans: the code, the IBAN (with isValidIban) and the BIC are checked in turn
      * before anything is built. */
    method AddPaymentMeans(a: PaymentArgs) returns (r: Outcome<Exception>)
      modifies this
      ensures PaymentCheck(a).Fail? ==> r == PaymentCheck(a) && root == old(root)
      ensures PaymentCheck(a).Pass? && old(root).None? ==> r == Fail(NotInitialized) && root == old(root)
      ensures PaymentCheck(a).Pass? && old(root).Some? ==>
        r.Pass? && root == Some(AppendChild(old(root).value, PaymentMeans(a)))
    {
      if !Php.Anchored(NonEmptyDigits, a.code) {
        return Fail(InvalidArgumentException(CodeNotNumeric));
      }
      if a.accountId.Some? {
        var ok := IsValidIban(a.accountId.value);
        if ok.Failure? {
          return Fail(ok.error);
        }
        if !ok.value {
          return Fail(InvalidArgumentException(BadIban));
        }
      }
      if a.bic.Some? && !Php.Anchored(BicBody, a.bic.value) {
        return Fail(InvalidArgumentException(BadBic));
      }
      if root.None? {
        return Fail(NotInitialized);
      }
      root := Some(AppendChild(root.value, PaymentMeans(a)));
      r := Pass;
    }

    method AddPaymentTerms(note: Option<string>) returns (r: Outcome<Exception>)
      modifies this
      ensures Php.EmptyOpt(note) ==> r == Fail(InvalidArgumentException(TermsRequired)) && root == old(root)
      ensures !Php.EmptyOpt(note) && old(root).None? ==> r == Fail(NotInitialized) && root == old(root)
      ensures !Php.EmptyOpt(note) && old(root).Some? ==>
        r.Pass? && root == Some(AppendChild(old(root).value, PaymentTerms(note).value))
    {
      var t := PaymentTerms(note);
      if t.Failure? {
        return Fail(t.error);
      }
      if root.None? {
        return Fail(NotInitialized);
      }
      root := Some(AppendChild(root.value, t.value));
      r := Pass;
    }

    method AddAllowanceCharge(a: AllowanceArgs) returns (r: Outcome<Exception>)
      modifies this
      ensures AllowanceCheck(a).Fail? ==> r == AllowanceCheck(a) && root == old(root)
      ensures AllowanceCheck(a).Pass? && old(root).None? ==> r == Fail(NotInitialized) && root == old(root)
      ensures AllowanceCheck(a).Pass? && old(root).Some? ==>
        r.Pass? && root == Some(AppendChild(old(root).value, AllowanceCharge(a)))
    {
      var c := AllowanceCheck(a);
      if c.Fail? {
        return c;
      }
      if root.None? {
        return Fail(NotInitialized);
      }
      root := Some(AppendChild(root.value, AllowanceCharge(a)));
      r := Pass;
    }

    /** addTaxTotal: every entry is checked, and the tax amounts summed, before anything is
      * written; the header amount is that sum. */
    method AddTaxTotal(taxes: seq<Fields>) returns (r: Outcome<Exception>)
      modifies this
      ensures var c := TaxesCheck(taxes);
        && (c.Failure? ==> r == Fail(c.error) && root == old(root))
        && (c.Success? && old(root).None? ==> r == Fail(NotInitialized) && root == old(root))
        && (c.Success? && old(root).Some? ==>
              c.value != [] && r.Pass? && root == Some(AppendChild(old(root).value, TaxTotal(c.value, SumTax(c.value)))))
    {
      var c, total := CheckTaxes(taxes);
      if c.Failure? {
        return Fail(c.error);
      }
      if root.None? {
        return Fail(NotInitialized);
      }
      TaxesAcceptedIff(taxes);
      root := Some(AppendChild(root.value, TaxTotal(c.value, total)));
      r := Pass;
    }

    method AddLegalMonetaryTotal(amounts: Fields, currency: string) returns (r: Outcome<Exception>)
      modifies this
      ensures var c := MonetaryCheck(amounts, currency);
        && (c.Failure? ==> r == Fail(c.error) && root == old(root))
        && (c.Success? && old(root).None? ==> r == Fail(NotInitialized) && root == old(root))
        && (c.Success? && old(root).Some? ==>
              |c.value| == |MonetaryFields| && r.Pass?
              && root == Some(AppendChild(old(root).value, LegalMonetaryTotal(c.value, currency))))
    {
      var c := CheckAmounts(amounts, currency);
      if c.Failure? {
        return Fail(c.error);
      }
      if root.None? {
        return Fail(NotInitialized);
      }
      MonetaryAcceptedIff(amounts, currency);
      root := Some(AppendChild(root.value, LegalMonetaryTotal(c.value, currency)));
      r := Pass;
    }

    method AddInvoiceLine(lineData: Fields) returns (r: Outcome<Exception>)
      modifies this
      ensures var c := ReadLine(lineData);
        && (c.Failure? ==> r == Fail(c.error) && root == old(root))
        && (c.Success? && old(root).None? ==> r == Fail(NotInitialized) && root == old(root))
        && (c.Success? && old(root).Some? ==> r.Pass? && root == Some(AppendChild(old(root).value, InvoiceLine(c.value))))
    {
      var c := ReadLine(lineData);
      if c.Failure? {
        return Fail(c.error);
      }
      if root.None? {
        return Fail(NotInitialized);
      }
      root := Some(AppendChild(root.value, InvoiceLine(c.value)));
      r := Pass;
    }
  }
}
