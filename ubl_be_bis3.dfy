// The UBL.BE (Belgian BIS 3.0) invoice builder: a root element set once by CreateDocument,
// a header checked like the PEPPOL one, and add methods that write their blocks unchecked.
module UblBeBis3 {
  import opened Wrappers
  import opened Php
  import opened Xml
  import opened Document
  import opened InvoiceHeader
  import Bis3Totals
  import opened BeBis3Blocks
  import Bis3Payment
  import UblBis3

  /** What PHP throws when a method reads `$this->rootElement` before createDocument has set
    * it: most add methods pass the root to addChildElement before anything else. */
  const RootUnset := Error("Typed property Darvis\\UblPeppol\\UblBeBis3Service::$rootElement must not be accessed before initialization")

  /** The `while ($existingTaxTotals->length > 0)` loop of addTaxTotal: the first TaxTotal in
    * document order is removed, with its subtree, until none is left. */
  method RemoveEvery(cs: seq<Element>, n: string) returns (r: seq<Element>)
    ensures r == PruneL(cs, n)
    ensures CountL(r, n) == 0
  {
    r := cs;
    while CountL(r, n) > 0
      invariant PruneL(r, n) == PruneL(cs, n)
      decreases CountL(r, n)
    {
      RemoveFirstProgress(r, n);
      r := RemoveFirstL(r, n);
    }
    PruneNoneIdentity(r, n);
  }

  /** The first foreach of addTaxTotal: `$totalTaxAmount += (float)$tax['tax_amount']`. */
  method SumTaxAmounts(taxes: seq<Bis3Totals.Fields>) returns (total: real)
    ensures total == TaxAmountSum(taxes)
  {
    total := 0.0;
    for i := 0 to |taxes|
      invariant total == TaxAmountSum(taxes[..i])
    {
      assert taxes[..i + 1][..i] == taxes[..i];
      total := total + ToFloat(Bis3Totals.Get(taxes[i], "tax_amount"));
    }
    assert taxes[..|taxes|] == taxes;
  }

  /** The second foreach of addTaxTotal: one TaxSubtotal per entry, in order. */
  method BuildSubtotals(taxes: seq<Bis3Totals.Fields>) returns (cs: seq<Element>)
    ensures cs == TaxSubtotals(taxes)
  {
    cs := MapEach(taxes, TaxSubtotal);
  }

  /** A foreach that builds one entry per input entry, in order. */
  method MapEach<A, B>(xs: seq<A>, f: A -> B) returns (ys: seq<B>)
    ensures |ys| == |xs| && forall i :: 0 <= i < |xs| ==> ys[i] == f(xs[i])
  {
    ys := [];
    for i := 0 to |xs|
      invariant |ys| == i && forall j :: 0 <= j < i ==> ys[j] == f(xs[j])
    {
      ys := ys + [f(xs[i])];
    }
  }

  class UblBeBis3Service {
    /** The Invoice element once CreateDocument has run. */
    var root: Option<Element>

    constructor()
      ensures root.None?
    {
      root := None;
    }

    /** createDocument: builds the root once; a second call throws and leaves it as it was. */
    method CreateDocument() returns (r: Outcome<Exception>)
      modifies this
      ensures old(root).Some? ==> r == Fail(AlreadyInitialized) && root == old(root)
      ensures old(root).None? ==> r.Pass? && root == Some(InvoiceRoot(true))
    {
      if root.Some? {
        return Fail(AlreadyInitialized);
      }
      root := Some(InvoiceRoot(true));
      r := Pass;
    }

    /** addInvoiceHeader: the checks of the PEPPOL builder, then the eight header elements with
      * the UBL.BE CustomizationID. The issue and due dates are compared by day. */
    method AddInvoiceHeader(number: string, issue: DateArg, due: DateArg, clock: Dates.Clock) returns (r: Outcome<Exception>)
      modifies this
      ensures var c := Check(ByDay, number, issue, due, clock);
        && (c.Failure? ==> r == Fail(c.error) && root == old(root))
        && (c.Success? && old(root).None? ==> r == Fail(NotInitialized) && root == old(root))
        && (c.Success? && old(root).Some? ==>
              r.Pass? && root == Some(AppendAll(old(root).value, HeaderElements(BeCustomizationId, c.value))))
    {
      var c := Check(ByDay, number, issue, due, clock);
      if c.Failure? {
        return Fail(c.error);
      }
      if root.None? {
        return Fail(NotInitialized);
      }
      root := Some(AppendAll(root.value, HeaderElements(BeCustomizationId, c.value)));
      r := Pass;
    }

    /** addBuyerReference: null falls back to BUYER_REF. */
    method AddBuyerReference(buyerRef: Option<string>) returns (r: Outcome<Exception>)
      modifies this
      ensures old(root).None? ==> r == Fail(NotInitialized) && root == old(root)
      ensures old(root).Some? ==> r.Pass? && root == Some(AppendChild(old(root).value, UblBis3.BuyerReference(buyerRef)))
    {
      if root.None? {
        return Fail(NotInitialized);
      }
      root := Some(AppendChild(root.value, UblBis3.BuyerReference(buyerRef)));
      r := Pass;
    }

    method AddOrderReference(orderNumber: string) returns (r: Outcome<Exception>)
      modifies this
      ensures old(root).None? ==> r == Fail(NotInitialized) && root == old(root)
      ensures old(root).Some? ==> r.Pass? && root == Some(AppendChild(old(root).value, UblBis3.OrderReference(orderNumber)))
    {
      if root.None? {
        return Fail(NotInitialized);
      }
      root := Some(AppendChild(root.value, UblBis3.OrderReference(orderNumber)));
      r := Pass;
    }

    method AddAdditionalDocumentReference(id: string, documentType: Option<string>) returns (r: Outcome<Exception>)
      modifies this
      ensures old(root).None? ==> r == Fail(RootUnset) && root == old(root)
      ensures old(root).Some? ==>
        r.Pass? && root == Some(AppendChild(old(root).value, AdditionalDocumentReference(id, documentType)))
    {
      if root.None? {
        return Fail(RootUnset);
      }
      root := Some(AppendChild(root.value, AdditionalDocumentReference(id, documentType)));
      r := Pass;
    }

    method AddAccountingSupplierParty(a: SupplierArgs) returns (r: Outcome<Exception>)
      modifies this
      ensures old(root).None? ==> r == Fail(RootUnset) && root == old(root)
      ensures old(root).Some? ==>
        r.Pass? && root == Some(AppendChild(old(root).value, Node("cac:AccountingSupplierParty", [SupplierParty(a)])))
    {
      if root.None? {
        return Fail(RootUnset);
      }
      root := Some(AppendChild(root.value, Node("cac:AccountingSupplierParty", [SupplierParty(a)])));
      r := Pass;
    }

    method AddAccountingCustomerParty(a: CustomerArgs) returns (r: Outcome<Exception>)
      modifies this
      ensures old(root).None? ==> r == Fail(RootUnset) && root == old(root)
      ensures old(root).Some? ==>
        r.Pass? && root == Some(AppendChild(old(root).value, Node("cac:AccountingCustomerParty", [CustomerParty(a)])))
    {
      if root.None? {
        return Fail(RootUnset);
      }
      root := Some(AppendChild(root.value, Node("cac:AccountingCustomerParty", [CustomerParty(a)])));
      r := Pass;
    }

    method AddDelivery(a: DeliveryArgs) returns (r: Outcome<Exception>)
      modifies this
      ensures old(root).None? ==> r == Fail(RootUnset) && root == old(root)
      ensures old(root).Some? ==> r.Pass? && root == Some(AppendChild(old(root).value, Delivery(a)))
    {
      if root.None? {
        return Fail(RootUnset);
      }
      root := Some(AppendChild(root.value, Delivery(a)));
      r := Pass;
    }

    method AddPaymentMeans(a: PaymentArgs) returns (r: Outcome<Exception>)
      modifies this
      ensures old(root).None? ==> r == Fail(RootUnset) && root == old(root)
      ensures old(root).Some? ==> r.Pass? && root == Some(AppendChild(old(root).value, PaymentMeans(a)))
    {
      if root.None? {
        return Fail(RootUnset);
      }
      root := Some(AppendChild(root.value, PaymentMeans(a)));
      r := Pass;
    }

    /** addPaymentTerms: the block is written even without a note. */
    method AddPaymentTerms(note: Option<string>) returns (r: Outcome<Exception>)
      modifies this
      ensures old(root).None? ==> r == Fail(RootUnset) && root == old(root)
      ensures old(root).Some? ==> r.Pass? && root == Some(AppendChild(old(root).value, PaymentTerms(note)))
    {
      if root.None? {
        return Fail(RootUnset);
      }
      root := Some(AppendChild(root.value, PaymentTerms(note)));
      r := Pass;
    }

    method AddAllowanceCharge(a: Bis3Payment.AllowanceArgs) returns (r: Outcome<Exception>)
      modifies this
      ensures old(root).None? ==> r == Fail(RootUnset) && root == old(root)
      ensures old(root).Some? ==> r.Pass? && root == Some(AppendChild(old(root).value, AllowanceCharge(a)))
    {
      if root.None? {
        return Fail(RootUnset);
      }
      root := Some(AppendChild(root.value, AllowanceCharge(a)));
      r := Pass;
    }

    method AddLegalMonetaryTotal(totals: Bis3Totals.Fields, currency: string) returns (r: Outcome<Exception>)
      modifies this
      ensures old(root).None? ==> r == Fail(RootUnset) && root == old(root)
      ensures old(root).Some? ==> r.Pass? && root == Some(AppendChild(old(root).value, MonetaryTotal(totals, currency)))
    {
      if root.None? {
        return Fail(RootUnset);
      }
      root := Some(AppendChild(root.value, MonetaryTotal(totals, currency)));
      r := Pass;
    }

    /** addTaxTotal: every TaxTotal already in the tree is removed, the tax amounts are summed,
      * and the new TaxTotal goes before the first LegalMonetaryTotal among the root's children,
      * or last. Afterwards the tree holds exactly one TaxTotal and, TaxTotals aside, is the
      * tree it was. Without a root nothing is found to remove and createElement throws. */
    method AddTaxTotal(taxes: seq<Bis3Totals.Fields>) returns (r: Outcome<Exception>)
      modifies this
      ensures old(root).None? ==> r == Fail(NotInitialized) && root == old(root)
      ensures old(root).Some? ==>
        var p := PruneL(old(root).value.children, TaxTotalName);
        r.Pass?
        && root == Some(old(root).value.(children := InsertAt(p, IndexOfName(p, MonetaryTotalName), TaxTotal(taxes, TaxAmountSum(taxes)))))
        && CountL(root.value.children, TaxTotalName) == 1
        && PruneL(root.value.children, TaxTotalName) == p
    {
      if root.None? {
        var _ := SumTaxAmounts(taxes);
        return Fail(NotInitialized);
      }
      var before := root.value;
      var cs := RemoveEvery(before.children, TaxTotalName);
      var total := SumTaxAmounts(taxes);
      var k := IndexOfName(cs, MonetaryTotalName);
      var subtotals := BuildSubtotals(taxes);
      var e := Node(TaxTotalName,
        [Leaf("cbc:TaxAmount", Some(FormatAmount(total)), map["currencyID" := HeaderCurrency(taxes)])] + subtotals);
      assert e == TaxTotal(taxes, total);
      NoNestedTaxTotal(taxes, total);
      TaxTotalReplaced(before.children, e);
      root := Some(before.(children := InsertAt(cs, k, e)));
      r := Pass;
    }

    /** addInvoiceLine: the line goes on the root before its tax is computed, so a TypeError
      * from a non-numeric amount or rate leaves the line behind, cut after an empty TaxTotal. */
    method AddInvoiceLine(lineData: Bis3Totals.Fields) returns (r: Outcome<Exception>)
      modifies this
      ensures old(root).None? ==> r == Fail(RootUnset) && root == old(root)
      ensures old(root).Some? && LineTax(lineData).None? ==>
        r == Fail(NonNumericOperand) && root == Some(AppendChild(old(root).value, PartialLine(lineData)))
      ensures old(root).Some? && LineTax(lineData).Some? ==>
        r.Pass? && root == Some(AppendChild(old(root).value, InvoiceLine(lineData, LineTax(lineData).value)))
    {
      if root.None? {
        return Fail(RootUnset);
      }
      var tax := LineTax(lineData);
      if tax.None? {
        root := Some(AppendChild(root.value, PartialLine(lineData)));
        return Fail(NonNumericOperand);
      }
      root := Some(AppendChild(root.value, InvoiceLine(lineData, tax.value)));
      r := Pass;
    }
  }
}
