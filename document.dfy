// What the three invoice builders share: the exceptions they throw, the way they report a
// list of validation errors, and the root element of a new invoice.
module Document {
  import opened Wrappers
  import opened Php
  import opened Xml

  /** The exception classes the builders throw, with their messages. */
  datatype Exception =
    | RuntimeException(message: string)
    | InvalidArgumentException(message: string)
    | TypeError(message: string)
    | ValueError(message: string)
    | Error(message: string)

  const CacUri := "urn:oasis:names:specification:ubl:schema:xsd:CommonAggregateComponents-2"
  const CbcUri := "urn:oasis:names:specification:ubl:schema:xsd:CommonBasicComponents-2"
  const InvoiceUri := "urn:oasis:names:specification:ubl:schema:xsd:Invoice-2"

  /** The `Invoice` root with its namespace declarations; `xmlns` is set as an attribute only
    * when `withDefault` holds. */
  function InvoiceRoot(withDefault: bool): (e: Element)
    ensures e.name == "Invoice" && e.children == [] && e.text.None?
    ensures e.attrs.Keys == if withDefault then {"xmlns:cac", "xmlns:cbc", "xmlns"} else {"xmlns:cac", "xmlns:cbc"}
  {
    var attrs := map["xmlns:cac" := CacUri, "xmlns:cbc" := CbcUri];
    Element("Invoice", None, if withDefault then attrs["xmlns" := InvoiceUri] else attrs, [])
  }

  const AlreadyInitialized := RuntimeException("Document is already initialized. Avoid initializing the document multiple times.")
  const NotInitialized := RuntimeException("Root element is not initialized. Call createDocument() before adding elements.")

  /** A text element for a nullable argument, present only when the argument is not null. */
  function IfSet(qname: string, o: Option<string>): (r: seq<Element>)
    ensures |r| <= 1 && (r != [] <==> o.Some?)
    ensures r != [] ==> r[0].name == qname && r[0].text == o && r[0].children == []
  {
    if o.Some? then [Text(qname, o.value)] else []
  }

  /** A text element present only when the argument is truthy (not null, "" or "0"). */
  function IfTruthy(qname: string, o: Option<string>): (r: seq<Element>)
    ensures |r| <= 1 && (r != [] <==> !EmptyOpt(o))
    ensures r != [] ==> r[0].name == qname && r[0].text == o && r[0].children == []
  {
    if !EmptyOpt(o) then [Text(qname, o.value)] else []
  }

  /** `$header . implode("\n- ", array_merge([''], $errors))`: the header, then each error on a
    * line of its own after "- ". */
  function ErrorList(header: string, errors: seq<string>): string
  {
    header + Join("\n- ", [""] + errors)
  }

  /** One more error adds one more line. */
  lemma ErrorListSnoc(header: string, errors: seq<string>, e: string)
    ensures ErrorList(header, errors + [e]) == ErrorList(header, errors) + "\n- " + e
  {
    assert [""] + (errors + [e]) == ([""] + errors) + [e];
    JoinSnoc("\n- ", [""] + errors, e);
  }

  /** A single error is reported on one line. */
  lemma ErrorListOne(header: string, e: string)
    ensures ErrorList(header, [e]) == header + "\n- " + e
  {
    var parts := [""] + [e];
    assert parts[1..] == [e];
    assert Join("\n- ", parts) == "" + "\n- " + e;
  }
}
