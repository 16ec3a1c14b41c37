// The payment means, payment terms and allowance/charge blocks of the NL (PEPPOL BIS 3.0)
// builder: the checks each runs on its arguments and the element each builds.
module Bis3Payment {
  import opened Wrappers
  import opened Php
  import opened Xml
  import opened Document
  import opened Iban

  // ------------------------------------------------------------ payment means

  const CodeNotNumeric := "Payment means code must be a numeric value"
  const BadIban := "Invalid IBAN format"
  const BadBic := "Invalid BIC/SWIFT code format"

  /** The body of `^[0-9]+$`. */
  predicate NonEmptyDigits(s: string) { |s| > 0 && AllDigits(s) }

  /** A character of the class `[A-Z0-9]`. */
  predicate UpperOrDigit(c: char) { IsUpperLetter(c) || IsDigit(c) }

  /** The body of `^[A-Z]{6}[A-Z0-9]{2}([A-Z0-9]{3})?$`: a bank and country code of six
    * letters, a location code, and an optional branch code. */
  predicate BicBody(s: string)
  {
    (|s| == 8 || |s| == 11)
    && (forall i :: 0 <= i < 6 ==> IsUpperLetter(s[i]))
    && (forall i :: 6 <= i < |s| ==> UpperOrDigit(s[i]))
  }

  /** The arguments of addPaymentMeans that reach the document; the channel code and the
    * payment due date are accepted and never used. */
  datatype PaymentArgs = PaymentArgs(
    code: string, name: string, paymentId: Option<string>, accountId: Option<string>,
    accountName: Option<string>, bic: Option<string>)

  /** The three checks, in order: the code, the IBAN when given (whose check may itself throw),
    * the BIC when given. */
  function PaymentCheck(a: PaymentArgs): Outcome<Exception>
  {
    if !Anchored(NonEmptyDigits, a.code) then Fail(InvalidArgumentException(CodeNotNumeric))
    else if a.accountId.Some? && IbanCheck(a.accountId.value).Failure? then Fail(IbanCheck(a.accountId.value).error)
    else if a.accountId.Some? && !IbanCheck(a.accountId.value).value then Fail(InvalidArgumentException(BadIban))
    else if a.bic.Some? && !Anchored(BicBody, a.bic.value) then Fail(InvalidArgumentException(BadBic))
    else Pass
  }

  /** The PayeeFinancialAccount block, written only when an account is given; the BIC goes in
    * it, so a BIC without an account is checked and then dropped. */
  function PayeeAccount(a: PaymentArgs): seq<Element>
  {
    if a.accountId.None? then []
    else
      [Node("cac:PayeeFinancialAccount",
         [Text("cbc:ID", a.accountId.value)] + IfSet("cbc:Name", a.accountName)
         + (if a.bic.Some? then [Node("cac:FinancialInstitutionBranch", [Text("cbc:ID", a.bic.value)])] else []))]
  }

  function PaymentMeans(a: PaymentArgs): Element
  {
    Node("cac:PaymentMeans",
      [Leaf("cbc:PaymentMeansCode", Some(a.code), map["name" := a.name])] + IfSet("cbc:PaymentID", a.paymentId)
      + PayeeAccount(a))
  }

  /** An accepted payment has a numeric code, an account number whose converted text is a
    * bcmath number leaving remainder 1 modulo 97 (computed digit by digit, and without a minus
    * sign), and a BIC of 8 or 11 characters (plus PCRE's final
    * newline) whose first six are letters; a rejection names the first failing check. */
  lemma PaymentAccepted(a: PaymentArgs)
    requires PaymentCheck(a).Pass?
    ensures exists k :: 0 < k <= |a.code| && AllDigits(a.code[..k])
    ensures a.accountId.Some? ==>
      var n := Normalize(a.accountId.value);
      var c := Convert(n[4..] + n[..4]);
      |n| >= 4 && WellFormed(c) && Mod97(IntegerPart(c)) == 1 && (c == [] || c[0] != '-')
    ensures a.bic.Some? ==> |a.bic.value| in {8, 9, 11, 12} && forall i :: 0 <= i < 6 ==> IsUpperLetter(a.bic.value[i])
  {
    var c := a.code;
    if NonEmptyDigits(c) {
      assert c[..|c|] == c;
    } else {
      assert NonEmptyDigits(c[..|c| - 1]);
    }
    if a.accountId.Some? {
      var n := Normalize(a.accountId.value);
      Mod97IsRemainder(IntegerPart(Convert(n[4..] + n[..4])));
    }
    if a.bic.Some? {
      var b := a.bic.value;
      if !BicBody(b) {
        var init := b[..|b| - 1];
        assert BicBody(init);
        assert forall i :: 0 <= i < 6 ==> b[i] == init[i];
      }
    }
  }

  /** Which rejection each fault gives, in the order the checks run. */
  lemma PaymentRejected(a: PaymentArgs)
    ensures !Anchored(NonEmptyDigits, a.code) ==> PaymentCheck(a) == Fail(InvalidArgumentException(CodeNotNumeric))
    ensures Anchored(NonEmptyDigits, a.code) && a.accountId.Some? && IbanCheck(a.accountId.value) == Success(false)
      ==> PaymentCheck(a) == Fail(InvalidArgumentException(BadIban))
    ensures (Anchored(NonEmptyDigits, a.code) && (a.accountId.Some? ==> IbanCheck(a.accountId.value) == Success(true))
             && a.bic.Some? && !Anchored(BicBody, a.bic.value))
      ==> PaymentCheck(a) == Fail(InvalidArgumentException(BadBic))
    ensures a.accountId.Some? && Normalize(a.accountId.value) == [] ==> PaymentCheck(a).Fail?
  {
  }

  /** The blocks of the PaymentMeans element: the code with its name first, the PaymentID
    * exactly when given, and the account exactly when given. */
  lemma PaymentMeansBlocks(a: PaymentArgs)
    ensures var e := PaymentMeans(a);
      e.children[0] == Leaf("cbc:PaymentMeansCode", Some(a.code), map["name" := a.name])
      && (FindChild(e, "cbc:PaymentID").Some? <==> a.paymentId.Some?)
      && (FindChild(e, "cac:PayeeFinancialAccount").Some? <==> a.accountId.Some?)
      && (a.accountId.Some? ==> FindChild(e, "cac:PayeeFinancialAccount") == Some(PayeeAccount(a)[0]))
  {
    var e := PaymentMeans(a);
    var head := [Leaf("cbc:PaymentMeansCode", Some(a.code), map["name" := a.name])];
    assert e.children == head + IfSet("cbc:PaymentID", a.paymentId) + PayeeAccount(a);
    if a.paymentId.Some? {
      assert e.children[1].name == "cbc:PaymentID";
    }
    if a.accountId.Some? {
      var k := IndexOfName(e.children, "cac:PayeeFinancialAccount");
      assert e.children[|e.children| - 1] == PayeeAccount(a)[0];
      assert k == |e.children| - 1;
    }
  }

  /** The account block: the IBAN first, the account name exactly when given, and the
    * institution branch exactly when a BIC is given. */
  lemma PayeeAccountBlocks(a: PaymentArgs)
    requires a.accountId.Some?
    ensures var acc := PayeeAccount(a)[0];
      acc.children[0] == Text("cbc:ID", a.accountId.value)
      && (FindChild(acc, "cbc:Name").Some? <==> a.accountName.Some?)
      && (FindChild(acc, "cac:FinancialInstitutionBranch").Some? <==> a.bic.Some?)
      && (a.bic.Some? ==> FindChild(acc, "cac:FinancialInstitutionBranch").value.children == [Text("cbc:ID", a.bic.value)])
  {
    var acc := PayeeAccount(a)[0];
    if a.accountName.Some? {
      assert acc.children[1].name == "cbc:Name";
    }
    if a.bic.Some? {
      assert acc.children[|acc.children| - 1].name == "cac:FinancialInstitutionBranch";
    }
  }

  // ------------------------------------------------------------ payment terms

  const TermsRequired := "Payment terms note is required and cannot be empty"

  /** addPaymentTerms: a note that is null, "" or "0" is refused; otherwise PaymentTerms
    * holding the note. */
  function PaymentTerms(note: Option<string>): (r: Result<Element, Exception>)
    ensures r.Failure? <==> EmptyOpt(note)
    ensures r.Failure? ==> r.error == InvalidArgumentException(TermsRequired)
    ensures r.Success? ==> r.value == Node("cac:PaymentTerms", [Text("cbc:Note", note.value)])
  {
    if EmptyOpt(note) then Failure(InvalidArgumentException(TermsRequired))
    else Success(Node("cac:PaymentTerms", [Text("cbc:Note", note.value)]))
  }

  // ------------------------------------------------------------ allowance or charge

  const NegativeAmount := "Amount cannot be negative"
  const ReasonRequired := "Reason for allowance/charge is required"
  const PercentRange := "Tax percentage must be between 0 and 100"
  const CurrencyLength3 := "Currency code must be 3 characters long"

  datatype AllowanceArgs = AllowanceArgs(
    isCharge: bool, amount: real, reason: string, taxCategoryId: string, taxPercent: real, currency: string)

  /** The four checks of addAllowanceCharge, in order. */
  function AllowanceCheck(a: AllowanceArgs): Outcome<Exception>
  {
    if a.amount < 0.0 then Fail(InvalidArgumentException(NegativeAmount))
    else if EmptyString(a.reason) then Fail(InvalidArgumentException(ReasonRequired))
    else if a.taxPercent < 0.0 || a.taxPercent > 100.0 then Fail(InvalidArgumentException(PercentRange))
    else if |a.currency| != 3 then Fail(InvalidArgumentException(CurrencyLength3))
    else Pass
  }

  /** The AllowanceCharge element; the tax category is written only for a positive rate. */
  function AllowanceCharge(a: AllowanceArgs): Element
  {
    Node("cac:AllowanceCharge",
      [Text("cbc:ChargeIndicator", if a.isCharge then "true" else "false"),
       Text("cbc:AllowanceChargeReason", a.reason),
       Leaf("cbc:Amount", Some(FormatAmount(a.amount)), map["currencyID" := a.currency])]
      + (if a.taxPercent > 0.0 then
           [Node("cac:TaxCategory",
              [Text("cbc:ID", a.taxCategoryId), Text("cbc:Percent", FormatAmount(a.taxPercent)),
               Node("cac:TaxScheme", [Text("cbc:ID", "VAT")])])]
         else []))
  }

  lemma AllowanceAcceptedIff(a: AllowanceArgs)
    ensures AllowanceCheck(a).Pass? <==>
      a.amount >= 0.0 && !EmptyString(a.reason) && 0.0 <= a.taxPercent <= 100.0 && |a.currency| == 3
  {
  }

  /** What an accepted allowance or charge writes: the indicator, the reason, the amount
    * rounded to cents and read back as a non-negative number within half a cent of the
    * argument, in the given currency; the tax category exactly when the rate is positive. */
  lemma AllowanceWritten(a: AllowanceArgs)
    requires AllowanceCheck(a).Pass?
    ensures var e := AllowanceCharge(a);
      ChildNames(e.children)[..3] == ["cbc:ChargeIndicator", "cbc:AllowanceChargeReason", "cbc:Amount"]
      && e.children[0].text == Some(if a.isCharge then "true" else "false")
      && e.children[2].attrs == map["currencyID" := a.currency]
      && ParseNumeric(e.children[2].text.value) == Some(Cents(a.amount) as real / 100.0)
      && Cents(a.amount) >= 0
      && -0.005 <= a.amount - Cents(a.amount) as real / 100.0 <= 0.005
      && (|e.children| == 4 <==> a.taxPercent > 0.0)
      && (|e.children| == 4 ==> e.children[3].children[0].text == Some(a.taxCategoryId))
  {
    FormatAmountParses(a.amount);
    CentsClose(a.amount);
  }
}
