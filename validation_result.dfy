// The read-only outcome of validating an invoice: a verdict, the errors and warnings found,
// and suggested corrections keyed by field.
module ValidationResult {
  import opened Wrappers
  import opened Php

  datatype InvoiceValidationResult = InvoiceValidationResult(
    isValid: bool,
    errors: seq<string>,
    warnings: seq<string>,
    corrections: map<string, Value>)

  /** new InvoiceValidationResult($isValid) with every list left at its default. */
  function WithVerdict(isValid: bool): (r: InvoiceValidationResult)
    ensures r.isValid == isValid && r.errors == [] && r.warnings == [] && r.corrections == map[]
  {
    InvoiceValidationResult(isValid, [], [], map[])
  }

  /** hasErrors: !empty($errors). */
  predicate HasErrors(r: InvoiceValidationResult) { r.errors != [] }

  /** hasWarnings: !empty($warnings). */
  predicate HasWarnings(r: InvoiceValidationResult) { r.warnings != [] }

  /** getErrorsAsString: the errors joined by the separator. */
  function ErrorsAsString(r: InvoiceValidationResult, separator: string): string
  {
    Join(separator, r.errors)
  }

  /** getWarningsAsString: the warnings joined by the separator. */
  function WarningsAsString(r: InvoiceValidationResult, separator: string): string
  {
    Join(separator, r.warnings)
  }

  /** getCorrection: `$corrections[$key] ?? null`, so a missing key and a stored null both give null. */
  function GetCorrection(r: InvoiceValidationResult, key: string): (v: Value)
    ensures key in r.corrections && IsSet(r.corrections[key]) ==> v == r.corrections[key]
    ensures !(key in r.corrections && IsSet(r.corrections[key])) ==> v == Null
  {
    if key in r.corrections && IsSet(r.corrections[key]) then r.corrections[key] else Null
  }

  /** One value of the array toArray returns. */
  datatype Entry = Flag(b: bool) | Messages(m: seq<string>) | Corrections(c: map<string, Value>)

  /** toArray: the four fields under their snake_case keys. */
  function ToArray(r: InvoiceValidationResult): (a: map<string, Entry>)
    ensures a.Keys == {"is_valid", "errors", "warnings", "corrections"}
    ensures a["is_valid"] == Flag(r.isValid) && a["errors"] == Messages(r.errors)
    ensures a["warnings"] == Messages(r.warnings) && a["corrections"] == Corrections(r.corrections)
  {
    map["is_valid" := Flag(r.isValid), "errors" := Messages(r.errors),
        "warnings" := Messages(r.warnings), "corrections" := Corrections(r.corrections)]
  }

  /** The fields read back from toArray's array. */
  function FromArray(a: map<string, Entry>): (r: Option<InvoiceValidationResult>)
  {
    if "is_valid" in a && a["is_valid"].Flag? && "errors" in a && a["errors"].Messages?
      && "warnings" in a && a["warnings"].Messages? && "corrections" in a && a["corrections"].Corrections?
    then Some(InvoiceValidationResult(a["is_valid"].b, a["errors"].m, a["warnings"].m, a["corrections"].c))
    else None
  }

  /** toArray loses nothing: the result can be rebuilt from its array. */
  lemma ToArrayRoundTrip(r: InvoiceValidationResult)
    ensures FromArray(ToArray(r)) == Some(r)
  {
  }

  /** fromException: invalid, the message as the only error, nothing else. */
  function FromException(message: string): (r: InvoiceValidationResult)
    ensures !r.isValid && r.errors == [message] && r.warnings == [] && r.corrections == map[]
  {
    InvoiceValidationResult(false, [message], [], map[])
  }

  /** success: valid, with empty errors, warnings and corrections. */
  function Success(): (r: InvoiceValidationResult)
    ensures r.isValid && r.errors == [] && r.warnings == [] && r.corrections == map[]
  {
    WithVerdict(true)
  }

  /** A successful result reports no errors, no warnings and empty strings for both. */
  lemma SuccessIsClean(separator: string)
    ensures !HasErrors(Success()) && !HasWarnings(Success())
    ensures ErrorsAsString(Success(), separator) == "" && WarningsAsString(Success(), separator) == ""
    ensures forall key :: GetCorrection(Success(), key) == Null
  {
  }

  /** A result built from an exception has errors, no warnings, and its error string is the
    * message whatever the separator. */
  lemma FromExceptionReports(message: string, separator: string)
    ensures HasErrors(FromException(message)) && !HasWarnings(FromException(message))
    ensures ErrorsAsString(FromException(message), separator) == message
  {
  }

  /** The error string holds every error and one separator between each two. */
  lemma ErrorsAsStringLength(r: InvoiceValidationResult, separator: string)
    ensures |ErrorsAsString(r, separator)| ==
      if r.errors == [] then 0 else SumLengths(r.errors) + (|r.errors| - 1) * |separator|
  {
    if r.errors != [] {
      JoinLength(separator, r.errors);
    }
  }

  /** Adding an error extends the error string by the separator and that error. */
  lemma ErrorsAsStringSnoc(r: InvoiceValidationResult, separator: string, e: string)
    requires r.errors != []
    ensures ErrorsAsString(r.(errors := r.errors + [e]), separator) == ErrorsAsString(r, separator) + separator + e
  {
    JoinSnoc(separator, r.errors, e);
  }
}
