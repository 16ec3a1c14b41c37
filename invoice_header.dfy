// The invoice header check of the two PEPPOL builders (identical in both but for the
// CustomizationID they write): the invoice number, the issue date and the due date are checked
// together, every fault is reported in one exception, and the header elements are built.
module InvoiceHeader {
  import opened Wrappers
  import opened Php
  import opened Xml
  import opened Dates
  import opened Document

  /** What the date arguments may be: a DateTime object, a string, or anything else. */
  datatype DateArg = DateObject(dt: DateTime) | DateString(s: string) | NotADate

  const NumberRequired := "Invoice number is required and cannot be empty"
  const NumberTooLong := "Invoice number cannot exceed 35 characters"
  const BadIssueDate := "Invalid invoice date. Please use YYYY-MM-DD format"
  const IssueInFuture := "Invoice date cannot be in the future"
  const IssueNotDate := "Invoice date must be a string (YYYY-MM-DD) or DateTime object"
  const BadDueDate := "Invalid due date. Please use YYYY-MM-DD format"
  const DueNotAfter := "Due date must be after the invoice date"
  const DueNotDate := "Due date must be a string (YYYY-MM-DD) or DateTime object"
  const HeaderErrorsPrefix := "Validation error(s) in invoice header:\n"

  /** How the two date comparisons are made: on full DateTime values, as the code does, or on
    * calendar days, as its messages mean. */
  datatype Rule = AsWritten | ByDay

  /** The number check: required (PHP `empty`, so "0" is missing too), at most 35 bytes. */
  function NumberErrors(number: string): seq<string>
  {
    var n := Trim(number);
    if EmptyString(n) then [NumberRequired] else if |n| > 35 then [NumberTooLong] else []
  }

  /** The DateTime a date argument leaves in `$issueDateObj` / `$dueDateObj`: the object itself,
    * or what createFromFormat reads from the trimmed text, with the time of day at which it was
    * read; None where that is `false` or `null`. The text need not be canonical: "2024-1-5"
    * is read as a date although the format check rejects it. */
  function ReadDate(arg: DateArg, at: nat): Option<DateTime>
  {
    match arg
    case DateObject(dt) => Some(dt)
    case DateString(s) => (match CreateFromFormat(Trim(s)) case Some(d) => Some(DateTime(d, at)) case None => None)
    case NotADate => None
  }

  /** The issue moment is after today. */
  predicate InFuture(rule: Rule, issue: DateTime, today: Date)
  {
    match rule
    case AsWritten => Before(DateTime(today, 0), issue)
    case ByDay => DateBefore(today, issue.date)
  }

  /** The due moment is not after the issue moment. */
  predicate NotAfter(rule: Rule, issue: DateTime, due: DateTime)
  {
    match rule
    case AsWritten => !Before(issue, due)
    case ByDay => !DateBefore(issue.date, due.date)
  }

  /** The issue-date check; a DateTime object is taken as it is. A text passes the format test
    * `$obj && $obj->format('Y-m-d') === $s` exactly when ParseYmd reads it (RoundTripIsStrict). */
  function IssueErrors(rule: Rule, issue: DateArg, clock: Clock): seq<string>
  {
    match issue
    case DateObject(_) => []
    case DateString(s) =>
      (match ParseYmd(Trim(s))
       case None => [BadIssueDate]
       case Some(d) => if InFuture(rule, DateTime(d, clock.issueRead), clock.today) then [IssueInFuture] else [])
    case NotADate => [IssueNotDate]
  }

  /** The due-date check; the order of the dates is compared when the due date is a
    * well-formed string and the issue date was read as a date at all, even one the issue check
    * rejected for its format (`isset` holds for that object; for `false` the comparison
    * `$dueDateObj <= false` is false). */
  function DueErrors(rule: Rule, issue: DateArg, due: DateArg, clock: Clock): seq<string>
  {
    match due
    case DateObject(_) => []
    case DateString(s) =>
      (match ParseYmd(Trim(s))
       case None => [BadDueDate]
       case Some(d) =>
         var i := ReadDate(issue, clock.issueRead);
         if i.Some? && NotAfter(rule, i.value, DateTime(d, clock.dueRead)) then [DueNotAfter] else [])
    case NotADate => [DueNotDate]
  }

  /** Every fault found, in the order the checks run. */
  function Errors(rule: Rule, number: string, issue: DateArg, due: DateArg, clock: Clock): seq<string>
  {
    NumberErrors(number) + IssueErrors(rule, issue, clock) + DueErrors(rule, issue, due, clock)
  }

  /** The three values the header writes: the trimmed number and the two dates as `Y-m-d`. */
  datatype Header = Header(number: string, issueText: string, dueText: string)

  /** The text the issue date is written as: the object formatted, or the trimmed string. */
  function IssueText(issue: DateArg): string
  {
    match issue
    case DateObject(dt) => FormatYmd(dt.date)
    case DateString(s) => Trim(s)
    case NotADate => ""
  }

  /** addInvoiceHeader up to the first element: the collected faults in one exception, then the
    * order of the two dates once more, then the values to write. */
  function Check(rule: Rule, number: string, issue: DateArg, due: DateArg, clock: Clock): (r: Result<Header, Exception>)
  {
    var errors := Errors(rule, number, issue, due, clock);
    if errors != [] then Failure(InvalidArgumentException(ErrorList(HeaderErrorsPrefix, errors)))
    else
      var i := ReadDate(issue, clock.issueRead);
      var d := ReadDate(due, clock.dueRead);
      if i.None? || d.None? || NotAfter(rule, i.value, d.value) then Failure(InvalidArgumentException(DueNotAfter))
      else Success(Header(Trim(number), IssueText(issue), FormatYmd(d.value.date)))
  }

  const ProfileId := "urn:fdc:peppol.eu:2017:poacc:billing:01:1.0"

  /** The eight header elements, in document order. */
  function HeaderElements(customizationId: string, h: Header): (es: seq<Element>)
    ensures ChildNames(es) == ["cbc:CustomizationID", "cbc:ProfileID", "cbc:ID", "cbc:IssueDate", "cbc:DueDate",
                          "cbc:InvoiceTypeCode", "cbc:DocumentCurrencyCode", "cbc:AccountingCost"]
    ensures es[2].text == Some(h.number) && es[3].text == Some(h.issueText) && es[4].text == Some(h.dueText)
  {
    [Text("cbc:CustomizationID", customizationId), Text("cbc:ProfileID", ProfileId), Text("cbc:ID", h.number),
     Text("cbc:IssueDate", h.issueText), Text("cbc:DueDate", h.dueText), Text("cbc:InvoiceTypeCode", "380"),
     Text("cbc:DocumentCurrencyCode", "EUR"), Text("cbc:AccountingCost", "4025:123:4343")]
  }

  // ------------------------------------------------------------ properties

  /** The number is accepted exactly when its trimmed form is non-empty in PHP's sense and at
    * most 35 bytes long. */
  predicate NumberOk(number: string) { !EmptyString(Trim(number)) && |Trim(number)| <= 35 }

  /** The issue date is accepted on its own: an object, or a canonical date not after today. */
  predicate IssueOk(issue: DateArg, today: Date)
  {
    issue.DateObject? || (issue.DateString? && ParseYmd(Trim(issue.s)).Some? && !DateBefore(today, ParseYmd(Trim(issue.s)).value))
  }

  /** The due date is accepted on its own: an object or a canonical date. */
  predicate DueOk(due: DateArg) { due.DateObject? || (due.DateString? && ParseYmd(Trim(due.s)).Some?) }

  /** The calendar day a well-formed date argument names. */
  function Day(arg: DateArg): Option<Date>
  {
    match ReadDate(arg, 0) case Some(dt) => Some(dt.date) case None => None
  }

  lemma NumberErrorsIff(number: string)
    ensures NumberErrors(number) == [] <==> NumberOk(number)
  {
  }

  /** With the comparison by day, the header is accepted exactly when each field is acceptable
    * and the due day is after the issue day. */
  lemma AcceptedIff(number: string, issue: DateArg, due: DateArg, clock: Clock)
    ensures Check(ByDay, number, issue, due, clock).Success? <==>
      NumberOk(number) && IssueOk(issue, clock.today) && DueOk(due)
      && Day(issue).Some? && Day(due).Some? && DateBefore(Day(issue).value, Day(due).value)
  {
    NumberErrorsIff(number);
    IssueErrorsByDay(issue, clock);
    DueErrorsByDay(issue, due, clock);
    ReadDateDay(issue, clock.issueRead);
    ReadDateDay(due, clock.dueRead);
    var n, i, d := NumberErrors(number), IssueErrors(ByDay, issue, clock), DueErrors(ByDay, issue, due, clock);
    assert Errors(ByDay, number, issue, due, clock) == n + i + d;
    assert n + i + d == [] <==> n == [] && i == [] && d == [];
  }

  /** A date argument reads as a moment exactly when it names a day, and on that day. */
  lemma ReadDateDay(arg: DateArg, at: nat)
    ensures ReadDate(arg, at).Some? <==> Day(arg).Some?
    ensures ReadDate(arg, at).Some? ==> ReadDate(arg, at).value.date == Day(arg).value
  {
  }

  lemma IssueErrorsByDay(issue: DateArg, clock: Clock)
    ensures IssueErrors(ByDay, issue, clock) == [] <==> IssueOk(issue, clock.today)
  {
  }

  lemma DueErrorsByDay(issue: DateArg, due: DateArg, clock: Clock)
    ensures DueErrors(ByDay, issue, due, clock) == [] <==>
      DueOk(due) && (due.DateString? && Day(issue).Some? ==> Day(due).Some? && DateBefore(Day(issue).value, Day(due).value))
  {
    ReadDateDay(issue, clock.issueRead);
    if due.DateString? && ParseYmd(Trim(due.s)).Some? {
      StrictAgrees(Trim(due.s));
    }
  }

  /** What an accepted header writes: the trimmed number, and both dates in canonical form with
    * the due day after the issue day. */
  lemma AcceptedWritesDates(number: string, issue: DateArg, due: DateArg, clock: Clock)
    requires Check(ByDay, number, issue, due, clock).Success?
    ensures var h := Check(ByDay, number, issue, due, clock).value;
      h.number == Trim(number) && 0 < |h.number| <= 35
      && h.issueText == FormatYmd(Day(issue).value) && h.dueText == FormatYmd(Day(due).value)
      && DateBefore(Day(issue).value, Day(due).value)
  {
    AcceptedIff(number, issue, due, clock);
    if issue.DateString? {
      StrictAgrees(Trim(issue.s));
      ParseThenFormat(Trim(issue.s));
    }
  }

  /** A fault in one field never hides a fault in another: each malformed or missing value is
    * named in the list whatever the other arguments are. */
  lemma ErrorsNameEachFault(rule: Rule, number: string, issue: DateArg, due: DateArg, clock: Clock)
    ensures EmptyString(Trim(number)) ==> NumberRequired in Errors(rule, number, issue, due, clock)
    ensures issue.NotADate? ==> IssueNotDate in Errors(rule, number, issue, due, clock)
    ensures issue.DateString? && ParseYmd(Trim(issue.s)).None? ==> BadIssueDate in Errors(rule, number, issue, due, clock)
    ensures due.NotADate? ==> DueNotDate in Errors(rule, number, issue, due, clock)
    ensures due.DateString? && ParseYmd(Trim(due.s)).None? ==> BadDueDate in Errors(rule, number, issue, due, clock)
  {
    var e := Errors(rule, number, issue, due, clock);
    var n, i, d := NumberErrors(number), IssueErrors(rule, issue, clock), DueErrors(rule, issue, due, clock);
    assert e == n + i + d;
    assert |n| > 0 ==> e[0] == n[0];
    assert |i| > 0 ==> e[|n|] == i[0];
    assert |d| > 0 ==> e[|n| + |i|] == d[0];
  }

  /** An issue date given as today's date is rejected by the comparison as written whenever the
    * clock is past midnight, and accepted by the comparison by day. */
  lemma TodayRejectedAsWritten(clock: Clock)
    requires ValidDate(clock.today) && clock.today.year < 10000 && clock.issueRead > 0
    ensures IssueErrors(AsWritten, DateString(FormatYmd(clock.today)), clock) == [IssueInFuture]
    ensures IssueErrors(ByDay, DateString(FormatYmd(clock.today)), clock) == []
  {
    FormatThenParse(clock.today);
    TrimCanonicalDate(clock.today);
  }

  /** Both dates given as the same day before today: the comparison as written accepts the
    * header as soon as the due date is read later than the issue date, and writes a due date
    * equal to the issue date; the comparison by day rejects it. */
  lemma SameDayAcceptedAsWritten(number: string, d: Date, clock: Clock)
    requires NumberOk(number)
    requires ValidDate(d) && d.year < 10000 && DateBefore(d, clock.today)
    requires clock.issueRead < clock.dueRead
    ensures var r := Check(AsWritten, number, DateString(FormatYmd(d)), DateString(FormatYmd(d)), clock);
      r.Success? && r.value.issueText == r.value.dueText
    ensures Check(ByDay, number, DateString(FormatYmd(d)), DateString(FormatYmd(d)), clock).Failure?
  {
    var arg := DateString(FormatYmd(d));
    FormatThenParse(d);
    TrimCanonicalDate(d);
    NumberErrorsIff(number);
    assert ParseYmd(Trim(arg.s)) == Some(d);
    StrictAgrees(Trim(arg.s));
    assert IssueErrors(AsWritten, arg, clock) == [];
    assert DueErrors(AsWritten, arg, arg, clock) == [];
    assert Errors(AsWritten, number, arg, arg, clock) == [];
    assert DueErrors(ByDay, arg, arg, clock) == [DueNotAfter];
  }

  /** An issue date in a lenient form, such as "2024-1-5" (ShortFieldsRead) or "2024-02-30"
    * (DayOverflowRolls), fails the format check, yet the object read from it still takes part
    * in the due-date comparison: a due date before it adds the order fault as well. */
  lemma LenientIssueStillCompared(rule: Rule, issueText: string, due: Date, clock: Clock)
    requires ParseYmd(Trim(issueText)).None? && CreateFromFormat(Trim(issueText)).Some?
    requires ValidDate(due) && due.year < 10000 && DateBefore(due, CreateFromFormat(Trim(issueText)).value)
    ensures IssueErrors(rule, DateString(issueText), clock) == [BadIssueDate]
    ensures DueErrors(rule, DateString(issueText), DateString(FormatYmd(due)), clock) == [DueNotAfter]
  {
    var i := CreateFromFormat(Trim(issueText)).value;
    var dueArg := DateString(FormatYmd(due));
    CanonicalRead(due);
    assert ReadDate(DateString(issueText), clock.issueRead) == Some(DateTime(i, clock.issueRead));
    assert NotAfter(rule, DateTime(i, clock.issueRead), DateTime(due, clock.dueRead));
  }

  /** Canonical text reads as its date. */
  lemma CanonicalRead(d: Date)
    requires ValidDate(d) && d.year < 10000
    ensures ParseYmd(Trim(FormatYmd(d))) == Some(d)
  {
    FormatThenParse(d);
    TrimCanonicalDate(d);
  }

  /** Canonical date text has no surrounding whitespace. */
  lemma TrimCanonicalDate(d: Date)
    requires ValidDate(d) && d.year < 10000
    ensures Trim(FormatYmd(d)) == FormatYmd(d)
  {
    var s := FormatYmd(d);
    assert s[..4] == Digits(d.year, 4) && s[8..] == Digits(d.day, 2);
    assert s[0] == s[..4][0] && s[9] == s[8..][1];
    TrimFixedPoint(s);
  }
}
