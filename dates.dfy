// Calendar dates as the builders read and write them: `Y-m-d` text, DateTime values with a
// time of day, and the clock the header check compares against.
module Dates {
  import opened Wrappers
  import opened Php

  datatype Date = Date(year: nat, month: nat, day: nat)

  /** A DateTime: a calendar day and a time of that day (one time zone throughout). */
  datatype DateTime = DateTime(date: Date, time: nat)

  /** The clock as the header check sees it: `new DateTime('today')` is `today` at time 0, and
    * createFromFormat fills in the current time of day, here in microseconds, which it reads
    * once for the issue date and once, later, for the due date. */
  datatype Clock = Clock(today: Date, issueRead: nat, dueRead: nat)

  predicate IsLeap(y: nat) { y % 4 == 0 && (y % 100 != 0 || y % 400 == 0) }

  function DaysInMonth(y: nat, m: nat): nat
    requires 1 <= m <= 12
  {
    if m == 2 then (if IsLeap(y) then 29 else 28)
    else if m == 4 || m == 6 || m == 9 || m == 11 then 30
    else 31
  }

  predicate ValidDate(d: Date) { 1 <= d.month <= 12 && 1 <= d.day <= DaysInMonth(d.year, d.month) }

  /** Calendar order of two days. */
  predicate DateBefore(a: Date, b: Date)
  {
    a.year < b.year || (a.year == b.year && (a.month < b.month || (a.month == b.month && a.day < b.day)))
  }

  /** `$a < $b` on two DateTime values: by day, then by time of day. */
  predicate Before(a: DateTime, b: DateTime)
  {
    DateBefore(a.date, b.date) || (a.date == b.date && a.time < b.time)
  }

  // ------------------------------------------------------------ fixed-width digits

  /** Digits read back from text give the same text. */
  lemma {:induction false} DigitsOfValue(s: string)
    requires AllDigits(s)
    ensures Digits(DigitsValue(s), |s|) == s
    decreases |s|
  {
    if s != [] {
      var init := s[..|s| - 1];
      assert AllDigits(init) by {
        assert forall i :: 0 <= i < |init| ==> init[i] == s[i];
      }
      DigitsOfValue(init);
      var v := DigitsValue(s);
      assert v / 10 == DigitsValue(init) && v % 10 == DigitValue(s[|s| - 1]);
      assert DigitChar(DigitValue(s[|s| - 1])) == s[|s| - 1];
      assert s == init + [s[|s| - 1]];
    }
  }

  // ------------------------------------------------------------ Y-m-d

  /** format('Y-m-d'): the year in at least four digits, month and day in two. */
  function FormatYmd(d: Date): (r: string)
    ensures d.year < 10000 ==> |r| == 10 && r[4] == '-' && r[7] == '-'
  {
    (if d.year < 10000 then Digits(d.year, 4) else IntToString(d.year))
      + "-" + Digits(d.month, 2) + "-" + Digits(d.day, 2)
  }

  /** The date that `DateTime::createFromFormat('Y-m-d', s)` reads from s when formatting that
    * date back gives s again, and None when either step fails. */
  function ParseYmd(s: string): (r: Option<Date>)
    ensures r.Some? ==> ValidDate(r.value) && r.value.year < 10000
  {
    if |s| == 10 && s[4] == '-' && s[7] == '-'
       && AllDigits(s[..4]) && AllDigits(s[5..7]) && AllDigits(s[8..]) then
      var d := Date(DigitsValue(s[..4]), DigitsValue(s[5..7]), DigitsValue(s[8..]));
      DigitsBound(s[..4]);
      if ValidDate(d) then Some(d) else None
    else None
  }

  lemma {:induction false} DigitsBound(s: string)
    requires AllDigits(s)
    ensures DigitsValue(s) < Pow10(|s|)
    decreases |s|
  {
    if s != [] {
      var init := s[..|s| - 1];
      assert AllDigits(init) by {
        assert forall i :: 0 <= i < |init| ==> init[i] == s[i];
      }
      DigitsBound(init);
    }
  }

  // ------------------------------------------------------------ createFromFormat('Y-m-d')

  /** The number of digits at the head of s, at most max: how far one numeric field of a
    * createFromFormat pattern reads. */
  function LeadingDigits(s: string, max: nat): (k: nat)
    ensures k <= max && k <= |s| && AllDigits(s[..k])
    ensures k < max && k < |s| ==> !IsDigit(s[k])
  {
    if max == 0 || s == [] || !IsDigit(s[0]) then 0
    else
      var k := 1 + LeadingDigits(s[1..], max - 1);
      assert s[..k] == [s[0]] + s[1..][..k - 1];
      k
  }

  /** A day number counted from the first of month m of year y, rolled over into the following
    * months when it exceeds the month's length, and day 0 taken as the last day of the month
    * before. None where that falls before year 0. */
  function RollDays(y: nat, m: nat, d: nat): (r: Option<Date>)
    requires 1 <= m <= 12
    ensures r.Some? ==> ValidDate(r.value)
    decreases d
  {
    if d == 0 then
      if m > 1 then Some(Date(y, m - 1, DaysInMonth(y, m - 1)))
      else if y > 0 then Some(Date(y - 1, 12, 31))
      else None
    else if d <= DaysInMonth(y, m) then Some(Date(y, m, d))
    else if m < 12 then RollDays(y, m + 1, d - DaysInMonth(y, m))
    else RollDays(y + 1, 1, d - 31)
  }

  /** How a DateTime settles out-of-range fields: the month first (13 is January of the next
    * year, 0 December of the year before), then the day. */
  function Normalize(y: nat, m: nat, d: nat): (r: Option<Date>)
    ensures r.Some? ==> ValidDate(r.value)
  {
    if m == 0 then (if y == 0 then None else RollDays(y - 1, 12, d))
    else RollDays(y + (m - 1) / 12, (m - 1) % 12 + 1, d)
  }

  /** `DateTime::createFromFormat('Y-m-d', s)` up to the time of day: one to four digits of year,
    * a dash, one or two digits of month, a dash, one or two digits of day and nothing after
    * them; each field must start with a digit. A month or day out of range is not refused but
    * rolled over. None stands for `false`. */
  function CreateFromFormat(s: string): (r: Option<Date>)
    ensures r.Some? ==> ValidDate(r.value)
  {
    var a := LeadingDigits(s, 4);
    if a == 0 || a == |s| || s[a] != '-' then None
    else
      var t := s[a + 1..];
      var b := LeadingDigits(t, 2);
      if b == 0 || b == |t| || t[b] != '-' then None
      else
        var u := t[b + 1..];
        var c := LeadingDigits(u, 2);
        if c == 0 || c != |u| then None
        else Normalize(DigitsValue(s[..a]), DigitsValue(t[..b]), DigitsValue(u))
  }

  /** A digit field ends where the digits do, or at its maximum width. */
  lemma LeadingDigitsExact(s: string, max: nat, k: nat)
    requires k <= max && k <= |s| && AllDigits(s[..k])
    requires k == max || k == |s| || !IsDigit(s[k])
    ensures LeadingDigits(s, max) == k
    decreases k
  {
    if k > 0 {
      assert s[0] == s[..k][0];
      assert s[1..][..k - 1] == s[..k][1..];
      LeadingDigitsExact(s[1..], max - 1, k - 1);
    }
  }

  /** Inside the calendar nothing rolls over. */
  lemma NormalizeValid(d: Date)
    requires ValidDate(d)
    ensures Normalize(d.year, d.month, d.day) == Some(d)
  {
  }

  /** On canonical text the lenient reader and the strict one agree. */
  lemma StrictAgrees(s: string)
    requires ParseYmd(s).Some?
    ensures CreateFromFormat(s) == ParseYmd(s)
  {
    LeadingDigitsExact(s, 4, 4);
    var t := s[5..];
    assert t[..2] == s[5..7] && t[2] == s[7];
    LeadingDigitsExact(t, 2, 2);
    var u := t[3..];
    assert u == s[8..];
    LeadingDigitsExact(u, 2, 2);
    NormalizeValid(ParseYmd(s).value);
  }

  /** A number of at least five digits is written with at least five characters. */
  lemma LongYear(n: nat)
    requires n >= 10000
    ensures |IntToString(n)| >= 5
  {
    var r := IntToString(n);
    DigitsBound(r);
    if |r| <= 4 {
      Pow10Mono(|r|, 4);
    }
  }

  lemma {:induction false} Pow10Mono(i: nat, j: nat)
    requires i <= j
    ensures Pow10(i) <= Pow10(j)
    decreases j
  {
    if i < j {
      Pow10Mono(i, j - 1);
    }
  }

  /** The header's test `$obj && $obj->format('Y-m-d') === $s` holds exactly for the texts the
    * strict reader accepts. */
  lemma RoundTripIsStrict(s: string)
    ensures (CreateFromFormat(s).Some? && FormatYmd(CreateFromFormat(s).value) == s) <==> ParseYmd(s).Some?
  {
    if ParseYmd(s).Some? {
      StrictAgrees(s);
      ParseThenFormat(s);
    }
    if CreateFromFormat(s).Some? && FormatYmd(CreateFromFormat(s).value) == s {
      var d := CreateFromFormat(s).value;
      if d.year < 10000 {
        FormatThenParse(d);
      } else {
        LongYear(d.year);
      }
    }
  }

  /** Three digit fields of the right widths, separated by dashes, are read as their values. */
  lemma FieldsRead(y: string, m: string, d: string)
    requires 1 <= |y| <= 4 && 1 <= |m| <= 2 && 1 <= |d| <= 2
    requires AllDigits(y) && AllDigits(m) && AllDigits(d)
    ensures CreateFromFormat(y + "-" + m + "-" + d) == Normalize(DigitsValue(y), DigitsValue(m), DigitsValue(d))
  {
    var s := y + "-" + m + "-" + d;
    assert s[..|y|] == y;
    LeadingDigitsExact(s, 4, |y|);
    var t := s[|y| + 1..];
    assert t == m + "-" + d;
    assert t[..|m|] == m;
    LeadingDigitsExact(t, 2, |m|);
    assert t[|m| + 1..] == d;
    LeadingDigitsExact(d, 2, |d|);
  }

  /** A one-digit month and day are read as they stand. */
  lemma ShortFieldsRead()
    ensures CreateFromFormat("2024-1-5") == Some(Date(2024, 1, 5))
  {
    var s := "2024" + "-" + "1" + "-" + "5";
    YearValue();
    FieldsRead("2024", "1", "5");
    assert Normalize(2024, 1, 5) == Some(Date(2024, 1, 5));
    assert CreateFromFormat(s) == Some(Date(2024, 1, 5));
    assert s == "2024-1-5";
  }

  /** A day past the end of its month is not refused but read as a day of the next month
    * ("2024-02-30" is the 1st of March). */
  lemma DayOverflowRolls(y: nat, m: nat, d: nat)
    requires y < 10000 && 1 <= m < 12 && DaysInMonth(y, m) < d < 100
    requires d - DaysInMonth(y, m) <= DaysInMonth(y, m + 1)
    ensures CreateFromFormat(Digits(y, 4) + "-" + Digits(m, 2) + "-" + Digits(d, 2))
      == Some(Date(y, m + 1, d - DaysInMonth(y, m)))
  {
    FieldsRead(Digits(y, 4), Digits(m, 2), Digits(d, 2));
    DigitsValueOf(y, 4);
    DigitsValueOf(m, 2);
    DigitsValueOf(d, 2);
    RollsOnce(y, m, d);
  }

  lemma RollsOnce(y: nat, m: nat, d: nat)
    requires 1 <= m < 12 && DaysInMonth(y, m) < d
    requires d - DaysInMonth(y, m) <= DaysInMonth(y, m + 1)
    ensures Normalize(y, m, d) == Some(Date(y, m + 1, d - DaysInMonth(y, m)))
  {
    assert (m - 1) / 12 == 0 && (m - 1) % 12 + 1 == m;
    var rest := d - DaysInMonth(y, m);
    assert RollDays(y, m + 1, rest) == Some(Date(y, m + 1, rest));
    assert RollDays(y, m, d) == RollDays(y, m + 1, rest);
  }

  /** Text that does not start with a digit is no date. */
  lemma LetterRefused()
    ensures CreateFromFormat("abc") == None
  {
  }

  lemma YearValue()
    ensures DigitsValue("2024") == 2024
  {
    assert "2024"[..3] == "202" && "202"[..2] == "20" && "20"[..1] == "2";
  }

  /** A valid date survives formatting and reading back. */
  lemma FormatThenParse(d: Date)
    requires ValidDate(d) && d.year < 10000
    ensures ParseYmd(FormatYmd(d)) == Some(d)
  {
    var s := FormatYmd(d);
    assert s[..4] == Digits(d.year, 4) && s[5..7] == Digits(d.month, 2) && s[8..] == Digits(d.day, 2);
    DigitsValueOf(d.year, 4);
    DigitsValueOf(d.month, 2);
    DigitsValueOf(d.day, 2);
  }

  /** Text that reads as a date is exactly that date's canonical form. */
  lemma ParseThenFormat(s: string)
    requires ParseYmd(s).Some?
    ensures FormatYmd(ParseYmd(s).value) == s
  {
    DigitsOfValue(s[..4]);
    DigitsOfValue(s[5..7]);
    DigitsOfValue(s[8..]);
    assert s == s[..4] + "-" + s[5..7] + "-" + s[8..];
  }

  // ------------------------------------------------------------ adding days

  /** The calendar day after d. */
  function NextDay(d: Date): (r: Date)
    requires ValidDate(d)
    ensures ValidDate(r) && DateBefore(d, r)
  {
    if d.day < DaysInMonth(d.year, d.month) then Date(d.year, d.month, d.day + 1)
    else if d.month < 12 then Date(d.year, d.month + 1, 1)
    else Date(d.year + 1, 1, 1)
  }

  /** `->modify('+n days')` on a day. */
  function AddDays(d: Date, n: nat): (r: Date)
    requires ValidDate(d)
    ensures ValidDate(r) && (n > 0 ==> DateBefore(d, r))
    decreases n
  {
    if n == 0 then d
    else
      var r := AddDays(NextDay(d), n - 1);
      DateBeforeTransitive(d, NextDay(d), r);
      r
  }

  lemma DateBeforeTransitive(a: Date, b: Date, c: Date)
    requires DateBefore(a, b) && (b == c || DateBefore(b, c))
    ensures DateBefore(a, c)
  {
  }
}
