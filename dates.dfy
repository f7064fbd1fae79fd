/** Calendar dates as the program uses `DateTime`: every date it compares is a midnight
    value read from a `dd.MM.yyyy` or `dd-MM-yyyy` string, so a date is a validated
    (day, month, year) triple of the proleptic Gregorian calendar, years 1 to 9999. */
module Dates {
  import opened Wrappers
  import opened Text

  datatype Date = Date(day: nat, month: nat, year: nat)

  predicate IsLeapYear(y: nat) {
    y % 4 == 0 && (y % 100 != 0 || y % 400 == 0)
  }

  function DaysInMonth(m: nat, y: nat): nat
    requires 1 <= m <= 12
  {
    if m == 2 then (if IsLeapYear(y) then 29 else 28)
    else if m == 4 || m == 6 || m == 9 || m == 11 then 30
    else 31
  }

  predicate Valid(d: Date) {
    1 <= d.year <= 9999 && 1 <= d.month <= 12 && 1 <= d.day <= DaysInMonth(d.month, d.year)
  }

  /** `DateTime.MinValue`, which is also `default(DateTime)`. */
  const MinDate := Date(1, 1, 1)

  /** `DateTime.MaxValue` truncated to its date. */
  const MaxDate := Date(31, 12, 9999)

  /** The order of `DateTime`'s `<` on dates. */
  predicate Before(a: Date, b: Date) {
    a.year < b.year || (a.year == b.year && (a.month < b.month || (a.month == b.month && a.day < b.day)))
  }

  function YearLength(y: nat): nat {
    if IsLeapYear(y) then 366 else 365
  }

  /** Days from 1 January of year 1 to 1 January of year `y`. */
  function DaysBeforeYear(y: nat): nat
    requires y >= 1
  {
    if y == 1 then 0 else DaysBeforeYear(y - 1) + YearLength(y - 1)
  }

  /** Days from 1 January to the first day of month `m` of year `y`. */
  function DaysBeforeMonth(m: nat, y: nat): nat
    requires 1 <= m <= 12
  {
    (if m == 1 then 0 else if m == 2 then 31 else if m == 3 then 59 else if m == 4 then 90
     else if m == 5 then 120 else if m == 6 then 151 else if m == 7 then 181
     else if m == 8 then 212 else if m == 9 then 243 else if m == 10 then 273
     else if m == 11 then 304 else 334)
    + (if m > 2 && IsLeapYear(y) then 1 else 0)
  }

  /** The day number of a date, counted from 1 January of year 1 (which has number 0). */
  function DayNumber(d: Date): nat
    requires Valid(d)
  {
    DaysBeforeYear(d.year) + DaysBeforeMonth(d.month, d.year) + d.day - 1
  }

  lemma DayWithinYear(d: Date)
    requires Valid(d)
    ensures DaysBeforeMonth(d.month, d.year) + d.day <= YearLength(d.year)
  {
  }

  lemma {:induction false} DaysBeforeYearMonotone(y: nat, z: nat)
    requires 1 <= y <= z
    ensures DaysBeforeYear(y) + (if y < z then YearLength(y) else 0) <= DaysBeforeYear(z)
    decreases z - y
  {
    if y < z {
      DaysBeforeYearMonotone(y + 1, z);
    }
  }

  /** The lexicographic order on valid dates is the order of their day numbers: it is a
      strict total order, and `Before(a, b)` holds exactly when b comes later in time. */
  lemma BeforeIsDayOrder(a: Date, b: Date)
    requires Valid(a) && Valid(b)
    ensures Before(a, b) <==> DayNumber(a) < DayNumber(b)
    ensures a == b <==> DayNumber(a) == DayNumber(b)
  {
    DayWithinYear(a);
    DayWithinYear(b);
    if a.year < b.year {
      DaysBeforeYearMonotone(a.year, b.year);
    } else if b.year < a.year {
      DaysBeforeYearMonotone(b.year, a.year);
    }
  }

  /** The day after `d`; `None` after `DateTime.MaxValue`'s date, where `AddDays` throws. */
  function NextDay(d: Date): (r: Option<Date>)
    requires Valid(d)
    ensures r.Some? ==> Valid(r.value) && Before(d, r.value)
    ensures r.None? <==> d == MaxDate
  {
    if d.day < DaysInMonth(d.month, d.year) then Some(Date(d.day + 1, d.month, d.year))
    else if d.month < 12 then Some(Date(1, d.month + 1, d.year))
    else if d.year < 9999 then Some(Date(1, 1, d.year + 1))
    else None
  }

  lemma NextDayNumber(d: Date)
    requires Valid(d) && NextDay(d).Some?
    ensures DayNumber(NextDay(d).value) == DayNumber(d) + 1
  {
    var e := NextDay(d).value;
    if d.day == DaysInMonth(d.month, d.year) && d.month == 12 {
      assert DaysBeforeYear(e.year) == DaysBeforeYear(d.year) + YearLength(d.year);
    }
  }

  /** `DateTime.AddDays(n)`: `None` when the result would pass `DateTime.MaxValue`. */
  function AddDays(d: Date, n: nat): (r: Option<Date>)
    requires Valid(d)
    ensures r.Some? ==> Valid(r.value)
    decreases n
  {
    if n == 0 then Some(d)
    else match NextDay(d)
      case None => None
      case Some(e) => AddDays(e, n - 1)
  }

  /** A successful `AddDays(n)` lands exactly `n` days later. */
  lemma {:induction false} AddDaysNumber(d: Date, n: nat)
    requires Valid(d) && AddDays(d, n).Some?
    ensures DayNumber(AddDays(d, n).value) == DayNumber(d) + n
    ensures n > 0 ==> Before(d, AddDays(d, n).value)
    decreases n
  {
    if n > 0 {
      var e := NextDay(d).value;
      NextDayNumber(d);
      AddDaysNumber(e, n - 1);
      BeforeIsDayOrder(d, AddDays(d, n).value);
    }
  }

  function DigitValue(c: char): nat
    requires IsDigit(c)
  {
    c as int - '0' as int
  }

  function DigitChar(n: nat): (c: char)
    requires n < 10
    ensures IsDigit(c) && DigitValue(c) == n
  {
    ('0' as int + n) as char
  }

  /** The shape `\d{2}<sep>\d{2}<sep>\d{4}` of a whole string. */
  predicate HasDateShape(s: string, sep: char) {
    |s| == 10 && IsDigit(s[0]) && IsDigit(s[1]) && s[2] == sep && IsDigit(s[3]) && IsDigit(s[4])
    && s[5] == sep && IsDigit(s[6]) && IsDigit(s[7]) && IsDigit(s[8]) && IsDigit(s[9])
  }

  /** Parse `dd<sep>MM<sep>yyyy`; `None` when the shape is wrong or the date does not exist. */
  function ParseDate(s: string, sep: char): (r: Option<Date>)
    ensures r.Some? ==> Valid(r.value) && HasDateShape(s, sep)
  {
    if !HasDateShape(s, sep) then None
    else
      var d := Date(10 * DigitValue(s[0]) + DigitValue(s[1]),
                    10 * DigitValue(s[3]) + DigitValue(s[4]),
                    1000 * DigitValue(s[6]) + 100 * DigitValue(s[7]) + 10 * DigitValue(s[8]) + DigitValue(s[9]));
      if Valid(d) then Some(d) else None
  }

  /** Format as `dd<sep>MM<sep>yyyy`, with leading zeros. */
  function FormatDate(d: Date, sep: char): (s: string)
    requires Valid(d)
    ensures HasDateShape(s, sep)
  {
    [DigitChar(d.day / 10), DigitChar(d.day % 10), sep,
     DigitChar(d.month / 10), DigitChar(d.month % 10), sep,
     DigitChar(d.year / 1000), DigitChar(d.year / 100 % 10), DigitChar(d.year / 10 % 10), DigitChar(d.year % 10)]
  }

  lemma TwoDigits(n: nat)
    requires n < 100
    ensures n / 10 < 10 && 10 * (n / 10) + n % 10 == n
  {
  }

  lemma FourDigits(n: nat)
    requires n < 10000
    ensures n / 1000 < 10 && 1000 * (n / 1000) + 100 * (n / 100 % 10) + 10 * (n / 10 % 10) + n % 10 == n
  {
    var q := n / 10;
    assert n == 10 * q + n % 10;
    assert q / 10 == n / 100 && q % 10 == n / 10 % 10;
    assert q == 10 * (n / 100) + n / 10 % 10;
    var h := n / 100;
    assert h / 10 == n / 1000 && h % 10 == n / 100 % 10;
    assert h == 10 * (n / 1000) + n / 100 % 10;
  }

  lemma FromTwoDigits(a: nat, b: nat)
    requires a < 10 && b < 10
    ensures (10 * a + b) / 10 == a && (10 * a + b) % 10 == b
  {
  }

  lemma FromFourDigits(a: nat, b: nat, c: nat, e: nat)
    requires a < 10 && b < 10 && c < 10 && e < 10
    ensures var n := 1000 * a + 100 * b + 10 * c + e;
      n / 1000 == a && n / 100 % 10 == b && n / 10 % 10 == c && n % 10 == e
  {
    var n := 1000 * a + 100 * b + 10 * c + e;
    assert n / 10 == 100 * a + 10 * b + c;
    assert n / 100 == 10 * a + b;
  }

  /** Parsing a formatted date gives the date back. */
  lemma ParseFormat(d: Date, sep: char)
    requires Valid(d)
    ensures ParseDate(FormatDate(d, sep), sep) == Some(d)
  {
    var s := FormatDate(d, sep);
    TwoDigits(d.day);
    TwoDigits(d.month);
    FourDigits(d.year);
    assert DigitValue(s[0]) == d.day / 10 && DigitValue(s[1]) == d.day % 10;
    assert DigitValue(s[3]) == d.month / 10 && DigitValue(s[4]) == d.month % 10;
    assert DigitValue(s[6]) == d.year / 1000 && DigitValue(s[7]) == d.year / 100 % 10;
    assert DigitValue(s[8]) == d.year / 10 % 10 && DigitValue(s[9]) == d.year % 10;
  }

  /** A string that parses is the formatting of its date: the format is canonical. */
  lemma FormatParse(s: string, sep: char)
    requires ParseDate(s, sep).Some?
    ensures FormatDate(ParseDate(s, sep).value, sep) == s
  {
    var d := ParseDate(s, sep).value;
    FromTwoDigits(DigitValue(s[0]), DigitValue(s[1]));
    FromTwoDigits(DigitValue(s[3]), DigitValue(s[4]));
    FromFourDigits(DigitValue(s[6]), DigitValue(s[7]), DigitValue(s[8]), DigitValue(s[9]));
    var t := FormatDate(d, sep);
    forall k | 0 <= k < 10
      ensures t[k] == s[k]
    {
    }
  }
}
