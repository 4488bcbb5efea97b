/**
 * The parts of `java.time` the market calculator and the chart use:
 * proleptic Gregorian dates, `plusDays(1)`, ISO 8601 day-of-week,
 * `LocalDate.parse` of a `YYYY-MM-DD` string and the `HH:mm:ss` pattern.
 * Day numbers count days from 1970-01-01 (day 0, a Thursday).
 */
module Calendar {
  import opened Wrappers
  import opened JavaLang

  datatype Date = Date(year: int, month: int, day: int)

  datatype DateTime = DateTime(date: Date, hour: int, minute: int, second: int, nano: int)

  predicate IsLeapYear(y: int)
  {
    y % 4 == 0 && (y % 100 != 0 || y % 400 == 0)
  }

  function MonthLength(y: int, m: int): (n: int)
    requires 1 <= m <= 12
    ensures 28 <= n <= 31
  {
    if m == 2 then (if IsLeapYear(y) then 29 else 28)
    else if m == 4 || m == 6 || m == 9 || m == 11 then 30
    else 31
  }

  predicate ValidDate(d: Date)
  {
    1 <= d.month <= 12 && 1 <= d.day <= MonthLength(d.year, d.month)
  }

  predicate ValidDateTime(t: DateTime)
  {
    ValidDate(t.date) && 0 <= t.hour < 24 && 0 <= t.minute < 60 && 0 <= t.second < 60
    && 0 <= t.nano < 1_000_000_000
  }

  /** A `java.time.LocalDate`: a calendar date that exists. */
  type LocalDate = d: Date | ValidDate(d) witness Date(1970, 1, 1)

  /** A `java.time.LocalDateTime`. */
  type LocalDateTime = t: DateTime | ValidDateTime(t) witness DateTime(Date(1970, 1, 1), 0, 0, 0, 0)

  /** `date.plusDays(1)`. */
  function NextDay(d: LocalDate): LocalDate
  {
    if d.day < MonthLength(d.year, d.month) then Date(d.year, d.month, d.day + 1)
    else if d.month < 12 then Date(d.year, d.month + 1, 1)
    else Date(d.year + 1, 1, 1)
  }

  /** `date.plusDays(n)` for n >= 0, one day at a time. */
  function PlusDays(d: LocalDate, n: nat): LocalDate
    decreases n
  {
    if n == 0 then d else PlusDays(NextDay(d), n - 1)
  }

  // ---------------------------------------------------------------------
  // Day numbers
  // ---------------------------------------------------------------------

  /** Leap years in [0, y) (negative when y < 0: minus those in [y, 0)). */
  function LeapYearsBefore(y: int): int
  {
    (y + 3) / 4 - (y + 99) / 100 + (y + 399) / 400
  }

  function DaysBeforeYear(y: int): int
  {
    365 * y + LeapYearsBefore(y)
  }

  function DaysBeforeMonth(y: int, m: int): int
    requires 1 <= m <= 12
  {
    (if m == 1 then 0 else if m == 2 then 31 else if m == 3 then 59
     else if m == 4 then 90 else if m == 5 then 120 else if m == 6 then 151
     else if m == 7 then 181 else if m == 8 then 212 else if m == 9 then 243
     else if m == 10 then 273 else if m == 11 then 304 else 334)
    + (if m > 2 && IsLeapYear(y) then 1 else 0)
  }

  /** The epoch day of a date: 1970-01-01 is day 0. */
  function DayNumber(d: LocalDate): int
  {
    DaysBeforeYear(d.year) + DaysBeforeMonth(d.year, d.month) + d.day - 1 - DaysBeforeYear(1970)
  }

  /** ISO 8601 day of week: Monday is 1, Sunday is 7. */
  function DayOfWeek(d: LocalDate): (w: int)
    ensures 1 <= w <= 7
  {
    (DayNumber(d) + 3) % 7 + 1
  }

  lemma LeapYearsStep(y: int)
    ensures LeapYearsBefore(y + 1) == LeapYearsBefore(y) + (if IsLeapYear(y) then 1 else 0)
  {
    MultipleStep4(y);
    MultipleStep100(y);
    MultipleStep400(y);
    DivisibilityChain(y);
    var a, b, c := (y + 4) / 4 - (y + 3) / 4, (y + 100) / 100 - (y + 99) / 100, (y + 400) / 400 - (y + 399) / 400;
    assert LeapYearsBefore(y + 1) - LeapYearsBefore(y) == a - b + c;
  }

  lemma DivisibilityChain(y: int)
    ensures y % 400 == 0 ==> y % 100 == 0
    ensures y % 100 == 0 ==> y % 4 == 0
  {
    if y % 400 == 0 {
      var k := y / 400;
      assert y == 400 * k;
      MultipleOf100(4 * k);
    }
    if y % 100 == 0 {
      var k := y / 100;
      assert y == 100 * k;
      MultipleOf4(25 * k);
    }
  }

  lemma MultipleOf100(k: int)
    ensures (100 * k) % 100 == 0
  {
  }

  lemma MultipleOf4(k: int)
    ensures (4 * k) % 4 == 0
  {
  }

  lemma MultipleStep4(y: int)
    ensures (y + 4) / 4 - (y + 3) / 4 == if y % 4 == 0 then 1 else 0
  {
  }

  lemma MultipleStep100(y: int)
    ensures (y + 100) / 100 - (y + 99) / 100 == if y % 100 == 0 then 1 else 0
  {
  }

  lemma MultipleStep400(y: int)
    ensures (y + 400) / 400 - (y + 399) / 400 == if y % 400 == 0 then 1 else 0
  {
  }

  /** Moving to the next day moves the day number up by exactly one. */
  lemma DayNumberNextDay(d: LocalDate)
    ensures DayNumber(NextDay(d)) == DayNumber(d) + 1
  {
    if d.day == MonthLength(d.year, d.month) && d.month == 12 {
      LeapYearsStep(d.year);
    }
  }

  lemma DayOfWeekNextDay(d: LocalDate)
    ensures DayOfWeek(NextDay(d)) == DayOfWeek(d) % 7 + 1
  {
    DayNumberNextDay(d);
    WeekdayStep(DayNumber(d));
  }

  lemma WeekdayStep(n: int)
    ensures (n + 1 + 3) % 7 + 1 == ((n + 3) % 7 + 1) % 7 + 1
  {
  }

  // ---------------------------------------------------------------------
  // ISO 8601 calendar dates as text
  // ---------------------------------------------------------------------

  /** `LocalDate.parse(s)` (ISO_LOCAL_DATE, strict) on a 10-character string. */
  function ParseIsoDate(s: string): (r: Option<LocalDate>)
    requires |s| == 10
  {
    if IsDigit(s[0]) && IsDigit(s[1]) && IsDigit(s[2]) && IsDigit(s[3]) && s[4] == '-'
       && IsDigit(s[5]) && IsDigit(s[6]) && s[7] == '-' && IsDigit(s[8]) && IsDigit(s[9])
    then
      var y := 1000 * DigitValue(s[0]) + 100 * DigitValue(s[1]) + 10 * DigitValue(s[2]) + DigitValue(s[3]);
      var m := 10 * DigitValue(s[5]) + DigitValue(s[6]);
      var d := 10 * DigitValue(s[8]) + DigitValue(s[9]);
      if 1 <= m <= 12 && 1 <= d <= MonthLength(y, m) then Some(Date(y, m, d)) else None
    else None
  }

  function TwoDigits(n: int): (s: string)
    requires 0 <= n < 100
    ensures |s| == 2 && IsDigit(s[0]) && IsDigit(s[1])
    ensures 10 * DigitValue(s[0]) + DigitValue(s[1]) == n
  {
    [DigitChar(n / 10), DigitChar(n % 10)]
  }

  /** `date.toString()` for years 0000..9999: `YYYY-MM-DD`. */
  function IsoDate(d: LocalDate): (s: string)
    requires 0 <= d.year <= 9999
    ensures |s| == 10
  {
    TwoDigits(d.year / 100) + TwoDigits(d.year % 100) + "-" + TwoDigits(d.month) + "-" + TwoDigits(d.day)
  }

  /** Parsing the ISO text of a date gives the date back. */
  lemma ParseIsoDateOfIsoDate(d: LocalDate)
    requires 0 <= d.year <= 9999
    ensures ParseIsoDate(IsoDate(d)) == Some(d)
  {
    var s := IsoDate(d);
    var hi, lo := TwoDigits(d.year / 100), TwoDigits(d.year % 100);
    assert s[0] == hi[0] && s[1] == hi[1] && s[2] == lo[0] && s[3] == lo[1];
    assert 1000 * DigitValue(s[0]) + 100 * DigitValue(s[1]) + 10 * DigitValue(s[2]) + DigitValue(s[3])
        == 100 * (d.year / 100) + d.year % 100 == d.year;
  }

  /** Every date `LocalDate.parse` accepts is printed back as the same text. */
  lemma ParseIsoDateSound(s: string)
    requires |s| == 10
    requires ParseIsoDate(s).Some?
    ensures var d := ParseIsoDate(s).value; 0 <= d.year <= 9999 && IsoDate(d) == s
  {
    var d := ParseIsoDate(s).value;
    var a, b := 10 * DigitValue(s[0]) + DigitValue(s[1]), 10 * DigitValue(s[2]) + DigitValue(s[3]);
    assert d.year == 100 * a + b;
    assert d.year / 100 == a && d.year % 100 == b;
    DigitsOfTwoDigits(s[0], s[1]);
    DigitsOfTwoDigits(s[2], s[3]);
    DigitsOfTwoDigits(s[5], s[6]);
    DigitsOfTwoDigits(s[8], s[9]);
    IsoShape(s);
  }

  lemma IsoShape(s: string)
    requires |s| == 10 && s[4] == '-' && s[7] == '-'
    ensures s == [s[0], s[1]] + [s[2], s[3]] + "-" + [s[5], s[6]] + "-" + [s[8], s[9]]
  {
  }

  lemma DigitsOfTwoDigits(c: char, e: char)
    requires IsDigit(c) && IsDigit(e)
    ensures TwoDigits(10 * DigitValue(c) + DigitValue(e)) == [c, e]
  {
    var n := 10 * DigitValue(c) + DigitValue(e);
    assert n / 10 == DigitValue(c) && n % 10 == DigitValue(e);
  }

  /** `time.format(DateTimeFormatter.ofPattern("HH:mm:ss"))`. */
  function Hms(t: LocalDateTime): (s: string)
    ensures |s| == 8 && s[2] == ':' && s[5] == ':'
    ensures IsDigit(s[0]) && IsDigit(s[1]) && IsDigit(s[3]) && IsDigit(s[4]) && IsDigit(s[6]) && IsDigit(s[7])
    ensures 10 * DigitValue(s[0]) + DigitValue(s[1]) == t.hour
    ensures 10 * DigitValue(s[3]) + DigitValue(s[4]) == t.minute
    ensures 10 * DigitValue(s[6]) + DigitValue(s[7]) == t.second
  {
    TwoDigits(t.hour) + ":" + TwoDigits(t.minute) + ":" + TwoDigits(t.second)
  }

  /** 1970-01-01 is day 0 and a Thursday. */
  lemma EpochIsThursday()
    ensures DayNumber(Date(1970, 1, 1)) == 0 && DayOfWeek(Date(1970, 1, 1)) == 4
  {
  }
}
