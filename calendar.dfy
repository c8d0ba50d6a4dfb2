/**
 * Calendar dates as Python's datetime.date sees them: proleptic Gregorian,
 * years 1 to 9999, compared through the day number date.toordinal().
 * Timestamps are a date plus a second of that day.
 */
module Calendar {
  import opened Wrappers
  import opened Text

  datatype Date = Date(year: int, month: int, day: int)

  /** A timestamp with one-second resolution (pandas keeps nanoseconds; see README). */
  datatype Instant = Instant(date: Date, second: int)

  const MinYear: int := 1
  const MaxYear: int := 9999
  const SecondsPerDay: int := 86400

  predicate IsLeap(y: int) {
    y % 4 == 0 && (y % 100 != 0 || y % 400 == 0)
  }

  function DaysInYear(y: int): int {
    if IsLeap(y) then 366 else 365
  }

  function DaysInMonth(y: int, m: int): int {
    if m == 2 then (if IsLeap(y) then 29 else 28)
    else if m == 4 || m == 6 || m == 9 || m == 11 then 30
    else 31
  }

  predicate Valid(d: Date) {
    MinYear <= d.year <= MaxYear && 1 <= d.month <= 12 && 1 <= d.day <= DaysInMonth(d.year, d.month)
  }

  predicate ValidInstant(t: Instant) {
    Valid(t.date) && 0 <= t.second < SecondsPerDay
  }

  /** Days of year y that come before the first of month m. */
  function DaysBeforeMonth(y: int, m: int): int {
    var leap := if IsLeap(y) then 1 else 0;
    if m <= 1 then 0
    else if m == 2 then 31
    else if m == 3 then 59 + leap
    else if m == 4 then 90 + leap
    else if m == 5 then 120 + leap
    else if m == 6 then 151 + leap
    else if m == 7 then 181 + leap
    else if m == 8 then 212 + leap
    else if m == 9 then 243 + leap
    else if m == 10 then 273 + leap
    else if m == 11 then 304 + leap
    else if m == 12 then 334 + leap
    else 365 + leap
  }

  /** Days in the years before year y. */
  function DaysBeforeYear(y: int): (n: int)
    ensures n >= 0
    decreases y
  {
    if y <= 1 then 0 else DaysBeforeYear(y - 1) + DaysInYear(y - 1)
  }

  /** date.toordinal(): 1 for 0001-01-01, one more for each following day. */
  function Ordinal(d: Date): int {
    DaysBeforeYear(d.year) + DaysBeforeMonth(d.year, d.month) + d.day
  }

  /** Seconds since 0001-01-01T00:00:00 shifted by one day; orders timestamps. */
  function Rank(t: Instant): int {
    Ordinal(t.date) * SecondsPerDay + t.second
  }

  /** The timestamp at midnight of a date (pd.Timestamp(date)). */
  function Midnight(d: Date): Instant {
    Instant(d, 0)
  }

  /** d + timedelta(days=1). */
  function NextDay(d: Date): Date {
    if d.day < DaysInMonth(d.year, d.month) then Date(d.year, d.month, d.day + 1)
    else if d.month < 12 then Date(d.year, d.month + 1, 1)
    else Date(d.year + 1, 1, 1)
  }

  /** d.replace(day=1). */
  function MonthStart(d: Date): (r: Date)
    ensures Valid(d) ==> Valid(r) && Ordinal(r) <= Ordinal(d)
    ensures r.year == d.year && r.month == d.month && r.day == 1
  {
    Date(d.year, d.month, 1)
  }

  const MaxDate: Date := Date(MaxYear, 12, 31)

  lemma DaysBeforeMonthStep(y: int, m: int)
    requires 1 <= m <= 12
    ensures DaysBeforeMonth(y, m + 1) == DaysBeforeMonth(y, m) + DaysInMonth(y, m)
  {
  }

  /** The day after a valid date is numbered one higher. */
  lemma NextDayOrdinal(d: Date)
    requires Valid(d)
    ensures Ordinal(NextDay(d)) == Ordinal(d) + 1
  {
    if d.day == DaysInMonth(d.year, d.month) {
      DaysBeforeMonthStep(d.year, d.month);
    }
  }

  /** The day after a valid date other than date.max is valid. */
  lemma NextDayValid(d: Date)
    requires Valid(d) && d != MaxDate
    ensures Valid(NextDay(d))
  {
  }

  lemma {:induction false} DaysBeforeYearMonotone(a: int, b: int)
    requires a <= b
    ensures DaysBeforeYear(a) <= DaysBeforeYear(b)
    decreases b - a
  {
    if a < b {
      DaysBeforeYearMonotone(a, b - 1);
    }
  }

  /** Every valid date is numbered at most like date.max. */
  lemma OrdinalAtMostMax(e: Date)
    requires Valid(e)
    ensures Ordinal(e) <= Ordinal(MaxDate)
  {
    DaysBeforeMonthStep(e.year, e.month);
    DaysBeforeYearMonotone(e.year + 1, MaxYear + 1);
    assert DaysBeforeMonth(e.year, 13) == DaysInYear(e.year);
  }

  /** A valid date numbered below another valid date has a valid successor. */
  lemma BeforeValidHasNext(d: Date, e: Date)
    requires Valid(d) && Valid(e) && Ordinal(d) < Ordinal(e)
    ensures Valid(NextDay(d)) && Ordinal(NextDay(d)) == Ordinal(d) + 1
  {
    OrdinalAtMostMax(e);
    NextDayOrdinal(d);
    if d != MaxDate {
      NextDayValid(d);
    }
  }

  lemma {:induction false} DaysBeforeYearStrict(a: int, b: int)
    requires 1 <= a < b
    ensures DaysBeforeYear(a) + DaysInYear(a) <= DaysBeforeYear(b)
    decreases b - a
  {
    if a + 1 < b {
      DaysBeforeYearStrict(a + 1, b);
    }
  }

  /** Ordinal numbers a valid date uniquely. */
  lemma OrdinalInjective(d: Date, e: Date)
    requires Valid(d) && Valid(e) && Ordinal(d) == Ordinal(e)
    ensures d == e
  {
    DaysBeforeMonthStep(d.year, d.month);
    DaysBeforeMonthStep(e.year, e.month);
    assert DaysBeforeMonth(d.year, 13) == DaysInYear(d.year);
    assert DaysBeforeMonth(e.year, 13) == DaysInYear(e.year);
    if d.year < e.year {
      DaysBeforeYearStrict(d.year, e.year);
      assert false;
    } else if e.year < d.year {
      DaysBeforeYearStrict(e.year, d.year);
      assert false;
    }
  }

  // ---- ISO rendering: strftime("%Y-%m-%d") and its parser ----

  function Pad2(n: int): string
    requires 0 <= n <= 99
  {
    [Digit(n / 10), Digit(n % 10)]
  }

  function Pad4(n: int): string
    requires 0 <= n <= 9999
  {
    [Digit(n / 1000), Digit(n / 100 % 10), Digit(n / 10 % 10), Digit(n % 10)]
  }

  /** date.strftime("%Y-%m-%d"), also str(date). */
  function Format(d: Date): (s: string)
    requires Valid(d)
    ensures |s| == 10 && s[4] == '-' && s[7] == '-'
  {
    Pad4(d.year) + "-" + Pad2(d.month) + "-" + Pad2(d.day)
  }

  function DigitsValue(s: string): int
    requires AllDigits(s)
  {
    if |s| == 0 then 0 else 10 * DigitsValue(s[..|s| - 1]) + DigitValue(s[|s| - 1])
  }

  /** datetime.strptime(s, "%Y-%m-%d").date() on fixed-width input; None where it raises ValueError. */
  function ParseIso(s: string): (r: Option<Date>)
    ensures r.Some? ==> Valid(r.value)
  {
    if |s| == 10 && s[4] == '-' && s[7] == '-'
       && AllDigits(s[..4]) && AllDigits(s[5..7]) && AllDigits(s[8..])
    then
      var d := Date(DigitsValue(s[..4]), DigitsValue(s[5..7]), DigitsValue(s[8..]));
      if Valid(d) then Some(d) else None
    else None
  }

  lemma Pad2Value(n: int)
    requires 0 <= n <= 99
    ensures AllDigits(Pad2(n)) && DigitsValue(Pad2(n)) == n
  {
    var s := Pad2(n);
    assert s[..1] == [Digit(n / 10)];
    assert s[..1][..0] == [];
    assert DigitsValue(s[..1]) == n / 10;
  }

  lemma TenSplit(m: int)
    requires m >= 0
    ensures m == 10 * (m / 10) + m % 10
  {
  }

  lemma DivTens(n: int)
    requires n >= 0
    ensures n / 10 / 10 == n / 100 && n / 100 / 10 == n / 1000
  {
  }

  lemma Pad4Value(n: int)
    requires 0 <= n <= 9999
    ensures AllDigits(Pad4(n)) && DigitsValue(Pad4(n)) == n
  {
    var s := Pad4(n);
    DivTens(n);
    assert s[..1][..0] == [];
    assert DigitsValue(s[..1]) == n / 1000;
    assert DigitsValue(s[..2]) == n / 100 by {
      assert s[..2][..1] == s[..1];
      TenSplit(n / 100);
    }
    assert DigitsValue(s[..3]) == n / 10 by {
      assert s[..3][..2] == s[..2];
      TenSplit(n / 10);
    }
    assert s[..4] == s;
    TenSplit(n);
  }

  /** Parsing a rendered date gives the date back. */
  lemma FormatRoundTrip(d: Date)
    requires Valid(d)
    ensures ParseIso(Format(d)) == Some(d)
  {
    var s := Format(d);
    Pad4Value(d.year);
    Pad2Value(d.month);
    Pad2Value(d.day);
    assert s[..4] == Pad4(d.year);
    assert s[5..7] == Pad2(d.month);
    assert s[8..] == Pad2(d.day);
  }

  /** Distinct dates render differently. */
  lemma FormatInjective(d: Date, e: Date)
    requires Valid(d) && Valid(e) && Format(d) == Format(e)
    ensures d == e
  {
    FormatRoundTrip(d);
    FormatRoundTrip(e);
  }
}
