/** The proleptic Gregorian calendar as Python's `datetime` keeps it, and `_add_months`. */
module Calendar {

  const MIN_YEAR := 1
  const MAX_YEAR := 9999

  /** Whole days in microseconds. */
  function Micros(days: int): int { days * 86_400_000_000 }

  datatype Date = Date(year: int, month: int, day: int)

  /** A zone-aware date and time: time of day and UTC offset in microseconds. */
  datatype DateTime = DateTime(date: Date, tod: int, offset: int)

  predicate IsLeap(y: int) {
    y % 4 == 0 && (y % 100 != 0 || y % 400 == 0)
  }

  function DaysInMonth(y: int, m: int): (n: int)
    requires 1 <= m <= 12
    ensures 28 <= n <= 31
  {
    if m == 2 then (if IsLeap(y) then 29 else 28)
    else if m in {4, 6, 9, 11} then 30
    else 31
  }

  /** Valid in some year, not necessarily one that `datetime` can represent. */
  predicate IsDate(d: Date) {
    1 <= d.year && 1 <= d.month <= 12 && 1 <= d.day <= DaysInMonth(d.year, d.month)
  }

  predicate Representable(d: Date) {
    IsDate(d) && MIN_YEAR <= d.year <= MAX_YEAR
  }

  predicate Valid(dt: DateTime) {
    Representable(dt.date) && 0 <= dt.tod < Micros(1) && -Micros(1) < dt.offset < Micros(1)
  }

  // ----- day numbers --------------------------------------------------------------------------

  function YearDays(y: int): int { if IsLeap(y) then 366 else 365 }

  /** Days in the years before `y`. */
  function DaysBeforeYear(y: nat): (n: int)
    ensures n >= 0
  {
    if y <= 1 then 0 else DaysBeforeYear(y - 1) + YearDays(y - 1)
  }

  function DaysBeforeMonth(y: int, m: int): int
    requires 1 <= m <= 13
    decreases m, y
  {
    if m == 1 then 0 else DaysBeforeMonth(y, m - 1) + DaysInMonth(y, m - 1)
  }

  /** Day number of a date; 0001-01-01 is day 0. */
  function DayNumber(d: Date): int
    requires IsDate(d)
  {
    DaysBeforeYear(d.year) + DaysBeforeMonth(d.year, d.month) + d.day - 1
  }

  /** The odometer: the following date. */
  function NextDate(d: Date): (r: Date)
    requires IsDate(d)
    ensures IsDate(r)
  {
    if d.day < DaysInMonth(d.year, d.month) then d.(day := d.day + 1)
    else if d.month < 12 then Date(d.year, d.month + 1, 1)
    else Date(d.year + 1, 1, 1)
  }

  /** The date of a day number: the odometer advanced `n` times from 0001-01-01. */
  function DateOfDay(n: nat): (d: Date)
    ensures IsDate(d)
  {
    if n == 0 then Date(1, 1, 1) else NextDate(DateOfDay(n - 1))
  }

  /** The year lengths add up to the closed form of Python's `_days_before_year`. */
  lemma {:induction false} DaysBeforeYearClosedForm(y: nat)
    requires y >= 1
    ensures DaysBeforeYear(y) == (y - 1) * 365 + (y - 1) / 4 - (y - 1) / 100 + (y - 1) / 400
  {
    if y > 1 {
      var p := y - 1;
      DaysBeforeYearClosedForm(p);
      assert p / 4 == (p - 1) / 4 + (if p % 4 == 0 then 1 else 0);
      assert p / 100 == (p - 1) / 100 + (if p % 100 == 0 then 1 else 0);
      assert p / 400 == (p - 1) / 400 + (if p % 400 == 0 then 1 else 0);
      MultiplesNest(p);
    }
  }

  lemma MultiplesNest(y: int)
    ensures y % 400 == 0 ==> y % 100 == 0
    ensures y % 100 == 0 ==> y % 4 == 0
  {
    if y % 100 == 0 { assert y == 4 * (25 * (y / 100)); }
    if y % 400 == 0 { assert y == 100 * (4 * (y / 400)); }
  }

  lemma {:induction false} TwelveMonths(y: int)
    ensures DaysBeforeMonth(y, 13) == YearDays(y)
  {
    var february := DaysInMonth(y, 2);
    assert DaysBeforeMonth(y, 2) == 31;
    assert DaysBeforeMonth(y, 4) == february + 62;
    assert DaysBeforeMonth(y, 6) == february + 123;
    assert DaysBeforeMonth(y, 8) == february + 184;
    assert DaysBeforeMonth(y, 10) == february + 245;
    assert DaysBeforeMonth(y, 12) == february + 306;
  }

  /** The month lengths add up to a closed form that knows no month by name. */
  lemma {:induction false} DaysBeforeMonthClosedForm(y: int, m: int)
    requires 1 <= m <= 13
    ensures DaysBeforeMonth(y, m) == (367 * m - 362) / 12 - (if m <= 2 then 0 else if IsLeap(y) then 1 else 2)
    decreases m
  {
    if m > 1 {
      DaysBeforeMonthClosedForm(y, m - 1);
      MonthInClosedForm(y, m - 1);
    }
  }

  lemma MonthInClosedForm(y: int, m: int)
    requires 1 <= m <= 12
    ensures DaysInMonth(y, m)
            == (367 * (m + 1) - 362) / 12 - (367 * m - 362) / 12 - (if m == 2 then (if IsLeap(y) then 1 else 2) else 0)
  {
    if m <= 6 {
      assert m == 1 || m == 2 || m == 3 || m == 4 || m == 5 || m == 6;
    } else {
      assert m == 7 || m == 8 || m == 9 || m == 10 || m == 11 || m == 12;
    }
  }

  /** So the day number of every date is Python's ordinal, less one. */
  lemma DayNumberClosedForm(d: Date)
    requires IsDate(d)
    ensures var y := d.year - 1;
            DayNumber(d) == 365 * y + y / 4 - y / 100 + y / 400
                            + (367 * d.month - 362) / 12 - (if d.month <= 2 then 0 else if IsLeap(d.year) then 1 else 2)
                            + d.day - 1
  {
    DaysBeforeYearClosedForm(d.year);
    DaysBeforeMonthClosedForm(d.year, d.month);
  }

  /** The closed form counts exactly what the odometer turns. */
  lemma NextDayNumber(d: Date)
    requires IsDate(d)
    ensures DayNumber(NextDate(d)) == DayNumber(d) + 1
  {
    if d.day == DaysInMonth(d.year, d.month) && d.month == 12 {
      TwelveMonths(d.year);
    }
  }

  lemma {:induction false} DayNumberOfDate(n: nat)
    ensures DayNumber(DateOfDay(n)) == n
  {
    if n > 0 {
      DayNumberOfDate(n - 1);
      NextDayNumber(DateOfDay(n - 1));
    }
  }

  lemma {:induction false} MonthsGrow(y: int, m: int, m': int)
    requires 1 <= m <= m' <= 13
    ensures DaysBeforeMonth(y, m) + 28 * (m' - m) <= DaysBeforeMonth(y, m')
    decreases m'
  {
    if m < m' { MonthsGrow(y, m, m' - 1); }
  }

  lemma {:induction false} YearsGrow(y: nat, y': nat)
    requires 1 <= y <= y'
    ensures DaysBeforeYear(y) + 365 * (y' - y) <= DaysBeforeYear(y')
    decreases y' - y
  {
    if y < y' {
      YearsGrow(y, y' - 1);
    }
  }

  /** Day of the year, and its bound. */
  lemma WithinYear(d: Date)
    requires IsDate(d)
    ensures DaysBeforeYear(d.year) <= DayNumber(d) < DaysBeforeYear(d.year + 1)
  {
    MonthsGrow(d.year, 1, d.month);
    MonthsGrow(d.year, d.month + 1, 13);
    TwelveMonths(d.year);
  }

  predicate Earlier(a: Date, b: Date) {
    a.year < b.year || (a.year == b.year && (a.month < b.month || (a.month == b.month && a.day < b.day)))
  }

  /** Day numbers order dates exactly as calendars do. */
  lemma DayNumberOrders(a: Date, b: Date)
    requires IsDate(a) && IsDate(b)
    ensures Earlier(a, b) <==> DayNumber(a) < DayNumber(b)
    ensures DayNumber(a) == DayNumber(b) ==> a == b
  {
    EarlierIsLess(a, b);
    EarlierIsLess(b, a);
    assert Earlier(a, b) || Earlier(b, a) || a == b;
  }

  lemma EarlierIsLess(a: Date, b: Date)
    requires IsDate(a) && IsDate(b)
    ensures Earlier(a, b) ==> DayNumber(a) < DayNumber(b)
  {
    if a.year < b.year {
      EarlierYear(a, b);
    } else if a.year == b.year && a.month < b.month {
      MonthsGrow(a.year, a.month + 1, b.month);
    }
  }

  lemma EarlierYear(a: Date, b: Date)
    requires IsDate(a) && IsDate(b) && a.year < b.year
    ensures DayNumber(a) < DayNumber(b)
  {
    WithinYear(a);
    WithinYear(b);
    YearsGrow(a.year + 1, b.year);
  }

  /** Dates and day numbers are in one-to-one correspondence. */
  lemma DateRoundTrip(d: Date)
    requires IsDate(d)
    ensures DayNumber(d) >= 0
    ensures DateOfDay(DayNumber(d)) == d
  {
    WithinYear(d);
    YearsGrow(1, d.year);
    DayNumberOfDate(DayNumber(d));
    DayNumberOrders(DateOfDay(DayNumber(d)), d);
  }

  // ----- instants and datetime arithmetic -----------------------------------------------------

  /** Microseconds since 0001-01-01T00:00Z.  Aware datetimes compare by this. */
  function Instant(dt: DateTime): int
    requires IsDate(dt.date)
  {
    Micros(DayNumber(dt.date)) + dt.tod - dt.offset
  }

  datatype Outcome<+T> = Ok(value: T) | OutOfRange

  /** `dt.replace(year=, month=, day=1, hour=0, minute=0, second=0, microsecond=0)`. */
  function FirstOfMonth(dt: DateTime, year: int, month: int): (r: Outcome<DateTime>)
    requires 1 <= month <= 12
    ensures r.Ok? <==> MIN_YEAR <= year <= MAX_YEAR
  {
    if MIN_YEAR <= year <= MAX_YEAR then Ok(dt.(date := Date(year, month, 1), tod := 0)) else OutOfRange
  }

  /** `dt + timedelta(days=n)`: wall-clock arithmetic that keeps the zone. */
  function AddDays(dt: DateTime, n: int): (r: Outcome<DateTime>)
    requires Valid(dt)
    ensures r.Ok? ==> Valid(r.value) && Instant(r.value) == Instant(dt) + Micros(n)
  {
    var day := DayNumber(dt.date) + n;
    if 0 <= day && DateOfDay(day).year <= MAX_YEAR then
      DayNumberOfDate(day);
      Ok(dt.(date := DateOfDay(day)))
    else OutOfRange
  }

  /** `_add_months`: Python's floor division and modulus agree with Dafny's for divisor 12. */
  function AddMonths(dt: DateTime, months: int): (r: Outcome<DateTime>) {
    var month := dt.date.month - 1 + months;
    var year := dt.date.year + month / 12;
    if MIN_YEAR <= year <= MAX_YEAR then Ok(dt.(date := Date(year, month % 12 + 1, 1))) else OutOfRange
  }

  /** Months since 0001-01. */
  function MonthIndex(d: Date): int { 12 * (d.year - 1) + d.month - 1 }

  /** `_add_months` is addition on month indices, and composes additively; the day becomes the first,
      and time of day and zone stay. */
  lemma AddMonthsAdds(dt: DateTime, a: int, b: int)
    requires Valid(dt)
    ensures AddMonths(dt, a).Ok? <==> 0 <= MonthIndex(dt.date) + a < 12 * MAX_YEAR
    ensures AddMonths(dt, a).Ok? ==> MonthIndex(AddMonths(dt, a).value.date) == MonthIndex(dt.date) + a
    ensures AddMonths(dt, a).Ok? ==> AddMonths(dt, a).value == dt.(date := AddMonths(dt, a).value.date)
                                     && AddMonths(dt, a).value.date.day == 1
    ensures AddMonths(dt, a).Ok? ==> AddMonths(AddMonths(dt, a).value, b) == AddMonths(dt, a + b)
  {
  }

  /** Converting to UTC; near the ends of the range the result may not be representable. */
  function ToUtc(dt: DateTime): (r: Outcome<DateTime>)
    requires Valid(dt)
    ensures r.Ok? ==> Valid(r.value) && r.value.offset == 0 && Instant(r.value) == Instant(dt)
  {
    var day := Instant(dt) / 86_400_000_000;
    if 0 <= day && DateOfDay(day).year <= MAX_YEAR then
      DayNumberOfDate(day);
      Ok(DateTime(DateOfDay(day), Instant(dt) % 86_400_000_000, 0))
    else OutOfRange
  }

  lemma UtcIsUnchanged(dt: DateTime)
    requires Valid(dt) && dt.offset == 0
    ensures ToUtc(dt) == Ok(dt)
  {
    DateRoundTrip(dt.date);
    assert Instant(dt) / 86_400_000_000 == DayNumber(dt.date);
  }
}
