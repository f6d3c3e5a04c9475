/** The two reporting-window calculators: `period_window` (app/carbon/reports.py) and
    `window_for` (app/carbon/periods.py). */
module PeriodWindows {
  import opened Calendar

  datatype Kind = Daily | Monthly | Yearly

  datatype Window = Window(kind: Kind, start: DateTime, end: DateTime)

  function Midnight(dt: DateTime): DateTime { dt.(tod := 0) }

  /** `period_window` for a zone-aware reference.  It works on the reference's own wall clock. */
  function PeriodWindow(kind: Kind, ref: DateTime, completedOnly: bool): Outcome<Window>
    requires Valid(ref)
  {
    match kind
    case Daily =>
      var today := Midnight(ref);
      (match (if completedOnly then Ok(today) else AddDays(today, 1))
       case OutOfRange => OutOfRange
       case Ok(end) =>
         match AddDays(end, -1)
         case OutOfRange => OutOfRange
         case Ok(start) => Ok(Window(Daily, start, end)))
    case Monthly =>
      (match FirstOfMonth(ref, ref.date.year, ref.date.month)
       case OutOfRange => OutOfRange
       case Ok(first) =>
         match (if completedOnly then Ok(first) else AddMonths(first, 1))
         case OutOfRange => OutOfRange
         case Ok(end) =>
           match AddMonths(end, -1)
           case OutOfRange => OutOfRange
           case Ok(start) => Ok(Window(Monthly, start, end)))
    case Yearly =>
      (match FirstOfMonth(ref, if completedOnly then ref.date.year else ref.date.year + 1, 1)
       case OutOfRange => OutOfRange
       case Ok(end) =>
         match FirstOfMonth(ref, end.date.year - 1, 1)
         case OutOfRange => OutOfRange
         case Ok(start) => Ok(Window(Yearly, start, end)))
  }

  /** `window_for`: converts to UTC first; the previous period, or the current one to date. */
  function WindowFor(kind: Kind, asOf: DateTime, usePrevious: bool): Outcome<Window>
    requires Valid(asOf)
  {
    match ToUtc(asOf)
    case OutOfRange => OutOfRange
    case Ok(now) =>
      if usePrevious then
        match kind
        case Daily =>
          var end := DateTime(now.date, 0, 0);
          (match AddDays(end, -1)
           case OutOfRange => OutOfRange
           case Ok(start) => Ok(Window(Daily, start, end)))
        case Monthly =>
          var end := DateTime(Date(now.date.year, now.date.month, 1), 0, 0);
          (match (if now.date.month == 1 then FirstOfMonth(end, now.date.year - 1, 12)
                  else FirstOfMonth(end, now.date.year, now.date.month - 1))
           case OutOfRange => OutOfRange
           case Ok(start) => Ok(Window(Monthly, start, end)))
        case Yearly =>
          var end := DateTime(Date(now.date.year, 1, 1), 0, 0);
          (match FirstOfMonth(end, now.date.year - 1, 1)
           case OutOfRange => OutOfRange
           case Ok(start) => Ok(Window(Yearly, start, end)))
      else
        match kind
        case Daily => Ok(Window(Daily, DateTime(now.date, 0, 0), now))
        case Monthly => Ok(Window(Monthly, DateTime(Date(now.date.year, now.date.month, 1), 0, 0), now))
        case Yearly => Ok(Window(Yearly, DateTime(Date(now.date.year, 1, 1), 0, 0), now))
  }

  // ----- the tiling both are measured against -------------------------------------------------

  /** Which period of its kind a date falls in, counted from year 1. */
  function Index(kind: Kind, d: Date): int
    requires IsDate(d)
  {
    match kind
    case Daily => DayNumber(d)
    case Monthly => MonthIndex(d)
    case Yearly => d.year - 1
  }

  /** Days in period `k`: a day, a calendar month or a calendar year. */
  function PeriodDays(kind: Kind, k: nat): (n: int)
    ensures n > 0
  {
    match kind
    case Daily => 1
    case Monthly => DaysInMonth(k / 12 + 1, k % 12 + 1)
    case Yearly => YearDays(k + 1)
  }

  /** The day on which period `k` starts: the lengths of the periods before it added up. */
  function TileStart(kind: Kind, k: nat): (n: int)
    ensures n >= 0
  {
    if k == 0 then 0 else TileStart(kind, k - 1) + PeriodDays(kind, k - 1)
  }

  /** In the first period `datetime` can represent. */
  predicate InFirst(kind: Kind, d: Date) {
    d.year == MIN_YEAR && (kind == Yearly || (d.month == 1 && (kind == Monthly || d.day == 1)))
  }

  /** In the last one: its end, 10000-01-01, is not representable. */
  predicate InLast(kind: Kind, d: Date) {
    d.year == MAX_YEAR && (kind == Yearly || (d.month == 12 && (kind == Monthly || d.day == 31)))
  }

  lemma {:induction false} DayTile(k: nat)
    ensures TileStart(Daily, k) == k
  {
    if k > 0 { DayTile(k - 1); }
  }

  /** Month `m` of year `y` starts where the calendar says. */
  lemma {:induction false} MonthStart(y: int, m: int)
    requires 1 <= y && 1 <= m <= 12
    ensures TileStart(Monthly, 12 * (y - 1) + m - 1) == DayNumber(Date(y, m, 1))
  {
    var tile := (k: nat) => TileStart(Monthly, k);
    var first := (y: int, m: int) => if 1 <= y && 1 <= m <= 12 then DayNumber(Date(y, m, 1)) else 0;
    assert tile(0) == first(1, 1);
    forall y: int, m: int, k: nat | 1 <= y && 1 <= m <= 12 && k == 12 * (y - 1) + m - 1
      ensures InStep(tile, first, y, m, k)
    {
      MonthInStep(tile, first, y, m, k);
    }
    StartTogether(tile, first, y, m);
  }

  lemma MonthInStep(tile: nat -> int, first: (int, int) -> int, y: int, m: int, k: nat)
    requires 1 <= y && 1 <= m <= 12 && k == 12 * (y - 1) + m - 1
    requires tile(k) == TileStart(Monthly, k) && tile(k + 1) == TileStart(Monthly, k + 1)
    requires first(y, m) == DayNumber(Date(y, m, 1))
    requires m < 12 ==> first(y, m + 1) == DayNumber(Date(y, m + 1, 1))
    requires m == 12 ==> first(y + 1, 1) == DayNumber(Date(y + 1, 1, 1))
    ensures InStep(tile, first, y, m, k)
  {
    MonthLength(y, m, k);
    FirstAfter(y, m);
  }

  /** From month `k` to the next, both count the same days. */
  ghost predicate InStep(tile: nat -> int, first: (int, int) -> int, y: int, m: int, k: nat) {
    tile(k + 1) - tile(k) == (if m < 12 then first(y, m + 1) else first(y + 1, 1)) - first(y, m)
  }

  lemma {:induction false} StartTogether(tile: nat -> int, first: (int, int) -> int, y: int, m: int)
    requires tile(0) == first(1, 1)
    requires forall y, m, k: nat :: 1 <= y && 1 <= m <= 12 && k == 12 * (y - 1) + m - 1 ==> InStep(tile, first, y, m, k)
    requires 1 <= y && 1 <= m <= 12
    ensures tile(12 * (y - 1) + m - 1) == first(y, m)
    decreases y, m
  {
    if m > 1 {
      StartTogether(tile, first, y, m - 1);
      assert InStep(tile, first, y, m - 1, 12 * (y - 1) + m - 2);
    } else if y > 1 {
      StartTogether(tile, first, y - 1, 12);
      assert InStep(tile, first, y - 1, 12, 12 * (y - 1) - 1);
    }
  }

  lemma FirstAfter(y: int, m: int)
    requires 1 <= y && 1 <= m <= 12
    ensures DayNumber(if m < 12 then Date(y, m + 1, 1) else Date(y + 1, 1, 1)) == DayNumber(Date(y, m, 1))
            + DaysInMonth(y, m)
  {
    if m == 12 { TwelveMonths(y); }
  }

  /** The tile after a month's starts as many days later as the month has. */
  lemma MonthLength(y: int, m: int, k: nat)
    requires 1 <= y && 1 <= m <= 12 && k == 12 * (y - 1) + m - 1
    ensures TileStart(Monthly, k + 1) == TileStart(Monthly, k) + DaysInMonth(y, m)
  {
    MonthDays(y, m);
    TileStep(Monthly, k);
  }

  lemma TileStep(kind: Kind, k: nat)
    ensures TileStart(kind, k + 1) == TileStart(kind, k) + PeriodDays(kind, k)
  {
  }

  lemma MonthDays(y: int, m: int)
    requires 1 <= y && 1 <= m <= 12
    ensures PeriodDays(Monthly, 12 * (y - 1) + m - 1) == DaysInMonth(y, m)
  {
    var k := 12 * (y - 1) + m - 1;
    assert k / 12 == y - 1 && k % 12 == m - 1;
  }

  lemma {:induction false} YearStart(y: int)
    requires 1 <= y
    ensures TileStart(Yearly, y - 1) == DaysBeforeYear(y) == DayNumber(Date(y, 1, 1))
  {
    if y > 1 { YearStart(y - 1); }
  }

  lemma {:induction false} TilesOrdered(kind: Kind, j: nat, k: nat)
    requires j < k
    ensures TileStart(kind, j) < TileStart(kind, k)
    decreases k
  {
    if j < k - 1 { TilesOrdered(kind, j, k - 1); }
  }

  /** The period of a date is the one tile that contains its day: the tiles of a kind cover
      every day exactly once. */
  lemma TilesPartition(kind: Kind, d: Date, k: nat)
    requires IsDate(d)
    ensures Index(kind, d) >= 0
    ensures TileStart(kind, k) <= DayNumber(d) < TileStart(kind, k + 1) <==> k == Index(kind, d)
  {
    InItsTile(kind, d);
    OnlyTile(kind, DayNumber(d), Index(kind, d), k);
  }

  lemma OnlyTile(kind: Kind, day: int, i: nat, k: nat)
    requires TileStart(kind, i) <= day < TileStart(kind, i + 1)
    ensures TileStart(kind, k) <= day < TileStart(kind, k + 1) <==> k == i
  {
    if k < i { TilesApart(kind, k, i); }
    if i < k { TilesApart(kind, i, k); }
  }

  lemma TilesApart(kind: Kind, j: nat, k: nat)
    requires j < k
    ensures TileStart(kind, j) < TileStart(kind, j + 1) <= TileStart(kind, k) < TileStart(kind, k + 1)
  {
    TilesOrdered(kind, j, j + 1);
    TilesOrdered(kind, k, k + 1);
    if j + 1 < k { TilesOrdered(kind, j + 1, k); }
  }

  lemma {:induction false} InItsTile(kind: Kind, d: Date)
    requires IsDate(d)
    ensures Index(kind, d) >= 0
    ensures TileStart(kind, Index(kind, d)) <= DayNumber(d) < TileStart(kind, Index(kind, d) + 1)
  {
    match kind
    case Daily =>
      DateRoundTrip(d);
      DayTile(DayNumber(d));
    case Monthly =>
      MonthStart(d.year, d.month);
      MonthDays(d.year, d.month);
    case Yearly =>
      YearStart(d.year);
      WithinYear(d);
  }

  /** Twelve months tile each year: a year starts and ends on a month boundary. */
  lemma TilesNest(year: nat)
    ensures TileStart(Yearly, year) == TileStart(Monthly, 12 * year)
    ensures TileStart(Yearly, year + 1) == TileStart(Monthly, 12 * year + 12)
  {
    YearStart(year + 1);
    YearStart(year + 2);
    MonthStart(year + 1, 1);
    MonthStart(year + 2, 1);
  }

  /** Days tile every period: each starts and ends on a day boundary. */
  lemma DaysTileAll(kind: Kind, k: nat)
    ensures TileStart(kind, k) == TileStart(Daily, TileStart(kind, k))
    ensures TileStart(kind, k + 1) - TileStart(kind, k) == PeriodDays(kind, k)
  {
    DayTile(TileStart(kind, k));
  }

  // ----- the calculators against the tiling ---------------------------------------------------

  /** `w` is period `k` of its kind on the wall clock `offset` ahead of UTC. */
  ghost predicate IsTile(w: Window, kind: Kind, k: int, offset: int) {
    && w.kind == kind && Valid(w.start) && Valid(w.end) && k >= 0
    && w.start.offset == w.end.offset == offset
    && Instant(w.start) == Micros(TileStart(kind, k)) - offset
    && Instant(w.end) == Micros(TileStart(kind, k + 1)) - offset
  }

  /** The period asked for: the reference's own, or the one before it. */
  function Wanted(kind: Kind, ref: DateTime, completedOnly: bool): int
    requires IsDate(ref.date)
  {
    Index(kind, ref.date) - (if completedOnly then 1 else 0)
  }

  /** `period_window` returns exactly the wanted tile, and fails exactly when `datetime` has
      no such tile: none before the first period, none ending after the last. */
  lemma PeriodWindowIsTile(kind: Kind, ref: DateTime, completedOnly: bool)
    requires Valid(ref)
    ensures PeriodWindow(kind, ref, completedOnly).Ok?
            <==> if completedOnly then !InFirst(kind, ref.date) else !InLast(kind, ref.date)
    ensures PeriodWindow(kind, ref, completedOnly).Ok? ==>
            IsTile(PeriodWindow(kind, ref, completedOnly).value, kind, Wanted(kind, ref, completedOnly), ref.offset)
  {
    match kind
    case Daily => DailyIsTile(ref, completedOnly);
    case Monthly => MonthlyIsTile(ref, completedOnly);
    case Yearly => YearlyIsTile(ref, completedOnly);
  }

  /** One day more or less fails only at the two ends of the range. */
  lemma DayAfter(dt: DateTime)
    requires Valid(dt)
    ensures AddDays(dt, 1).Ok? <==> !InLast(Daily, dt.date)
    ensures AddDays(dt, 1).Ok? ==> AddDays(dt, 1).value == dt.(date := NextDate(dt.date))
  {
    DateRoundTrip(dt.date);
    assert DateOfDay(DayNumber(dt.date) + 1) == NextDate(dt.date);
  }

  lemma DayBefore(dt: DateTime)
    requires Valid(dt)
    ensures AddDays(dt, -1).Ok? <==> !InFirst(Daily, dt.date)
  {
    DateRoundTrip(dt.date);
    var n := DayNumber(dt.date);
    if n > 0 {
      NextIsNotFirst(DateOfDay(n - 1));
      assert DateOfDay(n) == NextDate(DateOfDay(n - 1));
    }
  }

  lemma NextIsNotFirst(d: Date)
    requires IsDate(d)
    ensures !InFirst(Daily, NextDate(d)) && d.year <= NextDate(d).year
  {
  }

  lemma DailyIsTile(ref: DateTime, completedOnly: bool)
    requires Valid(ref)
    ensures PeriodWindow(Daily, ref, completedOnly).Ok?
            <==> if completedOnly then !InFirst(Daily, ref.date) else !InLast(Daily, ref.date)
    ensures PeriodWindow(Daily, ref, completedOnly).Ok? ==>
            IsTile(PeriodWindow(Daily, ref, completedOnly).value, Daily, Wanted(Daily, ref, completedOnly), ref.offset)
  {
    var today := Midnight(ref);
    if completedOnly {
      DayBefore(today);
    } else {
      DayAfter(today);
      if AddDays(today, 1).Ok? {
        NextIsNotFirst(today.date);
        DayBefore(AddDays(today, 1).value);
      }
    }
    var r := PeriodWindow(Daily, ref, completedOnly);
    if r.Ok? {
      var k := Wanted(Daily, ref, completedOnly);
      WholeDays(r.value.start, k);
      DayTile(k);
      DayTile(k + 1);
    }
  }

  lemma WholeDays(start: DateTime, k: int)
    requires Valid(start) && start.tod == 0 && Instant(start) == Micros(k) - start.offset
    ensures k >= 0
  {
    DateRoundTrip(start.date);
  }

  lemma MonthlyIsTile(ref: DateTime, completedOnly: bool)
    requires Valid(ref)
    ensures PeriodWindow(Monthly, ref, completedOnly).Ok?
            <==> if completedOnly then !InFirst(Monthly, ref.date) else !InLast(Monthly, ref.date)
    ensures PeriodWindow(Monthly, ref, completedOnly).Ok? ==>
            IsTile(PeriodWindow(Monthly, ref, completedOnly).value, Monthly, Wanted(Monthly, ref, completedOnly),
                   ref.offset)
  {
    var first := FirstOfMonth(ref, ref.date.year, ref.date.month).value;
    if completedOnly { MonthBefore(first); } else { MonthAround(first); }
  }

  /** A month on and a month back: the month that starts at `first`. */
  lemma MonthAround(first: DateTime)
    requires FirstMidnight(first)
    ensures AddMonths(first, 1).Ok? <==> !InLast(Monthly, first.date)
    ensures AddMonths(first, 1).Ok? ==>
            var end := AddMonths(first, 1).value;
            AddMonths(end, -1).Ok? && IsTile(Window(Monthly, AddMonths(end, -1).value, end), Monthly,
                                             MonthIndex(first.date), first.offset)
  {
    MonthAfter(first);
    if AddMonths(first, 1).Ok? { MonthBefore(AddMonths(first, 1).value); }
  }

  predicate FirstMidnight(dt: DateTime) {
    Valid(dt) && dt.date.day == 1 && dt.tod == 0
  }

  lemma MonthBefore(end: DateTime)
    requires FirstMidnight(end)
    ensures AddMonths(end, -1).Ok? <==> !InFirst(Monthly, end.date)
    ensures AddMonths(end, -1).Ok? ==>
            IsTile(Window(Monthly, AddMonths(end, -1).value, end), Monthly, MonthIndex(end.date) - 1, end.offset)
  {
    FirstBefore(end);
    if AddMonths(end, -1).Ok? { MonthSpan(AddMonths(end, -1).value, end); }
  }

  lemma FirstBefore(end: DateTime)
    requires FirstMidnight(end)
    ensures AddMonths(end, -1).Ok? <==> !InFirst(Monthly, end.date)
    ensures AddMonths(end, -1).Ok? ==>
            var start := AddMonths(end, -1).value;
            FirstMidnight(start) && start.offset == end.offset && MonthIndex(end.date) == MonthIndex(start.date) + 1
  {
  }

  /** Two midnights on the boundaries of a tile. */
  lemma SpanIsTile(kind: Kind, k: nat, start: DateTime, end: DateTime)
    requires Valid(start) && Valid(end) && start.tod == end.tod == 0 && start.offset == end.offset
    requires DayNumber(start.date) == TileStart(kind, k) && DayNumber(end.date) == TileStart(kind, k + 1)
    ensures IsTile(Window(kind, start, end), kind, k, start.offset)
  {
  }

  lemma FirstOpensTile(d: Date)
    requires IsDate(d) && d.day == 1
    ensures DayNumber(d) == TileStart(Monthly, MonthIndex(d))
  {
    MonthStart(d.year, d.month);
  }

  lemma MonthSpan(start: DateTime, end: DateTime)
    requires FirstMidnight(start) && FirstMidnight(end) && start.offset == end.offset
    requires MonthIndex(end.date) == MonthIndex(start.date) + 1
    ensures IsTile(Window(Monthly, start, end), Monthly, MonthIndex(start.date), start.offset)
  {
    FirstOpensTile(start.date);
    FirstOpensTile(end.date);
    SpanIsTile(Monthly, MonthIndex(start.date), start, end);
  }

  lemma MonthAfter(start: DateTime)
    requires FirstMidnight(start)
    ensures AddMonths(start, 1).Ok? <==> !InLast(Monthly, start.date)
    ensures AddMonths(start, 1).Ok? ==> FirstMidnight(AddMonths(start, 1).value)
    ensures AddMonths(start, 1).Ok? ==> MonthIndex(AddMonths(start, 1).value.date) == MonthIndex(start.date) + 1
    ensures AddMonths(start, 1).Ok? ==> !InFirst(Monthly, AddMonths(start, 1).value.date)
  {
  }

  lemma YearlyIsTile(ref: DateTime, completedOnly: bool)
    requires Valid(ref)
    ensures PeriodWindow(Yearly, ref, completedOnly).Ok?
            <==> if completedOnly then !InFirst(Yearly, ref.date) else !InLast(Yearly, ref.date)
    ensures PeriodWindow(Yearly, ref, completedOnly).Ok? ==>
            IsTile(PeriodWindow(Yearly, ref, completedOnly).value, Yearly, Wanted(Yearly, ref, completedOnly),
                   ref.offset)
  {
    var r := PeriodWindow(Yearly, ref, completedOnly);
    if r.Ok? { YearSpan(r.value.start, r.value.end); }
  }

  /** The current window contains the reference. */
  lemma CurrentContains(kind: Kind, ref: DateTime)
    requires Valid(ref) && !InLast(kind, ref.date)
    ensures PeriodWindow(kind, ref, false).Ok?
    ensures var w := PeriodWindow(kind, ref, false).value;
            IsDate(w.start.date) && IsDate(w.end.date) && Instant(w.start) <= Instant(ref) < Instant(w.end)
  {
    PeriodWindowIsTile(kind, ref, false);
    InItsTile(kind, ref.date);
    WithinDays(ref, TileStart(kind, Index(kind, ref.date)), TileStart(kind, Index(kind, ref.date) + 1));
  }

  lemma WithinDays(dt: DateTime, a: int, b: int)
    requires Valid(dt) && a <= DayNumber(dt.date) < b
    ensures Micros(a) - dt.offset <= Instant(dt) < Micros(b) - dt.offset
  {
  }

  /** The completed window ends where the current one starts, so it is wholly in the past. */
  lemma CompletedEndsAtCurrent(kind: Kind, ref: DateTime)
    requires Valid(ref) && !InFirst(kind, ref.date) && !InLast(kind, ref.date)
    ensures PeriodWindow(kind, ref, true).Ok? && PeriodWindow(kind, ref, false).Ok?
    ensures var v, w := PeriodWindow(kind, ref, true).value, PeriodWindow(kind, ref, false).value;
            IsDate(v.end.date) && IsDate(w.start.date) && Instant(v.end) == Instant(w.start)
  {
    PeriodWindowIsTile(kind, ref, true);
    PeriodWindowIsTile(kind, ref, false);
  }

  ghost predicate SameSpan(v: Window, w: Window)
    requires IsDate(v.start.date) && IsDate(v.end.date) && IsDate(w.start.date) && IsDate(w.end.date)
  {
    Instant(v.start) == Instant(w.start) && Instant(v.end) == Instant(w.end)
  }

  ghost predicate Disjoint(v: Window, w: Window)
    requires IsDate(v.start.date) && IsDate(v.end.date) && IsDate(w.start.date) && IsDate(w.end.date)
  {
    Instant(v.end) <= Instant(w.start) || Instant(w.end) <= Instant(v.start)
  }

  /** Two tiles of one kind on one wall clock: equal when they start together, else disjoint. */
  lemma TilesDoNotOverlap(v: Window, j: int, w: Window, k: int, kind: Kind, offset: int)
    requires IsTile(v, kind, j, offset) && IsTile(w, kind, k, offset)
    ensures j == k <==> Instant(v.start) == Instant(w.start)
    ensures if j == k then SameSpan(v, w) else Disjoint(v, w)
  {
    if j < k {
      TilesApart(kind, j, k);
      DaysScale(TileStart(kind, j), TileStart(kind, j + 1), TileStart(kind, k));
    } else if k < j {
      TilesApart(kind, k, j);
      DaysScale(TileStart(kind, k), TileStart(kind, k + 1), TileStart(kind, j));
    }
  }

  /** An offset of less than a day never makes up the distance between two midnights. */
  lemma NoWholeDays(a: int, b: int, offset: int)
    requires -Micros(1) < offset < Micros(1) && offset != 0
    ensures Micros(a) - offset != Micros(b)
    ensures Micros(a) != Micros(b) + offset
  {
  }

  lemma DaysScale(a: int, b: int, c: int)
    requires a < b <= c
    ensures Micros(a) < Micros(b) <= Micros(c)
  {
  }

  /** Windows of one kind asked for at any two times on one wall clock, completed or current,
      either coincide or do not overlap. */
  lemma WindowsDoNotOverlap(kind: Kind, a: DateTime, completedA: bool, b: DateTime, completedB: bool)
    requires Valid(a) && Valid(b) && a.offset == b.offset
    requires PeriodWindow(kind, a, completedA).Ok? && PeriodWindow(kind, b, completedB).Ok?
    ensures var v, w := PeriodWindow(kind, a, completedA).value, PeriodWindow(kind, b, completedB).value;
            && IsDate(v.start.date) && IsDate(v.end.date) && IsDate(w.start.date) && IsDate(w.end.date)
            && (SameSpan(v, w) || Disjoint(v, w))
            && (SameSpan(v, w) <==> Wanted(kind, a, completedA) == Wanted(kind, b, completedB))
  {
    PeriodWindowIsTile(kind, a, completedA);
    PeriodWindowIsTile(kind, b, completedB);
    TilesDoNotOverlap(PeriodWindow(kind, a, completedA).value, Wanted(kind, a, completedA),
                      PeriodWindow(kind, b, completedB).value, Wanted(kind, b, completedB), kind, a.offset);
  }

  // ----- references with different offsets ----------------------------------------------------

  /** The wall clocks whose windows of a kind fit together. */
  predicate OffsetsAgree(kind: Kind, a: int, b: int) {
    if kind == Daily then (a - b) % 86_400_000_000 == 0 else a == b
  }

  ghost predicate SameOrApart(v: Outcome<Window>, w: Outcome<Window>) {
    v.Ok? && w.Ok? ==>
      && Valid(v.value.start) && Valid(v.value.end) && Valid(w.value.start) && Valid(w.value.end)
      && (SameSpan(v.value, w.value) || Disjoint(v.value, w.value))
  }

  /** Windows of references with offsets `a` and `b` never partly overlap. */
  ghost predicate NeverPartly(kind: Kind, a: int, b: int) {
    forall r: DateTime, c: bool, r': DateTime, c': bool ::
      Valid(r) && Valid(r') && r.offset == a && r'.offset == b
      ==> SameOrApart(PeriodWindow(kind, r, c), PeriodWindow(kind, r', c'))
  }

  /** Daily windows of references with two offsets always coincide or are disjoint exactly when
      the offsets differ by whole days (+14:00 and -10:00 do), monthly and yearly windows exactly
      when the offsets are the same. */
  lemma NeverPartlyIff(kind: Kind, a: int, b: int)
    requires -Micros(1) < a < Micros(1) && -Micros(1) < b < Micros(1)
    ensures NeverPartly(kind, a, b) <==> OffsetsAgree(kind, a, b)
  {
    if OffsetsAgree(kind, a, b) {
      forall r: DateTime, c: bool, r': DateTime, c': bool | Valid(r) && Valid(r') && r.offset == a && r'.offset == b
        ensures SameOrApart(PeriodWindow(kind, r, c), PeriodWindow(kind, r', c'))
      {
        AgreeingWindows(kind, r, c, r', c');
      }
    } else {
      var r, r' := OverlapAcrossOffsets(kind, a, b);
      assert !SameOrApart(PeriodWindow(kind, r, false), PeriodWindow(kind, r', false));
    }
  }

  lemma AgreeingWindows(kind: Kind, r: DateTime, c: bool, r': DateTime, c': bool)
    requires Valid(r) && Valid(r') && OffsetsAgree(kind, r.offset, r'.offset)
    ensures SameOrApart(PeriodWindow(kind, r, c), PeriodWindow(kind, r', c'))
  {
    PeriodWindowIsTile(kind, r, c);
    PeriodWindowIsTile(kind, r', c');
    var v, w := PeriodWindow(kind, r, c), PeriodWindow(kind, r', c');
    if v.Ok? && w.Ok? {
      AgreeingTiles(v.value, Wanted(kind, r, c), w.value, Wanted(kind, r', c'), kind, r.offset, r'.offset);
    }
  }

  lemma AgreeingTiles(v: Window, j: int, w: Window, k: int, kind: Kind, a: int, b: int)
    requires IsTile(v, kind, j, a) && IsTile(w, kind, k, b) && OffsetsAgree(kind, a, b)
    ensures SameSpan(v, w) || Disjoint(v, w)
  {
    if kind == Daily {
      DayTile(j);
      DayTile(j + 1);
      DayTile(k);
      DayTile(k + 1);
      WholeDaysApart(j, k, a - b);
    } else {
      TilesDoNotOverlap(v, j, w, k, kind, a);
    }
  }

  lemma WholeDaysApart(j: int, k: int, offset: int)
    requires offset % 86_400_000_000 == 0
    ensures Micros(j) - offset == Micros(k) || Micros(j + 1) - offset <= Micros(k)
            || Micros(k + 1) <= Micros(j) - offset
    ensures Micros(j) - offset == Micros(k) ==> Micros(j + 1) - offset == Micros(k + 1)
  {
    var n := offset / 86_400_000_000;
    assert offset == Micros(n);
    assert k < j - n || k == j - n || k > j - n;
  }

  /** Any two offsets that do not agree have references whose current windows start apart and
      yet overlap. */
  lemma OverlapAcrossOffsets(kind: Kind, a: int, b: int) returns (r: DateTime, r': DateTime)
    requires -Micros(1) < a < Micros(1) && -Micros(1) < b < Micros(1) && !OffsetsAgree(kind, a, b)
    ensures Valid(r) && Valid(r') && r.offset == a && r'.offset == b
    ensures PartlyOverlap(PeriodWindow(kind, r, false), PeriodWindow(kind, r', false))
  {
    var date := MidDate();
    r, r' := DateTime(date, 0, a), DateTime(date, 0, b);
    if kind == Daily {
      if b - a > Micros(1) { r' := DateTime(NextDate(date), 0, b); }
      if a - b > Micros(1) { r := DateTime(NextDate(date), 0, a); }
      NextDayNumber(date);
      DaysOverlap(r, r');
    } else {
      SamePeriodOverlaps(kind, r, r');
    }
  }

  lemma MidDate() returns (d: Date)
    ensures IsDate(d) && 1 < d.year < 9999
    ensures NextDate(d).year < 9999
  {
    var year :| 2 <= year <= 9998;
    d := Date(year, 7, 1);
  }

  lemma DaysOverlap(r: DateTime, r': DateTime)
    requires Valid(r) && Valid(r') && r.date.year < 9999 && r'.date.year < 9999
             && !OffsetsAgree(Daily, r.offset, r'.offset)
    requires DayNumber(r.date) - DayNumber(r'.date)
             == if r'.offset - r.offset > Micros(1) then -1 else if r.offset - r'.offset > Micros(1) then 1 else 0
    ensures PartlyOverlap(PeriodWindow(Daily, r, false), PeriodWindow(Daily, r', false))
  {
    DailyIsTile(r, false);
    DailyIsTile(r', false);
    MisalignedTiles(PeriodWindow(Daily, r, false).value, DayNumber(r.date),
                    PeriodWindow(Daily, r', false).value, DayNumber(r'.date), Daily, r.offset, r'.offset);
  }

  lemma SamePeriodOverlaps(kind: Kind, r: DateTime, r': DateTime)
    requires Valid(r) && Valid(r') && r.date == r'.date && r.date.year < 9999 && kind != Daily && r.offset != r'.offset
    ensures PartlyOverlap(PeriodWindow(kind, r, false), PeriodWindow(kind, r', false))
  {
    PeriodWindowIsTile(kind, r, false);
    PeriodWindowIsTile(kind, r', false);
    MisalignedTiles(PeriodWindow(kind, r, false).value, Index(kind, r.date),
                    PeriodWindow(kind, r', false).value, Index(kind, r'.date), kind, r.offset, r'.offset);
  }

  ghost predicate PartlyOverlap(v: Outcome<Window>, w: Outcome<Window>) {
    && v.Ok? && w.Ok?
    && Valid(v.value.start) && Valid(v.value.end) && Valid(w.value.start) && Valid(w.value.end)
    && Instant(v.value.start) != Instant(w.value.start) && !Disjoint(v.value, w.value)
  }

  /** Tiles whose starts are less than their length apart. */
  lemma MisalignedTiles(v: Window, j: int, w: Window, k: int, kind: Kind, a: int, b: int)
    requires IsTile(v, kind, j, a) && IsTile(w, kind, k, b) && !OffsetsAgree(kind, a, b)
    requires -Micros(2) < a - b < Micros(2)
    requires kind != Daily ==> j == k
    requires kind == Daily ==> j - k == if b - a > Micros(1) then -1 else if a - b > Micros(1) then 1 else 0
    ensures Instant(v.start) != Instant(w.start) && !Disjoint(v, w)
  {
    if kind == Daily {
      DayTile(j);
      DayTile(j + 1);
      DayTile(k);
      DayTile(k + 1);
    } else {
      TileStep(kind, j);
    }
  }

  /** Offsets a whole number of days apart are the only ones whose windows can start together. */
  lemma OffsetsMisalign(kind: Kind, a: DateTime, completedA: bool, b: DateTime, completedB: bool)
    requires Valid(a) && Valid(b) && (a.offset - b.offset) % 86_400_000_000 != 0
    requires PeriodWindow(kind, a, completedA).Ok? && PeriodWindow(kind, b, completedB).Ok?
    ensures var v, w := PeriodWindow(kind, a, completedA).value, PeriodWindow(kind, b, completedB).value;
            IsDate(v.start.date) && IsDate(w.start.date) && Instant(v.start) != Instant(w.start)
  {
    PeriodWindowIsTile(kind, a, completedA);
    PeriodWindowIsTile(kind, b, completedB);
    NotWholeDays(TileStart(kind, Wanted(kind, a, completedA)), TileStart(kind, Wanted(kind, b, completedB)),
                 a.offset - b.offset);
  }

  lemma NotWholeDays(j: int, k: int, offset: int)
    requires offset % 86_400_000_000 != 0
    ensures Micros(j) - offset != Micros(k)
  {
  }

  /** `window_for` returns the previous tile of the UTC clock. */
  lemma WindowForIsTile(kind: Kind, asOf: DateTime)
    requires Valid(asOf) && WindowFor(kind, asOf, true).Ok?
    ensures IsTile(WindowFor(kind, asOf, true).value, kind, Index(kind, ToUtc(asOf).value.date) - 1, 0)
  {
    var w := WindowFor(kind, asOf, true).value;
    match kind
    case Daily => PreviousDay(asOf, w);
    case Monthly => PreviousMonth(asOf, w);
    case Yearly => YearSpan(w.start, w.end);
  }

  /** And, when the previous period is not asked for, the current one up to the reference. */
  lemma {:induction false} WindowToDate(kind: Kind, asOf: DateTime)
    requires Valid(asOf)
    ensures WindowFor(kind, asOf, false).Ok? <==> ToUtc(asOf).Ok?
    ensures WindowFor(kind, asOf, false).Ok? ==>
              var w, utc := WindowFor(kind, asOf, false).value, ToUtc(asOf).value;
              && w.kind == kind && Valid(w.start) && Valid(w.end) && w.start.offset == w.end.offset == 0
              && Index(kind, utc.date) >= 0
              && Instant(w.start) == Micros(TileStart(kind, Index(kind, utc.date)))
              && Instant(w.start) <= Instant(w.end) == Instant(asOf)
  {
    if ToUtc(asOf).Ok? {
      var utc := ToUtc(asOf).value;
      InItsTile(kind, utc.date);
      match kind
      case Daily => DayTile(DayNumber(utc.date));
      case Monthly => FirstOpensTile(Date(utc.date.year, utc.date.month, 1));
      case Yearly => YearStart(utc.date.year);
    }
  }

  lemma PreviousDay(asOf: DateTime, w: Window)
    requires Valid(asOf) && WindowFor(Daily, asOf, true) == Ok(w)
    ensures IsTile(w, Daily, DayNumber(ToUtc(asOf).value.date) - 1, 0)
  {
    DaySpan(w.start, w.end);
  }

  lemma PreviousMonth(asOf: DateTime, w: Window)
    requires Valid(asOf) && WindowFor(Monthly, asOf, true) == Ok(w)
    ensures IsTile(w, Monthly, MonthIndex(ToUtc(asOf).value.date) - 1, 0)
  {
    MonthSpan(w.start, w.end);
  }

  lemma DaySpan(start: DateTime, end: DateTime)
    requires Valid(start) && Valid(end) && start.tod == end.tod == 0 && start.offset == end.offset
    requires Instant(end) == Instant(start) + Micros(1)
    ensures IsTile(Window(Daily, start, end), Daily, DayNumber(end.date) - 1, start.offset)
  {
    var k := DayNumber(start.date);
    DateRoundTrip(start.date);
    NextDay(k, DayNumber(end.date));
    DayTile(k);
    DayTile(k + 1);
    SpanIsTile(Daily, k, start, end);
  }

  lemma NextDay(a: int, b: int)
    requires Micros(b) == Micros(a) + Micros(1)
    ensures b == a + 1
  {
  }

  lemma YearSpan(start: DateTime, end: DateTime)
    requires FirstMidnight(start) && FirstMidnight(end) && start.offset == end.offset
    requires start.date.month == end.date.month == 1 && end.date.year == start.date.year + 1
    ensures IsTile(Window(Yearly, start, end), Yearly, start.date.year - 1, start.offset)
  {
    YearStart(start.date.year);
    YearStart(end.date.year);
    SpanIsTile(Yearly, start.date.year - 1, start, end);
  }

  /** The two calculators give the same completed windows exactly for references in UTC: only
      `window_for` converts, `period_window` keeps the reference's own midnight. */
  lemma CalculatorsAgreeIffUtc(kind: Kind, ref: DateTime, v: Window, w: Window)
    requires Valid(ref) && PeriodWindow(kind, ref, true) == Ok(v) && WindowFor(kind, ref, true) == Ok(w)
    ensures IsDate(v.start.date) && IsDate(v.end.date) && IsDate(w.start.date) && IsDate(w.end.date)
    ensures SameSpan(v, w) <==> ref.offset == 0
  {
    PeriodWindowIsTile(kind, ref, true);
    var k := PreviousUtcTile(kind, ref, w);
    SameSpanIffUtc(v, Wanted(kind, ref, true), w, k, kind, ref.offset);
  }

  lemma PreviousUtcTile(kind: Kind, asOf: DateTime, w: Window) returns (k: int)
    requires Valid(asOf) && WindowFor(kind, asOf, true) == Ok(w)
    ensures IsTile(w, kind, k, 0) && (asOf.offset == 0 ==> k == Wanted(kind, asOf, true))
  {
    k := Index(kind, ToUtc(asOf).value.date) - 1;
    WindowForIsTile(kind, asOf);
    if asOf.offset == 0 { UtcIsUnchanged(asOf); }
  }

  lemma SameSpanIffUtc(v: Window, j: int, w: Window, k: int, kind: Kind, offset: int)
    requires IsTile(v, kind, j, offset) && IsTile(w, kind, k, 0) && (offset == 0 ==> j == k)
    ensures SameSpan(v, w) <==> offset == 0
  {
    if offset != 0 { NoWholeDays(TileStart(kind, j), TileStart(kind, k), offset); }
  }

  /** In UTC they also fail for the same references: those in the very first period. */
  lemma CalculatorsFailTogether(kind: Kind, ref: DateTime)
    requires Valid(ref) && ref.offset == 0
    ensures PeriodWindow(kind, ref, true).Ok? <==> WindowFor(kind, ref, true).Ok?
  {
    UtcIsUnchanged(ref);
    PeriodWindowIsTile(kind, ref, true);
    DateRoundTrip(ref.date);
    match kind case Daily => case Monthly => case Yearly =>
  }
}
