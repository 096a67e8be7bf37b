/** The proleptic Gregorian calendar as Python's `datetime` computes it: ordinals, weekdays and
    wall-clock steps. Years are unbounded above; the source's year 9999 limit is not modelled. */
module Calendar {

  const MINUTES_PER_DAY := 1440
  const MICROS_PER_MINUTE := 60_000_000

  /** Days in 400 Gregorian years, a whole number of weeks. */
  const CYCLE_DAYS := 146_097

  datatype DateTime = DateTime(year: int, month: int, day: int, hour: int, minute: int, second: int, micro: int)

  predicate Leap(y: int) {
    y % 4 == 0 && (y % 100 != 0 || y % 400 == 0)
  }

  function DaysInMonth(y: int, m: int): int {
    if m == 2 then (if Leap(y) then 29 else 28)
    else if m == 4 || m == 6 || m == 9 || m == 11 then 30
    else 31
  }

  predicate ValidDate(y: int, m: int, d: int) {
    1 <= y && 1 <= m <= 12 && 1 <= d <= DaysInMonth(y, m)
  }

  predicate Valid(dt: DateTime) {
    && ValidDate(dt.year, dt.month, dt.day)
    && 0 <= dt.hour < 24 && 0 <= dt.minute < 60 && 0 <= dt.second < 60 && 0 <= dt.micro < 1_000_000
  }

  /** True for a wall-clock minute, the only kind of instant a cron expression can name. */
  predicate OnMinute(dt: DateTime) {
    Valid(dt) && dt.second == 0 && dt.micro == 0
  }

  function DaysBeforeYear(y: int): int {
    (y - 1) * 365 + (y - 1) / 4 - (y - 1) / 100 + (y - 1) / 400
  }

  function DaysBeforeMonth(y: int, m: int): int
    requires 1 <= m <= 13
    decreases m
  {
    if m == 1 then 0 else DaysBeforeMonth(y, m - 1) + DaysInMonth(y, m - 1)
  }

  /** Python's `toordinal`: 0001-01-01 is day 1. */
  function Ordinal(y: int, m: int, d: int): int
    requires 1 <= m <= 12
  {
    DaysBeforeYear(y) + DaysBeforeMonth(y, m) + d
  }

  function DayOf(dt: DateTime): int
    requires 1 <= dt.month <= 12
  {
    Ordinal(dt.year, dt.month, dt.day)
  }

  function MinuteStamp(dt: DateTime): int
    requires 1 <= dt.month <= 12
  {
    DayOf(dt) * MINUTES_PER_DAY + dt.hour * 60 + dt.minute
  }

  function MicroStamp(dt: DateTime): int
    requires 1 <= dt.month <= 12
  {
    MinuteStamp(dt) * MICROS_PER_MINUTE + dt.second * 1_000_000 + dt.micro
  }

  /** Python's `weekday()`: Monday is 0. */
  function Weekday(y: int, m: int, d: int): int
    requires 1 <= m <= 12
  {
    (Ordinal(y, m, d) + 6) % 7
  }

  // ---- wall-clock steps ----

  /** Midnight of the following day. */
  function NextDay(dt: DateTime): (r: DateTime)
    requires Valid(dt)
    ensures OnMinute(r)
    ensures DayOf(r) == DayOf(dt) + 1 && r.hour == 0 && r.minute == 0
  {
    MonthEnds(dt.year, dt.month);
    if dt.day < DaysInMonth(dt.year, dt.month) then
      DateTime(dt.year, dt.month, dt.day + 1, 0, 0, 0, 0)
    else if dt.month < 12 then
      DateTime(dt.year, dt.month + 1, 1, 0, 0, 0, 0)
    else
      DateTime(dt.year + 1, 1, 1, 0, 0, 0, 0)
  }

  /** The start of the following hour. */
  function NextHour(dt: DateTime): (r: DateTime)
    requires Valid(dt)
    ensures OnMinute(r)
    ensures MinuteStamp(r) == MinuteStamp(dt) - dt.minute + 60
  {
    if dt.hour < 23 then
      dt.(hour := dt.hour + 1, minute := 0, second := 0, micro := 0)
    else
      NextDay(dt)
  }

  /** The start of the following minute. */
  function NextMinute(dt: DateTime): (r: DateTime)
    requires Valid(dt)
    ensures OnMinute(r)
    ensures MinuteStamp(r) == MinuteStamp(dt) + 1
  {
    if dt.minute < 59 then
      dt.(minute := dt.minute + 1, second := 0, micro := 0)
    else
      NextHour(dt)
  }

  // ---- ordinals order and count days ----

  /** The day after the last of a month is the first of the next. */
  lemma MonthEnds(y: int, m: int)
    requires 1 <= m <= 12
    ensures m < 12 ==> Ordinal(y, m + 1, 1) == Ordinal(y, m, DaysInMonth(y, m)) + 1
    ensures m == 12 ==> Ordinal(y + 1, 1, 1) == Ordinal(y, m, DaysInMonth(y, m)) + 1
  {
    if m == 12 {
      YearStep(y);
      assert DaysBeforeMonth(y, 13) == DaysBeforeMonth(y, 12) + DaysInMonth(y, 12);
    } else {
      assert DaysBeforeMonth(y, m + 1) == DaysBeforeMonth(y, m) + DaysInMonth(y, m);
    }
  }

  lemma YearStep(y: int)
    ensures DaysBeforeYear(y + 1) == DaysBeforeYear(y) + DaysBeforeMonth(y, 13)
    ensures DaysBeforeMonth(y, 13) == if Leap(y) then 366 else 365
  {
    YearLength(y);
    DivisionStep(y, 4);
    DivisionStep(y, 100);
    DivisionStep(y, 400);
    LeapFactors(y);
  }

  lemma DivisionStep(y: int, c: int)
    requires c == 4 || c == 100 || c == 400
    ensures y / c == (y - 1) / c + (if y % c == 0 then 1 else 0)
  {
  }

  lemma LeapFactors(y: int)
    ensures y % 400 == 0 ==> y % 100 == 0
    ensures y % 100 == 0 ==> y % 4 == 0
  {
    assert y % 400 == 0 ==> y / 100 == 4 * (y / 400);
    assert y % 100 == 0 ==> y / 4 == 25 * (y / 100);
  }

  lemma YearLength(y: int)
    ensures DaysBeforeMonth(y, 13) == if Leap(y) then 366 else 365
  {
    assert DaysBeforeMonth(y, 3) == 31 + DaysInMonth(y, 2) by {
      assert DaysBeforeMonth(y, 2) == 31;
    }
    assert DaysBeforeMonth(y, 5) == DaysBeforeMonth(y, 3) + 61 by {
      assert DaysBeforeMonth(y, 4) == DaysBeforeMonth(y, 3) + 31;
    }
    assert DaysBeforeMonth(y, 7) == DaysBeforeMonth(y, 5) + 61 by {
      assert DaysBeforeMonth(y, 6) == DaysBeforeMonth(y, 5) + 31;
    }
    assert DaysBeforeMonth(y, 9) == DaysBeforeMonth(y, 7) + 62 by {
      assert DaysBeforeMonth(y, 8) == DaysBeforeMonth(y, 7) + 31;
    }
    assert DaysBeforeMonth(y, 11) == DaysBeforeMonth(y, 9) + 61 by {
      assert DaysBeforeMonth(y, 10) == DaysBeforeMonth(y, 9) + 30;
    }
    assert DaysBeforeMonth(y, 13) == DaysBeforeMonth(y, 11) + 61 by {
      assert DaysBeforeMonth(y, 12) == DaysBeforeMonth(y, 11) + 30;
    }
  }

  lemma {:induction false} YearsOrdered(y: int, y': int)
    requires y <= y'
    ensures DaysBeforeYear(y) <= DaysBeforeYear(y')
    decreases y' - y
  {
    if y < y' {
      YearStep(y' - 1);
      YearsOrdered(y, y' - 1);
    }
  }

  lemma {:induction false} MonthsOrdered(y: int, m: int, m': int)
    requires 1 <= m < m' <= 13
    ensures DaysBeforeMonth(y, m) + DaysInMonth(y, m) <= DaysBeforeMonth(y, m')
    decreases m' - m
  {
    if m + 1 < m' {
      MonthsOrdered(y, m, m' - 1);
    }
  }

  lemma {:induction false} MonthNotNegative(y: int, m: int)
    requires 1 <= m <= 13
    ensures DaysBeforeMonth(y, m) >= 0
    decreases m
  {
    if m > 1 {
      MonthNotNegative(y, m - 1);
    }
  }

  predicate MonthBefore(y: int, m: int, y': int, m': int) {
    y < y' || (y == y' && m < m')
  }

  /** A date in an earlier month has a smaller ordinal. */
  lemma EarlierMonthEarlierDay(y: int, m: int, d: int, y': int, m': int, d': int)
    requires ValidDate(y, m, d) && ValidDate(y', m', d')
    requires MonthBefore(y, m, y', m')
    ensures Ordinal(y, m, d) < Ordinal(y', m', d')
    ensures Ordinal(y, m, d) < Ordinal(y', m', 1)
  {
    if y == y' {
      MonthsOrdered(y, m, m');
    } else {
      YearEndsBefore(y, m, d, y');
      MonthNotNegative(y', m');
    }
  }

  /** Every date of a year lies before the first day of any later year. */
  lemma YearEndsBefore(y: int, m: int, d: int, y': int)
    requires ValidDate(y, m, d) && y < y'
    ensures Ordinal(y, m, d) <= DaysBeforeYear(y')
  {
    MonthsOrdered(y, m, 13);
    YearStep(y);
    YearsOrdered(y + 1, y');
  }

  /** Ordinals name dates uniquely. */
  lemma OrdinalInjective(y: int, m: int, d: int, y': int, m': int, d': int)
    requires ValidDate(y, m, d) && ValidDate(y', m', d')
    requires Ordinal(y, m, d) == Ordinal(y', m', d')
    ensures y == y' && m == m' && d == d'
  {
    if MonthBefore(y, m, y', m') {
      EarlierMonthEarlierDay(y, m, d, y', m', d');
    } else if MonthBefore(y', m', y, m) {
      EarlierMonthEarlierDay(y', m', d', y, m, d);
    }
  }

  /** A wall-clock minute is determined by its stamp. */
  lemma StampInjective(a: DateTime, b: DateTime)
    requires OnMinute(a) && OnMinute(b) && MinuteStamp(a) == MinuteStamp(b)
    ensures a == b
  {
    assert DayOf(a) == DayOf(b);
    OrdinalInjective(a.year, a.month, a.day, b.year, b.month, b.day);
  }

  /** The calendar repeats every 400 years, on the same weekdays. */
  lemma CycleRepeats(y: int, m: int, d: int, k: int)
    requires 1 <= m <= 12
    ensures DaysInMonth(y + 400 * k, m) == DaysInMonth(y, m)
    ensures Ordinal(y + 400 * k, m, d) == Ordinal(y, m, d) + CYCLE_DAYS * k
    ensures Weekday(y + 400 * k, m, d) == Weekday(y, m, d)
  {
    var y' := y + 400 * k;
    LeapRepeats(y, k);
    MonthsRepeat(y, k, m);
    ShiftByMultiple(y - 1, 4, 100 * k);
    ShiftByMultiple(y - 1, 100, 4 * k);
    ShiftByMultiple(y - 1, 400, k);
    ShiftByMultiple(Ordinal(y, m, d) + 6, 7, 20_871 * k);
  }

  /** Adding a multiple of the divisor moves the quotient and keeps the remainder. */
  lemma ShiftByMultiple(x: int, c: int, k: int)
    requires c == 4 || c == 7 || c == 100 || c == 400
    ensures (x + c * k) / c == x / c + k
    ensures (x + c * k) % c == x % c
  {
    if c == 4 {
      assert (x + 4 * k) / 4 == x / 4 + k;
    } else if c == 7 {
      assert (x + 7 * k) / 7 == x / 7 + k;
    } else if c == 100 {
      assert (x + 100 * k) / 100 == x / 100 + k;
    } else {
      assert (x + 400 * k) / 400 == x / 400 + k;
    }
  }

  lemma LeapRepeats(y: int, k: int)
    ensures Leap(y + 400 * k) == Leap(y)
  {
    ShiftByMultiple(y, 4, 100 * k);
    ShiftByMultiple(y, 100, 4 * k);
    ShiftByMultiple(y, 400, k);
  }

  lemma {:induction false} MonthsRepeat(y: int, k: int, m: int)
    requires 1 <= m <= 13
    ensures DaysBeforeMonth(y + 400 * k, m) == DaysBeforeMonth(y, m)
    decreases m
  {
    if m > 1 {
      LeapRepeats(y, k);
      MonthsRepeat(y, k, m - 1);
    }
  }

  /** The first day of the calendar has ordinal 1, and nothing later goes below it. */
  lemma OrdinalPositive(y: int, m: int, d: int)
    requires 1 <= m <= 12 && 1 <= d <= DaysInMonth(y, m)
    ensures 1 <= y <==> 1 <= Ordinal(y, m, d)
  {
    if 1 <= y {
      YearsOrdered(1, y);
      MonthNotNegative(y, m);
    } else {
      YearsOrdered(y + 1, 1);
      YearStep(y);
      MonthsOrdered(y, m, 13);
    }
  }

  /** How many days of the year come before each month. */
  lemma MonthStarts(y: int)
    ensures var leap := if Leap(y) then 1 else 0;
      && DaysBeforeMonth(y, 1) == 0 && DaysBeforeMonth(y, 2) == 31 && DaysBeforeMonth(y, 3) == 59 + leap
      && DaysBeforeMonth(y, 4) == 90 + leap && DaysBeforeMonth(y, 5) == 120 + leap
      && DaysBeforeMonth(y, 6) == 151 + leap && DaysBeforeMonth(y, 7) == 181 + leap
      && DaysBeforeMonth(y, 8) == 212 + leap && DaysBeforeMonth(y, 9) == 243 + leap
      && DaysBeforeMonth(y, 10) == 273 + leap && DaysBeforeMonth(y, 11) == 304 + leap
      && DaysBeforeMonth(y, 12) == 334 + leap && DaysBeforeMonth(y, 13) == 365 + leap
  {
    hide Leap;
    assert DaysBeforeMonth(y, 3) == 59 + if Leap(y) then 1 else 0;
    assert DaysBeforeMonth(y, 5) == DaysBeforeMonth(y, 3) + 61;
    assert DaysBeforeMonth(y, 7) == DaysBeforeMonth(y, 5) + 61;
    assert DaysBeforeMonth(y, 9) == DaysBeforeMonth(y, 7) + 62;
    assert DaysBeforeMonth(y, 11) == DaysBeforeMonth(y, 9) + 61;
  }

  /** The ordinals of the Unix epoch and of a leap day are those of the standard library. */
  lemma DatedDays()
    ensures Ordinal(1970, 1, 1) == 719_163 && Ordinal(2024, 2, 29) == 738_945
  {
    MonthStarts(2024);
  }

  /** A century without a leap day. */
  lemma DatedCentury()
    ensures Ordinal(1900, 3, 1) == 693_655
  {
    MonthStarts(1900);
  }
}
