/** Five-field cron expressions: the calendar search of `CronSpec.next_after`. */
module Cron {
  import opened Wrappers
  import opened Calendar

  /** The value sets of one parsed expression. */
  datatype CronSpec = CronSpec(minutes: set<int>, hours: set<int>, daysOfMonth: set<int>, months: set<int>,
                               daysOfWeek: set<int>)

  datatype SearchError = NoOccurrence

  /** The iteration budget of the search. */
  const FUEL := 4 * 366 * 24 * 60

  predicate FieldWithin(values: set<int>, lo: int, hi: int) {
    (exists v :: v in values) && forall v :: v in values ==> lo <= v <= hi
  }

  /** What parsing guarantees of every field. */
  predicate WellFormed(spec: CronSpec) {
    && FieldWithin(spec.minutes, 0, 59)
    && FieldWithin(spec.hours, 0, 23)
    && FieldWithin(spec.daysOfMonth, 1, 31)
    && FieldWithin(spec.months, 1, 12)
    && FieldWithin(spec.daysOfWeek, 0, 6)
  }

  /** Python weekdays start on Monday, cron weekdays on Sunday. */
  function CronWeekday(y: int, m: int, d: int): int
    requires 1 <= m <= 12
  {
    (Weekday(y, m, d) + 1) % 7
  }

  /** The day test: day-of-month AND day-of-week must hold. */
  predicate DayMatches(spec: CronSpec, y: int, m: int, d: int)
    requires 1 <= m <= 12
  {
    d in spec.daysOfMonth && CronWeekday(y, m, d) in spec.daysOfWeek
  }

  predicate DateMatches(spec: CronSpec, y: int, m: int, d: int) {
    ValidDate(y, m, d) && m in spec.months && DayMatches(spec, y, m, d)
  }

  /** All five fields hold at this wall-clock minute. */
  predicate Matches(spec: CronSpec, dt: DateTime) {
    DateMatches(spec, dt.year, dt.month, dt.day) && dt.hour in spec.hours && dt.minute in spec.minutes
  }

  /** Some date at all satisfies month, day and weekday. */
  ghost predicate Satisfiable(spec: CronSpec) {
    exists y, m, d :: DateMatches(spec, y, m, d)
  }

  /** `n` is the stamp of a wall-clock minute that satisfies all five fields. */
  ghost predicate OccursAt(spec: CronSpec, n: int) {
    exists dt :: OnMinute(dt) && MinuteStamp(dt) == n && Matches(spec, dt)
  }

  /** `t` is the least matching minute whose stamp is at least `from`. */
  ghost predicate IsFirstFrom(spec: CronSpec, from: int, t: DateTime) {
    && OnMinute(t) && Matches(spec, t) && from <= MinuteStamp(t)
    && forall m :: OnMinute(m) && Matches(spec, m) && from <= MinuteStamp(m) ==> MinuteStamp(t) <= MinuteStamp(m)
  }

  // ---- completeness: a satisfiable expression occurs within one Gregorian cycle ----

  /** A matching date recurs in every 400-year cycle, on the same weekday. */
  lemma DateRecurs(spec: CronSpec, y: int, m: int, d: int, day0: int) returns (y': int)
    requires DateMatches(spec, y, m, d)
    requires 1 <= day0
    ensures DateMatches(spec, y', m, d)
    ensures day0 < Ordinal(y', m, d) <= day0 + CYCLE_DAYS
  {
    var k := (day0 - Ordinal(y, m, d)) / CYCLE_DAYS + 1;
    y' := y + 400 * k;
    CycleRepeats(y, m, d, k);
    OrdinalPositive(y', m, d);
  }

  /** A well-formed expression names some time of day. */
  lemma SomeTime(spec: CronSpec) returns (h: int, mi: int)
    requires WellFormed(spec)
    ensures h in spec.hours && 0 <= h < 24 && mi in spec.minutes && 0 <= mi < 60
  {
    h :| h in spec.hours;
    mi :| mi in spec.minutes;
  }

  lemma OccursWithinCycle(spec: CronSpec, dt: DateTime) returns (at: DateTime)
    requires WellFormed(spec) && Satisfiable(spec) && Valid(dt)
    ensures OnMinute(at) && Matches(spec, at)
    ensures DayOf(dt) < DayOf(at) <= DayOf(dt) + CYCLE_DAYS
  {
    var y, m, d :| DateMatches(spec, y, m, d);
    OrdinalPositive(dt.year, dt.month, dt.day);
    var y' := DateRecurs(spec, y, m, d, DayOf(dt));
    var h, mi := SomeTime(spec);
    at := DateTime(y', m, d, h, mi, 0, 0);
  }

  /** The least occurrence from `from` on, given that some occurrence is known. */
  lemma {:induction false} FirstExists(spec: CronSpec, from: int, known: DateTime) returns (t: DateTime)
    requires OnMinute(known) && Matches(spec, known) && from <= MinuteStamp(known)
    ensures IsFirstFrom(spec, from, t) && MinuteStamp(t) <= MinuteStamp(known)
    decreases MinuteStamp(known) - from
  {
    if OccursAt(spec, from) {
      t :| OnMinute(t) && MinuteStamp(t) == from && Matches(spec, t);
    } else {
      assert MinuteStamp(known) != from;
      t := FirstExists(spec, from + 1, known);
    }
  }

  // ---- no jump skips an occurrence ----

  /** `next_month`: the first day of the following month at midnight. */
  function NextMonth(dt: DateTime): (r: DateTime)
    requires Valid(dt)
    ensures OnMinute(r) && r.day == 1 && r.hour == 0 && r.minute == 0
    ensures MonthBefore(dt.year, dt.month, r.year, r.month)
    ensures DayOf(r) > DayOf(dt)
    ensures forall y, m :: 1 <= m <= 12 && MonthBefore(dt.year, dt.month, y, m) ==> !MonthBefore(y, m, r.year, r.month)
  {
    var r := if dt.month == 12 then DateTime(dt.year + 1, 1, 1, 0, 0, 0, 0)
             else DateTime(dt.year, dt.month + 1, 1, 0, 0, 0, 0);
    EarlierMonthEarlierDay(dt.year, dt.month, dt.day, r.year, r.month, 1);
    r
  }

  lemma MonthJumpSkipsNothing(spec: CronSpec, c: DateTime, at: DateTime)
    requires Valid(c) && c.month !in spec.months
    requires OnMinute(at) && Matches(spec, at) && MinuteStamp(c) <= MinuteStamp(at)
    ensures MinuteStamp(NextMonth(c)) <= MinuteStamp(at)
  {
    var r := NextMonth(c);
    if MonthBefore(at.year, at.month, c.year, c.month) {
      EarlierMonthEarlierDay(at.year, at.month, at.day, c.year, c.month, c.day);
      assert false;
    }
    if (at.year, at.month) != (r.year, r.month) {
      assert MonthBefore(r.year, r.month, at.year, at.month);
      EarlierMonthEarlierDay(r.year, r.month, r.day, at.year, at.month, at.day);
    }
  }

  /** Two instants on the same day number are on the same date. */
  lemma SameDay(a: DateTime, b: DateTime)
    requires Valid(a) && Valid(b) && DayOf(a) == DayOf(b)
    ensures a.year == b.year && a.month == b.month && a.day == b.day
  {
    OrdinalInjective(a.year, a.month, a.day, b.year, b.month, b.day);
  }

  lemma DayJumpSkipsNothing(spec: CronSpec, c: DateTime, at: DateTime)
    requires OnMinute(c) && !DateMatches(spec, c.year, c.month, c.day)
    requires OnMinute(at) && Matches(spec, at) && MinuteStamp(c) <= MinuteStamp(at)
    ensures MinuteStamp(NextDay(c)) <= MinuteStamp(at)
  {
    if DayOf(c) == DayOf(at) {
      SameDay(c, at);
      assert false;
    }
  }

  lemma HourJumpSkipsNothing(spec: CronSpec, c: DateTime, at: DateTime)
    requires OnMinute(c) && c.hour !in spec.hours
    requires OnMinute(at) && Matches(spec, at) && MinuteStamp(c) <= MinuteStamp(at)
    ensures MinuteStamp(NextHour(c)) <= MinuteStamp(at)
  {
    if DayOf(c) == DayOf(at) {
      assert c.hour != at.hour;
    }
  }

  lemma StampParts(day: int, h: int, mi: int, day': int, h': int, mi': int)
    requires 0 <= h < 24 && 0 <= mi < 60 && 0 <= h' < 24 && 0 <= mi' < 60
    requires day * MINUTES_PER_DAY + h * 60 + mi == day' * MINUTES_PER_DAY + h' * 60 + mi'
    ensures day == day' && h == h' && mi == mi'
  {
  }

  lemma MinuteJumpSkipsNothing(spec: CronSpec, c: DateTime, at: DateTime)
    requires OnMinute(c) && c.minute !in spec.minutes
    requires OnMinute(at) && Matches(spec, at) && MinuteStamp(c) <= MinuteStamp(at)
    ensures MinuteStamp(NextMinute(c)) <= MinuteStamp(at)
  {
    if MinuteStamp(c) == MinuteStamp(at) {
      StampParts(DayOf(c), c.hour, c.minute, DayOf(at), at.hour, at.minute);
    }
  }

  // ---- the search spends few iterations ----

  /** Iterations that still suffice to walk from `c` to the target `t` when the search began at `start`:
      one per skipped day, and hours and minutes only on the first and the last day. */
  function Budget(start: DateTime, c: DateTime, t: DateTime): int
    requires OnMinute(start) && OnMinute(c) && OnMinute(t)
  {
    var onFirstDay := DayOf(c) == DayOf(start);
    var minutesLeft := if onFirstDay && c.hour == start.hour then 60 - c.minute else 0;
    if DayOf(c) < DayOf(t) then
      DayOf(t) - DayOf(c) + 84 + (if onFirstDay then 24 - c.hour + minutesLeft else 0)
    else if c.hour < t.hour then
      t.hour - c.hour + 60 + minutesLeft
    else
      t.minute - c.minute
  }

  /** The search position: between the start and the first occurrence `t` at or after the start. */
  ghost predicate Approaching(spec: CronSpec, start: DateTime, c: DateTime, t: DateTime) {
    && OnMinute(start) && OnMinute(c)
    && IsFirstFrom(spec, MinuteStamp(start), t)
    && MinuteStamp(start) <= MinuteStamp(c) <= MinuteStamp(t)
  }

  /** A later day whose date matches holds the target. */
  lemma TargetOnMatchingDay(spec: CronSpec, start: DateTime, c: DateTime, t: DateTime)
    requires WellFormed(spec) && Approaching(spec, start, c, t)
    requires DateMatches(spec, c.year, c.month, c.day) && DayOf(start) < DayOf(c)
    ensures DayOf(c) == DayOf(t)
  {
    var h, mi := SomeTime(spec);
    var at := DateTime(c.year, c.month, c.day, h, mi, 0, 0);
    assert Matches(spec, at);
  }

  /** A later matching hour of a matching date holds the target. */
  lemma TargetInMatchingHour(spec: CronSpec, start: DateTime, c: DateTime, t: DateTime)
    requires WellFormed(spec) && Approaching(spec, start, c, t)
    requires DateMatches(spec, c.year, c.month, c.day) && c.hour in spec.hours
    requires DayOf(start) < DayOf(c) || start.hour < c.hour
    ensures DayOf(c) == DayOf(t) && c.hour == t.hour
  {
    var mi := MatchingHourOccurs(spec, start, c, t);
    BetweenInHour(DayOf(c), c.hour, c.minute, mi, DayOf(t), t.hour, t.minute);
  }

  lemma MatchingHourOccurs(spec: CronSpec, start: DateTime, c: DateTime, t: DateTime) returns (mi: int)
    requires WellFormed(spec) && Approaching(spec, start, c, t)
    requires DateMatches(spec, c.year, c.month, c.day) && c.hour in spec.hours
    requires DayOf(start) < DayOf(c) || start.hour < c.hour
    ensures 0 <= mi < 60
    ensures MinuteStamp(t) <= DayOf(c) * MINUTES_PER_DAY + c.hour * 60 + mi
  {
    var _, mi' := SomeTime(spec);
    mi := mi';
    var at := DateTime(c.year, c.month, c.day, c.hour, mi, 0, 0);
    assert OnMinute(at) && Matches(spec, at) && DayOf(at) == DayOf(c);
    LaterHour(DayOf(start), start.hour, start.minute, DayOf(c), c.hour, c.minute, mi);
  }

  /** A later hour lies later at every minute, given that it lies later at one. */
  lemma LaterHour(day: int, h: int, mi: int, day': int, h': int, mi': int, mi'': int)
    requires 0 <= h < 24 && 0 <= mi < 60 && 0 <= mi' < 60 && 0 <= h' < 24 && 0 <= mi'' < 60
    requires day * MINUTES_PER_DAY + h * 60 + mi <= day' * MINUTES_PER_DAY + h' * 60 + mi'
    requires day < day' || h < h'
    ensures day * MINUTES_PER_DAY + h * 60 + mi <= day' * MINUTES_PER_DAY + h' * 60 + mi''
  {
  }

  /** An instant between two minutes of one hour is in that hour. */
  lemma BetweenInHour(day: int, h: int, mi: int, mi': int, day': int, h': int, mi'': int)
    requires 0 <= h < 24 && 0 <= mi < 60 && 0 <= mi' < 60 && 0 <= h' < 24 && 0 <= mi'' < 60
    requires day * MINUTES_PER_DAY + h * 60 + mi <= day' * MINUTES_PER_DAY + h' * 60 + mi''
    requires day' * MINUTES_PER_DAY + h' * 60 + mi'' <= day * MINUTES_PER_DAY + h * 60 + mi'
    ensures day == day' && h == h'
  {
  }

  /** One turn of the search loop: the position it moves to when it does not return. */
  function SearchStep(spec: CronSpec, c: DateTime): (r: DateTime)
    requires OnMinute(c)
    ensures OnMinute(r) && MinuteStamp(c) < MinuteStamp(r)
  {
    if c.month !in spec.months then NextMonth(c)
    else if !DayMatches(spec, c.year, c.month, c.day) then NextDay(c)
    else if c.hour !in spec.hours then NextHour(c)
    else NextMinute(c)
  }

  lemma StepApproaches(spec: CronSpec, start: DateTime, c: DateTime, t: DateTime)
    requires Approaching(spec, start, c, t) && !Matches(spec, c)
    ensures Approaching(spec, start, SearchStep(spec, c), t)
  {
    if c.month !in spec.months {
      MonthJumpSkipsNothing(spec, c, t);
    } else if !DayMatches(spec, c.year, c.month, c.day) {
      DayJumpSkipsNothing(spec, c, t);
    } else if c.hour !in spec.hours {
      HourJumpSkipsNothing(spec, c, t);
    } else {
      MinuteJumpSkipsNothing(spec, c, t);
    }
  }

  lemma StepSpends(spec: CronSpec, start: DateTime, c: DateTime, t: DateTime)
    requires WellFormed(spec) && Approaching(spec, start, c, t) && !Matches(spec, c)
    ensures 0 <= Budget(start, SearchStep(spec, c), t) < Budget(start, c, t)
  {
    StepApproaches(spec, start, c, t);
    if !DateMatches(spec, c.year, c.month, c.day) {
      DateJumpSpends(spec, start, c, t);
    } else if c.hour !in spec.hours {
      HourJumpSpends(spec, start, c, t);
    } else {
      MinuteJumpSpends(spec, start, c, t);
    }
  }

  lemma DateJumpSpends(spec: CronSpec, start: DateTime, c: DateTime, t: DateTime)
    requires Approaching(spec, start, c, t) && Approaching(spec, start, SearchStep(spec, c), t)
    requires !DateMatches(spec, c.year, c.month, c.day)
    ensures 0 <= Budget(start, SearchStep(spec, c), t) < Budget(start, c, t)
  {
    if DayOf(c) == DayOf(t) {
      SameDay(c, t);
      assert false;
    }
    var r := SearchStep(spec, c);
    assert DayOf(c) < DayOf(r) <= DayOf(t) && r.hour == 0 && r.minute == 0;
  }

  lemma HourJumpSpends(spec: CronSpec, start: DateTime, c: DateTime, t: DateTime)
    requires WellFormed(spec) && Approaching(spec, start, c, t) && Approaching(spec, start, NextHour(c), t)
    requires DateMatches(spec, c.year, c.month, c.day) && c.hour !in spec.hours
    ensures 0 <= Budget(start, NextHour(c), t) < Budget(start, c, t)
  {
    if DayOf(start) < DayOf(c) {
      TargetOnMatchingDay(spec, start, c, t);
    }
    assert c.hour != t.hour;
    if c.hour < 23 {
      assert DayOf(NextHour(c)) == DayOf(c);
    }
  }

  lemma MinuteJumpSpends(spec: CronSpec, start: DateTime, c: DateTime, t: DateTime)
    requires WellFormed(spec) && Approaching(spec, start, c, t) && Approaching(spec, start, NextMinute(c), t)
    requires DateMatches(spec, c.year, c.month, c.day) && c.hour in spec.hours && c.minute !in spec.minutes
    ensures 0 <= Budget(start, NextMinute(c), t) < Budget(start, c, t)
  {
    if DayOf(start) < DayOf(c) || start.hour < c.hour {
      TargetInMatchingHour(spec, start, c, t);
    } else {
      assert DayOf(start) == DayOf(c) && start.hour == c.hour;
    }
    if DayOf(c) == DayOf(t) && c.hour == t.hour {
      assert c.minute < t.minute;
      assert DayOf(NextMinute(c)) == DayOf(c) && NextMinute(c).minute == c.minute + 1;
    }
  }

  // ---- the method ----

  /** What the search promises: the least wall-clock minute strictly after `dt` with all five fields. */
  ghost predicate IsNextAfter(spec: CronSpec, dt: DateTime, r: DateTime)
    requires Valid(dt)
  {
    && OnMinute(r) && Matches(spec, r)
    && MicroStamp(dt) < MicroStamp(r)
    && forall m :: OnMinute(m) && Matches(spec, m) && MicroStamp(dt) < MicroStamp(m) ==> MicroStamp(r) <= MicroStamp(m)
  }

  /** The occurrence a search from `dt` heads for, when there is one. */
  lemma SearchTarget(spec: CronSpec, dt: DateTime) returns (t: DateTime)
    requires WellFormed(spec) && Valid(dt)
    ensures Satisfiable(spec) ==> Approaching(spec, NextMinute(dt), NextMinute(dt), t)
    ensures Satisfiable(spec) ==> 0 <= Budget(NextMinute(dt), NextMinute(dt), t) <= CYCLE_DAYS + 168
  {
    t := dt;
    if Satisfiable(spec) {
      var start := NextMinute(dt);
      var known := OccursWithinCycle(spec, start);
      t := FirstExists(spec, MinuteStamp(start), known);
      assert DayOf(t) <= DayOf(known);
    }
  }

  /** Strictly after `dt` means: in the minute after the one that holds `dt`, or later. */
  lemma AfterIsNextMinute(dt: DateTime, m: DateTime)
    requires Valid(dt) && OnMinute(m)
    ensures MicroStamp(dt) < MicroStamp(m) <==> MinuteStamp(dt) + 1 <= MinuteStamp(m)
  {
  }

  lemma FirstIsNext(spec: CronSpec, dt: DateTime, t: DateTime)
    requires Valid(dt) && IsFirstFrom(spec, MinuteStamp(dt) + 1, t)
    ensures IsNextAfter(spec, dt, t)
  {
    AfterIsNextMinute(dt, t);
    forall m | OnMinute(m) && Matches(spec, m) && MicroStamp(dt) < MicroStamp(m)
      ensures MicroStamp(t) <= MicroStamp(m)
    {
      AfterIsNextMinute(dt, m);
    }
  }

  /** `next_after` in a fixed-offset zone, `dt` being the local time. It answers for exactly the
      expressions some date satisfies, with the least later occurrence, and it never needs more than
      one Gregorian cycle of day steps plus two days of hour and minute steps. */
  method NextAfter(spec: CronSpec, dt: DateTime) returns (r: Result<DateTime, SearchError>, ghost steps: nat)
    requires WellFormed(spec) && Valid(dt)
    ensures r.Success? <==> Satisfiable(spec)
    ensures r.Success? ==> IsNextAfter(spec, dt, r.value)
    ensures r.Success? ==> steps <= CYCLE_DAYS + 169 < FUEL
  {
    var candidate := NextMinute(dt);
    ghost var start := candidate;
    ghost var t := SearchTarget(spec, dt);
    var n := 0;
    while n < FUEL
      invariant OnMinute(candidate)
      invariant 0 <= n <= FUEL
      invariant Satisfiable(spec) ==> Approaching(spec, start, candidate, t)
      invariant Satisfiable(spec) ==> 0 <= Budget(start, candidate, t) <= CYCLE_DAYS + 168 - n
    {
      if Satisfiable(spec) && !Matches(spec, candidate) {
        StepApproaches(spec, start, candidate, t);
        StepSpends(spec, start, candidate, t);
      }
      n := n + 1;
      if candidate.month !in spec.months {
        candidate := NextMonth(candidate);
      } else if !DayMatches(spec, candidate.year, candidate.month, candidate.day) {
        candidate := NextDay(candidate);
      } else if candidate.hour !in spec.hours {
        candidate := NextHour(candidate);
      } else if candidate.minute !in spec.minutes {
        candidate := NextMinute(candidate);
      } else {
        assert DateMatches(spec, candidate.year, candidate.month, candidate.day);
        StampInjective(candidate, t);
        FirstIsNext(spec, dt, t);
        return Success(candidate), n;
      }
    }
    return Failure(NoOccurrence), n;
  }

  // ---- what a match is, in days counted from the calendar's first ----

  /** 0001-01-01 is a Monday, so day numbers leave the cron weekday when divided by seven. */
  lemma WeekdayFromDays(y: int, m: int, d: int)
    requires 1 <= m <= 12
    ensures CronWeekday(y, m, d) == Ordinal(y, m, d) % 7
  {
    var n := Ordinal(y, m, d);
    assert ((n + 6) % 7 + 1) % 7 == n % 7;
  }

  /** A valid wall-clock minute matches exactly when each of its parts is in its set, the weekday counted in
      days from a Sunday. */
  lemma MatchesByParts(spec: CronSpec, dt: DateTime)
    requires OnMinute(dt)
    ensures Matches(spec, dt) <==>
      && dt.minute in spec.minutes && dt.hour in spec.hours && dt.day in spec.daysOfMonth && dt.month in spec.months
      && DayOf(dt) % 7 in spec.daysOfWeek
  {
    WeekdayFromDays(dt.year, dt.month, dt.day);
  }

  /** What the search returns has all five parts, and no earlier minute after `dt` has. */
  lemma NextAfterByParts(spec: CronSpec, dt: DateTime, r: DateTime)
    requires Valid(dt) && IsNextAfter(spec, dt, r)
    ensures r.minute in spec.minutes && r.hour in spec.hours && r.day in spec.daysOfMonth && r.month in spec.months
    ensures DayOf(r) % 7 in spec.daysOfWeek && OnMinute(r) && MicroStamp(dt) < MicroStamp(r)
    ensures forall m :: OnMinute(m) && MicroStamp(dt) < MicroStamp(m) < MicroStamp(r) ==>
      || m.minute !in spec.minutes || m.hour !in spec.hours || m.day !in spec.daysOfMonth || m.month !in spec.months
      || DayOf(m) % 7 !in spec.daysOfWeek
  {
    MatchesByParts(spec, r);
    forall m | OnMinute(m) && MicroStamp(dt) < MicroStamp(m) < MicroStamp(r)
      ensures !Matches(spec, m)
      ensures Matches(spec, m) <==>
        && m.minute in spec.minutes && m.hour in spec.hours && m.day in spec.daysOfMonth && m.month in spec.months
        && DayOf(m) % 7 in spec.daysOfWeek
    {
      MatchesByParts(spec, m);
    }
  }

  /** A dated anchor: 2024-01-07 is a Sunday, number 0. */
  lemma DatedSunday()
    ensures DayOf(DateTime(2024, 1, 7, 0, 0, 0, 0)) % 7 == 0
  {
  }

  /** And the day after it is a Monday, number 1. */
  lemma DatedMonday()
    ensures CronWeekday(2024, 1, 8) == 1
  {
  }

  // ---- occurrences as instants ----

  /** `n` is the stamp of the first matching minute that begins strictly after the instant `t`. */
  ghost predicate IsNextOccurrence(spec: CronSpec, t: int, n: int) {
    && OccursAt(spec, n) && t < n * MICROS_PER_MINUTE
    && forall k :: OccursAt(spec, k) && t < k * MICROS_PER_MINUTE ==> n <= k
  }

  lemma NextOccurrenceExists(spec: CronSpec, t: int)
    requires WellFormed(spec) && Satisfiable(spec)
    ensures exists n :: IsNextOccurrence(spec, t, n)
  {
    var from := t / MICROS_PER_MINUTE + 1;
    var y, m, d :| DateMatches(spec, y, m, d);
    var day0 := if from / MINUTES_PER_DAY < 1 then 1 else from / MINUTES_PER_DAY;
    var y' := DateRecurs(spec, y, m, d, day0);
    var h, mi := SomeTime(spec);
    var known := DateTime(y', m, d, h, mi, 0, 0);
    assert from < (day0 + 1) * MINUTES_PER_DAY <= MinuteStamp(known);
    var first := FirstExists(spec, from, known);
    var n := MinuteStamp(first);
    assert OccursAt(spec, n);
    forall k | OccursAt(spec, k) && t < k * MICROS_PER_MINUTE
      ensures n <= k
    {
      var at :| OnMinute(at) && MinuteStamp(at) == k && Matches(spec, at);
    }
    assert IsNextOccurrence(spec, t, n);
  }

  /** The first occurrence after `t`, as a minute stamp. */
  ghost function NextOccurrence(spec: CronSpec, t: int): (n: int)
    requires WellFormed(spec) && Satisfiable(spec)
    ensures IsNextOccurrence(spec, t, n)
  {
    NextOccurrenceExists(spec, t);
    var n :| IsNextOccurrence(spec, t, n);
    n
  }

  /** What the search returns is the next occurrence after the instant it was asked about. */
  lemma SearchFindsNextOccurrence(spec: CronSpec, dt: DateTime, r: DateTime)
    requires WellFormed(spec) && Satisfiable(spec) && Valid(dt)
    requires IsNextAfter(spec, dt, r)
    ensures MinuteStamp(r) == NextOccurrence(spec, MicroStamp(dt))
  {
    var n := NextOccurrence(spec, MicroStamp(dt));
    assert OccursAt(spec, MinuteStamp(r));
    assert MicroStamp(r) == MinuteStamp(r) * MICROS_PER_MINUTE;
    var at :| OnMinute(at) && MinuteStamp(at) == n && Matches(spec, at);
    assert MicroStamp(at) == n * MICROS_PER_MINUTE;
  }
}
