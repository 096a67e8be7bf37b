/** What holds over whole runs of the schedule engines: who owns a claimed row, what a finished poll leaves
    behind, that cancelling is final, and that firings never outnumber cron-matching minutes. */
module ScheduleRuns {
  import opened Wrappers
  import opened Calendar
  import opened ScheduleStore
  import opened Sorting
  import opened ScheduleProtocol
  import Cron
  import Timestamps

  // ---- whole-run theorems ----

  /** In every reachable state an active row at the sentinel is being run or recovered by the engine of
      its own platform, or that engine is down or has not yet looked for stuck rows. */
  lemma SentinelOwnership(states: seq<State>, steps: seq<Step>, i: nat, row: Row)
    requires Run(states, steps) && i < |states|
    requires row in states[i].rows && row.status == Active && row.nextRun == SENTINEL
    ensures Accounts(EngineOf(states[i], row.platform), row.number)
  {
    RunKeepsInv(states, steps, i);
    assert PlatformOk(states[i], row.platform);
  }

  /** When `start` or a poll with clock reading `t` has returned, every active row of the platform that was
      in the table when the due rows were selected lies later than `t`. A row inserted after that lies
      later than `t` exactly when the first occurrence after the tool's own clock reading does. */
  lemma NothingStranded(states: seq<State>, steps: seq<Step>, i: nat, p: string, row: Row)
    requires Run(states, steps) && i < |states| && EngineOf(states[i], p).Idle?
    requires row in states[i].rows && row.platform == p && row.status == Active
    ensures var e := EngineOf(states[i], p);
      && (row.number <= e.seen ==> e.now < row.nextRun)
      && (e.seen < row.number ==> (e.now < row.nextRun <==> e.now < NextRun(row.spec, row.created)))
      && (e.now <= row.created ==> e.now < row.nextRun)
  {
    RunKeepsInv(states, steps, i);
    assert PlatformOk(states[i], p);
    var k :| 0 <= k < |states[i].rows| && states[i].rows[k] == row;
    assert Placed(states[i], states[i].rows[k]);
  }

  predicate SameSchedule(a: Row, b: Row) {
    && b.number == a.number && b.platform == a.platform && b.spec == a.spec && b.created == a.created
    && b.onMiss == a.onMiss
    && (a.status == Cancelled ==> b.status == Cancelled)
  }

  /** Rows keep their identity, and a cancelled schedule stays cancelled. */
  lemma {:induction false} CancelledStays(states: seq<State>, steps: seq<Step>, i: nat, j: nat, id: nat)
    requires Run(states, steps) && i <= j < |states| && Has(states[i].rows, id)
    ensures Has(states[j].rows, id) && SameSchedule(states[i].rows[id - 1], states[j].rows[id - 1])
    decreases j
  {
    if i < j {
      CancelledStays(states, steps, i, j - 1, id);
      assert StepAt(states, steps, j - 1);
      StepKeepsIdentity(states[j - 1], states[j], steps[j - 1], id);
    }
  }

  lemma StepKeepsIdentity(s: State, s': State, step: Step, id: nat)
    requires Next(s, s', step) && Has(s.rows, id)
    ensures Has(s'.rows, id) && SameSchedule(s.rows[id - 1], s'.rows[id - 1])
  {
    hide DueRows, StuckRows, Ids, NextRun, FromTool;
  }

  predicate RunsNow(s: State, p: string, id: nat) {
    EngineOf(s, p).Running? && EngineOf(s, p).id == id
  }

  /** Cancelling is final: unless the payload was already being run, a cancelled schedule is never claimed
      and never fires again. */
  lemma {:induction false} CancelledNeverFiresAgain(states: seq<State>, steps: seq<Step>, i: nat, j: nat, id: nat)
    requires Run(states, steps) && i <= j < |states|
    requires Has(states[i].rows, id) && states[i].rows[id - 1].status == Cancelled
    requires !RunsNow(states[i], states[i].rows[id - 1].platform, id)
    ensures !RunsNow(states[j], states[i].rows[id - 1].platform, id)
    ensures |states[i].fired| <= |states[j].fired|
    ensures forall k :: |states[i].fired| <= k < |states[j].fired| ==> states[j].fired[k].id != id
    decreases j
  {
    if i < j {
      var p := states[i].rows[id - 1].platform;
      CancelledNeverFiresAgain(states, steps, i, j - 1, id);
      CancelledStays(states, steps, i, j - 1, id);
      RunKeepsInv(states, steps, j - 1);
      assert StepAt(states, steps, j - 1);
      CancelledStaysIdle(states[j - 1], states[j], steps[j - 1], p, id);
    }
  }

  lemma CancelledStaysIdle(s: State, s': State, step: Step, p: string, id: nat)
    requires Inv(s) && Next(s, s', step)
    requires Has(s.rows, id) && s.rows[id - 1].platform == p && s.rows[id - 1].status == Cancelled
    requires !RunsNow(s, p, id)
    ensures !RunsNow(s', p, id)
    ensures s'.fired == s.fired || exists f: Firing :: f.id != id && s'.fired == s.fired + [f]
  {
    hide DueRows, StuckRows, Ids, NextRun, FromTool, RowOk, Placed, FiringOk, OccurrenceTime, TodoOk;
    if step.Act? && step.action == Fire {
      assert PlatformOk(s, step.p);
      var e := EngineOf(s, step.p);
      assert Firing(e.id, e.claimed, s.clock).id != id;
    }
  }

  /** A cancel takes effect: from then on the schedule is cancelled, and unless its payload was being run, it never
      fires again. */
  lemma CancelStopsFirings(states: seq<State>, steps: seq<Step>, i: nat, j: nat, id: nat)
    requires Run(states, steps) && i < j < |states| && steps[i] == Cancel(id) && Has(states[i].rows, id)
    ensures Has(states[j].rows, id) && states[j].rows[id - 1].status == Cancelled
    ensures !RunsNow(states[i], states[i].rows[id - 1].platform, id) ==>
      && |states[i].fired| <= |states[j].fired|
      && forall k :: |states[i].fired| <= k < |states[j].fired| ==> states[j].fired[k].id != id
  {
    assert StepAt(states, steps, i);
    hide Next;
    CancelTakes(states[i], states[i + 1], id);
    CancelledStays(states, steps, i + 1, j, id);
    if !RunsNow(states[i], states[i].rows[id - 1].platform, id) {
      CancelledNeverFiresAgain(states, steps, i + 1, j, id);
    }
  }

  lemma CancelTakes(s: State, s': State, id: nat)
    requires Next(s, s', Cancel(id)) && Has(s.rows, id)
    ensures Has(s'.rows, id) && s'.rows[id - 1].status == Cancelled
    ensures s'.rows[id - 1].platform == s.rows[id - 1].platform
    ensures s'.engines == s.engines && s'.fired == s.fired
  {
  }

  // ---- counting ----

  /** The minutes that schedule `id` was fired for, among firings up to `upTo`. */
  function FiredMinutes(fired: seq<Firing>, id: nat, upTo: int): seq<int> {
    if fired == [] then []
    else
      var rest := FiredMinutes(fired[..|fired| - 1], id, upTo);
      var f := fired[|fired| - 1];
      if f.id == id && f.at <= upTo then rest + [f.occurrence / MICROS_PER_MINUTE] else rest
  }

  /** The matching minutes after `created`, up to and including `upTo`. */
  ghost function MatchingMinutes(spec: Cron.CronSpec, created: int, upTo: int): set<int> {
    set n: int | created / MICROS_PER_MINUTE <= n <= upTo / MICROS_PER_MINUTE
                 && created < n * MICROS_PER_MINUTE <= upTo && Cron.OccursAt(spec, n)
  }

  ghost predicate Increasing(xs: seq<int>) {
    forall i, j :: 0 <= i < j < |xs| ==> xs[i] < xs[j]
  }

  lemma {:induction false} IncreasingFits(xs: seq<int>, s: set<int>)
    requires Increasing(xs) && forall i :: 0 <= i < |xs| ==> xs[i] in s
    ensures |xs| <= |s|
  {
    if xs != [] {
      var last := xs[|xs| - 1];
      IncreasingFits(xs[..|xs| - 1], s - {last});
    }
  }

  /** A firing's minute is one of the schedule's matching minutes. */
  lemma FiringMinute(s: State, f: Firing, upTo: int)
    requires FiringOk(s, f) && f.at <= upTo
    ensures var row := s.rows[f.id - 1];
      f.occurrence / MICROS_PER_MINUTE in MatchingMinutes(row.spec, row.created, upTo)
    ensures f.occurrence / MICROS_PER_MINUTE * MICROS_PER_MINUTE == f.occurrence
  {
    var row := s.rows[f.id - 1];
    var n :| Cron.OccursAt(row.spec, n) && f.occurrence == n * MICROS_PER_MINUTE;
    MinuteBounds(row.created, upTo, n);
  }

  lemma MinuteBounds(lo: int, hi: int, n: int)
    requires lo < n * MICROS_PER_MINUTE <= hi
    ensures lo / MICROS_PER_MINUTE <= n <= hi / MICROS_PER_MINUTE
    ensures n * MICROS_PER_MINUTE / MICROS_PER_MINUTE == n
  {
  }

  /** The firings of `id` up to `upTo` are for minutes of `minutes`, each later than the one before. */
  ghost predicate ProperFirings(fired: seq<Firing>, id: nat, upTo: int, minutes: set<int>) {
    && (forall k :: 0 <= k < |fired| && fired[k].id == id && fired[k].at <= upTo ==>
          && fired[k].occurrence / MICROS_PER_MINUTE in minutes
          && fired[k].occurrence / MICROS_PER_MINUTE * MICROS_PER_MINUTE == fired[k].occurrence)
    && (forall j, k :: 0 <= j < k < |fired| && fired[j].id == id == fired[k].id ==>
          fired[j].occurrence < fired[k].occurrence)
  }

  lemma {:induction false} FiredMinutesIncrease(fired: seq<Firing>, id: nat, upTo: int, minutes: set<int>, below: int)
    requires ProperFirings(fired, id, upTo, minutes)
    requires forall k :: 0 <= k < |fired| && fired[k].id == id ==> fired[k].occurrence < below
    ensures Increasing(FiredMinutes(fired, id, upTo))
    ensures forall x :: x in FiredMinutes(fired, id, upTo) ==> x in minutes && x * MICROS_PER_MINUTE < below
  {
    if fired != [] {
      var init, f := fired[..|fired| - 1], fired[|fired| - 1];
      assert forall k :: 0 <= k < |init| ==> init[k] == fired[k];
      FiredMinutesIncrease(init, id, upTo, minutes, if f.id == id then f.occurrence else below);
      var rest := FiredMinutes(init, id, upTo);
      if f.id == id && f.at <= upTo {
        assert forall i :: 0 <= i < |rest| ==> rest[i] in rest;
        assert FiredMinutes(fired, id, upTo) == rest + [f.occurrence / MICROS_PER_MINUTE];
      }
    }
  }

  /** In every reachable state, up to any time, a schedule has fired at most once per matching minute
      since its creation. */
  lemma FiringsNeverOutnumberOccurrences(states: seq<State>, steps: seq<Step>, i: nat, id: nat, upTo: int)
    requires Run(states, steps) && i < |states| && Has(states[i].rows, id)
    ensures var row := states[i].rows[id - 1];
      |FiredMinutes(states[i].fired, id, upTo)| <= |MatchingMinutes(row.spec, row.created, upTo)|
  {
    RunKeepsInv(states, steps, i);
    CountFirings(states[i], id, upTo);
  }

  lemma CountFirings(s: State, id: nat, upTo: int)
    requires Inv(s) && Has(s.rows, id)
    ensures |FiredMinutes(s.fired, id, upTo)| <= |MatchingMinutes(s.rows[id - 1].spec, s.rows[id - 1].created, upTo)|
  {
    hide OccurrenceTime, EngineOk, RowOk, Placed, MatchingMinutes;
    var row := s.rows[id - 1];
    assert PlatformOk(s, row.platform);
    assert forall k :: 0 <= k < |s.fired| && s.fired[k].id == id ==> FiredFor(s, row.platform, s.fired[k]);
    var minutes := MatchingMinutes(row.spec, row.created, upTo);
    forall k | 0 <= k < |s.fired| && s.fired[k].id == id && s.fired[k].at <= upTo
      ensures s.fired[k].occurrence / MICROS_PER_MINUTE in minutes
      ensures s.fired[k].occurrence / MICROS_PER_MINUTE * MICROS_PER_MINUTE == s.fired[k].occurrence
    {
      FiringMinute(s, s.fired[k], upTo);
    }
    assert forall k :: 0 <= k < |s.fired| && s.fired[k].id == id ==> FiringOk(s, s.fired[k]);
    FiredMinutesIncrease(s.fired, id, upTo, minutes, s.clock + 1);
    var fired := FiredMinutes(s.fired, id, upTo);
    assert forall i :: 0 <= i < |fired| ==> fired[i] in fired;
    IncreasingFits(fired, minutes);
  }

  /** The fallback of one hour never runs: every row's expression has a next occurrence, so whatever the
      clock reading, the engine's next run is the minute the search returns. */
  lemma FallbackNeverRuns(states: seq<State>, steps: seq<Step>, i: nat, row: Row, dt: DateTime, r: DateTime)
    requires Run(states, steps) && i < |states| && row in states[i].rows
    requires Valid(dt) && Cron.IsNextAfter(row.spec, dt, r)
    ensures Cron.WellFormed(row.spec) && Cron.Satisfiable(row.spec)
    ensures NextRun(row.spec, MicroStamp(dt)) == MicroStamp(r)
  {
    RunKeepsInv(states, steps, i);
    assert PlatformOk(states[i], row.platform);
    var k :| 0 <= k < |states[i].rows| && states[i].rows[k] == row;
    assert RowOk(row, states[i].clock);
    Cron.SearchFindsNextOccurrence(row.spec, dt, r);
  }

  // ---- the insert may come after the selection ----

  function Upto(lo: int, hi: int): (r: set<int>)
    ensures forall x :: x in r <==> lo <= x <= hi
    decreases hi - lo
  {
    if hi < lo then {} else Upto(lo, hi - 1) + {hi}
  }

  /** `* * * * *` */
  const EVERY_MINUTE := Cron.CronSpec(Upto(0, 59), Upto(0, 23), Upto(1, 31), Upto(1, 12), Upto(0, 6))

  lemma EveryMinuteWellFormed()
    ensures Cron.WellFormed(EVERY_MINUTE)
  {
    assert 0 in Upto(0, 59) && 0 in Upto(0, 23) && 1 in Upto(1, 31) && 1 in Upto(1, 12) && 0 in Upto(0, 6);
  }

  lemma EveryMinuteOccurs(dt: DateTime)
    requires OnMinute(dt)
    ensures Cron.WellFormed(EVERY_MINUTE) && Cron.Satisfiable(EVERY_MINUTE)
    ensures Cron.OccursAt(EVERY_MINUTE, MinuteStamp(dt))
  {
    hide MinuteStamp, Ordinal, Upto;
    EveryMinuteWellFormed();
    assert Cron.DateMatches(EVERY_MINUTE, dt.year, dt.month, dt.day);
    assert Cron.Matches(EVERY_MINUTE, dt);
  }

  const MORNING := DateTime(2024, 1, 1, 0, 0, 0, 0)

  lemma NextMorningMinute()
    ensures Cron.WellFormed(EVERY_MINUTE) && Cron.Satisfiable(EVERY_MINUTE)
    ensures MicroStamp(MORNING) < NextRun(EVERY_MINUTE, MicroStamp(MORNING)) < SENTINEL
  {
    var at := MORNING.(minute := 1);
    EveryMinuteOccurs(at);
    NextRunIsLaterOccurrence(EVERY_MINUTE, MicroStamp(MORNING));
    assert MicroStamp(at) == MinuteStamp(at) * MICROS_PER_MINUTE;
    assert Cron.NextOccurrence(EVERY_MINUTE, MicroStamp(MORNING)) <= MinuteStamp(at);
    Timestamps.DateOrderIsDayOrder(at, DateTime(9999, 12, 31, 23, 59, 59, 0));
  }

  const ZULIP := "zulip"

  function Lone(clock: int, e: Engine, rows: Table): State {
    State(clock, rows, map[ZULIP := e], [])
  }

  lemma LoneMoves(clock: int, e: Engine, rows: Table, e': Engine)
    ensures EngineOf(Lone(clock, e, rows), ZULIP) == e
    ensures WithEngine(Lone(clock, e, rows), ZULIP, e') == Lone(clock, e', rows)
  {
    assert map[ZULIP := e][ZULIP := e'] == map[ZULIP := e'];
  }

  lemma NothingSelected(now: int)
    ensures Ids(StuckRows([], Some(ZULIP))) == [] && Ids(DueRows([], now, Some(ZULIP))) == []
  {
    assert StuckRows([], Some(ZULIP)) == [] && DueRows([], now, Some(ZULIP)) == [];
  }

  /** One step of the engine over a table in which it finds nothing to do. */
  lemma QuietStep(before: seq<State>, done: seq<Step>, clock: int, e: Engine, e': Engine, action: Action)
    returns (states: seq<State>, steps: seq<Step>)
    requires Run(before, done) && before[|before| - 1] == Lone(clock, e, [])
    requires EngineNext(Lone(clock, e, []), Lone(clock, e', []), ZULIP, action)
    ensures Run(states, steps) && states[|states| - 1] == Lone(clock, e', [])
  {
    hide EngineNext;
    states, steps := Extended(before, done, Lone(clock, e', []), Act(ZULIP, action));
  }

  /** The start of the run: the engine comes up over an empty table and returns from its catch-up. */
  lemma QuietStart(c: int) returns (states: seq<State>, steps: seq<Step>)
    requires c < SENTINEL
    ensures Run(states, steps) && states[|states| - 1] == Lone(c, Idle(c, 0), [])
  {
    hide StuckRows, DueRows, Ids;
    NothingSelected(c);
    states, steps := [State(c, [], map[], []), Lone(c, RecoverRead(c), [])], [Act(ZULIP, Start)];
    assert StepAt(states, steps, 0);
    LoneMoves(c, RecoverRead(c), [], Recovering(c, []));
    states, steps := QuietStep(states, steps, c, RecoverRead(c), Recovering(c, []), ReadStuck);
    LoneMoves(c, Recovering(c, []), [], DueRead(c, CatchUp));
    states, steps := QuietStep(states, steps, c, Recovering(c, []), DueRead(c, CatchUp), BeginCatchUp);
    states, steps := QuietSelection(states, steps, c, CatchUp);
    LoneMoves(c, Serving(c, CatchUp, [], 0), [], Idle(c, 0));
    states, steps := QuietStep(states, steps, c, Serving(c, CatchUp, [], 0), Idle(c, 0), Return);
  }

  lemma QuietSelection(before: seq<State>, done: seq<Step>, c: int, mode: Mode)
    returns (states: seq<State>, steps: seq<Step>)
    requires Run(before, done) && before[|before| - 1] == Lone(c, DueRead(c, mode), [])
    ensures Run(states, steps) && states[|states| - 1] == Lone(c, Serving(c, mode, [], 0), [])
  {
    hide StuckRows, DueRows, Ids;
    NothingSelected(c);
    LoneMoves(c, DueRead(c, mode), [], Serving(c, mode, [], 0));
    states, steps := QuietStep(before, done, c, DueRead(c, mode), Serving(c, mode, [], 0), ReadDue);
  }

  lemma Extended(before: seq<State>, done: seq<Step>, s: State, step: Step)
    returns (states: seq<State>, steps: seq<Step>)
    requires Run(before, done) && Next(before[|before| - 1], s, step)
    ensures Run(states, steps) && states[|states| - 1] == s
  {
    hide Next;
    states, steps := before + [s], done + [step];
    forall i | 0 <= i < |steps|
      ensures StepAt(states, steps, i)
    {
      assert i < |done| ==> StepAt(before, done, i);
    }
  }

  /** Without the condition on the insert, a poll can return with an active row at or before its clock
      reading: the tool read its clock, the poll then selected, and the insert came last. */
  lemma LateInsertCanStrand() returns (states: seq<State>, steps: seq<Step>, row: Row)
    ensures Run(states, steps)
    ensures var s := states[|states| - 1];
      && EngineOf(s, ZULIP).Idle? && row in s.rows && row.platform == ZULIP && row.status == Active
      && row.nextRun <= EngineOf(s, ZULIP).now
  {
    hide Upto, MicroStamp, NextRun, Cron.WellFormed, Cron.Satisfiable;
    NextMorningMinute();
    var c := MicroStamp(MORNING);
    var n := NextRun(EVERY_MINUTE, c);
    var made := Row(0, ZULIP, EVERY_MINUTE, RunLate, n, None, c, Active, None);
    row := made.(number := 1);
    states, steps := QuietStart(c);
    states, steps := Extended(states, steps, Lone(n, Idle(c, 0), []), Tick(n));
    LoneMoves(n, Idle(c, 0), [], DueRead(n, Poll));
    states, steps := QuietStep(states, steps, n, Idle(c, 0), DueRead(n, Poll), BeginPoll);
    states, steps := QuietSelection(states, steps, n, Poll);
    states, steps := LateInsert(states, steps, n, made);
  }

  lemma LateInsert(before: seq<State>, done: seq<Step>, n: int, made: Row)
    returns (states: seq<State>, steps: seq<Step>)
    requires Run(before, done) && before[|before| - 1] == Lone(n, Serving(n, Poll, [], 0), [])
    requires FromTool(made, n)
    ensures Run(states, steps) && states[|states| - 1] == Lone(n, Idle(n, 0), [made.(number := 1)])
  {
    hide FromTool;
    var row := made.(number := 1);
    states, steps := Extended(before, done, Lone(n, Serving(n, Poll, [], 0), [row]), Create(made));
    LoneMoves(n, Serving(n, Poll, [], 0), [row], Idle(n, 0));
    states, steps := Extended(states, steps, Lone(n, Idle(n, 0), [row]), Act(ZULIP, Return));
  }
}
