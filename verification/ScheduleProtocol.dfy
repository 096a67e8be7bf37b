/** The schedule engines as a protocol: one engine per platform over a shared table, with creates,
    cancels, crashes and restarts between any two transactions, and a clock that never runs back. */
module ScheduleProtocol {
  import opened Wrappers
  import opened Calendar
  import opened ScheduleStore
  import opened Sorting
  import Cron

  datatype Mode = CatchUp | Poll

  /** Where an engine stands. `now` is the clock reading its current loop works with; `seen` is the
      number of rows the table held when the loop selected its due rows. */
  datatype Engine =
    | Down
    | RecoverRead(now: int)
    | Recovering(now: int, stuck: seq<nat>)
    | DueRead(now: int, mode: Mode)
    | Serving(now: int, mode: Mode, todo: seq<nat>, seen: nat)
    | Running(now: int, mode: Mode, todo: seq<nat>, seen: nat, id: nat, claimed: int)
    | Ran(now: int, mode: Mode, todo: seq<nat>, seen: nat, id: nat)
    | Idle(now: int, seen: nat)

  /** History: schedule `id` ran its payload at clock time `at`, for the `next_run_at` it had claimed. */
  datatype Firing = Firing(id: nat, occurrence: int, at: int)

  datatype State = State(clock: int, rows: Table, engines: map<string, Engine>, fired: seq<Firing>)

  /** What one engine does next. */
  datatype Action =
    | Start
    | ReadStuck
    | RecoverOne
    | BeginCatchUp
    | ReadDue
    | SkipOne
    | ClaimOne
    | Fire
    | PayloadRejected
    | AdvanceOne(outcome: Outcome)
    | Return
    | BeginPoll
    | Crash

  datatype Step =
    | Tick(to: int)
    | Create(row: Row)
    | Cancel(id: nat)
    | Act(p: string, action: Action)

  function EngineOf(s: State, p: string): Engine {
    if p in s.engines then s.engines[p] else Down
  }

  function WithEngine(s: State, p: string, e: Engine): State {
    s.(engines := s.engines[p := e])
  }

  function Ids(rows: seq<Row>): seq<nat> {
    Keys(rows, NumberOf)
  }

  /** The engine's `next_after` with its one-hour fallback. */
  ghost function NextRun(spec: Cron.CronSpec, now: int): int {
    if Cron.WellFormed(spec) && Cron.Satisfiable(spec)
    then Cron.NextOccurrence(spec, now) * MICROS_PER_MINUTE
    else now + 60 * MICROS_PER_MINUTE
  }

  /** What the tool stores: a satisfiable expression, its first occurrence after the tool's own clock
      reading, and that reading. The insert may come later than the reading. */
  ghost predicate FromTool(row: Row, clock: int) {
    && Cron.WellFormed(row.spec) && Cron.Satisfiable(row.spec)
    && row.created <= clock
    && row.nextRun == NextRun(row.spec, row.created)
    && row.status == Active && row.lastRun == None && row.lastStatus == None
  }

  ghost predicate Init(s: State) {
    s.rows == [] && s.engines == map[] && s.fired == [] && s.clock < SENTINEL
  }

  /** One atomic step of the engine of platform `p`. */
  ghost predicate EngineNext(s: State, s': State, p: string, action: Action) {
    var e := EngineOf(s, p);
    match action
    case Start =>
      e.Down? && s' == WithEngine(s, p, RecoverRead(s.clock))
    case ReadStuck =>
      e.RecoverRead? && s' == WithEngine(s, p, Recovering(e.now, Ids(StuckRows(s.rows, Some(p)))))
    case RecoverOne =>
      && e.Recovering? && e.stuck != [] && Has(s.rows, e.stuck[0])
      && s' == WithAdvance(s, p, Recovering(e.now, e.stuck[1..]), e.stuck[0], e.now, Recovered)
    case BeginCatchUp =>
      e.Recovering? && e.stuck == [] && s' == WithEngine(s, p, DueRead(s.clock, CatchUp))
    case ReadDue =>
      && e.DueRead?
      && s' == WithEngine(s, p, Serving(e.now, e.mode, Ids(DueRows(s.rows, e.now, Some(p))), |s.rows|))
    case SkipOne =>
      && e.Serving? && e.todo != [] && Has(s.rows, e.todo[0]) && Skips(s, e)
      && s' == WithAdvance(s, p, Serving(e.now, e.mode, e.todo[1..], e.seen), e.todo[0], e.now, Skipped)
    case ClaimOne =>
      && e.Serving? && e.todo != [] && Has(s.rows, e.todo[0]) && !Skips(s, e)
      && var id := e.todo[0];
         if Claimable(s.rows, id, Some(p))
         then s' == WithEngine(s, p, Running(e.now, e.mode, e.todo[1..], e.seen, id, s.rows[id - 1].nextRun))
                    .(rows := Claimed(s.rows, id, Some(p)))
         else s' == WithEngine(s, p, Serving(e.now, e.mode, e.todo[1..], e.seen))
    case Fire =>
      && e.Running?
      && s' == WithEngine(s, p, Ran(e.now, e.mode, e.todo, e.seen, e.id))
               .(fired := s.fired + [Firing(e.id, e.claimed, s.clock)])
    case PayloadRejected =>
      e.Running? && s' == WithEngine(s, p, Ran(e.now, e.mode, e.todo, e.seen, e.id))
    case AdvanceOne(outcome) =>
      && e.Ran? && Has(s.rows, e.id) && (outcome == Ok || outcome == Failed)
      && s' == WithAdvance(s, p, Serving(e.now, e.mode, e.todo, e.seen), e.id, e.now, outcome)
    case Return =>
      e.Serving? && e.todo == [] && s' == WithEngine(s, p, Idle(e.now, e.seen))
    case BeginPoll =>
      e.Idle? && s' == WithEngine(s, p, DueRead(s.clock, Poll))
    case Crash =>
      !e.Down? && s' == WithEngine(s, p, Down)
  }

  /** The catch-up loop passes over a row that is not to run late. */
  predicate Skips(s: State, e: Engine)
    requires e.Serving? && e.todo != [] && Has(s.rows, e.todo[0])
  {
    e.mode == CatchUp && s.rows[e.todo[0] - 1].onMiss == Skip
  }

  /** The engine moves on and `advance_after_run` rewrites one row. */
  ghost function WithAdvance(s: State, p: string, e: Engine, id: nat, now: int, outcome: Outcome): State
    requires Has(s.rows, id)
  {
    WithEngine(s, p, e).(rows := Advanced(s.rows, id, NextRun(s.rows[id - 1].spec, now), now, outcome))
  }

  /** One atomic step: a clock move, a tool transaction, or one step of one engine. */
  ghost predicate Next(s: State, s': State, step: Step) {
    match step
    case Tick(to) => s.clock <= to < SENTINEL && s' == s.(clock := to)
    case Create(row) => FromTool(row, s.clock) && s' == s.(rows := Inserted(s.rows, row))
    case Cancel(id) => s' == s.(rows := WithCancelled(s.rows, id))
    case Act(p, action) => EngineNext(s, s', p, action)
  }

  /** A run: the states between the steps, from an empty table. */
  ghost predicate Run(states: seq<State>, steps: seq<Step>) {
    && |states| == |steps| + 1
    && Init(states[0])
    && forall i :: 0 <= i < |steps| ==> StepAt(states, steps, i)
  }

  ghost predicate StepAt(states: seq<State>, steps: seq<Step>, i: int)
    requires 0 <= i < |steps| && |states| == |steps| + 1
  {
    Next(states[i], states[i + 1], steps[i])
  }

  // ---- the invariant ----

  /** `x` is the instant of a minute the expression matches. */
  ghost predicate OccurrenceTime(spec: Cron.CronSpec, x: int) {
    exists n :: Cron.OccursAt(spec, n) && x == n * MICROS_PER_MINUTE
  }

  ghost predicate RowOk(row: Row, clock: int) {
    && Cron.WellFormed(row.spec) && Cron.Satisfiable(row.spec) && row.created <= clock
    && (row.nextRun != SENTINEL ==> OccurrenceTime(row.spec, row.nextRun) && row.created < row.nextRun)
  }

  /** A firing is for a real occurrence after the creation, not in the future; an unclaimed row waits
      for a later one; and the engine's clock reading is past it. */
  ghost predicate FiringOk(s: State, f: Firing) {
    && Has(s.rows, f.id)
    && var row := s.rows[f.id - 1];
       && OccurrenceTime(row.spec, f.occurrence)
       && row.created < f.occurrence <= f.at <= s.clock
       && (row.nextRun != SENTINEL ==> f.occurrence < row.nextRun)
       && (!EngineOf(s, row.platform).Down? ==> f.occurrence <= EngineOf(s, row.platform).now)
  }

  /** The firing is of a schedule of platform `p`. */
  predicate FiredFor(s: State, p: string, f: Firing) {
    Has(s.rows, f.id) && s.rows[f.id - 1].platform == p
  }

  ghost predicate FiringsOk(s: State, p: string) {
    && (forall k :: 0 <= k < |s.fired| && FiredFor(s, p, s.fired[k]) ==> FiringOk(s, s.fired[k]))
    && (forall j, k :: 0 <= j < k < |s.fired| && s.fired[j].id == s.fired[k].id && FiredFor(s, p, s.fired[k]) ==>
          s.fired[j].occurrence < s.fired[k].occurrence)
  }

  ghost predicate TodoOk(s: State, p: string, now: int, todo: seq<nat>, seen: nat) {
    && Distinct(todo) && seen <= |s.rows|
    && forall i :: 0 <= i < |todo| ==>
         1 <= todo[i] <= seen && s.rows[todo[i] - 1].platform == p && s.rows[todo[i] - 1].nextRun <= now
  }

  /** The row an engine holds is its own, sits at the sentinel, and is not also still to do. */
  ghost predicate HeldOk(s: State, p: string, id: nat, todo: seq<nat>, seen: nat) {
    1 <= id <= seen <= |s.rows| && s.rows[id - 1].platform == p && s.rows[id - 1].nextRun == SENTINEL && id !in todo
  }

  ghost predicate EngineOk(s: State, p: string) {
    match EngineOf(s, p)
    case Down => true
    case RecoverRead(now) => now <= s.clock
    case Recovering(now, stuck) =>
      && now <= s.clock && Distinct(stuck)
      && forall i :: 0 <= i < |stuck| ==>
           Has(s.rows, stuck[i]) && s.rows[stuck[i] - 1].platform == p && s.rows[stuck[i] - 1].nextRun == SENTINEL
    case DueRead(now, _) => now <= s.clock
    case Serving(now, _, todo, seen) => now <= s.clock && TodoOk(s, p, now, todo, seen)
    case Running(now, _, todo, seen, id, claimed) =>
      && now <= s.clock && TodoOk(s, p, now, todo, seen) && HeldOk(s, p, id, todo, seen)
      && OccurrenceTime(s.rows[id - 1].spec, claimed) && s.rows[id - 1].created < claimed <= now
      && forall k :: 0 <= k < |s.fired| && s.fired[k].id == id ==> s.fired[k].occurrence < claimed
    case Ran(now, _, todo, seen, id) =>
      now <= s.clock && TodoOk(s, p, now, todo, seen) && HeldOk(s, p, id, todo, seen)
    case Idle(now, seen) => now <= s.clock && seen <= |s.rows|
  }

  /** The engine is running this row, is recovering it, or is down or about to look for it. */
  predicate Accounts(e: Engine, id: nat) {
    || e.Down?
    || e.RecoverRead?
    || (e.Recovering? && id in e.stuck)
    || ((e.Running? || e.Ran?) && e.id == id)
  }

  /** Rows the loop has already dealt with, or that were not due, lie after its clock reading. */
  predicate Settled(e: Engine, row: Row) {
    match e
    case Serving(now, _, todo, seen) => row.number <= seen && row.number !in todo ==> now < row.nextRun
    case Running(now, _, todo, seen, _, _) => row.number <= seen && row.number !in todo ==> now < row.nextRun
    case Ran(now, _, todo, seen, _) => row.number <= seen && row.number !in todo ==> now < row.nextRun
    case Idle(now, seen) => row.number <= seen ==> now < row.nextRun
    case _ => true
  }

  /** Rows inserted after the due selection still wait for their first occurrence. */
  ghost predicate Fresh(e: Engine, row: Row) {
    (e.Serving? || e.Running? || e.Ran? || e.Idle?) && e.seen < row.number ==>
      row.nextRun == NextRun(row.spec, row.created)
  }

  /** An active row at the sentinel is accounted for by the engine of its own platform. */
  ghost predicate Placed(s: State, row: Row) {
    var e := EngineOf(s, row.platform);
    && Fresh(e, row)
    && (row.nextRun == SENTINEL && !e.Down? ==> row.created <= e.now)
    && (row.status == Active ==> Settled(e, row))
    && (row.status == Active && row.nextRun == SENTINEL ==> Accounts(e, row.number))
  }

  ghost predicate RowsOk(s: State, p: string) {
    forall i :: 0 <= i < |s.rows| && s.rows[i].platform == p ==> RowOk(s.rows[i], s.clock) && Placed(s, s.rows[i])
  }

  /** What holds of one platform: its rows, its firings and its engine. */
  ghost predicate PlatformOk(s: State, p: string) {
    RowsOk(s, p) && FiringsOk(s, p) && EngineOk(s, p)
  }

  ghost predicate TableOk(s: State) {
    && s.clock < SENTINEL && Numbered(s.rows)
    && forall k :: 0 <= k < |s.fired| ==> Has(s.rows, s.fired[k].id)
  }

  ghost predicate Inv(s: State) {
    TableOk(s) && forall p :: PlatformOk(s, p)
  }

  // ---- facts about the next run ----

  /** For a satisfiable expression the fallback never runs: the next run is a later occurrence. */
  lemma NextRunIsLaterOccurrence(spec: Cron.CronSpec, now: int)
    requires Cron.WellFormed(spec) && Cron.Satisfiable(spec)
    ensures OccurrenceTime(spec, NextRun(spec, now)) && now < NextRun(spec, now)
  {
    assert Cron.OccursAt(spec, Cron.NextOccurrence(spec, now));
  }

  /** The sentinel ends in second 59, so no cron minute equals it. */
  lemma SentinelIsNoOccurrence(spec: Cron.CronSpec, x: int)
    requires OccurrenceTime(spec, x)
    ensures x != SENTINEL
  {
    var n :| Cron.OccursAt(spec, n) && x == n * MICROS_PER_MINUTE;
    var stamp := MinuteStamp(DateTime(9999, 12, 31, 23, 59, 59, 0));
    assert SENTINEL == stamp * MICROS_PER_MINUTE + 59 * 1_000_000;
    assert n == stamp || n < stamp || stamp < n;
  }

  // ---- what one platform does leaves the others alone ----

  /** Nothing that platform `q` depends on changes between the two states. */
  ghost predicate Frame(s: State, s': State, q: string) {
    && s.clock <= s'.clock && |s.rows| == |s'.rows| && |s.fired| <= |s'.fired|
    && EngineOf(s', q) == EngineOf(s, q)
    && (forall i :: 0 <= i < |s.rows| ==>
          && s'.rows[i].platform == s.rows[i].platform
          && (s.rows[i].platform == q ==> s'.rows[i] == s.rows[i]))
    && (forall k :: 0 <= k < |s.fired| ==> s'.fired[k] == s.fired[k])
    && (forall k :: |s.fired| <= k < |s'.fired| ==> !FiredFor(s, q, s'.fired[k]))
  }

  lemma FrameKeeps(s: State, s': State, q: string)
    requires PlatformOk(s, q) && Frame(s, s', q)
    ensures PlatformOk(s', q)
  {
    hide OccurrenceTime, NextRun, Cron.WellFormed, Cron.Satisfiable;
    FrameEngine(s, s', q);
    forall k | 0 <= k < |s'.fired| && FiredFor(s', q, s'.fired[k])
      ensures FiringOk(s', s'.fired[k])
    {
      assert FiringOk(s, s.fired[k]);
    }
    assert forall i :: 0 <= i < |s.rows| && s.rows[i].platform == q ==> Placed(s, s.rows[i]);
  }

  lemma FrameEngine(s: State, s': State, q: string)
    requires EngineOk(s, q) && Frame(s, s', q)
    ensures EngineOk(s', q)
  {
    hide OccurrenceTime, NextRun, Cron.WellFormed, Cron.Satisfiable;
  }

  // ---- the tool's steps and the clock ----

  lemma TickKeeps(s: State, s': State, to: int, q: string)
    requires PlatformOk(s, q) && Next(s, s', Tick(to))
    ensures PlatformOk(s', q)
  {
    hide OccurrenceTime, NextRun, Cron.WellFormed, Cron.Satisfiable;
    FrameKeeps(s, s', q);
  }

  lemma CreateKeepsEngine(s: State, s': State, row: Row, q: string)
    requires EngineOk(s, q) && s' == s.(rows := Inserted(s.rows, row))
    ensures EngineOk(s', q)
  {
    hide OccurrenceTime, NextRun, Cron.WellFormed, Cron.Satisfiable;
  }

  lemma CreateKeeps(s: State, s': State, row: Row, q: string)
    requires TableOk(s) && PlatformOk(s, q) && Next(s, s', Create(row))
    ensures PlatformOk(s', q)
  {
    CreateKeepsEngine(s, s', row, q);
    NextRunIsLaterOccurrence(row.spec, row.created);
    SentinelIsNoOccurrence(row.spec, row.nextRun);
    forall k | 0 <= k < |s.fired| && FiredFor(s', q, s.fired[k])
      ensures FiringOk(s', s.fired[k])
    {
      assert FiringOk(s, s.fired[k]);
    }
    forall i | 0 <= i < |s'.rows| && s'.rows[i].platform == q
      ensures RowOk(s'.rows[i], s'.clock) && Placed(s', s'.rows[i])
    {
      if i < |s.rows| {
        assert Placed(s, s.rows[i]);
      }
    }
  }

  lemma CancelKeeps(s: State, s': State, id: nat, q: string)
    requires PlatformOk(s, q) && Next(s, s', Cancel(id))
    ensures PlatformOk(s', q)
  {
    hide OccurrenceTime, NextRun, Cron.WellFormed, Cron.Satisfiable;
    CancelKeepsEngine(s, s', id, q);
    CancelKeepsFirings(s, s', id, q);
    assert forall i :: 0 <= i < |s.rows| && s.rows[i].platform == q ==> Placed(s, s.rows[i]);
  }

  lemma CancelKeepsFirings(s: State, s': State, id: nat, q: string)
    requires FiringsOk(s, q) && s' == s.(rows := WithCancelled(s.rows, id))
    ensures FiringsOk(s', q)
  {
    hide OccurrenceTime, NextRun, Cron.WellFormed, Cron.Satisfiable;
    forall k | 0 <= k < |s.fired| && FiredFor(s', q, s.fired[k])
      ensures FiringOk(s', s.fired[k])
    {
      assert FiredFor(s, q, s.fired[k]) && FiringOk(s, s.fired[k]);
    }
  }

  lemma CancelKeepsEngine(s: State, s': State, id: nat, q: string)
    requires EngineOk(s, q) && s' == s.(rows := WithCancelled(s.rows, id))
    ensures EngineOk(s', q)
  {
    hide OccurrenceTime, NextRun, Cron.WellFormed, Cron.Satisfiable;
  }

  // ---- an engine's steps, seen from its own platform ----

  /** A step that only moves engine `p`. */
  lemma EngineMoveKeeps(s: State, s': State, p: string, e: Engine)
    requires PlatformOk(s, p) && s' == WithEngine(s, p, e)
    requires EngineOk(s', p)
    requires forall i :: 0 <= i < |s.rows| && s.rows[i].platform == p ==> Placed(s', s.rows[i])
    requires e.Down? || e.now == s.clock || (!EngineOf(s, p).Down? && e.now == EngineOf(s, p).now)
    ensures PlatformOk(s', p)
  {
    hide OccurrenceTime, NextRun, Cron.WellFormed, Cron.Satisfiable;
    forall k | 0 <= k < |s.fired| && FiredFor(s', p, s.fired[k])
      ensures FiringOk(s', s.fired[k])
    {
      assert FiringOk(s, s.fired[k]);
    }
  }

  /** The engine moves to a point where it has selected nothing yet, or stops. */
  lemma StartOverKeeps(s: State, s': State, p: string, e: Engine)
    requires PlatformOk(s, p) && s' == WithEngine(s, p, e)
    requires
      || (e == RecoverRead(s.clock) && EngineOf(s, p).Down?)
      || e.Down?
      || (e.DueRead? && e.now == s.clock && EngineOf(s, p).Recovering? && EngineOf(s, p).stuck == [])
      || (e.DueRead? && e.now == s.clock && EngineOf(s, p).Idle?)
    ensures PlatformOk(s', p)
  {
    hide OccurrenceTime, NextRun, Cron.WellFormed, Cron.Satisfiable;
    assert forall i :: 0 <= i < |s.rows| && s.rows[i].platform == p ==> Placed(s, s.rows[i]);
    EngineMoveKeeps(s, s', p, e);
  }

  lemma ReturnKeeps(s: State, s': State, p: string)
    requires PlatformOk(s, p) && EngineNext(s, s', p, Return)
    ensures PlatformOk(s', p)
  {
    hide OccurrenceTime, NextRun, Cron.WellFormed, Cron.Satisfiable;
    var e := EngineOf(s, p);
    assert forall i :: 0 <= i < |s.rows| && s.rows[i].platform == p ==> Placed(s, s.rows[i]);
    EngineMoveKeeps(s, s', p, Idle(e.now, e.seen));
  }

  lemma PayloadRejectedKeeps(s: State, s': State, p: string)
    requires PlatformOk(s, p) && EngineNext(s, s', p, PayloadRejected)
    ensures PlatformOk(s', p)
  {
    hide OccurrenceTime, NextRun, Cron.WellFormed, Cron.Satisfiable;
    var e := EngineOf(s, p);
    assert forall i :: 0 <= i < |s.rows| && s.rows[i].platform == p ==> Placed(s, s.rows[i]);
    EngineMoveKeeps(s, s', p, Ran(e.now, e.mode, e.todo, e.seen, e.id));
  }

  lemma StuckAreOwn(s: State, p: string)
    requires TableOk(s)
    ensures var ids := Ids(StuckRows(s.rows, Some(p)));
      && Distinct(ids)
      && (forall i :: 0 <= i < |ids| ==>
            Has(s.rows, ids[i]) && s.rows[ids[i] - 1].platform == p && s.rows[ids[i] - 1].nextRun == SENTINEL)
      && forall i :: 0 <= i < |s.rows| && IsStuck(s.rows[i], Some(p)) ==> i + 1 in ids
  {
    var keep := (row: Row) => IsStuck(row, Some(p));
    var stuck := Select(s.rows, keep);
    var ids := Ids(stuck);
    SelectedDistinct(s.rows, NumberOf, 1, keep);
    forall i | 0 <= i < |ids|
      ensures Has(s.rows, ids[i]) && s.rows[ids[i] - 1] == stuck[i] && IsStuck(stuck[i], Some(p))
    {
      SelectKeepsExactly(s.rows, keep, stuck[i]);
    }
    forall i | 0 <= i < |s.rows| && IsStuck(s.rows[i], Some(p))
      ensures i + 1 in ids
    {
      SelectKeepsExactly(s.rows, keep, s.rows[i]);
      var j :| 0 <= j < |stuck| && stuck[j] == s.rows[i];
      assert ids[j] == i + 1;
    }
  }

  lemma ReadStuckKeeps(s: State, s': State, p: string)
    requires TableOk(s) && PlatformOk(s, p) && EngineNext(s, s', p, ReadStuck)
    ensures PlatformOk(s', p)
  {
    hide OccurrenceTime, NextRun, Cron.WellFormed, Cron.Satisfiable;
    assert forall i :: 0 <= i < |s.rows| && s.rows[i].platform == p ==> Placed(s, s.rows[i]);
    StuckAreOwn(s, p);
    EngineMoveKeeps(s, s', p, Recovering(EngineOf(s, p).now, Ids(StuckRows(s.rows, Some(p)))));
  }

  lemma DueIsOwn(s: State, p: string, now: int, row: Row)
    requires TableOk(s) && row in DueRows(s.rows, now, Some(p))
    ensures Has(s.rows, row.number) && s.rows[row.number - 1] == row && row.platform == p && row.nextRun <= now
  {
    DueSelectsExactly(s.rows, now, Some(p), row);
  }

  lemma DueDistinct(t: Table, p: string, now: int)
    requires Numbered(t)
    ensures Distinct(Ids(DueRows(t, now, Some(p))))
  {
    var keep := (row: Row) => IsDue(row, now, Some(p));
    SelectedDistinct(t, NumberOf, 1, keep);
    SortKeeps(Select(t, keep), DueOrder);
    DistinctByCount(Select(t, keep), DueRows(t, now, Some(p)), NumberOf);
  }

  lemma DueAreOwn(s: State, p: string, now: int)
    requires TableOk(s)
    ensures TodoOk(s, p, now, Ids(DueRows(s.rows, now, Some(p))), |s.rows|)
  {
    hide OccurrenceTime, NextRun, Cron.WellFormed, Cron.Satisfiable;
    var due := DueRows(s.rows, now, Some(p));
    DueDistinct(s.rows, p, now);
    forall i | 0 <= i < |due|
      ensures 1 <= Ids(due)[i] <= |s.rows| && s.rows[Ids(due)[i] - 1] == due[i]
      ensures due[i].platform == p && due[i].nextRun <= now
    {
      DueIsOwn(s, p, now, due[i]);
    }
  }

  lemma DueAreAll(s: State, p: string, now: int, i: nat)
    requires TableOk(s) && i < |s.rows| && IsDue(s.rows[i], now, Some(p))
    ensures i + 1 in Ids(DueRows(s.rows, now, Some(p)))
  {
    var due := DueRows(s.rows, now, Some(p));
    DueSelectsExactly(s.rows, now, Some(p), s.rows[i]);
    var j :| 0 <= j < |due| && due[j] == s.rows[i];
    assert Ids(due)[j] == i + 1;
  }

  lemma ReadDueKeeps(s: State, s': State, p: string)
    requires TableOk(s) && PlatformOk(s, p) && EngineNext(s, s', p, ReadDue)
    ensures PlatformOk(s', p)
  {
    hide OccurrenceTime, NextRun, Cron.WellFormed, Cron.Satisfiable;
    var e := EngineOf(s, p);
    DueAreOwn(s, p, e.now);
    forall i | 0 <= i < |s.rows| && s.rows[i].platform == p
      ensures Placed(s', s.rows[i])
    {
      assert Placed(s, s.rows[i]);
      if IsDue(s.rows[i], e.now, Some(p)) {
        DueAreAll(s, p, e.now, i);
      }
    }
    EngineMoveKeeps(s, s', p, Serving(e.now, e.mode, Ids(DueRows(s.rows, e.now, Some(p))), |s.rows|));
  }

  /** Engine `p` moves to `e` and rewrites row `id` of its platform, keeping its identity. */
  ghost predicate RowStep(s: State, s': State, p: string, e: Engine, id: nat, row: Row) {
    && Has(s.rows, id) && s.rows[id - 1].platform == p == row.platform
    && row.number == id && row.spec == s.rows[id - 1].spec && row.created == s.rows[id - 1].created
    && s' == WithEngine(s, p, e).(rows := s.rows[id - 1 := row])
    && !e.Down? && !EngineOf(s, p).Down? && e.now == EngineOf(s, p).now
  }

  lemma RowStepFirings(s: State, s': State, p: string, e: Engine, id: nat, row: Row)
    requires PlatformOk(s, p) && RowStep(s, s', p, e, id, row)
    requires row.nextRun == SENTINEL || e.now < row.nextRun
    ensures FiringsOk(s', p)
  {
    hide OccurrenceTime, NextRun, Cron.WellFormed, Cron.Satisfiable;
    forall k | 0 <= k < |s.fired| && FiredFor(s', p, s.fired[k])
      ensures FiringOk(s', s.fired[k])
    {
      assert FiredFor(s, p, s.fired[k]) && FiringOk(s, s.fired[k]);
    }
  }

  /** The rewritten row leaves every other id of a to-do list as it was. */
  lemma RowStepTodo(s: State, s': State, p: string, e: Engine, id: nat, row: Row, now: int, todo: seq<nat>,
                    seen: nat)
    requires RowStep(s, s', p, e, id, row) && TodoOk(s, p, now, todo, seen) && id !in todo
    ensures TodoOk(s', p, now, todo, seen)
  {
    hide OccurrenceTime, NextRun, Cron.WellFormed, Cron.Satisfiable;
  }

  /** The row after `advance_after_run`, for a clock reading not before its creation. */
  lemma AdvancedRowOk(row: Row, now: int, clock: int, outcome: Outcome) returns (row': Row)
    requires RowOk(row, clock) && row.created <= now
    ensures row' == row.(nextRun := NextRun(row.spec, now), lastRun := Some(now), lastStatus := Some(outcome))
    ensures RowOk(row', clock) && now < row'.nextRun && row'.nextRun != SENTINEL
  {
    row' := row.(nextRun := NextRun(row.spec, now), lastRun := Some(now), lastStatus := Some(outcome));
    NextRunIsLaterOccurrence(row.spec, now);
    SentinelIsNoOccurrence(row.spec, row'.nextRun);
  }

  lemma RecoverOneKeeps(s: State, s': State, p: string)
    requires TableOk(s) && PlatformOk(s, p) && EngineNext(s, s', p, RecoverOne)
    ensures PlatformOk(s', p)
  {
    hide OccurrenceTime, NextRun, Cron.WellFormed, Cron.Satisfiable;
    var e := EngineOf(s, p);
    var id := e.stuck[0];
    assert Placed(s, s.rows[id - 1]);
    var row := AdvancedRowOk(s.rows[id - 1], e.now, s.clock, Recovered);
    TailOf(e.stuck);
    var e' := Recovering(e.now, e.stuck[1..]);
    RowStepFirings(s, s', p, e', id, row);
    assert EngineOk(s', p);
    forall i | 0 <= i < |s'.rows| && s'.rows[i].platform == p
      ensures RowOk(s'.rows[i], s'.clock) && Placed(s', s'.rows[i])
    {
      assert Placed(s, s.rows[i]);
    }
  }

  /** The engine `e` is at work on row `id`, with `todo` to do after it. */
  predicate WorksOn(e: Engine, id: nat, todo: seq<nat>) {
    || (e.Serving? && e.todo != [] && id == e.todo[0] && todo == e.todo[1..])
    || (e.Ran? && id == e.id && todo == e.todo)
  }

  lemma WorksOnOwn(s: State, p: string, id: nat, todo: seq<nat>)
    requires EngineOk(s, p) && WorksOn(EngineOf(s, p), id, todo)
    ensures TodoOk(s, p, EngineOf(s, p).now, todo, EngineOf(s, p).seen) && id !in todo
    ensures 1 <= id <= EngineOf(s, p).seen <= |s.rows| && s.rows[id - 1].platform == p
    ensures s.rows[id - 1].nextRun == SENTINEL || s.rows[id - 1].nextRun <= EngineOf(s, p).now
    ensures EngineOf(s, p).Serving? ==> forall x :: x in EngineOf(s, p).todo <==> x == id || x in todo
  {
    hide OccurrenceTime, NextRun, Cron.WellFormed, Cron.Satisfiable;
    var e := EngineOf(s, p);
    if e.Serving? {
      TailOf(e.todo);
      assert forall j :: 0 <= j < |todo| ==> todo[j] == e.todo[j + 1];
    }
  }

  /** One row of the platform after the row in hand was advanced. */
  lemma SettlePlaces(s: State, s': State, p: string, id: nat, todo: seq<nat>, row: Row, i: nat)
    requires var e := EngineOf(s, p);
      && WorksOn(e, id, todo) && id !in todo
      && (e.Serving? ==> forall x :: x in e.todo <==> x == id || x in todo)
      && RowStep(s, s', p, Serving(e.now, e.mode, todo, e.seen), id, row)
      && e.now < row.nextRun && row.nextRun != SENTINEL
    requires TableOk(s) && i < |s.rows| && s.rows[i].platform == p && Placed(s, s.rows[i])
    requires EngineOf(s, p).seen <= |s.rows|
    requires id <= EngineOf(s, p).seen
    ensures Placed(s', s'.rows[i])
  {
    hide OccurrenceTime, NextRun, Cron.WellFormed, Cron.Satisfiable;
  }

  /** Advancing the row in hand, or the first of the to-do list, settles it. */
  lemma SettleKeeps(s: State, s': State, p: string, id: nat, todo: seq<nat>, outcome: Outcome)
    requires TableOk(s) && PlatformOk(s, p) && WorksOn(EngineOf(s, p), id, todo)
    requires Has(s.rows, id)
    requires var e := EngineOf(s, p); s' == WithAdvance(s, p, Serving(e.now, e.mode, todo, e.seen), id, e.now, outcome)
    ensures PlatformOk(s', p)
  {
    hide OccurrenceTime, NextRun, Cron.WellFormed, Cron.Satisfiable;
    var e := EngineOf(s, p);
    WorksOnOwn(s, p, id, todo);
    assert Placed(s, s.rows[id - 1]);
    var row := AdvancedRowOk(s.rows[id - 1], e.now, s.clock, outcome);
    var e' := Serving(e.now, e.mode, todo, e.seen);
    RowStepFirings(s, s', p, e', id, row);
    RowStepTodo(s, s', p, e', id, row, e.now, todo, e.seen);
    forall i | 0 <= i < |s'.rows| && s'.rows[i].platform == p
      ensures RowOk(s'.rows[i], s'.clock) && Placed(s', s'.rows[i])
    {
      assert Placed(s, s.rows[i]);
      SettlePlaces(s, s', p, id, todo, row, i);
    }
  }

  lemma ClaimOneKeeps(s: State, s': State, p: string)
    requires TableOk(s) && PlatformOk(s, p) && EngineNext(s, s', p, ClaimOne)
    ensures PlatformOk(s', p)
  {
    hide OccurrenceTime, NextRun, Cron.WellFormed, Cron.Satisfiable;
    var e := EngineOf(s, p);
    var id, todo := e.todo[0], e.todo[1..];
    WorksOnOwn(s, p, id, todo);
    if Claimable(s.rows, id, Some(p)) {
      ClaimWonKeeps(s, s', p, id, todo);
    } else {
      ClaimLostKeeps(s, s', p, id, todo);
    }
  }

  /** A due row that cannot be claimed was cancelled in between. */
  lemma ClaimLostKeeps(s: State, s': State, p: string, id: nat, todo: seq<nat>)
    requires TableOk(s) && PlatformOk(s, p)
    requires EngineOf(s, p).Serving? && WorksOn(EngineOf(s, p), id, todo)
    requires Has(s.rows, id) && !Claimable(s.rows, id, Some(p))
    requires s' == WithEngine(s, p, Serving(EngineOf(s, p).now, EngineOf(s, p).mode, todo, EngineOf(s, p).seen))
    ensures PlatformOk(s', p)
  {
    hide OccurrenceTime, NextRun, Cron.WellFormed, Cron.Satisfiable;
    var e := EngineOf(s, p);
    WorksOnOwn(s, p, id, todo);
    assert s.rows[id - 1].status == Cancelled;
    forall i | 0 <= i < |s.rows| && s.rows[i].platform == p
      ensures Placed(s', s.rows[i])
    {
      assert Placed(s, s.rows[i]);
    }
    EngineMoveKeeps(s, s', p, Serving(e.now, e.mode, todo, e.seen));
  }

  lemma ClaimPlaces(s: State, s': State, p: string, id: nat, todo: seq<nat>, i: nat)
    requires var e := EngineOf(s, p);
      && e.Serving? && id !in todo && (forall x :: x in e.todo <==> x == id || x in todo)
      && Has(s.rows, id) && s.rows[id - 1].nextRun <= e.now
      && RowStep(s, s', p, Running(e.now, e.mode, todo, e.seen, id, s.rows[id - 1].nextRun), id,
                 s.rows[id - 1].(nextRun := SENTINEL))
    requires TableOk(s) && i < |s.rows| && s.rows[i].platform == p && Placed(s, s.rows[i])
    requires RowOk(s.rows[i], s.clock) && EngineOf(s, p).now <= s.clock && id <= EngineOf(s, p).seen
    ensures Placed(s', s'.rows[i])
  {
    hide OccurrenceTime, NextRun, Cron.WellFormed, Cron.Satisfiable;
  }

  lemma ClaimHolds(s: State, s': State, p: string, id: nat, todo: seq<nat>)
    requires PlatformOk(s, p) && TableOk(s)
    requires var e := EngineOf(s, p);
      && WorksOn(e, id, todo) && e.Serving? && Claimable(s.rows, id, Some(p))
      && RowStep(s, s', p, Running(e.now, e.mode, todo, e.seen, id, s.rows[id - 1].nextRun), id,
                 s.rows[id - 1].(nextRun := SENTINEL))
    ensures EngineOk(s', p)
  {
    hide OccurrenceTime, NextRun, Cron.WellFormed, Cron.Satisfiable;
    var e := EngineOf(s, p);
    var row := s.rows[id - 1].(nextRun := SENTINEL);
    WorksOnOwn(s, p, id, todo);
    RowStepTodo(s, s', p, EngineOf(s', p), id, row, e.now, todo, e.seen);
    forall k | 0 <= k < |s.fired| && s.fired[k].id == id
      ensures s.fired[k].occurrence < s.rows[id - 1].nextRun
    {
      assert FiredFor(s, p, s.fired[k]) && FiringOk(s, s.fired[k]);
    }
    assert HeldOk(s', p, id, todo, e.seen);
  }

  lemma ClaimWonKeeps(s: State, s': State, p: string, id: nat, todo: seq<nat>)
    requires TableOk(s) && PlatformOk(s, p)
    requires EngineOf(s, p).Serving? && WorksOn(EngineOf(s, p), id, todo)
    requires Claimable(s.rows, id, Some(p))
    requires var e := EngineOf(s, p);
      s' == WithEngine(s, p, Running(e.now, e.mode, todo, e.seen, id, s.rows[id - 1].nextRun))
            .(rows := Claimed(s.rows, id, Some(p)))
    ensures PlatformOk(s', p)
  {
    hide OccurrenceTime, NextRun, Cron.WellFormed, Cron.Satisfiable;
    WorksOnOwn(s, p, id, todo);
    RowStepFirings(s, s', p, EngineOf(s', p), id, s.rows[id - 1].(nextRun := SENTINEL));
    ClaimHolds(s, s', p, id, todo);
    forall i | 0 <= i < |s'.rows| && s'.rows[i].platform == p
      ensures RowOk(s'.rows[i], s'.clock) && Placed(s', s'.rows[i])
    {
      assert Placed(s, s.rows[i]);
      ClaimPlaces(s, s', p, id, todo, i);
    }
  }

  lemma FireKeeps(s: State, s': State, p: string)
    requires TableOk(s) && PlatformOk(s, p) && EngineNext(s, s', p, Fire)
    ensures PlatformOk(s', p)
  {
    hide OccurrenceTime, NextRun, Cron.WellFormed, Cron.Satisfiable;
    assert EngineOk(s', p);
    FireFirings(s, s', p);
    forall i | 0 <= i < |s'.rows| && s'.rows[i].platform == p
      ensures RowOk(s'.rows[i], s'.clock) && Placed(s', s'.rows[i])
    {
      assert Placed(s, s.rows[i]);
    }
  }

  lemma FireFirings(s: State, s': State, p: string)
    requires TableOk(s) && FiringsOk(s, p) && EngineOk(s, p) && EngineNext(s, s', p, Fire)
    ensures FiringsOk(s', p)
  {
    hide OccurrenceTime, NextRun, Cron.WellFormed, Cron.Satisfiable;
    forall k | 0 <= k < |s'.fired| && FiredFor(s', p, s'.fired[k])
      ensures FiringOk(s', s'.fired[k])
    {
      if k < |s.fired| {
        assert FiringOk(s, s.fired[k]);
      }
    }
  }

  // ---- every step keeps the invariant ----

  lemma OwnStepKeeps(s: State, s': State, p: string, action: Action)
    requires TableOk(s) && PlatformOk(s, p) && EngineNext(s, s', p, action)
    ensures PlatformOk(s', p)
  {
    hide OccurrenceTime, NextRun, Cron.WellFormed, Cron.Satisfiable;
    var e := EngineOf(s, p);
    match action
    case Start => StartOverKeeps(s, s', p, RecoverRead(s.clock));
    case ReadStuck => ReadStuckKeeps(s, s', p);
    case RecoverOne => RecoverOneKeeps(s, s', p);
    case BeginCatchUp => StartOverKeeps(s, s', p, DueRead(s.clock, CatchUp));
    case ReadDue => ReadDueKeeps(s, s', p);
    case SkipOne => SettleKeeps(s, s', p, e.todo[0], e.todo[1..], Skipped);
    case ClaimOne => ClaimOneKeeps(s, s', p);
    case Fire => FireKeeps(s, s', p);
    case PayloadRejected => PayloadRejectedKeeps(s, s', p);
    case AdvanceOne(outcome) => SettleKeeps(s, s', p, e.id, e.todo, outcome);
    case Return => ReturnKeeps(s, s', p);
    case BeginPoll => StartOverKeeps(s, s', p, DueRead(s.clock, Poll));
    case Crash => StartOverKeeps(s, s', p, Down);
  }

  lemma AdvanceFramed(s: State, s': State, p: string, e: Engine, id: nat, now: int, outcome: Outcome, q: string)
    requires Has(s.rows, id) && s.rows[id - 1].platform == p && p != q
    requires s' == WithAdvance(s, p, e, id, now, outcome)
    ensures Frame(s, s', q)
  {
    hide NextRun;
  }

  /** An engine touches rows of its own platform only. */
  lemma OthersFramed(s: State, s': State, p: string, action: Action, q: string)
    requires EngineOk(s, p) && EngineNext(s, s', p, action) && p != q
    ensures Frame(s, s', q)
  {
    hide DueRows, StuckRows, Ids, NextRun, WithAdvance, OccurrenceTime, Cron.WellFormed, Cron.Satisfiable;
    var e := EngineOf(s, p);
    match action
    case RecoverOne => AdvanceFramed(s, s', p, Recovering(e.now, e.stuck[1..]), e.stuck[0], e.now, Recovered, q);
    case SkipOne => AdvanceFramed(s, s', p, Serving(e.now, e.mode, e.todo[1..], e.seen), e.todo[0], e.now, Skipped, q);
    case AdvanceOne(outcome) =>
      AdvanceFramed(s, s', p, Serving(e.now, e.mode, e.todo, e.seen), e.id, e.now, outcome, q);
    case _ =>
  }

  lemma StepKeepsPlatform(s: State, s': State, step: Step, q: string)
    requires TableOk(s) && PlatformOk(s, q) && Next(s, s', step)
    requires step.Act? ==> PlatformOk(s, step.p)
    ensures PlatformOk(s', q)
  {
    hide OccurrenceTime, NextRun, Cron.WellFormed, Cron.Satisfiable;
    match step
    case Tick(to) => TickKeeps(s, s', to, q);
    case Create(row) => CreateKeeps(s, s', row, q);
    case Cancel(id) => CancelKeeps(s, s', id, q);
    case Act(p, action) =>
      if p == q {
        OwnStepKeeps(s, s', q, action);
      } else {
        OthersFramed(s, s', p, action, q);
        FrameKeeps(s, s', q);
      }
  }

  lemma StepKeepsTable(s: State, s': State, step: Step)
    requires TableOk(s) && Next(s, s', step)
    requires step.Act? ==> EngineOk(s, step.p)
    ensures TableOk(s')
  {
    hide DueRows, StuckRows, Ids, OccurrenceTime, NextRun, Cron.WellFormed, Cron.Satisfiable;
  }

  lemma {:induction false} RunKeepsInv(states: seq<State>, steps: seq<Step>, i: nat)
    requires Run(states, steps) && i < |states|
    ensures Inv(states[i])
  {
    hide OccurrenceTime, NextRun, Cron.WellFormed, Cron.Satisfiable;
    if i > 0 {
      RunKeepsInv(states, steps, i - 1);
      assert StepAt(states, steps, i - 1);
      var s, s', step := states[i - 1], states[i], steps[i - 1];
      assert step.Act? ==> PlatformOk(s, step.p);
      StepKeepsTable(s, s', step);
      forall q
        ensures PlatformOk(s', q)
      {
        StepKeepsPlatform(s, s', step, q);
      }
    }
  }
}
