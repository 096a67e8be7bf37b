/** What one catch-up or one poll does with each row: exactly the due rows that are to run are run, each once and
    for the time it was due, rows that are not to run late are passed over, and nothing else is touched. */
module ScheduleLoops {
  import opened Wrappers
  import opened ScheduleStore
  import opened Sorting
  import opened ScheduleProtocol
  import opened ScheduleRuns

  // ---- counting over a stretch of a run ----

  function One(b: bool): nat {
    if b then 1 else 0
  }

  /** How often the engine took up row `id` between states `a` and `j`. */
  function Taken(states: seq<State>, p: string, id: nat, a: nat, j: nat): nat
    requires j < |states|
  {
    if j <= a then 0
    else Taken(states, p, id, a, j - 1) + One(!RunsNow(states[j - 1], p, id) && RunsNow(states[j], p, id))
  }

  /** How often the payload of row `id` was rejected before it ran. */
  function Rejected(states: seq<State>, steps: seq<Step>, p: string, id: nat, a: nat, j: nat): nat
    requires j < |states| && |states| == |steps| + 1
  {
    if j <= a then 0
    else
      Rejected(states, steps, p, id, a, j - 1) +
      One(steps[j - 1] == Act(p, PayloadRejected) && RunsNow(states[j - 1], p, id))
  }

  function FiringsOf(fired: seq<Firing>, id: nat): nat {
    if fired == [] then 0 else FiringsOf(fired[..|fired| - 1], id) + One(fired[|fired| - 1].id == id)
  }

  lemma {:induction false} NoNewFirings(before: seq<Firing>, after: seq<Firing>, id: nat)
    requires before <= after && forall k :: |before| <= k < |after| ==> after[k].id != id
    ensures FiringsOf(after, id) == FiringsOf(before, id)
  {
    if |before| < |after| {
      NoNewFirings(before, after[..|after| - 1], id);
    } else {
      assert before == after;
    }
  }

  lemma OneNewFiring(before: seq<Firing>, f: Firing, id: nat)
    ensures FiringsOf(before + [f], id) == FiringsOf(before, id) + One(f.id == id)
  {
    assert (before + [f])[..|before|] == before;
  }

  // ---- where the loop stands in its selection ----

  predicate Working(e: Engine) {
    e.Serving? || e.Running? || e.Ran?
  }

  /** The rows selected by the loop that starts in `s0`. */
  function Selected(s0: State, p: string): seq<nat>
    requires EngineOf(s0, p).DueRead?
  {
    Ids(DueRows(s0.rows, EngineOf(s0, p).now, Some(p)))
  }

  /** The loop that started in `s0` has its last `todo` rows still to do, and may hold the one before them. */
  predicate LoopAt(s0: State, s: State, p: string) {
    && EngineOf(s0, p).DueRead? && Working(EngineOf(s, p))
    && var e0, e, rows := EngineOf(s0, p), EngineOf(s, p), Selected(s0, p);
       && e.now == e0.now && e.mode == e0.mode
       && |e.todo| <= |rows| && e.todo == rows[|rows| - |e.todo|..]
       && (!e.Serving? ==> |e.todo| < |rows| && e.id == rows[|rows| - |e.todo| - 1])
  }

  function Done(s0: State, s: State, p: string): nat
    requires LoopAt(s0, s, p)
  {
    |Selected(s0, p)| - |EngineOf(s, p).todo|
  }

  predicate LeavesLoop(step: Step, p: string) {
    step == Act(p, Return) || step == Act(p, Crash)
  }

  lemma LoopStarts(s: State, s': State, p: string)
    requires EngineNext(s, s', p, ReadDue)
    ensures LoopAt(s, s', p) && Done(s, s', p) == 0
  {
    hide DueRows;
    assert Selected(s, p)[0..] == Selected(s, p);
  }

  lemma TodoMoves(rows: seq<nat>, todo: seq<nat>)
    requires todo != [] && |todo| <= |rows| && todo == rows[|rows| - |todo|..]
    ensures todo[1..] == rows[|rows| - |todo[1..]|..] && todo[0] == rows[|rows| - |todo|]
  {
  }

  lemma OthersStay(s: State, s': State, step: Step, p: string)
    requires Next(s, s', step) && (step.Act? ==> step.p != p)
    ensures EngineOf(s', p) == EngineOf(s, p)
  {
    hide NextRun, DueRows, StuckRows, Ids, FromTool;
  }

  /** How a loop at work moves. */
  lemma OwnMove(s: State, s': State, p: string, action: Action)
    requires EngineNext(s, s', p, action) && Working(EngineOf(s, p)) && !LeavesLoop(Act(p, action), p)
    ensures var e, e' := EngineOf(s, p), EngineOf(s', p);
      && Working(e') && e'.now == e.now && e'.mode == e.mode
      && (e.Serving? ==> e.todo != [] && e'.todo == e.todo[1..] && (e'.Serving? || (e'.Running? && e'.id == e.todo[0])))
      && (e.Running? ==> e'.Ran? && e'.todo == e.todo && e'.id == e.id)
      && (e.Ran? ==> e'.Serving? && e'.todo == e.todo)
  {
    hide NextRun, DueRows, StuckRows, Ids, Claimable, Claimed, Advanced, Skips;
  }

  lemma LoopMoves(s0: State, s: State, s': State, step: Step, p: string)
    requires LoopAt(s0, s, p) && Next(s, s', step) && !LeavesLoop(step, p)
    ensures LoopAt(s0, s', p)
    ensures Done(s0, s', p) == Done(s0, s, p) + One(step.Act? && step.p == p && EngineOf(s, p).Serving?)
  {
    var e := EngineOf(s, p);
    hide Next, EngineNext, Selected;
    if step.Act? && step.p == p {
      NextIsEngineNext(s, s', step);
      OwnMove(s, s', p, step.action);
      if e.Serving? {
        TodoMoves(Selected(s0, p), e.todo);
      }
    } else {
      OthersStay(s, s', step, p);
    }
  }

  lemma NextIsEngineNext(s: State, s': State, step: Step)
    requires Next(s, s', step) && step.Act?
    ensures EngineNext(s, s', step.p, step.action)
  {
    hide EngineNext;
  }

  // ---- what has happened to one selected row ----

  /** Rows that are run: all of them in a poll, those that may run late in a catch-up. */
  predicate Runs(mode: Mode, onMiss: OnMiss) {
    mode == Poll || onMiss == RunLate
  }

  predicate Holds(e: Engine, id: nat) {
    (e.Running? || e.Ran?) && e.id == id
  }

  /** The columns after the loop has dealt with the row at its clock reading. */
  ghost predicate Accounted(row: Row, now: int, runs: bool) {
    && row.lastRun == Some(now) && row.nextRun == NextRun(row.spec, now)
    && if runs then row.lastStatus == Some(Ok) || row.lastStatus == Some(Failed) else row.lastStatus == Some(Skipped)
  }

  /** The row selected at place `m`, taken up `taken` times and rejected `rejected` times so far. */
  ghost predicate RowAt(s0: State, s: State, p: string, m: nat, taken: nat, rejected: nat) {
    && LoopAt(s0, s, p) && m < |Selected(s0, p)|
    && var id, e := Selected(s0, p)[m], EngineOf(s, p);
       && Has(s0.rows, id) && Has(s.rows, id) && |s0.fired| <= |s.fired|
       && var row0, row := s0.rows[id - 1], s.rows[id - 1];
          var runs := Runs(e.mode, row0.onMiss);
          && row.platform == p && row.spec == row0.spec && row.onMiss == row0.onMiss
          && FiringsOf(s.fired, id) + rejected + One(RunsNow(s, p, id)) == FiringsOf(s0.fired, id) + taken
          && taken <= One(runs)
          && (Holds(e, id) ==> taken == 1 && m < Done(s0, s, p))
          && (RunsNow(s, p, id) ==> e.claimed == row0.nextRun)
          && (Done(s0, s, p) <= m ==> taken == 0 && rejected == 0 && row.nextRun == row0.nextRun)
          && (m < Done(s0, s, p) && runs && row.status == Active ==> taken == 1)
          && (m < Done(s0, s, p) && !Holds(e, id) && taken == One(runs) ==> Accounted(row, e.now, runs))
          && forall k :: |s0.fired| <= k < |s.fired| && s.fired[k].id == id ==> s.fired[k].occurrence == row0.nextRun
  }

  function TakenAfter(s: State, s': State, p: string, id: nat, taken: nat): nat {
    taken + One(!RunsNow(s, p, id) && RunsNow(s', p, id))
  }

  function RejectedAfter(s: State, step: Step, p: string, id: nat, rejected: nat): nat {
    rejected + One(step == Act(p, PayloadRejected) && RunsNow(s, p, id))
  }

  /** A step of anyone else can at most cancel the row. */
  lemma OthersAtMostCancel(s: State, s': State, step: Step, p: string, id: nat)
    requires Inv(s) && Next(s, s', step) && (step.Act? ==> step.p != p)
    requires Has(s.rows, id) && s.rows[id - 1].platform == p
    ensures Has(s'.rows, id) && s.fired <= s'.fired
    ensures s'.rows[id - 1] == s.rows[id - 1] || s'.rows[id - 1] == s.rows[id - 1].(status := Cancelled)
    ensures forall k :: |s.fired| <= k < |s'.fired| ==> s'.fired[k].id != id
  {
    hide NextRun, FromTool, PlatformOk, EngineNext;
    if step.Act? {
      assert PlatformOk(s, step.p);
      EnginesFramed(s, s', step.p, step.action, p);
    }
  }

  lemma EnginesFramed(s: State, s': State, q: string, action: Action, p: string)
    requires PlatformOk(s, q) && EngineNext(s, s', q, action) && q != p
    ensures Frame(s, s', p)
  {
    hide EngineNext, EngineOk, RowsOk, FiringsOk;
    OthersFramed(s, s', q, action, p);
  }

  lemma QuietRow(s0: State, s: State, s': State, step: Step, p: string, m: nat, taken: nat, rejected: nat)
    requires Inv(s) && Next(s, s', step) && (step.Act? ==> step.p != p)
    requires RowAt(s0, s, p, m, taken, rejected) && LoopAt(s0, s', p)
    ensures RowAt(s0, s', p, m, TakenAfter(s, s', p, Selected(s0, p)[m], taken), rejected)
  {
    var id := Selected(s0, p)[m];
    OthersStay(s, s', step, p);
    OthersAtMostCancel(s, s', step, p, id);
    hide Next, Inv, Selected, NextRun;
    NoNewFirings(s.fired, s'.fired, id);
  }

  /** The row the loop deals with next, or is dealing with. */
  function InTurn(e: Engine): nat
    requires Working(e) && (e.Serving? ==> e.todo != [])
  {
    if e.Serving? then e.todo[0] else e.id
  }

  lemma OwnLeavesOthers(s: State, s': State, p: string, action: Action, id: nat)
    requires EngineNext(s, s', p, action) && Working(EngineOf(s, p)) && !LeavesLoop(Act(p, action), p)
    requires EngineOf(s, p).Serving? ==> EngineOf(s, p).todo != []
    requires Has(s.rows, id) && InTurn(EngineOf(s, p)) != id
    ensures Has(s'.rows, id) && s'.rows[id - 1] == s.rows[id - 1] && s.fired <= s'.fired
    ensures forall k :: |s.fired| <= k < |s'.fired| ==> s'.fired[k].id != id
    ensures !Holds(EngineOf(s', p), id) && !Holds(EngineOf(s, p), id)
  {
    hide NextRun, DueRows, StuckRows, Ids, Skips;
  }

  lemma PassedRow(s0: State, s: State, s': State, p: string, action: Action, m: nat, taken: nat, rejected: nat)
    requires EngineNext(s, s', p, action) && !LeavesLoop(Act(p, action), p)
    requires RowAt(s0, s, p, m, taken, rejected) && LoopAt(s0, s', p)
    requires EngineOf(s, p).Serving? ==> EngineOf(s, p).todo != []
    requires InTurn(EngineOf(s, p)) != Selected(s0, p)[m]
    requires m < Done(s0, s', p) <==> m < Done(s0, s, p)
    ensures RowAt(s0, s', p, m, taken, rejected)
  {
    var id := Selected(s0, p)[m];
    OwnLeavesOthers(s, s', p, action, id);
    hide EngineNext, Selected, NextRun;
    NoNewFirings(s.fired, s'.fired, id);
  }

  lemma SkippedRow(s0: State, s: State, s': State, p: string, m: nat)
    requires EngineNext(s, s', p, SkipOne) && LoopAt(s0, s', p)
    requires RowAt(s0, s, p, m, 0, 0) && m == Done(s0, s, p) && m < Done(s0, s', p)
    requires EngineOf(s, p).Serving? && EngineOf(s, p).todo != [] && EngineOf(s, p).todo[0] == Selected(s0, p)[m]
    ensures RowAt(s0, s', p, m, 0, 0)
  {
    hide Selected, NextRun;
  }

  lemma ClaimedRow(s0: State, s: State, s': State, p: string, m: nat)
    requires EngineNext(s, s', p, ClaimOne) && LoopAt(s0, s', p) && s.clock < SENTINEL && EngineOf(s, p).now <= s.clock
    requires RowAt(s0, s, p, m, 0, 0) && m == Done(s0, s, p) && m < Done(s0, s', p)
    requires EngineOf(s, p).Serving? && EngineOf(s, p).todo != [] && EngineOf(s, p).todo[0] == Selected(s0, p)[m]
    requires s0.rows[Selected(s0, p)[m] - 1].nextRun <= EngineOf(s, p).now
    ensures RowAt(s0, s', p, m, TakenAfter(s, s', p, Selected(s0, p)[m], 0), 0)
  {
    hide Selected, NextRun;
  }

  lemma EndedRow(s0: State, s: State, s': State, p: string, action: Action, m: nat, taken: nat, rejected: nat)
    requires EngineNext(s, s', p, action) && LoopAt(s0, s', p) && EngineOf(s, p).Running?
    requires RowAt(s0, s, p, m, taken, rejected) && m < Done(s0, s', p) && m < Done(s0, s, p)
    requires EngineOf(s, p).id == Selected(s0, p)[m] && !LeavesLoop(Act(p, action), p)
    ensures RowAt(s0, s', p, m, taken, RejectedAfter(s, Act(p, action), p, Selected(s0, p)[m], rejected))
  {
    hide Selected, NextRun;
    var e := EngineOf(s, p);
    OneNewFiring(s.fired, Firing(e.id, e.claimed, s.clock), e.id);
  }

  lemma AdvancedRow(s0: State, s: State, s': State, p: string, action: Action, m: nat, taken: nat, rejected: nat)
    requires EngineNext(s, s', p, action) && LoopAt(s0, s', p) && EngineOf(s, p).Ran?
    requires RowAt(s0, s, p, m, taken, rejected) && m < Done(s0, s', p) && m < Done(s0, s, p)
    requires EngineOf(s, p).id == Selected(s0, p)[m] && !LeavesLoop(Act(p, action), p)
    ensures RowAt(s0, s', p, m, taken, rejected)
  {
    hide Selected, NextRun;
  }

  /** What the selection gives: distinct rows of the platform, exactly those that are active and due. */
  lemma SelectionIs(s0: State, p: string, id: nat)
    requires Inv(s0) && EngineOf(s0, p).DueRead?
    ensures Distinct(Selected(s0, p)) && EngineOf(s0, p).now <= s0.clock < SENTINEL
    ensures id in Selected(s0, p) <==>
      && Has(s0.rows, id) && s0.rows[id - 1].status == Active && s0.rows[id - 1].platform == p
      && s0.rows[id - 1].nextRun <= EngineOf(s0, p).now
  {
    var now := EngineOf(s0, p).now;
    assert PlatformOk(s0, p);
    DueAreOwn(s0, p, now);
    var due := DueRows(s0.rows, now, Some(p));
    if id in Ids(due) {
      var j :| 0 <= j < |due| && Ids(due)[j] == id;
      DueSelectsExactly(s0.rows, now, Some(p), due[j]);
      DueIsOwn(s0, p, now, due[j]);
    }
    hide DueRows, NextRun, RowsOk, FiringsOk;
    if Has(s0.rows, id) && IsDue(s0.rows[id - 1], now, Some(p)) {
      DueAreAll(s0, p, now, id - 1);
    }
  }

  /** The place in the selection of the row in turn. */
  function TurnPlace(s0: State, s: State, p: string): int
    requires LoopAt(s0, s, p)
  {
    if EngineOf(s, p).Serving? then Done(s0, s, p) else Done(s0, s, p) - 1
  }

  lemma TurnPlaceIs(s0: State, s: State, p: string, m: nat)
    requires LoopAt(s0, s, p) && Distinct(Selected(s0, p)) && m < |Selected(s0, p)|
    requires EngineOf(s, p).Serving? ==> EngineOf(s, p).todo != []
    ensures InTurn(EngineOf(s, p)) == Selected(s0, p)[m] <==> m == TurnPlace(s0, s, p)
  {
    hide Selected;
  }

  lemma ServingActs(s: State, s': State, p: string, action: Action)
    requires EngineNext(s, s', p, action) && !LeavesLoop(Act(p, action), p) && EngineOf(s, p).Serving?
    ensures EngineOf(s, p).todo != [] && (action == SkipOne || action == ClaimOne)
    ensures action == SkipOne ==> EngineOf(s', p).Serving?
  {
    hide NextRun, DueRows, StuckRows, Ids, Skips, Claimable;
  }

  lemma RowBasics(s0: State, s: State, p: string, m: nat, taken: nat, rejected: nat)
    requires RowAt(s0, s, p, m, taken, rejected)
    ensures LoopAt(s0, s, p) && m < |Selected(s0, p)| && Working(EngineOf(s, p)) && EngineOf(s0, p).DueRead?
    ensures EngineOf(s, p).now == EngineOf(s0, p).now && Has(s.rows, Selected(s0, p)[m])
    ensures Done(s0, s, p) <= m ==> taken == 0 && rejected == 0
  {
    hide Selected, FiringsOf, NextRun, Accounted, RunsNow;
  }

  lemma LoopNow(s: State, p: string)
    requires Inv(s) && Working(EngineOf(s, p))
    ensures EngineOf(s, p).now <= s.clock < SENTINEL
  {
    hide RowsOk, FiringsOk, NextRun, OccurrenceTime;
    assert PlatformOk(s, p);
  }

  lemma PlacesMove(s0: State, s: State, s': State, p: string, m: nat)
    requires LoopAt(s0, s, p) && LoopAt(s0, s', p)
    requires Done(s0, s', p) == Done(s0, s, p) + One(EngineOf(s, p).Serving?)
    ensures m == TurnPlace(s0, s, p) ==> m < Done(s0, s', p) && (m < Done(s0, s, p) <==> !EngineOf(s, p).Serving?)
    ensures m == TurnPlace(s0, s, p) && EngineOf(s, p).Serving? ==> m == Done(s0, s, p)
    ensures m != TurnPlace(s0, s, p) ==> (m < Done(s0, s', p) <==> m < Done(s0, s, p))
    ensures EngineOf(s, p).Serving? && EngineOf(s, p).todo != [] ==> InTurn(EngineOf(s, p)) == EngineOf(s, p).todo[0]
    ensures !EngineOf(s, p).Serving? ==> InTurn(EngineOf(s, p)) == EngineOf(s, p).id
    ensures EngineOf(s, p).Running? || EngineOf(s, p).Ran? || EngineOf(s, p).Serving?
  {
    hide Selected;
  }

  lemma NotHeld(s: State, s': State, p: string, action: Action, id: nat, taken: nat, rejected: nat)
    requires !Holds(EngineOf(s, p), id) && !Holds(EngineOf(s', p), id)
    ensures TakenAfter(s, s', p, id, taken) == taken
    ensures RejectedAfter(s, Act(p, action), p, id, rejected) == rejected
  {
  }

  lemma EndedNotTaken(s: State, s': State, p: string, action: Action, id: nat, taken: nat)
    requires EngineNext(s, s', p, action) && EngineOf(s, p).Running? && !LeavesLoop(Act(p, action), p)
    ensures TakenAfter(s, s', p, id, taken) == taken
  {
    OwnMove(s, s', p, action);
  }

  lemma AdvancedNotTaken(s: State, s': State, p: string, action: Action, id: nat, taken: nat, rejected: nat)
    requires EngineNext(s, s', p, action) && EngineOf(s, p).Ran? && !LeavesLoop(Act(p, action), p)
    ensures TakenAfter(s, s', p, id, taken) == taken
    ensures RejectedAfter(s, Act(p, action), p, id, rejected) == rejected
  {
    OwnMove(s, s', p, action);
  }

  lemma SkippedNotTaken(s: State, s': State, p: string, id: nat)
    requires EngineOf(s, p).Serving? && EngineOf(s', p).Serving?
    ensures TakenAfter(s, s', p, id, 0) == 0 && RejectedAfter(s, Act(p, SkipOne), p, id, 0) == 0
  {
  }

  lemma ClaimedNotRejected(s: State, p: string, id: nat)
    ensures RejectedAfter(s, Act(p, ClaimOne), p, id, 0) == 0
  {
  }

  /** A step of the loop's own engine. */
  lemma OwnRow(s0: State, s: State, s': State, p: string, action: Action, m: nat, taken: nat, rejected: nat)
    requires Inv(s0) && Inv(s) && EngineNext(s, s', p, action) && !LeavesLoop(Act(p, action), p)
    requires RowAt(s0, s, p, m, taken, rejected) && LoopAt(s0, s', p)
    requires Done(s0, s', p) == Done(s0, s, p) + One(EngineOf(s, p).Serving?)
    ensures var id := Selected(s0, p)[m];
      RowAt(s0, s', p, m, TakenAfter(s, s', p, id, taken), RejectedAfter(s, Act(p, action), p, id, rejected))
  {
    hide *;
    RowBasics(s0, s, p, m, taken, rejected);
    LoopNow(s, p);
    var e, id := EngineOf(s, p), Selected(s0, p)[m];
    SelectionIs(s0, p, id);
    if e.Serving? {
      ServingActs(s, s', p, action);
    }
    TurnPlaceIs(s0, s, p, m);
    PlacesMove(s0, s, s', p, m);
    if InTurn(e) != id {
      PassedRow(s0, s, s', p, action, m, taken, rejected);
      OwnLeavesOthers(s, s', p, action, id);
      NotHeld(s, s', p, action, id, taken, rejected);
    } else if e.Running? {
      EndedRow(s0, s, s', p, action, m, taken, rejected);
      EndedNotTaken(s, s', p, action, id, taken);
    } else if e.Ran? {
      AdvancedRow(s0, s, s', p, action, m, taken, rejected);
      AdvancedNotTaken(s, s', p, action, id, taken, rejected);
    } else if action == SkipOne {
      SkippedRow(s0, s, s', p, m);
      SkippedNotTaken(s, s', p, id);
    } else {
      ClaimedRow(s0, s, s', p, m);
      ClaimedNotRejected(s, p, id);
    }
  }

  lemma RowMoves(s0: State, s: State, s': State, step: Step, p: string, m: nat, taken: nat, rejected: nat)
    requires Inv(s0) && Inv(s) && Next(s, s', step) && !LeavesLoop(step, p)
    requires RowAt(s0, s, p, m, taken, rejected)
    ensures var id := Selected(s0, p)[m];
      RowAt(s0, s', p, m, TakenAfter(s, s', p, id, taken), RejectedAfter(s, step, p, id, rejected))
  {
    LoopMoves(s0, s, s', step, p);
    hide Inv, Next, EngineNext, Selected;
    if step.Act? && step.p == p {
      NextIsEngineNext(s, s', step);
      OwnRow(s0, s, s', p, step.action, m, taken, rejected);
    } else {
      QuietRow(s0, s, s', step, p, m, taken, rejected);
    }
  }

  lemma RowStarts(s: State, s': State, p: string, m: nat)
    requires Inv(s) && EngineNext(s, s', p, ReadDue) && m < |Selected(s, p)|
    ensures RowAt(s, s', p, m, 0, 0)
  {
    LoopStarts(s, s', p);
    SelectionIs(s, p, Selected(s, p)[m]);
    hide Inv, Selected, NextRun, DueRows;
  }

  // ---- a whole loop ----

  /** From the selection at `a` up to state `b` the loop neither returned nor crashed. */
  ghost predicate OneLoop(states: seq<State>, steps: seq<Step>, a: nat, b: nat, p: string) {
    && Run(states, steps) && a < b < |states| && steps[a] == Act(p, ReadDue)
    && forall k :: a < k < b ==> !LeavesLoop(steps[k], p)
  }

  lemma LoopSteps(states: seq<State>, steps: seq<Step>, a: nat, b: nat, p: string)
    requires OneLoop(states, steps, a, b, p)
    ensures Run(states, steps) && |states| == |steps| + 1 && a < b < |states| && steps[a] == Act(p, ReadDue)
    ensures a + 1 < b ==> OneLoop(states, steps, a, b - 1, p)
    ensures a + 1 < b ==> Next(states[b - 1], states[b], steps[b - 1]) && !LeavesLoop(steps[b - 1], p)
  {
    hide Next;
    assert StepAt(states, steps, b - 1);
  }

  lemma LoopBegins(states: seq<State>, steps: seq<Step>, a: nat, b: nat, p: string)
    requires OneLoop(states, steps, a, b, p)
    ensures EngineNext(states[a], states[a + 1], p, ReadDue) && LoopAt(states[a], states[a + 1], p)
  {
    assert StepAt(states, steps, a);
    NextIsEngineNext(states[a], states[a + 1], steps[a]);
    LoopStarts(states[a], states[a + 1], p);
  }

  lemma {:induction false} LoopThrough(states: seq<State>, steps: seq<Step>, a: nat, b: nat, p: string)
    requires OneLoop(states, steps, a, b, p)
    ensures LoopAt(states[a], states[b], p)
    decreases b
  {
    LoopBegins(states, steps, a, b, p);
    if a + 1 < b {
      LoopThrough(states, steps, a, b - 1, p);
      assert StepAt(states, steps, b - 1);
      hide Next, LoopAt, Selected;
      LoopMoves(states[a], states[b - 1], states[b], steps[b - 1], p);
    }
  }

  lemma {:induction false} RowThrough(states: seq<State>, steps: seq<Step>, a: nat, b: nat, p: string, m: nat)
    requires OneLoop(states, steps, a, b, p) && EngineOf(states[a], p).DueRead? && m < |Selected(states[a], p)|
    ensures var id := Selected(states[a], p)[m];
      RowAt(states[a], states[b], p, m, Taken(states, p, id, a, b), Rejected(states, steps, p, id, a, b))
    decreases b
  {
    hide *;
    LoopSteps(states, steps, a, b, p);
    LoopBegins(states, steps, a, b, p);
    RunKeepsInv(states, steps, a);
    var id := Selected(states[a], p)[m];
    if a + 1 < b {
      RowThrough(states, steps, a, b - 1, p, m);
      RunKeepsInv(states, steps, b - 1);
      CountsMove(states, steps, a, b, p, id);
      RowMoves(states[a], states[b - 1], states[b], steps[b - 1], p, m, Taken(states, p, id, a, b - 1),
               Rejected(states, steps, p, id, a, b - 1));
    } else {
      RowStarts(states[a], states[b], p, m);
      NoneTakenYet(states, steps, a, p, id);
    }
  }

  lemma CountsMove(states: seq<State>, steps: seq<Step>, a: nat, b: nat, p: string, id: nat)
    requires a + 1 < b < |states| && |states| == |steps| + 1
    ensures Taken(states, p, id, a, b) ==
      TakenAfter(states[b - 1], states[b], p, id, Taken(states, p, id, a, b - 1))
    ensures Rejected(states, steps, p, id, a, b) ==
      RejectedAfter(states[b - 1], steps[b - 1], p, id, Rejected(states, steps, p, id, a, b - 1))
  {
    hide RunsNow;
  }

  lemma NoneTakenYet(states: seq<State>, steps: seq<Step>, a: nat, p: string, id: nat)
    requires a + 1 < |states| && |states| == |steps| + 1 && steps[a] == Act(p, ReadDue)
    requires EngineNext(states[a], states[a + 1], p, ReadDue)
    ensures Taken(states, p, id, a, a + 1) == 0 && Rejected(states, steps, p, id, a, a + 1) == 0
  {
    hide DueRows;
    assert Taken(states, p, id, a, a) == 0 && Rejected(states, steps, p, id, a, a) == 0;
  }

  /** The engine takes up nothing it did not select. */
  lemma {:induction false} OthersNotTaken(states: seq<State>, steps: seq<Step>, a: nat, b: nat, p: string, id: nat)
    requires OneLoop(states, steps, a, b, p) && EngineOf(states[a], p).DueRead? && id !in Selected(states[a], p)
    ensures Taken(states, p, id, a, b) == 0
    decreases b
  {
    LoopBegins(states, steps, a, b, p);
    if a + 1 < b {
      OthersNotTaken(states, steps, a, b - 1, p, id);
      LoopThrough(states, steps, a, b, p);
      hide OneLoop, Selected, Run, StepAt;
    } else {
      hide OneLoop, EngineNext, Selected, Run;
      NoneTakenYet(states, steps, a, p, id);
    }
  }

  /** A catch-up or a poll that came to its end with clock reading `now`. A row that was active, of the platform
      and due when the loop selected is dealt with: if it may run (always in a poll, `run_late` in a catch-up),
      and was not cancelled meanwhile, the engine takes it up exactly once; if it is to be skipped, never; and its
      columns are then those of that outcome. Every time it was taken up its payload either ran, for the time the
      row was due, or was rejected. Any other row is not taken up at all. */
  lemma EveryDueRowServed(states: seq<State>, steps: seq<Step>, a: nat, b: nat, p: string, id: nat)
    requires OneLoop(states, steps, a, b, p) && b < |steps| && steps[b] == Act(p, Return)
    ensures EngineOf(states[a], p).DueRead?
    ensures var e, taken := EngineOf(states[a], p), Taken(states, p, id, a, b);
      if Has(states[a].rows, id) && states[a].rows[id - 1].status == Active && states[a].rows[id - 1].platform == p
         && states[a].rows[id - 1].nextRun <= e.now
      then
        && Has(states[b].rows, id)
        && var row0, row := states[a].rows[id - 1], states[b].rows[id - 1];
           var runs := e.mode == Poll || row0.onMiss == RunLate;
           && taken <= 1 && (!runs ==> taken == 0) && (runs && row.status == Active ==> taken == 1)
           && (taken == One(runs) ==> Accounted(row, e.now, runs))
           && FiringsOf(states[b].fired, id) + Rejected(states, steps, p, id, a, b) ==
                FiringsOf(states[a].fired, id) + taken
           && |states[a].fired| <= |states[b].fired|
           && forall k :: |states[a].fired| <= k < |states[b].fired| && states[b].fired[k].id == id ==>
                states[b].fired[k].occurrence == row0.nextRun
      else taken == 0
  {
    hide OneLoop, Inv, Selected, Run, Next, EngineNext, RowAt, LoopAt, Taken, Rejected, FiringsOf, NextRun, Accounted;
    LoopSteps(states, steps, a, b, p);
    LoopBegins(states, steps, a, b, p);
    RunKeepsInv(states, steps, a);
    LoopStarted(states[a], states[a + 1], p);
    SelectionIs(states[a], p, id);
    var s0, s := states[a], states[b];
    if id in Selected(s0, p) {
      var m :| 0 <= m < |Selected(s0, p)| && Selected(s0, p)[m] == id;
      RowThrough(states, steps, a, b, p, m);
      ReturnsEmpty(states, steps, b, p);
      RowSettled(s0, s, p, m, Taken(states, p, id, a, b), Rejected(states, steps, p, id, a, b));
    } else {
      OthersNotTaken(states, steps, a, b, p, id);
    }
  }

  lemma LoopStarted(s: State, s': State, p: string)
    requires EngineNext(s, s', p, ReadDue)
    ensures EngineOf(s, p).DueRead?
  {
    hide DueRows;
  }

  lemma ReturnsEmpty(states: seq<State>, steps: seq<Step>, b: nat, p: string)
    requires Run(states, steps) && b < |steps| && steps[b] == Act(p, Return)
    ensures EngineOf(states[b], p).Serving? && EngineOf(states[b], p).todo == []
  {
    assert StepAt(states, steps, b);
    hide DueRows, NextRun;
  }

  /** A selected row when nothing is left to do. */
  lemma RowSettled(s0: State, s: State, p: string, m: nat, taken: nat, rejected: nat)
    requires RowAt(s0, s, p, m, taken, rejected) && EngineOf(s, p).Serving? && EngineOf(s, p).todo == []
    ensures EngineOf(s0, p).DueRead?
    ensures var id, e := Selected(s0, p)[m], EngineOf(s0, p);
      && Has(s0.rows, id) && Has(s.rows, id) && |s0.fired| <= |s.fired|
      && var row0, row := s0.rows[id - 1], s.rows[id - 1];
         var runs := e.mode == Poll || row0.onMiss == RunLate;
         && taken <= One(runs) && (runs && row.status == Active ==> taken == 1)
         && (taken == One(runs) ==> Accounted(row, e.now, runs))
         && FiringsOf(s.fired, id) + rejected == FiringsOf(s0.fired, id) + taken
         && forall k :: |s0.fired| <= k < |s.fired| && s.fired[k].id == id ==> s.fired[k].occurrence == row0.nextRun
  {
    hide Selected, FiringsOf, NextRun, Accounted;
  }

  // ---- recovery at start ----

  /** The rows found stuck by the recovery that starts in `s0`. */
  function Stuck(s0: State, p: string): seq<nat> {
    Ids(StuckRows(s0.rows, Some(p)))
  }

  /** The recovery that started in `s0` has its last `stuck` rows still to do. */
  predicate RecoveryAt(s0: State, s: State, p: string) {
    && EngineOf(s0, p).RecoverRead? && EngineOf(s, p).Recovering?
    && var e, rows := EngineOf(s, p), Stuck(s0, p);
       e.now == EngineOf(s0, p).now && |e.stuck| <= |rows| && e.stuck == rows[|rows| - |e.stuck|..]
  }

  /** The row found stuck at place `m`: untouched, or advanced with its outcome, and not fired. */
  ghost predicate StuckAt(s0: State, s: State, p: string, m: nat) {
    && RecoveryAt(s0, s, p) && m < |Stuck(s0, p)|
    && var id := Stuck(s0, p)[m];
       && Has(s0.rows, id) && Has(s.rows, id) && FiringsOf(s.fired, id) == FiringsOf(s0.fired, id)
       && var row0, row := s0.rows[id - 1], s.rows[id - 1];
          && row.platform == p && row.spec == row0.spec
          && (m < |Stuck(s0, p)| - |EngineOf(s, p).stuck| ==>
                && row.lastStatus == Some(Recovered) && row.lastRun == Some(EngineOf(s0, p).now)
                && row.nextRun == NextRun(row.spec, EngineOf(s0, p).now))
  }

  lemma RecoveryStarts(s: State, s': State, p: string, m: nat)
    requires TableOk(s) && EngineNext(s, s', p, ReadStuck) && m < |Stuck(s, p)|
    ensures StuckAt(s, s', p, m)
  {
    StuckAreOwn(s, p);
    assert Stuck(s, p)[0..] == Stuck(s, p);
    hide StuckRows, NextRun;
  }

  lemma RecoveryMoves(s0: State, s: State, s': State, p: string, action: Action, m: nat)
    requires EngineNext(s, s', p, action) && action != Action.Crash && action != BeginCatchUp
    requires StuckAt(s0, s, p, m) && Distinct(Stuck(s0, p))
    ensures StuckAt(s0, s', p, m)
  {
    hide *;
    RecoveryPlaces(s0, s, p, m);
    OneRecovered(s, s', p, action, Stuck(s0, p)[m]);
    TodoMoves(Stuck(s0, p), EngineOf(s, p).stuck);
    RecoveryGoesOn(s0, s, s', p, m);
  }

  lemma RecoveryPlaces(s0: State, s: State, p: string, m: nat)
    requires StuckAt(s0, s, p, m) && Distinct(Stuck(s0, p))
    ensures EngineOf(s, p).Recovering? && m < |Stuck(s0, p)| && Has(s.rows, Stuck(s0, p)[m])
    ensures var stuck := EngineOf(s, p).stuck;
      && |stuck| <= |Stuck(s0, p)| && stuck == Stuck(s0, p)[|Stuck(s0, p)| - |stuck|..]
      && (stuck != [] ==> (stuck[0] == Stuck(s0, p)[m] <==> m == |Stuck(s0, p)| - |stuck|))
  {
    hide Stuck, FiringsOf, NextRun;
  }

  /** One row is advanced; every other row, and what was fired, stays. */
  lemma OneRecovered(s: State, s': State, p: string, action: Action, id: nat)
    requires EngineNext(s, s', p, action) && EngineOf(s, p).Recovering? && Has(s.rows, id)
    requires action != Action.Crash && action != BeginCatchUp
    ensures var e, e' := EngineOf(s, p), EngineOf(s', p);
      && e.stuck != [] && e'.Recovering? && e'.now == e.now && e'.stuck == e.stuck[1..]
      && s'.fired == s.fired && Has(s'.rows, id)
      && var row, row' := s.rows[id - 1], s'.rows[id - 1];
         if id == e.stuck[0]
         then row' == row.(nextRun := NextRun(row.spec, e.now), lastRun := Some(e.now), lastStatus := Some(Recovered))
         else row' == row
  {
    hide NextRun, DueRows, StuckRows;
  }

  lemma RecoveryGoesOn(s0: State, s: State, s': State, p: string, m: nat)
    requires StuckAt(s0, s, p, m)
    requires var e, e' := EngineOf(s, p), EngineOf(s', p);
      var rows := Stuck(s0, p);
      && e.stuck != [] && e'.Recovering? && e'.now == e.now && e'.stuck == e.stuck[1..]
      && e'.stuck == rows[|rows| - |e'.stuck|..]
      && (e.stuck[0] == rows[m] <==> m == |rows| - |e.stuck|)
      && s'.fired == s.fired && Has(s'.rows, rows[m])
      && var row, row' := s.rows[rows[m] - 1], s'.rows[rows[m] - 1];
         if rows[m] == e.stuck[0]
         then row' == row.(nextRun := NextRun(row.spec, e.now), lastRun := Some(e.now), lastStatus := Some(Recovered))
         else row' == row
    ensures StuckAt(s0, s', p, m)
  {
    hide Stuck, FiringsOf, NextRun;
  }

  lemma RecoveryQuiet(s0: State, s: State, s': State, step: Step, p: string, m: nat)
    requires Inv(s) && Next(s, s', step) && (step.Act? ==> step.p != p) && StuckAt(s0, s, p, m)
    ensures StuckAt(s0, s', p, m)
  {
    var id := Stuck(s0, p)[m];
    OthersStay(s, s', step, p);
    OthersAtMostCancel(s, s', step, p, id);
    hide Next, Inv, Stuck, NextRun;
    NoNewFirings(s.fired, s'.fired, id);
  }

  /** From the look for stuck rows at `a` up to state `b` the recovery neither ended nor crashed. */
  ghost predicate OneRecovery(states: seq<State>, steps: seq<Step>, a: nat, b: nat, p: string) {
    && Run(states, steps) && a < b < |states| && steps[a] == Act(p, ReadStuck)
    && forall k :: a < k < b ==> steps[k] != Act(p, BeginCatchUp) && steps[k] != Act(p, Action.Crash)
  }

  lemma RecoverySteps(states: seq<State>, steps: seq<Step>, a: nat, b: nat, p: string)
    requires OneRecovery(states, steps, a, b, p)
    ensures Run(states, steps) && |states| == |steps| + 1 && a < b < |states|
    ensures EngineNext(states[a], states[a + 1], p, ReadStuck)
    ensures a + 1 < b ==> OneRecovery(states, steps, a, b - 1, p)
    ensures a + 1 < b ==>
      && Next(states[b - 1], states[b], steps[b - 1])
      && steps[b - 1] != Act(p, BeginCatchUp) && steps[b - 1] != Act(p, Action.Crash)
  {
    assert StepAt(states, steps, a) && StepAt(states, steps, b - 1);
    NextIsEngineNext(states[a], states[a + 1], steps[a]);
    hide Next, EngineNext;
  }

  lemma InvHasTable(s: State)
    requires Inv(s)
    ensures TableOk(s)
  {
    hide TableOk;
  }

  lemma {:induction false} RecoveryThrough(states: seq<State>, steps: seq<Step>, a: nat, b: nat, p: string, m: nat)
    requires OneRecovery(states, steps, a, b, p) && m < |Stuck(states[a], p)| && Distinct(Stuck(states[a], p))
    ensures StuckAt(states[a], states[b], p, m)
    decreases b
  {
    hide *;
    RecoverySteps(states, steps, a, b, p);
    RunKeepsInv(states, steps, a);
    InvHasTable(states[a]);
    if a + 1 < b {
      RecoveryThrough(states, steps, a, b - 1, p, m);
      RunKeepsInv(states, steps, b - 1);
      if steps[b - 1].Act? && steps[b - 1].p == p {
        NextIsEngineNext(states[b - 1], states[b], steps[b - 1]);
        RecoveryMoves(states[a], states[b - 1], states[b], p, steps[b - 1].action, m);
      } else {
        RecoveryQuiet(states[a], states[b - 1], states[b], steps[b - 1], p, m);
      }
    } else {
      RecoveryStarts(states[a], states[b], p, m);
    }
  }

  /** A recovery that came to its end: every active row of the platform that it found at the sentinel is marked as
      recovered, waits for its next occurrence after the recovery's clock reading, and was not fired by it. */
  lemma EveryStuckRowRecovered(states: seq<State>, steps: seq<Step>, a: nat, b: nat, p: string, row0: Row)
    requires OneRecovery(states, steps, a, b, p) && b < |steps| && steps[b] == Act(p, BeginCatchUp)
    requires row0 in states[a].rows && row0.status == Active && row0.platform == p && row0.nextRun == SENTINEL
    ensures EngineOf(states[a], p).RecoverRead? && Has(states[b].rows, row0.number)
    ensures var row, now := states[b].rows[row0.number - 1], EngineOf(states[a], p).now;
      && row.lastStatus == Some(Recovered) && row.lastRun == Some(now) && row.nextRun == NextRun(row0.spec, now)
      && FiringsOf(states[b].fired, row0.number) == FiringsOf(states[a].fired, row0.number)
  {
    RecoverySteps(states, steps, a, b, p);
    RunKeepsInv(states, steps, a);
    var s0, id := states[a], row0.number;
    StuckAreOwn(s0, p);
    assert IsStuck(s0.rows[id - 1], Some(p)) && s0.rows[id - 1] == row0;
    assert id in Stuck(s0, p);
    var m :| 0 <= m < |Stuck(s0, p)| && Stuck(s0, p)[m] == id;
    RecoveryThrough(states, steps, a, b, p, m);
    RecoveryEnds(states, steps, b, p);
    hide OneRecovery, Run, Stuck, NextRun, FiringsOf, EngineNext, Inv;
  }

  lemma RecoveryEnds(states: seq<State>, steps: seq<Step>, b: nat, p: string)
    requires Run(states, steps) && b < |steps| && steps[b] == Act(p, BeginCatchUp)
    ensures EngineOf(states[b], p).Recovering? && EngineOf(states[b], p).stuck == []
  {
    assert StepAt(states, steps, b);
    hide StuckRows, NextRun;
  }

  // ---- who is ever marked as skipped ----

  ghost predicate SkipsMarked(rows: Table) {
    forall i :: 0 <= i < |rows| && rows[i].lastStatus == Some(Skipped) ==> rows[i].onMiss == Skip
  }

  lemma StepMarksSkips(s: State, s': State, step: Step)
    requires SkipsMarked(s.rows) && Next(s, s', step)
    ensures SkipsMarked(s'.rows)
  {
    hide NextRun, DueRows, StuckRows, Ids;
  }

  /** In every reachable state only rows that are not to run late are marked as skipped. */
  lemma {:induction false} OnlySkipRowsSkipped(states: seq<State>, steps: seq<Step>, i: nat)
    requires Run(states, steps) && i < |states|
    ensures forall row :: row in states[i].rows && row.lastStatus == Some(Skipped) ==> row.onMiss == Skip
  {
    RunMarksSkips(states, steps, i);
  }

  lemma {:induction false} RunMarksSkips(states: seq<State>, steps: seq<Step>, i: nat)
    requires Run(states, steps) && i < |states|
    ensures SkipsMarked(states[i].rows)
  {
    hide Next, SkipsMarked;
    if i > 0 {
      RunMarksSkips(states, steps, i - 1);
      assert StepAt(states, steps, i - 1);
      StepMarksSkips(states[i - 1], states[i], steps[i - 1]);
    } else {
      NothingMarked();
    }
  }

  lemma NothingMarked()
    ensures SkipsMarked([])
  {
  }
}
