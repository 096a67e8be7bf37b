/** What one poll of a delivery loop does with each reminder: every due one is tried exactly once, unless it is
    cancelled first, and is then delivered or has one more attempt on record; no other one is tried. */
module ReminderLoops {
  import opened Wrappers
  import opened Sorting
  import opened ReminderStore
  import opened ReminderProtocol
  import opened ReminderRuns

  predicate Working(e: Loop) {
    e.Serving? || Holding(e)
  }

  predicate LeavesLoop(step: Step, p: string) {
    step == Act(p, Return) || step == Act(p, Crash)
  }

  /** The rows selected by the poll that starts in `s0`. */
  function Selected(s0: State, p: string): seq<Reminder>
    requires LoopOf(s0, p).DueRead?
  {
    DueRows(s0.rows, LoopOf(s0, p).now, Some(p))
  }

  /** The poll that started in `s0` has its last `todo` rows still to do, and may hold the one before them. */
  predicate LoopAt(s0: State, s: State, p: string) {
    && LoopOf(s0, p).DueRead? && Working(LoopOf(s, p))
    && var e, rows := LoopOf(s, p), Selected(s0, p);
       && e.now == LoopOf(s0, p).now
       && |e.todo| <= |rows| && e.todo == rows[|rows| - |e.todo|..]
       && (Holding(e) ==> |e.todo| < |rows| && e.row == rows[|rows| - |e.todo| - 1])
  }

  function Done(s0: State, s: State, p: string): nat
    requires LoopAt(s0, s, p)
  {
    |Selected(s0, p)| - |LoopOf(s, p).todo|
  }

  lemma LoopStarts(s: State, s': State, p: string)
    requires LoopNext(s, s', p, ReadDue)
    ensures LoopOf(s, p).DueRead? && LoopAt(s, s', p) && Done(s, s', p) == 0 && LoopOf(s', p).Serving?
    ensures s'.rows == s.rows && s'.history == s.history
  {
    hide DueRows;
    assert Selected(s, p)[0..] == Selected(s, p);
  }

  lemma TodoMoves(rows: seq<Reminder>, todo: seq<Reminder>)
    requires todo != [] && |todo| <= |rows| && todo == rows[|rows| - |todo|..]
    ensures todo[1..] == rows[|rows| - |todo[1..]|..] && todo[0] == rows[|rows| - |todo|]
  {
  }

  lemma OthersStay(s: State, s': State, step: Step, p: string)
    requires Next(s, s', step) && (step.Act? ==> step.p != p)
    ensures LoopOf(s', p) == LoopOf(s, p)
  {
    hide DueRows, NextAttempt, Crashed;
  }

  /** How a loop at work moves. */
  lemma OwnMove(s: State, s': State, p: string, action: Action)
    requires LoopNext(s, s', p, action) && Working(LoopOf(s, p)) && !LeavesLoop(Act(p, action), p)
    ensures var e, e' := LoopOf(s, p), LoopOf(s', p);
      && Working(e') && e'.now == e.now
      && (e.Serving? ==> action == ClaimOne && e.todo != [] && e'.todo == e.todo[1..]
                         && (e'.Serving? || (e'.Sending? && e'.row == e.todo[0])))
      && (e.Sending? ==> (e'.Accepted? || e'.Raised?) && e'.todo == e.todo && e'.row == e.row)
      && (e.Accepted? ==> action == MarkOne && e'.Serving? && e'.todo == e.todo)
      && (e.Raised? ==> action == RetryOne && e'.Serving? && e'.todo == e.todo)
  {
    hide DueRows, NextAttempt, Claimable, Claimed, Retried, MarkedDelivered;
  }

  lemma NextIsLoopNext(s: State, s': State, step: Step)
    requires Next(s, s', step) && step.Act?
    ensures LoopNext(s, s', step.p, step.action)
  {
    hide LoopNext;
  }

  function One(b: bool): nat {
    if b then 1 else 0
  }

  lemma LoopMoves(s0: State, s: State, s': State, step: Step, p: string)
    requires LoopAt(s0, s, p) && Next(s, s', step) && !LeavesLoop(step, p)
    ensures LoopAt(s0, s', p)
    ensures Done(s0, s', p) == Done(s0, s, p) + One(step.Act? && step.p == p && LoopOf(s, p).Serving?)
  {
    var e := LoopOf(s, p);
    hide Next, LoopNext, Selected;
    if step.Act? && step.p == p {
      NextIsLoopNext(s, s', step);
      OwnMove(s, s', p, step.action);
      if e.Serving? {
        TodoMoves(Selected(s0, p), e.todo);
      }
    } else {
      OthersStay(s, s', step, p);
    }
  }

  // ---- what has happened to one selected row ----

  /** The row as it was, or cancelled. */
  predicate AtMostCancelled(row0: Reminder, row: Reminder) {
    row == row0 || row == row0.(status := Cancelled)
  }

  /** The columns after one failed attempt, from those before it: one more attempt and its error; failed when that
      was the last of three, otherwise pending again one minute, or after the second failure five minutes, later. */
  predicate TriedOnce(row0: Reminder, row: Reminder) {
    && row.attempts == row0.attempts + 1 && row.lastError.Some?
    && row == row0.(attempts := row.attempts, lastError := row.lastError, status := row.status,
                    nextAttempt := row.nextAttempt)
    && if row.attempts >= 3 then row.status == Failed && row.nextAttempt == row0.nextAttempt
       else
         && (row.status == Pending || row.status == Cancelled)
         && row.nextAttempt == Some((if row0.nextAttempt.Some? then row0.nextAttempt.value else row0.dueAt) +
                                    (if row0.attempts == 0 then 60_000_000 else 300_000_000))
  }

  /** How often sends of the row were started, accepted and raised since `s0`. */
  predicate Sends(s0: State, s: State, id: nat, started: nat, accepted: nat, raised: nat) {
    && s.history.started[id] == s0.history.started[id] + started
    && s.history.accepted[id] == s0.history.accepted[id] + accepted
    && s.history.raised[id] == s0.history.raised[id] + raised
  }

  /** What became of a due row: cancelled before its turn, delivered, or tried once without success. */
  predicate Outcome(s0: State, s: State, id: nat, row0: Reminder, row: Reminder) {
    || (Sends(s0, s, id, 0, 0, 0) && row == row0.(status := Cancelled))
    || (Sends(s0, s, id, 1, 1, 0) && row.deliveredAt.Some?
        && row == row0.(status := Delivered, deliveredAt := row.deliveredAt))
    || (Sends(s0, s, id, 1, 0, 1) && TriedOnce(row0, row))
  }

  /** The row selected at place `m`. */
  predicate RowAt(s0: State, s: State, p: string, m: nat) {
    && LoopAt(s0, s, p) && m < |Selected(s0, p)|
    && var row0, e := Selected(s0, p)[m], LoopOf(s, p);
       var id := row0.number;
       && Has(s0.rows, id) && Has(s.rows, id) && s0.rows[id - 1] == row0 && row0.status == Pending
       && row0.platform == p && row0.attempts < 3
       && var row := s.rows[id - 1];
          if Done(s0, s, p) <= m then Sends(s0, s, id, 0, 0, 0) && AtMostCancelled(row0, row)
          else if InHand(e, id) then
            && Sends(s0, s, id, 1, One(e.Accepted?), One(e.Raised?)) && row == row0.(status := Status.Sending)
          else Outcome(s0, s, id, row0, row)
  }

  /** A step of anyone else can at most cancel the row, if it is pending, and sends nothing of it. */
  lemma OthersAtMostCancel(s: State, s': State, step: Step, p: string, id: nat)
    requires Inv(s) && Next(s, s', step) && (step.Act? ==> step.p != p)
    requires Has(s.rows, id) && s.rows[id - 1].platform == p
    ensures Has(s'.rows, id) && Sends(s, s', id, 0, 0, 0)
    ensures s'.rows[id - 1] == s.rows[id - 1]
            || (s.rows[id - 1].status == Pending && s'.rows[id - 1] == s.rows[id - 1].(status := Cancelled))
  {
    hide LoopNext, PlatformOk, FromTool;
    if step.Act? {
      assert PlatformOk(s, step.p);
      NextIsLoopNext(s, s', step);
      OthersUntouched(s, s', step.p, step.action, p, id);
    }
  }

  lemma OthersUntouched(s: State, s': State, q: string, action: Action, p: string, id: nat)
    requires TableOk(s) && PlatformOk(s, q) && LoopNext(s, s', q, action) && q != p
    requires Has(s.rows, id) && s.rows[id - 1].platform == p
    ensures Has(s'.rows, id) && s'.rows[id - 1] == s.rows[id - 1] && Sends(s, s', id, 0, 0, 0)
  {
    OthersFramed(s, s', q, action, p);
    OthersNotStarted(s, s', q, action, id);
    hide LoopNext, LoopOk, RowsOk;
  }

  lemma QuietRow(s0: State, s: State, s': State, step: Step, p: string, m: nat)
    requires Inv(s) && Next(s, s', step) && (step.Act? ==> step.p != p)
    requires RowAt(s0, s, p, m) && LoopAt(s0, s', p)
    ensures RowAt(s0, s', p, m)
  {
    OthersStay(s, s', step, p);
    OthersAtMostCancel(s, s', step, p, Selected(s0, p)[m].number);
    hide Next, Inv, Selected;
  }

  /** The row the loop deals with next, or is dealing with. */
  function InTurn(e: Loop): Reminder
    requires Working(e) && (e.Serving? ==> e.todo != [])
  {
    if e.Serving? then e.todo[0] else e.row
  }

  lemma OwnLeavesOthers(s: State, s': State, p: string, action: Action, id: nat)
    requires LoopNext(s, s', p, action) && Working(LoopOf(s, p)) && !LeavesLoop(Act(p, action), p)
    requires LoopOf(s, p).Serving? ==> LoopOf(s, p).todo != []
    requires Has(s.rows, id) && InTurn(LoopOf(s, p)).number != id
    ensures Has(s'.rows, id) && s'.rows[id - 1] == s.rows[id - 1] && Sends(s, s', id, 0, 0, 0)
    ensures !InHand(LoopOf(s', p), id) && !InHand(LoopOf(s, p), id)
  {
    hide DueRows, NextAttempt;
  }

  lemma PassedRow(s0: State, s: State, s': State, p: string, action: Action, m: nat)
    requires LoopNext(s, s', p, action) && !LeavesLoop(Act(p, action), p)
    requires RowAt(s0, s, p, m) && LoopAt(s0, s', p)
    requires LoopOf(s, p).Serving? ==> LoopOf(s, p).todo != []
    requires InTurn(LoopOf(s, p)).number != Selected(s0, p)[m].number
    requires m < Done(s0, s', p) <==> m < Done(s0, s, p)
    ensures RowAt(s0, s', p, m)
  {
    OwnLeavesOthers(s, s', p, action, Selected(s0, p)[m].number);
    hide LoopNext, Selected;
  }

  lemma ClaimedRow(s0: State, s: State, s': State, p: string, m: nat)
    requires LoopNext(s, s', p, ClaimOne) && RowAt(s0, s, p, m) && LoopAt(s0, s', p)
    requires LoopOf(s, p).Serving? && LoopOf(s, p).todo != [] && LoopOf(s, p).todo[0] == Selected(s0, p)[m]
    requires m == Done(s0, s, p) && m < Done(s0, s', p)
    ensures RowAt(s0, s', p, m)
  {
    hide Selected;
  }

  lemma HeldRow(s0: State, s: State, s': State, p: string, action: Action, m: nat)
    requires LoopNext(s, s', p, action) && RowAt(s0, s, p, m) && LoopAt(s0, s', p) && !LeavesLoop(Act(p, action), p)
    requires Holding(LoopOf(s, p)) && LoopOf(s, p).row == Selected(s0, p)[m]
    requires m < Done(s0, s, p) && m < Done(s0, s', p)
    ensures RowAt(s0, s', p, m)
  {
    hide Selected;
  }

  /** What the selection gives: distinct rows, exactly those that are pending, of the platform and due. */
  lemma SelectionIs(s0: State, p: string, row: Reminder)
    requires Inv(s0) && LoopOf(s0, p).DueRead?
    ensures Distinct(Keys(Selected(s0, p), NumberOf))
    ensures row in Selected(s0, p) ==> Has(s0.rows, row.number) && s0.rows[row.number - 1] == row && row.attempts < 3
    ensures row in Selected(s0, p) <==>
      && row in s0.rows && row.status == Pending && row.platform == p
      && (if row.nextAttempt.Some? then row.nextAttempt.value else row.dueAt) <= LoopOf(s0, p).now
  {
    DueDistinct(s0.rows, LoopOf(s0, p).now, Some(p));
    DueSelectsExactly(s0.rows, LoopOf(s0, p).now, Some(p), row);
    if row in Selected(s0, p) {
      assert PlatformOk(s0, p);
      var k :| 0 <= k < |s0.rows| && s0.rows[k] == row;
      assert RowOk(s0.history, LoopOf(s0, p), s0.rows[k]);
    }
    hide DueRows;
  }

  function TurnPlace(s0: State, s: State, p: string): int
    requires LoopAt(s0, s, p)
  {
    if LoopOf(s, p).Serving? then Done(s0, s, p) else Done(s0, s, p) - 1
  }

  lemma TurnPlaceIs(s0: State, s: State, p: string, m: nat)
    requires LoopAt(s0, s, p) && Distinct(Keys(Selected(s0, p), NumberOf)) && m < |Selected(s0, p)|
    requires LoopOf(s, p).Serving? ==> LoopOf(s, p).todo != []
    ensures InTurn(LoopOf(s, p)).number == Selected(s0, p)[m].number <==> m == TurnPlace(s0, s, p)
    ensures m == TurnPlace(s0, s, p) ==> InTurn(LoopOf(s, p)) == Selected(s0, p)[m]
  {
    var rows, t := Selected(s0, p), TurnPlace(s0, s, p);
    assert InTurn(LoopOf(s, p)) == rows[t];
    assert Keys(rows, NumberOf)[m] == rows[m].number && Keys(rows, NumberOf)[t] == rows[t].number;
    hide Selected;
  }

  lemma OwnRow(s0: State, s: State, s': State, p: string, action: Action, m: nat)
    requires Inv(s0) && LoopNext(s, s', p, action) && !LeavesLoop(Act(p, action), p)
    requires RowAt(s0, s, p, m) && LoopAt(s0, s', p) && LoopOf(s0, p).DueRead?
    requires Done(s0, s', p) == Done(s0, s, p) + One(LoopOf(s, p).Serving?)
    ensures RowAt(s0, s', p, m)
  {
    SelectionIs(s0, p, Selected(s0, p)[m]);
    OwnMove(s, s', p, action);
    hide Inv, LoopNext, Selected;
    TurnPlaceIs(s0, s, p, m);
    if m != TurnPlace(s0, s, p) {
      PassedRow(s0, s, s', p, action, m);
    } else if LoopOf(s, p).Serving? {
      ClaimedRow(s0, s, s', p, m);
    } else {
      HeldRow(s0, s, s', p, action, m);
    }
  }

  lemma RowMoves(s0: State, s: State, s': State, step: Step, p: string, m: nat)
    requires Inv(s0) && Inv(s) && Next(s, s', step) && !LeavesLoop(step, p) && RowAt(s0, s, p, m)
    ensures RowAt(s0, s', p, m)
  {
    LoopMoves(s0, s, s', step, p);
    hide Inv, Next, LoopNext, Selected;
    if step.Act? && step.p == p {
      NextIsLoopNext(s, s', step);
      OwnRow(s0, s, s', p, step.action, m);
    } else {
      QuietRow(s0, s, s', step, p, m);
    }
  }

  lemma RowStarts(s: State, s': State, p: string, m: nat)
    requires Inv(s) && LoopNext(s, s', p, ReadDue) && LoopOf(s, p).DueRead? && m < |Selected(s, p)|
    ensures RowAt(s, s', p, m)
  {
    LoopStarts(s, s', p);
    SelectionIs(s, p, Selected(s, p)[m]);
    hide Inv, Selected, LoopNext;
  }

  // ---- a row that was not selected ----

  /** Nothing of the row was sent since `s0`. */
  predicate Untried(s0: State, s: State, p: string, id: nat) {
    Has(s.rows, id) && s.rows[id - 1].platform == p && Sends(s0, s, id, 0, 0, 0)
  }

  lemma OtherRowMoves(s0: State, s: State, s': State, step: Step, p: string, id: nat)
    requires Inv(s) && Next(s, s', step) && !LeavesLoop(step, p) && LoopAt(s0, s, p) && Untried(s0, s, p, id)
    requires LoopOf(s0, p).DueRead? && forall k :: 0 <= k < |Selected(s0, p)| ==> Selected(s0, p)[k].number != id
    ensures Untried(s0, s', p, id)
  {
    hide Inv, Next, LoopNext, Selected;
    if step.Act? && step.p == p {
      NextIsLoopNext(s, s', step);
      OwnMove(s, s', p, step.action);
      OwnLeavesOthers(s, s', p, step.action, id);
    } else {
      OthersAtMostCancel(s, s', step, p, id);
    }
  }

  // ---- a whole poll ----

  /** From the selection at `a` up to state `b` the poll neither returned nor crashed. */
  ghost predicate OnePoll(states: seq<State>, steps: seq<Step>, a: nat, b: nat, p: string) {
    && Run(states, steps) && a < b < |states| && steps[a] == Act(p, ReadDue)
    && forall k :: a < k < b ==> !LeavesLoop(steps[k], p)
  }

  lemma PollSteps(states: seq<State>, steps: seq<Step>, a: nat, b: nat, p: string)
    requires OnePoll(states, steps, a, b, p)
    ensures Run(states, steps) && |states| == |steps| + 1 && a < b < |states|
    ensures LoopNext(states[a], states[a + 1], p, ReadDue)
    ensures a + 1 < b ==> OnePoll(states, steps, a, b - 1, p)
    ensures a + 1 < b ==> Next(states[b - 1], states[b], steps[b - 1]) && !LeavesLoop(steps[b - 1], p)
  {
    assert StepAt(states, steps, a) && StepAt(states, steps, b - 1);
    NextIsLoopNext(states[a], states[a + 1], steps[a]);
    hide Next, LoopNext;
  }

  lemma {:induction false} PollThrough(states: seq<State>, steps: seq<Step>, a: nat, b: nat, p: string)
    requires OnePoll(states, steps, a, b, p)
    ensures LoopOf(states[a], p).DueRead? && LoopAt(states[a], states[b], p)
    decreases b
  {
    hide *;
    PollSteps(states, steps, a, b, p);
    LoopStarts(states[a], states[a + 1], p);
    if a + 1 < b {
      PollThrough(states, steps, a, b - 1, p);
      LoopMoves(states[a], states[b - 1], states[b], steps[b - 1], p);
    }
  }

  lemma {:induction false} RowThrough(states: seq<State>, steps: seq<Step>, a: nat, b: nat, p: string, m: nat)
    requires OnePoll(states, steps, a, b, p) && LoopOf(states[a], p).DueRead? && m < |Selected(states[a], p)|
    ensures RowAt(states[a], states[b], p, m)
    decreases b
  {
    hide *;
    PollSteps(states, steps, a, b, p);
    RunKeepsInv(states, steps, a);
    if a + 1 < b {
      RowThrough(states, steps, a, b - 1, p, m);
      RunKeepsInv(states, steps, b - 1);
      RowMoves(states[a], states[b - 1], states[b], steps[b - 1], p, m);
    } else {
      RowStarts(states[a], states[b], p, m);
    }
  }

  lemma {:induction false} OtherRowThrough(states: seq<State>, steps: seq<Step>, a: nat, b: nat, p: string, id: nat)
    requires OnePoll(states, steps, a, b, p) && LoopOf(states[a], p).DueRead?
    requires forall k :: 0 <= k < |Selected(states[a], p)| ==> Selected(states[a], p)[k].number != id
    requires Has(states[a].rows, id) && states[a].rows[id - 1].platform == p
    ensures Untried(states[a], states[b], p, id)
    decreases b
  {
    PollSteps(states, steps, a, b, p);
    LoopStarts(states[a], states[a + 1], p);
    hide OnePoll, Selected, Run, Next, LoopNext, Inv, LoopAt;
    if a + 1 < b {
      OtherRowThrough(states, steps, a, b - 1, p, id);
      PollThrough(states, steps, a, b - 1, p);
      RunKeepsInv(states, steps, b - 1);
      OtherRowMoves(states[a], states[b - 1], states[b], steps[b - 1], p, id);
    }
  }

  lemma ReturnsEmpty(states: seq<State>, steps: seq<Step>, b: nat, p: string)
    requires Run(states, steps) && b < |steps| && steps[b] == Act(p, Return)
    ensures LoopOf(states[b], p).Serving? && LoopOf(states[b], p).todo == []
  {
    assert StepAt(states, steps, b);
    hide DueRows;
  }

  lemma RowSettled(s0: State, s: State, p: string, m: nat)
    requires RowAt(s0, s, p, m) && LoopOf(s, p).Serving? && LoopOf(s, p).todo == []
    ensures LoopOf(s0, p).DueRead?
    ensures var row0 := Selected(s0, p)[m];
      var id := row0.number;
      Has(s0.rows, id) && s0.rows[id - 1] == row0 && Has(s.rows, id) && Outcome(s0, s, id, row0, s.rows[id - 1])
  {
    hide Selected, Outcome;
  }

  /** A poll that came to its end with clock reading `now`. A reminder of its platform that was pending and whose
      attempt time had come when the poll selected is dealt with exactly once: it was cancelled before its turn and
      nothing was sent; or one send was started and accepted and it is delivered; or one send was started and
      raised and one more attempt is on record, with its next attempt or as failed. Of any other reminder of the
      platform nothing was sent. */
  lemma EveryDueReminderTried(states: seq<State>, steps: seq<Step>, a: nat, b: nat, p: string, id: nat)
    requires OnePoll(states, steps, a, b, p) && b < |steps| && steps[b] == Act(p, Return)
    requires Has(states[a].rows, id) && states[a].rows[id - 1].platform == p
    ensures LoopOf(states[a], p).DueRead? && Has(states[b].rows, id)
    ensures var row0, row := states[a].rows[id - 1], states[b].rows[id - 1];
      if row0.status == Pending
         && (if row0.nextAttempt.Some? then row0.nextAttempt.value else row0.dueAt) <= LoopOf(states[a], p).now
      then Outcome(states[a], states[b], id, row0, row)
      else Sends(states[a], states[b], id, 0, 0, 0)
  {
    hide OnePoll, Inv, Run, Next, LoopNext, RowAt, LoopAt, Outcome, Sends;
    PollSteps(states, steps, a, b, p);
    PollThrough(states, steps, a, b, p);
    RunKeepsInv(states, steps, a);
    ReturnsEmpty(states, steps, b, p);
    var s0, s, row0 := states[a], states[b], states[a].rows[id - 1];
    Numbers(s0, id);
    SelectionIs(s0, p, row0);
    hide Selected;
    if row0 in Selected(s0, p) {
      var m :| 0 <= m < |Selected(s0, p)| && Selected(s0, p)[m] == row0;
      RowThrough(states, steps, a, b, p, m);
      RowSettled(s0, s, p, m);
    } else {
      forall k | 0 <= k < |Selected(s0, p)|
        ensures Selected(s0, p)[k].number != id
      {
        SelectionIs(s0, p, Selected(s0, p)[k]);
      }
      OtherRowThrough(states, steps, a, b, p, id);
      UntriedIs(s0, s, p, id);
    }
  }

  lemma Numbers(s: State, id: nat)
    requires Inv(s) && Has(s.rows, id)
    ensures s.rows[id - 1].number == id && s.rows[id - 1] in s.rows
  {
  }

  lemma UntriedIs(s0: State, s: State, p: string, id: nat)
    requires Untried(s0, s, p, id)
    ensures Has(s.rows, id) && Sends(s0, s, id, 0, 0, 0)
  {
    hide Sends;
  }
}
