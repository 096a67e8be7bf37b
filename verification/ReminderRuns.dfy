/** What holds over whole runs of the delivery loops: how often a reminder can be sent, the retry columns,
    and that delivered, failed and cancelled are final. */
module ReminderRuns {
  import opened Calendar
  import opened Wrappers
  import opened Sorting
  import opened ReminderStore
  import opened ReminderProtocol

  lemma RowInvariant(states: seq<State>, steps: seq<Step>, i: nat, id: nat)
    requires Run(states, steps) && i < |states| && Has(states[i].rows, id)
    ensures var s := states[i];
      var row := s.rows[id - 1];
      row.number == id && RowOk(s.history, LoopOf(s, row.platform), row)
  {
    RunKeepsInv(states, steps, i);
    assert PlatformOk(states[i], states[i].rows[id - 1].platform);
  }

  /** At least once, with counted duplicates: a reminder is accepted at most once more than the crashes that
      hit between its acceptance and its mark, exactly once more when it is marked delivered, and never
      twice in a run without such a crash. */
  lemma AcceptedSendsCounted(states: seq<State>, steps: seq<Step>, i: nat, id: nat)
    requires Run(states, steps) && i < |states| && Has(states[i].rows, id)
    ensures var s := states[i];
      && s.history.accepted[id] <= 1 + s.history.orphaned[id]
      && (s.rows[id - 1].status == Delivered ==> s.history.accepted[id] == 1 + s.history.orphaned[id])
      && (s.rows[id - 1].status == Pending ==> s.history.accepted[id] == s.history.orphaned[id])
      && (s.history.orphaned[id] == 0 ==> s.history.accepted[id] <= 1)
  {
    RowInvariant(states, steps, i, id);
  }

  /** The retry columns over every run. */
  lemma RetryColumns(states: seq<State>, steps: seq<Step>, i: nat, id: nat)
    requires Run(states, steps) && i < |states| && Has(states[i].rows, id)
    ensures var row := states[i].rows[id - 1];
      && row.attempts <= 3
      && (row.status == Failed <==> row.attempts == 3)
      && (row.attempts == 0 ==> row.nextAttempt == None)
      && (row.attempts == 1 ==> row.nextAttempt == Some(row.dueAt + MICROS_PER_MINUTE))
      && (row.attempts >= 2 ==> row.nextAttempt == Some(row.dueAt + 6 * MICROS_PER_MINUTE))
  {
    RowInvariant(states, steps, i, id);
  }

  /** `attempts` is the number of raised sends exactly when no crash came between a raised send and its
      record, in any state where this reminder has none that is still to be recorded. */
  lemma AttemptsCountRaisedSends(states: seq<State>, steps: seq<Step>, i: nat, id: nat)
    requires Run(states, steps) && i < |states| && Has(states[i].rows, id)
    requires var e := LoopOf(states[i], states[i].rows[id - 1].platform); !(e.Raised? && InHand(e, id))
    ensures var s := states[i];
      && s.history.raised[id] == s.rows[id - 1].attempts + s.history.unrecorded[id]
      && (s.rows[id - 1].attempts == s.history.raised[id] <==> s.history.unrecorded[id] == 0)
  {
    RowInvariant(states, steps, i, id);
  }

  predicate Final(status: Status) {
    status == Delivered || status == Failed || status == Cancelled
  }

  /** What no step may change of a row. */
  predicate SameReminder(a: Reminder, b: Reminder) {
    && b.number == a.number && b.platform == a.platform && b.dueAt == a.dueAt && b.createdAt == a.createdAt
    && a.attempts <= b.attempts
    && (Final(a.status) ==> b == a)
  }

  predicate SameSends(h: History, h': History, id: nat) {
    h'.started[id] == h.started[id] && h'.accepted[id] == h.accepted[id] && h'.raised[id] == h.raised[id]
  }

  /** The row in a loop's hand is being sent. */
  lemma HeldIsSending(s: State, p: string, id: nat)
    requires Inv(s) && Has(s.rows, id) && InHand(LoopOf(s, p), id)
    ensures s.rows[id - 1].status == Status.Sending
  {
    hide CountsOk, RetryOk;
    assert PlatformOk(s, p);
    var e := LoopOf(s, p);
    assert SnapshotOk(s, p, ([e.row] + e.todo)[0]);
    assert RowOk(s.history, e, s.rows[id - 1]);
  }

  lemma ActKeepsRow(s: State, s': State, p: string, action: Action, id: nat)
    requires Numbered(s.rows) && LoopNext(s, s', p, action) && Has(s.rows, id)
    requires InHand(LoopOf(s, p), id) ==> s.rows[id - 1].status == Status.Sending
    ensures Has(s'.rows, id) && SameReminder(s.rows[id - 1], s'.rows[id - 1])
  {
    hide DueRows, NextAttempt;
  }

  lemma ActKeepsSends(s: State, s': State, p: string, action: Action, id: nat)
    requires LoopNext(s, s', p, action) && Has(s.rows, id) && Final(s.rows[id - 1].status)
    requires !InHand(LoopOf(s, p), id)
    ensures SameSends(s.history, s'.history, id)
  {
    hide DueRows, NextAttempt;
  }

  lemma StepKeepsIdentity(s: State, s': State, step: Step, id: nat)
    requires Inv(s) && Next(s, s', step) && Has(s.rows, id)
    ensures Has(s'.rows, id) && SameReminder(s.rows[id - 1], s'.rows[id - 1])
    ensures Final(s.rows[id - 1].status) ==> SameSends(s.history, s'.history, id)
  {
    hide LoopNext, PlatformOk, HistoryOk;
    if step.Act? {
      if InHand(LoopOf(s, step.p), id) {
        HeldIsSending(s, step.p, id);
      }
      ActKeepsRow(s, s', step.p, step.action, id);
      if Final(s.rows[id - 1].status) {
        ActKeepsSends(s, s', step.p, step.action, id);
      }
    }
  }

  /** Rows keep their platform and due time, attempts never decrease, and delivered, failed and cancelled
      are final: the row no longer changes and no send of it starts, succeeds or fails any more. */
  lemma {:induction false} FinalStays(states: seq<State>, steps: seq<Step>, i: nat, j: nat, id: nat)
    requires Run(states, steps) && i <= j < |states| && Has(states[i].rows, id)
    ensures Has(states[j].rows, id) && SameReminder(states[i].rows[id - 1], states[j].rows[id - 1])
    ensures Final(states[i].rows[id - 1].status) ==> SameSends(states[i].history, states[j].history, id)
    decreases j
  {
    hide Inv, Next;
    if i < j {
      FinalStays(states, steps, i, j - 1, id);
      RunKeepsInv(states, steps, j - 1);
      assert StepAt(states, steps, j - 1);
      StepKeepsIdentity(states[j - 1], states[j], steps[j - 1], id);
    }
  }

  /** A successful cancel comes before any send: from then on the reminder is never sent again. */
  lemma CancelStopsSends(states: seq<State>, steps: seq<Step>, i: nat, j: nat, id: nat)
    requires Run(states, steps) && i < j < |states|
    requires steps[i] == Step.Cancel(id) && Cancellable(states[i].rows, id)
    ensures Has(states[j].rows, id) && states[j].rows[id - 1].status == Cancelled
    ensures SameSends(states[i].history, states[j].history, id)
  {
    assert StepAt(states, steps, i);
    FinalStays(states, steps, i + 1, j, id);
  }

  lemma OthersNotStarted(s: State, s': State, p: string, action: Action, id: nat)
    requires LoopOk(s, p) && LoopNext(s, s', p, action) && Has(s.rows, id) && s.rows[id - 1].platform != p
    ensures s'.history.started[id] == s.history.started[id]
  {
    hide DueRows, NextAttempt;
    var e := LoopOf(s, p);
    if e.Serving? && e.todo != [] {
      assert SnapshotOk(s, p, e.todo[0]);
    }
  }

  /** A loop never touches a row of another platform, and sends nothing of it. */
  lemma OwnPlatformOnly(states: seq<State>, steps: seq<Step>, i: nat, id: nat)
    requires Run(states, steps) && i < |steps| && steps[i].Act? && Has(states[i].rows, id)
    requires states[i].rows[id - 1].platform != steps[i].p
    ensures Has(states[i + 1].rows, id) && states[i + 1].rows[id - 1] == states[i].rows[id - 1]
    ensures SameCounts(states[i].history, states[i + 1].history, id)
    ensures SameSends(states[i].history, states[i + 1].history, id)
  {
    RunKeepsInv(states, steps, i);
    assert StepAt(states, steps, i);
    assert PlatformOk(states[i], steps[i].p);
    OthersNotStarted(states[i], states[i + 1], steps[i].p, steps[i].action, id);
    OthersFramed(states[i], states[i + 1], steps[i].p, steps[i].action, states[i].rows[id - 1].platform);
  }

  // ---- no send comes early ----

  /** The row's attempt time has come: its next attempt if it has one, otherwise its due time. */
  predicate Came(row: Reminder, now: int) {
    if row.nextAttempt.Some? then row.nextAttempt.value <= now else row.dueAt <= now
  }

  /** Every row a loop has selected, and the one in its hand, had come when the loop read its clock. */
  ghost predicate AllCame(e: Loop) {
    && (e.Serving? || Holding(e) ==> forall i :: 0 <= i < |e.todo| ==> Came(e.todo[i], e.now))
    && (Holding(e) ==> Came(e.row, e.now))
  }

  lemma StepKeepsCame(s: State, s': State, step: Step, p: string)
    requires AllCame(LoopOf(s, p)) && Next(s, s', step)
    ensures AllCame(LoopOf(s', p))
  {
    var e := LoopOf(s, p);
    if step.Act? && step.p == p && step.action == ReadDue && e.DueRead? {
      var due := DueRows(s.rows, e.now, Some(p));
      forall i | 0 <= i < |due|
        ensures Came(due[i], e.now)
      {
        DueSelectsExactly(s.rows, e.now, Some(p), due[i]);
      }
    }
    hide DueRows, NextAttempt, Came;
  }

  lemma {:induction false} RunKeepsCame(states: seq<State>, steps: seq<Step>, i: nat, p: string)
    requires Run(states, steps) && i < |states|
    ensures AllCame(LoopOf(states[i], p))
  {
    hide Next, AllCame;
    if i > 0 {
      RunKeepsCame(states, steps, i - 1, p);
      assert StepAt(states, steps, i - 1);
      StepKeepsCame(states[i - 1], states[i], steps[i - 1], p);
    } else {
      NothingHeld(states[0], p);
    }
  }

  lemma NothingHeld(s: State, p: string)
    requires Init(s)
    ensures AllCame(LoopOf(s, p))
  {
  }

  /** Over every run: a reminder is being sent only from its due time on, after one failed attempt only from one
      minute later on, after two only from six minutes later on, by the clock the loop read. */
  lemma NoSendComesEarly(states: seq<State>, steps: seq<Step>, i: nat, p: string)
    requires Run(states, steps) && i < |states| && Holding(LoopOf(states[i], p))
    ensures var s, e := states[i], LoopOf(states[i], p);
      && e.now <= s.clock && Has(s.rows, e.row.number)
      && var row := s.rows[e.row.number - 1];
         && row.dueAt <= e.now
         && (row.attempts == 1 ==> row.dueAt + MICROS_PER_MINUTE <= e.now)
         && (row.attempts >= 2 ==> row.dueAt + 6 * MICROS_PER_MINUTE <= e.now)
  {
    RunKeepsCame(states, steps, i, p);
    RunKeepsInv(states, steps, i);
    assert PlatformOk(states[i], p);
    var e := LoopOf(states[i], p);
    assert SnapshotOk(states[i], p, ([e.row] + e.todo)[0]);
    assert RowOk(states[i].history, e, states[i].rows[e.row.number - 1]);
  }

  // ---- when a reminder was delivered ----

  ghost predicate InTime(s: State) {
    forall i :: 0 <= i < |s.rows| && s.rows[i].deliveredAt.Some? ==>
      s.rows[i].dueAt <= s.rows[i].deliveredAt.value <= s.clock
  }

  lemma StepKeepsInTime(s: State, s': State, step: Step)
    requires InTime(s) && Next(s, s', step)
    requires step.Act? && step.action == MarkOne ==>
      var e := LoopOf(s, step.p);
      e.Accepted? ==> Has(s.rows, e.row.number) && s.rows[e.row.number - 1].dueAt <= s.clock
    ensures InTime(s')
  {
    hide DueRows, NextAttempt, Serves;
  }

  /** Over every run: what is marked as delivered was marked at a time not before its due time and not to come. */
  lemma {:induction false} DeliveredInTime(states: seq<State>, steps: seq<Step>, i: nat)
    requires Run(states, steps) && i < |states|
    ensures forall row :: row in states[i].rows && row.deliveredAt.Some? ==>
      row.dueAt <= row.deliveredAt.value <= states[i].clock
  {
    RunKeepsInTime(states, steps, i);
  }

  lemma {:induction false} RunKeepsInTime(states: seq<State>, steps: seq<Step>, i: nat)
    requires Run(states, steps) && i < |states|
    ensures InTime(states[i])
  {
    hide Next, InTime;
    if i > 0 {
      RunKeepsInTime(states, steps, i - 1);
      assert StepAt(states, steps, i - 1);
      var step := steps[i - 1];
      if step.Act? && LoopOf(states[i - 1], step.p).Accepted? {
        NoSendComesEarly(states, steps, i - 1, step.p);
      }
      StepKeepsInTime(states[i - 1], states[i], step);
    } else {
      NothingDelivered(states[0]);
    }
  }

  lemma NothingDelivered(s: State)
    requires Init(s)
    ensures InTime(s)
  {
  }

  // ---- a crash can lose the record of a raised send ----

  const ZULIP := "zulip"

  function Lone(e: Loop, row: Reminder, h: History): State {
    State(0, [row], map[ZULIP := e], h)
  }

  lemma Extended(before: seq<State>, done: seq<Step>, s: State, step: Step)
    returns (states: seq<State>, steps: seq<Step>)
    requires Run(before, done) && Next(before[|before| - 1], s, step)
    ensures Run(states, steps) && states != [] && states[|states| - 1] == s
  {
    hide Next;
    states, steps := before + [s], done + [step];
    forall i | 0 <= i < |steps|
      ensures StepAt(states, steps, i)
    {
      assert i < |done| ==> StepAt(before, done, i);
    }
  }

  /** A reminder of the tool's, due at once, with no attempts. */
  const DUE := Reminder(1, ZULIP, 0, 0, None, Pending, 0, None, None)

  const QUIET := History(multiset{}, multiset{}, multiset{}, multiset{}, multiset{})

  lemma DueAlone()
    ensures DueRows([DUE], 0, Some(ZULIP)) == [DUE]
  {
    var keep := (row: Reminder) => IsDue(row, 0, Some(ZULIP));
    assert Select([DUE], keep) == [DUE];
    assert Sort([DUE], DueOrder) == [DUE];
  }

  const SENDING_NOW := DUE.(status := Status.Sending)
  const STARTED := QUIET.(started := multiset{1})

  lemma ClaimAlone()
    ensures Next(Lone(Serving(0, [DUE]), DUE, QUIET), Lone(Loop.Sending(0, [], DUE), SENDING_NOW, STARTED),
                 Act(ZULIP, ClaimOne))
  {
    assert Claimed([DUE], 1, Some(ZULIP)) == [SENDING_NOW];
    assert [DUE][1..] == [];
    assert multiset{} + multiset{1 as nat} == multiset{1};
  }

  /** A run up to the point where the loop has claimed its first row. */
  lemma FirstClaim() returns (states: seq<State>, steps: seq<Step>)
    ensures Run(states, steps) && states != []
    ensures states[|states| - 1] == Lone(Loop.Sending(0, [], DUE), SENDING_NOW, STARTED)
  {
    states, steps := Extended([State(0, [], map[], QUIET)], [], State(0, [DUE], map[], QUIET), Create(DUE));
    hide Run, DueRows;
    states, steps := Extended(states, steps, Lone(Resting, DUE, QUIET), Act(ZULIP, Start));
    states, steps := Extended(states, steps, Lone(DueRead(0), DUE, QUIET), Act(ZULIP, BeginPoll));
    DueAlone();
    states, steps := Extended(states, steps, Lone(Serving(0, [DUE]), DUE, QUIET), Act(ZULIP, ReadDue));
    ClaimAlone();
    hide Next;
    states, steps := Extended(states, steps, Lone(Loop.Sending(0, [], DUE), SENDING_NOW, STARTED),
                              Act(ZULIP, ClaimOne));
  }

  /** A run in which the loop dies after a raised send and before its record: the row then shows fewer
      attempts than there were raised sends. */
  lemma CrashCanLoseAnAttempt() returns (states: seq<State>, steps: seq<Step>)
    ensures Run(states, steps) && states != []
    ensures var s := states[|states| - 1];
      && Has(s.rows, 1) && LoopOf(s, ZULIP).Down?
      && s.rows[0].attempts == 0 && s.history.raised[1] == 1
  {
    hide Run, DueRows;
    states, steps := FirstClaim();
    var raised := STARTED.(raised := multiset{1});
    states, steps := Extended(states, steps, Lone(Raised(0, [], DUE, "down"), SENDING_NOW, raised),
                              Act(ZULIP, Raise("down")));
    states, steps := Extended(states, steps, Lone(Down, SENDING_NOW, raised.(unrecorded := multiset{1})),
                              Act(ZULIP, Action.Crash));
  }
}
