/** Reminder delivery as a protocol: one delivery loop per platform over a shared table, the tool creating
    and cancelling between any two transactions, and crashes at any point, also between the platform's
    acceptance of a message and the row being marked. */
module ReminderProtocol {
  import opened Wrappers
  import opened Calendar
  import opened Sorting
  import opened ReminderStore

  /** Where a delivery loop stands. `todo` holds the rows as selected, `row` the one in hand. */
  datatype Loop =
    | Down
    | Resting
    | DueRead(now: int)
    | Serving(now: int, todo: seq<Reminder>)
    | Sending(now: int, todo: seq<Reminder>, row: Reminder)
    | Accepted(now: int, todo: seq<Reminder>, row: Reminder)
    | Raised(now: int, todo: seq<Reminder>, row: Reminder, error: string)

  /** What happened to the sends, by row number. `orphaned` counts crashes between acceptance and
      `mark_delivered`, `unrecorded` crashes between a raised send and its record. */
  datatype History = History(started: multiset<nat>, accepted: multiset<nat>, raised: multiset<nat>,
                             orphaned: multiset<nat>, unrecorded: multiset<nat>)

  datatype State = State(clock: int, rows: Table, loops: map<string, Loop>, history: History)

  datatype Action =
    | Start
    | BeginPoll
    | ReadDue
    | ClaimOne
    | Accept
    | Raise(error: string)
    | MarkOne
    | RetryOne
    | Return
    | Crash

  datatype Step =
    | Tick(to: int)
    | Create(row: Reminder)
    | Cancel(id: nat)
    | Act(p: string, action: Action)

  function LoopOf(s: State, p: string): Loop {
    if p in s.loops then s.loops[p] else Down
  }

  function WithLoop(s: State, p: string, e: Loop): State {
    s.(loops := s.loops[p := e])
  }

  predicate Holding(e: Loop) {
    e.Sending? || e.Accepted? || e.Raised?
  }

  /** What the tool stores. */
  predicate FromTool(row: Reminder) {
    row.status == Pending && row.attempts == 0 && row.nextAttempt == None
  }

  ghost predicate Init(s: State) {
    s.rows == [] && s.loops == map[]
    && s.history == History(multiset{}, multiset{}, multiset{}, multiset{}, multiset{})
  }

  function Crashed(h: History, e: Loop): History {
    if e.Accepted? then h.(orphaned := h.orphaned + multiset{e.row.number})
    else if e.Raised? then h.(unrecorded := h.unrecorded + multiset{e.row.number})
    else h
  }

  /** One atomic step of the loop of platform `p`. */
  ghost predicate LoopNext(s: State, s': State, p: string, action: Action) {
    var e := LoopOf(s, p);
    var h := s.history;
    match action
    case Start =>
      e.Down? && s' == WithLoop(s, p, Resting).(rows := Reset(s.rows, Some(p)))
    case BeginPoll =>
      e.Resting? && s' == WithLoop(s, p, DueRead(s.clock))
    case ReadDue =>
      e.DueRead? && s' == WithLoop(s, p, Serving(e.now, DueRows(s.rows, e.now, Some(p))))
    case ClaimOne =>
      && e.Serving? && e.todo != []
      && var row := e.todo[0];
         if Claimable(s.rows, row.number, Some(p))
         then s' == WithLoop(s, p, Loop.Sending(e.now, e.todo[1..], row))
                    .(rows := Claimed(s.rows, row.number, Some(p)),
                      history := h.(started := h.started + multiset{row.number}))
         else s' == WithLoop(s, p, Serving(e.now, e.todo[1..]))
    case Accept =>
      && e.Sending?
      && s' == WithLoop(s, p, Accepted(e.now, e.todo, e.row))
               .(history := h.(accepted := h.accepted + multiset{e.row.number}))
    case Raise(error) =>
      && e.Sending?
      && s' == WithLoop(s, p, Raised(e.now, e.todo, e.row, error))
               .(history := h.(raised := h.raised + multiset{e.row.number}))
    case MarkOne =>
      && e.Accepted?
      && s' == WithLoop(s, p, Serving(e.now, e.todo)).(rows := MarkedDelivered(s.rows, e.row.number, s.clock))
    case RetryOne =>
      && e.Raised?
      && s' == WithLoop(s, p, Serving(e.now, e.todo))
               .(rows := Retried(s.rows, e.row.number, e.error, NextAttempt(e.row), MAX_SEND_ATTEMPTS))
    case Return =>
      e.Serving? && e.todo == [] && s' == WithLoop(s, p, Resting)
    case Crash =>
      !e.Down? && s' == WithLoop(s, p, Down).(history := Crashed(h, e))
  }

  ghost predicate Next(s: State, s': State, step: Step) {
    match step
    case Tick(to) => s.clock <= to && s' == s.(clock := to)
    case Create(row) => FromTool(row) && s' == s.(rows := Inserted(s.rows, row))
    case Cancel(id) => s' == s.(rows := WithCancelled(s.rows, id))
    case Act(p, action) => LoopNext(s, s', p, action)
  }

  ghost predicate Run(states: seq<State>, steps: seq<Step>) {
    && |states| == |steps| + 1
    && Init(states[0])
    && forall i :: 0 <= i < |steps| ==> StepAt(states, steps, i)
  }

  ghost predicate StepAt(states: seq<State>, steps: seq<Step>, i: int)
    requires 0 <= i < |steps| && |states| == |steps| + 1
  {
    Next(states[i], states[i + 1], steps[i])
  }

  // ---- the invariant ----

  /** The retry columns agree with the attempt count, and failure is exactly a spent budget. */
  predicate RetryOk(row: Reminder) {
    && row.attempts <= MAX_SEND_ATTEMPTS
    && (row.status == Failed <==> row.attempts == MAX_SEND_ATTEMPTS)
    && (row.status == Delivered <==> row.deliveredAt.Some?)
    && row.nextAttempt ==
         if row.attempts == 0 then None
         else if row.attempts == 1 then Some(row.dueAt + MICROS_PER_MINUTE)
         else Some(row.dueAt + 6 * MICROS_PER_MINUTE)
  }

  function One(b: bool): nat {
    if b then 1 else 0
  }

  predicate InHand(e: Loop, id: nat) {
    Holding(e) && e.row.number == id
  }

  /** Sends of one row, counted: every accepted send but the last was orphaned by a crash, and every raised
      send is in `attempts`, except those whose record a crash prevented or that is still to be made. */
  predicate CountsOk(h: History, e: Loop, row: Reminder) {
    var id := row.number;
    && h.accepted[id] == h.orphaned[id] + One(row.status == Delivered || (e.Accepted? && InHand(e, id)))
    && h.raised[id] == row.attempts + h.unrecorded[id] + One(e.Raised? && InHand(e, id))
  }

  predicate RowOk(h: History, e: Loop, row: Reminder) {
    && RetryOk(row)
    && CountsOk(h, e, row)
    && (row.status == Status.Sending ==> e.Down? || InHand(e, row.number))
    && (InHand(e, row.number) ==> row.status == Status.Sending)
  }

  ghost predicate RowsOk(s: State, p: string) {
    forall i :: 0 <= i < |s.rows| && s.rows[i].platform == p ==> RowOk(s.history, LoopOf(s, p), s.rows[i])
  }

  /** A selected row still reads as it was selected, its status apart. */
  predicate SnapshotOk(s: State, p: string, row: Reminder) {
    && Has(s.rows, row.number)
    && var now := s.rows[row.number - 1];
       now.platform == p && now.dueAt == row.dueAt && now.attempts == row.attempts && now.nextAttempt == row.nextAttempt
  }

  ghost predicate TodoOk(s: State, p: string, todo: seq<Reminder>) {
    Distinct(Keys(todo, NumberOf)) && forall i :: 0 <= i < |todo| ==> SnapshotOk(s, p, todo[i])
  }

  ghost predicate LoopOk(s: State, p: string) {
    match LoopOf(s, p)
    case Down => true
    case Resting => true
    case DueRead(now) => now <= s.clock
    case Serving(now, todo) => now <= s.clock && TodoOk(s, p, todo)
    case Sending(now, todo, row) => now <= s.clock && TodoOk(s, p, [row] + todo)
    case Accepted(now, todo, row) => now <= s.clock && TodoOk(s, p, [row] + todo)
    case Raised(now, todo, row, _) => now <= s.clock && TodoOk(s, p, [row] + todo)
  }

  ghost predicate PlatformOk(s: State, p: string) {
    RowsOk(s, p) && LoopOk(s, p)
  }

  predicate Silent(h: History, id: nat) {
    h.started[id] == h.accepted[id] == h.raised[id] == h.orphaned[id] == h.unrecorded[id] == 0
  }

  /** Nothing is recorded for rows that do not exist yet. */
  ghost predicate HistoryOk(s: State) {
    forall id :: !Has(s.rows, id) ==> Silent(s.history, id)
  }

  ghost predicate TableOk(s: State) {
    Numbered(s.rows) && HistoryOk(s)
  }

  ghost predicate Inv(s: State) {
    TableOk(s) && forall p :: PlatformOk(s, p)
  }

  // ---- what one platform does leaves the others alone ----

  predicate SameCounts(h: History, h': History, id: nat) {
    && h'.accepted[id] == h.accepted[id] && h'.raised[id] == h.raised[id]
    && h'.orphaned[id] == h.orphaned[id] && h'.unrecorded[id] == h.unrecorded[id]
  }

  /** Nothing that platform `q` depends on changes between the two states. */
  ghost predicate Frame(s: State, s': State, q: string) {
    && s.clock <= s'.clock && |s.rows| == |s'.rows|
    && LoopOf(s', q) == LoopOf(s, q)
    && forall i :: 0 <= i < |s.rows| ==>
         && s'.rows[i].platform == s.rows[i].platform
         && (s.rows[i].platform == q ==>
               s'.rows[i] == s.rows[i] && SameCounts(s.history, s'.history, s.rows[i].number))
  }

  lemma FrameKeeps(s: State, s': State, q: string)
    requires PlatformOk(s, q) && Frame(s, s', q)
    ensures PlatformOk(s', q)
  {
    hide RetryOk;
    assert forall i :: 0 <= i < |s.rows| && s.rows[i].platform == q ==> RowOk(s.history, LoopOf(s, q), s.rows[i]);
  }

  // ---- the tool's steps ----

  lemma CreateKeeps(s: State, s': State, row: Reminder, q: string)
    requires TableOk(s) && PlatformOk(s, q) && Next(s, s', Create(row))
    ensures PlatformOk(s', q)
  {
    assert Silent(s.history, |s.rows| + 1);
    CreateKeepsLoop(s, s', row, q);
    if row.platform == q {
      assert !InHand(LoopOf(s, q), |s.rows| + 1) by {
        NotInHand(s, q, |s.rows| + 1);
      }
    }
  }

  /** A loop holds only rows that exist. */
  lemma NotInHand(s: State, p: string, id: nat)
    requires LoopOk(s, p) && !Has(s.rows, id)
    ensures !InHand(LoopOf(s, p), id)
  {
    var e := LoopOf(s, p);
    if Holding(e) {
      assert ([e.row] + e.todo)[0] == e.row;
    }
  }

  lemma CreateKeepsLoop(s: State, s': State, row: Reminder, q: string)
    requires LoopOk(s, q) && s' == s.(rows := Inserted(s.rows, row))
    ensures LoopOk(s', q)
  {
  }

  lemma CancelKeeps(s: State, s': State, id: nat, q: string)
    requires TableOk(s) && PlatformOk(s, q) && Next(s, s', Cancel(id))
    ensures PlatformOk(s', q)
  {
    assert forall i :: 0 <= i < |s.rows| && s.rows[i].platform == q ==> RowOk(s.history, LoopOf(s, q), s.rows[i]);
    CancelKeepsLoop(s, s', id, q);
  }

  lemma CancelKeepsLoop(s: State, s': State, id: nat, q: string)
    requires LoopOk(s, q) && s' == s.(rows := WithCancelled(s.rows, id))
    ensures LoopOk(s', q)
  {
  }

  // ---- a loop's steps, seen from its own platform ----

  /** A step that only moves a loop between points where it holds nothing. */
  lemma IdleMoveKeeps(s: State, s': State, p: string, e: Loop)
    requires PlatformOk(s, p) && s' == WithLoop(s, p, e)
    requires !Holding(LoopOf(s, p)) && !LoopOf(s, p).Down? && !Holding(e) && !e.Down?
    requires LoopOk(s', p)
    ensures PlatformOk(s', p)
  {
    assert forall i :: 0 <= i < |s.rows| && s.rows[i].platform == p ==> RowOk(s.history, LoopOf(s, p), s.rows[i]);
  }

  lemma StartKeeps(s: State, s': State, p: string)
    requires PlatformOk(s, p) && LoopNext(s, s', p, Start)
    ensures PlatformOk(s', p)
  {
    assert forall i :: 0 <= i < |s.rows| && s.rows[i].platform == p ==> RowOk(s.history, LoopOf(s, p), s.rows[i]);
  }

  lemma DueSnapshots(s: State, p: string, now: int)
    requires TableOk(s)
    ensures TodoOk(s, p, DueRows(s.rows, now, Some(p)))
  {
    var due := DueRows(s.rows, now, Some(p));
    DueDistinct(s.rows, now, Some(p));
    forall i | 0 <= i < |due|
      ensures SnapshotOk(s, p, due[i])
    {
      DueSelectsExactly(s.rows, now, Some(p), due[i]);
    }
  }

  lemma ReadDueKeeps(s: State, s': State, p: string)
    requires TableOk(s) && PlatformOk(s, p) && LoopNext(s, s', p, ReadDue)
    ensures PlatformOk(s', p)
  {
    DueSnapshots(s, p, LoopOf(s, p).now);
    var due := DueRows(s.rows, LoopOf(s, p).now, Some(p));
    assert TodoOk(s', p, due) by {
      assert forall i :: 0 <= i < |due| ==> SnapshotOk(s, p, due[i]);
    }
    IdleMoveKeeps(s, s', p, Serving(LoopOf(s, p).now, due));
  }

  /** The first selected row against the rest. */
  lemma TodoSplits(s: State, p: string, todo: seq<Reminder>)
    requires TodoOk(s, p, todo) && todo != []
    ensures TodoOk(s, p, todo[1..]) && SnapshotOk(s, p, todo[0])
    ensures [todo[0]] + todo[1..] == todo
    ensures forall i :: 0 <= i < |todo[1..]| ==> todo[1..][i].number != todo[0].number
  {
    var keys := Keys(todo, NumberOf);
    var rest := todo[1..];
    forall i | 0 <= i < |rest|
      ensures SnapshotOk(s, p, rest[i]) && Keys(rest, NumberOf)[i] == keys[i + 1]
    {
      assert rest[i] == todo[i + 1];
    }
    assert [todo[0]] + todo[1..] == todo;
  }

  /** One row of platform `p` is rewritten; its identity and retry columns, or its place in the to-do list,
      are as before. */
  lemma TodoKept(s: State, s': State, p: string, todo: seq<Reminder>, id: nat)
    requires TodoOk(s, p, todo) && |s'.rows| == |s.rows|
    requires forall i :: 0 <= i < |s.rows| ==>
      s'.rows[i] == s.rows[i] || (i == id - 1 && SameSnapshot(s.rows[i], s'.rows[i]))
      || (i == id - 1 && forall j :: 0 <= j < |todo| ==> todo[j].number != id)
    ensures TodoOk(s', p, todo)
  {
    forall j | 0 <= j < |todo|
      ensures SnapshotOk(s', p, todo[j])
    {
      assert SnapshotOk(s, p, todo[j]);
    }
  }

  predicate SameSnapshot(a: Reminder, b: Reminder) {
    b.platform == a.platform && b.dueAt == a.dueAt && b.attempts == a.attempts && b.nextAttempt == a.nextAttempt
  }

  /** It is enough to look at the row in hand when nothing is recorded about the others. */
  lemma RowStepKeepsRows(s: State, s': State, p: string, id: nat)
    requires TableOk(s) && RowsOk(s, p) && Has(s.rows, id) && |s'.rows| == |s.rows|
    requires s'.rows == s.rows[id - 1 := s'.rows[id - 1]]
    requires forall k :: k != id ==> SameCounts(s.history, s'.history, k)
    requires forall k :: k != id ==> InHand(LoopOf(s', p), k) == InHand(LoopOf(s, p), k)
    requires LoopOf(s, p).Down? ==> LoopOf(s', p).Down?
    requires LoopOf(s', p).Accepted? ==> LoopOf(s, p).Accepted? || LoopOf(s', p).row.number == id
    requires LoopOf(s, p).Accepted? ==> LoopOf(s', p).Accepted? || LoopOf(s, p).row.number == id
    requires LoopOf(s', p).Raised? ==> LoopOf(s, p).Raised? || LoopOf(s', p).row.number == id
    requires LoopOf(s, p).Raised? ==> LoopOf(s', p).Raised? || LoopOf(s, p).row.number == id
    requires s'.rows[id - 1].platform == p ==> RowOk(s'.history, LoopOf(s', p), s'.rows[id - 1])
    ensures RowsOk(s', p)
  {
    hide RetryOk;
    forall i | 0 <= i < |s'.rows| && s'.rows[i].platform == p
      ensures RowOk(s'.history, LoopOf(s', p), s'.rows[i])
    {
      if i != id - 1 {
        assert s'.rows[i] == s.rows[i] && s.rows[i].number == i + 1 != id;
        assert RowOk(s.history, LoopOf(s, p), s.rows[i]);
        assert SameCounts(s.history, s'.history, i + 1);
        assert InHand(LoopOf(s', p), i + 1) == InHand(LoopOf(s, p), i + 1);
      }
    }
  }

  lemma ClaimKeeps(s: State, s': State, p: string)
    requires TableOk(s) && PlatformOk(s, p) && LoopNext(s, s', p, ClaimOne)
    ensures PlatformOk(s', p)
  {
    hide DueRows, RowOk;
    var e := LoopOf(s, p);
    var row := e.todo[0];
    TodoSplits(s, p, e.todo);
    if Claimable(s.rows, row.number, Some(p)) {
      ClaimWonKeeps(s, s', p, row);
    } else {
      IdleMoveKeeps(s, s', p, Serving(e.now, e.todo[1..]));
    }
  }

  lemma ClaimWonKeeps(s: State, s': State, p: string, row: Reminder)
    requires TableOk(s) && PlatformOk(s, p)
    requires var e := LoopOf(s, p);
      e.Serving? && e.todo != [] && row == e.todo[0] && TodoOk(s, p, e.todo) && [row] + e.todo[1..] == e.todo
    requires Claimable(s.rows, row.number, Some(p))
    requires s' == WithLoop(s, p, Loop.Sending(LoopOf(s, p).now, LoopOf(s, p).todo[1..], row))
                   .(rows := Claimed(s.rows, row.number, Some(p)),
                     history := s.history.(started := s.history.started + multiset{row.number}))
    ensures PlatformOk(s', p)
  {
    assert RowOk(s.history, LoopOf(s, p), s.rows[row.number - 1]);
    TodoKept(s, s', p, LoopOf(s, p).todo, row.number);
    RowStepKeepsRows(s, s', p, row.number);
  }

  /** The row a loop holds. */
  lemma HeldRow(s: State, p: string)
    requires PlatformOk(s, p) && Holding(LoopOf(s, p))
    ensures var e := LoopOf(s, p);
      && SnapshotOk(s, p, e.row) && TodoOk(s, p, e.todo)
      && (forall i :: 0 <= i < |e.todo| ==> e.todo[i].number != e.row.number)
      && RowOk(s.history, e, s.rows[e.row.number - 1])
  {
    var e := LoopOf(s, p);
    var all := [e.row] + e.todo;
    assert TodoOk(s, p, all);
    TodoSplits(s, p, all);
    assert all[0] == e.row && all[1..] == e.todo;
  }

  lemma SendKeeps(s: State, s': State, p: string, action: Action)
    requires TableOk(s) && PlatformOk(s, p) && LoopNext(s, s', p, action)
    requires action.Accept? || action.Raise?
    ensures PlatformOk(s', p)
  {
    var e := LoopOf(s, p);
    HeldRow(s, p);
    TodoKept(s, s', p, [e.row] + e.todo, e.row.number);
    RowStepKeepsRows(s, s', p, e.row.number);
  }

  lemma MarkKeeps(s: State, s': State, p: string)
    requires TableOk(s) && PlatformOk(s, p) && LoopNext(s, s', p, MarkOne)
    ensures PlatformOk(s', p)
  {
    var e := LoopOf(s, p);
    HeldRow(s, p);
    TodoKept(s, s', p, e.todo, e.row.number);
    RowStepKeepsRows(s, s', p, e.row.number);
  }

  lemma RetryKeeps(s: State, s': State, p: string)
    requires TableOk(s) && PlatformOk(s, p) && LoopNext(s, s', p, RetryOne)
    ensures PlatformOk(s', p)
  {
    var e := LoopOf(s, p);
    HeldRow(s, p);
    RetrySchedule(e.row);
    TodoKept(s, s', p, e.todo, e.row.number);
    RowStepKeepsRows(s, s', p, e.row.number);
  }

  lemma CrashKeeps(s: State, s': State, p: string)
    requires TableOk(s) && PlatformOk(s, p) && LoopNext(s, s', p, Crash)
    ensures PlatformOk(s', p)
  {
    forall i | 0 <= i < |s'.rows| && s'.rows[i].platform == p
      ensures RowOk(s'.history, LoopOf(s', p), s'.rows[i])
    {
      assert RowOk(s.history, LoopOf(s, p), s.rows[i]);
    }
  }

  // ---- every step keeps the invariant ----

  lemma OwnStepKeeps(s: State, s': State, p: string, action: Action)
    requires TableOk(s) && PlatformOk(s, p) && LoopNext(s, s', p, action)
    ensures PlatformOk(s', p)
  {
    hide RowsOk, TodoOk, SnapshotOk;
    var e := LoopOf(s, p);
    match action
    case Start => StartKeeps(s, s', p);
    case BeginPoll => IdleMoveKeeps(s, s', p, DueRead(s.clock));
    case ReadDue => ReadDueKeeps(s, s', p);
    case ClaimOne => ClaimKeeps(s, s', p);
    case Accept => SendKeeps(s, s', p, action);
    case Raise(_) => SendKeeps(s, s', p, action);
    case MarkOne => MarkKeeps(s, s', p);
    case RetryOne => RetryKeeps(s, s', p);
    case Return => IdleMoveKeeps(s, s', p, Resting);
    case Crash => CrashKeeps(s, s', p);
  }

  /** A loop touches rows, and sends reminders, of its own platform only. */
  lemma OthersFramed(s: State, s': State, p: string, action: Action, q: string)
    requires TableOk(s) && LoopOk(s, p) && LoopNext(s, s', p, action) && p != q
    ensures Frame(s, s', q)
  {
    hide DueRows;
    var e := LoopOf(s, p);
    if Holding(e) {
      assert SnapshotOk(s, p, ([e.row] + e.todo)[0]);
    } else if e.Serving? && e.todo != [] {
      assert SnapshotOk(s, p, e.todo[0]);
    }
  }

  lemma StepKeepsPlatform(s: State, s': State, step: Step, q: string)
    requires TableOk(s) && PlatformOk(s, q) && Next(s, s', step)
    requires step.Act? ==> PlatformOk(s, step.p)
    ensures PlatformOk(s', q)
  {
    hide RowsOk, TodoOk, SnapshotOk;
    match step
    case Tick(to) => FrameKeeps(s, s', q);
    case Create(row) => CreateKeeps(s, s', row, q);
    case Cancel(id) => CancelKeeps(s, s', id, q);
    case Act(p, action) =>
      if p == q {
        OwnStepKeeps(s, s', q, action);
      } else {
        OthersFramed(s, s', p, action, q);
        FrameKeeps(s, s', q);
      }
  }

  lemma StepKeepsTable(s: State, s': State, step: Step)
    requires TableOk(s) && Next(s, s', step)
    requires step.Act? ==> LoopOk(s, step.p)
    ensures TableOk(s')
  {
    hide DueRows;
    if step.Act? {
      var e := LoopOf(s, step.p);
      if Holding(e) {
        assert SnapshotOk(s, step.p, ([e.row] + e.todo)[0]);
      }
    }
    forall id | !Has(s'.rows, id)
      ensures Silent(s'.history, id)
    {
      assert Silent(s.history, id);
    }
  }

  lemma {:induction false} RunKeepsInv(states: seq<State>, steps: seq<Step>, i: nat)
    requires Run(states, steps) && i < |states|
    ensures Inv(states[i])
  {
    hide RowsOk, LoopOk, Next;
    if i > 0 {
      RunKeepsInv(states, steps, i - 1);
      var s, s', step := states[i - 1], states[i], steps[i - 1];
      assert StepAt(states, steps, i - 1);
      assert step.Act? ==> PlatformOk(s, step.p);
      StepKeepsTable(s, s', step);
      forall q
        ensures PlatformOk(s', q)
      {
        StepKeepsPlatform(s, s', step, q);
      }
    } else {
      EmptyPlatforms(states[0]);
    }
  }

  lemma EmptyPlatforms(s: State)
    requires Init(s)
    ensures Inv(s)
  {
  }
}
