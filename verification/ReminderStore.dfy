/** The reminder table: rows, the bounded retry policy, and the store's transactions. */
module ReminderStore {
  import opened Wrappers
  import opened Calendar
  import opened Sorting
  import Decimal
  import Timestamps

  datatype Status = Pending | Sending | Delivered | Failed | Cancelled

  /** One row. `number` is the N of its `r<N>` id. */
  datatype Reminder = Reminder(number: nat, platform: string, dueAt: int, createdAt: int, deliveredAt: Option<int>,
                               status: Status, attempts: nat, lastError: Option<string>, nextAttempt: Option<int>)

  type Table = seq<Reminder>

  const RETRY_DELAYS: seq<int> := [1 * MICROS_PER_MINUTE, 5 * MICROS_PER_MINUTE]
  const MAX_SEND_ATTEMPTS := 3

  predicate Numbered(t: Table) {
    forall i :: 0 <= i < |t| ==> t[i].number == i + 1
  }

  predicate Has(t: Table, id: nat) {
    1 <= id <= |t|
  }

  function NumberOf(row: Reminder): nat {
    row.number
  }

  predicate Serves(platform: Option<string>, row: Reminder) {
    platform.None? || platform.value == row.platform
  }

  /** COALESCE(next_attempt_at, due_at). */
  function AttemptTime(row: Reminder): int {
    if row.nextAttempt.Some? then row.nextAttempt.value else row.dueAt
  }

  /** The delivery loop's `_next_attempt`: the delay counts from the row's current attempt time. */
  function NextAttempt(row: Reminder): int {
    AttemptTime(row) + RETRY_DELAYS[if row.attempts < 1 then row.attempts else 1]
  }

  predicate IsDue(row: Reminder, now: int, platform: Option<string>) {
    row.status == Pending && AttemptTime(row) <= now && Serves(platform, row)
  }

  function IdText(row: Reminder): string {
    "r" + Decimal.Numeral(row.number)
  }

  /** ORDER BY due_at, id. */
  predicate DueOrder(a: Reminder, b: Reminder) {
    a.dueAt < b.dueAt || (a.dueAt == b.dueAt && !Timestamps.TextLess(IdText(b), IdText(a)))
  }

  // ---- what each transaction does to the table ----

  function Inserted(t: Table, row: Reminder): Table {
    t + [row.(number := |t| + 1, deliveredAt := None)]
  }

  function DueRows(t: Table, now: int, platform: Option<string>): Table {
    Sort(Select(t, row => IsDue(row, now, platform)), DueOrder)
  }

  predicate Claimable(t: Table, id: nat, platform: Option<string>) {
    Has(t, id) && t[id - 1].status == Pending && Serves(platform, t[id - 1])
  }

  function Claimed(t: Table, id: nat, platform: Option<string>): Table {
    if Claimable(t, id, platform) then t[id - 1 := t[id - 1].(status := Sending)] else t
  }

  function MarkedDelivered(t: Table, id: nat, at: int): Table {
    if Has(t, id) then t[id - 1 := t[id - 1].(status := Delivered, deliveredAt := Some(at))] else t
  }

  /** One failed send: terminal once the budget is spent, otherwise pending again at `nextAttempt`. */
  function RetriedRow(row: Reminder, error: string, nextAttempt: int, maxAttempts: nat): Reminder {
    var counted := row.(attempts := row.attempts + 1, lastError := Some(error));
    if counted.attempts >= maxAttempts then counted.(status := Failed)
    else counted.(status := Pending, nextAttempt := Some(nextAttempt))
  }

  function Retried(t: Table, id: nat, error: string, nextAttempt: int, maxAttempts: nat): Table {
    if Has(t, id) then t[id - 1 := RetriedRow(t[id - 1], error, nextAttempt, maxAttempts)] else t
  }

  predicate Cancellable(t: Table, id: nat) {
    Has(t, id) && t[id - 1].status == Pending
  }

  function WithCancelled(t: Table, id: nat): Table {
    if Cancellable(t, id) then t[id - 1 := t[id - 1].(status := Cancelled)] else t
  }

  function ResetRow(row: Reminder, platform: Option<string>): Reminder {
    if row.status == Sending && Serves(platform, row) then row.(status := Pending) else row
  }

  function Reset(t: Table, platform: Option<string>): (r: Table)
    ensures |r| == |t| && forall i :: 0 <= i < |t| ==> r[i] == ResetRow(t[i], platform)
  {
    seq(|t|, i requires 0 <= i < |t| => ResetRow(t[i], platform))
  }

  // ---- the store object ----

  class ReminderStore {
    var rows: Table

    ghost predicate Valid()
      reads this
    {
      Numbered(rows)
    }

    constructor ()
      ensures Valid() && rows == []
    {
      rows := [];
    }

    /** `create`: the new id is one past the greatest number in use. */
    method Create(row: Reminder) returns (id: nat)
      requires Valid()
      modifies this
      ensures Valid() && rows == Inserted(old(rows), row)
      ensures id == |old(rows)| + 1 && !Has(old(rows), id)
    {
      var nextN := 1;
      var i := 0;
      while i < |rows|
        invariant 0 <= i <= |rows| && nextN == i + 1
        invariant rows == old(rows)
      {
        nextN := if nextN < rows[i].number + 1 then rows[i].number + 1 else nextN;
        i := i + 1;
      }
      id := nextN;
      rows := rows + [row.(number := id, deliveredAt := None)];
    }

    /** `due`: the pending rows of the platform whose next attempt has come, in due order. */
    method Due(now: int, platform: Option<string>) returns (due: seq<Reminder>)
      ensures due == DueRows(rows, now, platform)
    {
      var keep := (row: Reminder) => IsDue(row, now, platform);
      var selected := [];
      var i := |rows|;
      while i > 0
        invariant 0 <= i <= |rows|
        invariant selected == Select(rows[i..], keep)
      {
        i := i - 1;
        assert rows[i..] == [rows[i]] + rows[i + 1..];
        if keep(rows[i]) {
          selected := [rows[i]] + selected;
        }
      }
      assert rows[0..] == rows;
      due := Sort(selected, DueOrder);
    }

    /** `claim`: pending to sending, for one row of the platform. */
    method Claim(id: nat, platform: Option<string>) returns (won: bool)
      modifies this
      ensures won == Claimable(old(rows), id, platform)
      ensures rows == Claimed(old(rows), id, platform)
    {
      won := Has(rows, id) && rows[id - 1].status == Pending && Serves(platform, rows[id - 1]);
      if won {
        rows := rows[id - 1 := rows[id - 1].(status := Sending)];
      }
    }

    /** `mark_delivered`. */
    method MarkDelivered(id: nat, at: int)
      modifies this
      ensures rows == MarkedDelivered(old(rows), id, at)
    {
      if Has(rows, id) {
        rows := rows[id - 1 := rows[id - 1].(status := Delivered, deliveredAt := Some(at))];
      }
    }

    /** `due_with_retry`: three updates of one transaction. */
    method DueWithRetry(id: nat, error: string, nextAttempt: int, maxAttempts: nat) returns (status: Status)
      modifies this
      ensures rows == Retried(old(rows), id, error, nextAttempt, maxAttempts)
      ensures status == if Has(old(rows), id) then rows[id - 1].status else Failed
      ensures status == Failed || status == Pending
    {
      if !Has(rows, id) {
        return Failed;
      }
      rows := rows[id - 1 := rows[id - 1].(attempts := rows[id - 1].attempts + 1, lastError := Some(error))];
      var attempts := rows[id - 1].attempts;
      if attempts >= maxAttempts {
        rows := rows[id - 1 := rows[id - 1].(status := Failed)];
        return Failed;
      }
      rows := rows[id - 1 := rows[id - 1].(status := Pending, nextAttempt := Some(nextAttempt))];
      return Pending;
    }

    /** `cancel`: true when this call found the row pending. */
    method Cancel(id: nat) returns (won: bool)
      modifies this
      ensures won == Cancellable(old(rows), id)
      ensures rows == WithCancelled(old(rows), id)
    {
      won := Has(rows, id) && rows[id - 1].status == Pending;
      if won {
        rows := rows[id - 1 := rows[id - 1].(status := Cancelled)];
      }
    }

    /** `reset_sending_to_pending`: every row in flight on the platform goes back to pending. */
    method ResetSendingToPending(platform: Option<string>) returns (count: nat)
      modifies this
      ensures rows == Reset(old(rows), platform)
      ensures count == |Select(old(rows), (row: Reminder) => row.status == Sending && Serves(platform, row))|
    {
      ghost var before := rows;
      ghost var inFlight := (row: Reminder) => row.status == Sending && Serves(platform, row);
      count := 0;
      var i := |rows|;
      while i > 0
        invariant 0 <= i <= |rows| == |before|
        invariant rows[..i] == before[..i]
        invariant forall j :: i <= j < |rows| ==> rows[j] == ResetRow(before[j], platform)
        invariant count == |Select(before[i..], inFlight)|
      {
        i := i - 1;
        assert before[i..] == [before[i]] + before[i + 1..];
        assert rows[i] == before[i];
        if rows[i].status == Sending && Serves(platform, rows[i]) {
          rows := rows[i := rows[i].(status := Pending)];
          count := count + 1;
        }
      }
      assert before[0..] == before;
      assert rows == Reset(before, platform);
    }
  }

  // ---- what the selection contains ----

  lemma DueSelectsExactly(t: Table, now: int, platform: Option<string>, row: Reminder)
    ensures row in DueRows(t, now, platform) <==>
      && row in t && row.status == Pending && (platform.Some? ==> row.platform == platform.value)
      && (if row.nextAttempt.Some? then row.nextAttempt.value <= now else row.dueAt <= now)
  {
    var keep := (r: Reminder) => IsDue(r, now, platform);
    SelectKeepsExactly(t, keep, row);
    SortKeeps(Select(t, keep), DueOrder);
    SameElements(DueRows(t, now, platform), Select(t, keep), row);
  }

  /** What `create` adds: the row as given, under the next number, after all others and not delivered. */
  lemma CreatedAsGiven(t: Table, row: Reminder)
    ensures var r := Inserted(t, row);
      && |r| == |t| + 1 && r[..|t|] == t
      && var last := r[|t|];
         && last.number == |t| + 1 && last.platform == row.platform && last.dueAt == row.dueAt
         && last.createdAt == row.createdAt && last.deliveredAt == None && last.status == row.status
         && last.attempts == row.attempts && last.lastError == row.lastError && last.nextAttempt == row.nextAttempt
  {
  }

  lemma DueOrderTransitive(a: Reminder, b: Reminder, c: Reminder)
    requires DueOrder(a, b) && DueOrder(b, c)
    ensures DueOrder(a, c)
  {
    if Timestamps.TextLess(IdText(c), IdText(a)) {
      Timestamps.TextTrichotomy(IdText(a), IdText(b));
      Timestamps.TextTrichotomy(IdText(b), IdText(c));
      if IdText(a) != IdText(b) && IdText(b) != IdText(c) {
        if a.dueAt == b.dueAt == c.dueAt {
          Timestamps.TextLessTransitive(IdText(a), IdText(b), IdText(c));
          Timestamps.TextTrichotomy(IdText(a), IdText(c));
        }
      }
    }
  }

  /** The order is by due time, then by the id's text. */
  lemma DueOrderIs(a: Reminder, b: Reminder)
    ensures DueOrder(a, b) ==> a.dueAt <= b.dueAt
    ensures a.dueAt < b.dueAt ==> DueOrder(a, b) && !DueOrder(b, a)
    ensures a.dueAt == b.dueAt && Timestamps.TextLess(IdText(a), IdText(b)) ==> DueOrder(a, b) && !DueOrder(b, a)
  {
    Timestamps.TextTrichotomy(IdText(a), IdText(b));
  }

  /** The due rows come in due order. */
  lemma DueInOrder(t: Table, now: int, platform: Option<string>)
    ensures Sorted(DueRows(t, now, platform), DueOrder)
  {
    forall a: Reminder, b: Reminder
      ensures DueOrder(a, b) || DueOrder(b, a)
    {
      Timestamps.TextTrichotomy(IdText(a), IdText(b));
    }
    forall a: Reminder, b: Reminder, c: Reminder | DueOrder(a, b) && DueOrder(b, c)
      ensures DueOrder(a, c)
    {
      DueOrderTransitive(a, b, c);
    }
    SortSorts(Select(t, row => IsDue(row, now, platform)), DueOrder);
  }

  lemma DueDistinct(t: Table, now: int, platform: Option<string>)
    requires Numbered(t)
    ensures Distinct(Keys(DueRows(t, now, platform), NumberOf))
  {
    var keep := (row: Reminder) => IsDue(row, now, platform);
    SelectedDistinct(t, NumberOf, 1, keep);
    SortKeeps(Select(t, keep), DueOrder);
    DistinctByCount(Select(t, keep), DueRows(t, now, platform), NumberOf);
  }

  /** The retry schedule: one minute after the due time, then six minutes after it. */
  lemma RetrySchedule(row: Reminder)
    ensures row.attempts == 0 && row.nextAttempt == None ==> NextAttempt(row) == row.dueAt + MICROS_PER_MINUTE
    ensures row.attempts == 1 && row.nextAttempt == Some(row.dueAt + MICROS_PER_MINUTE) ==>
      NextAttempt(row) == row.dueAt + 6 * MICROS_PER_MINUTE
  {
  }
}
