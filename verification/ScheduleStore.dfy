/** The schedule table: rows, the claim sentinel, and the store's transactions.
    Instants are microsecond stamps in the engine's fixed-offset zone, taken at offset zero. */
module ScheduleStore {
  import opened Wrappers
  import opened Calendar
  import opened Sorting
  import Cron
  import Decimal
  import Timestamps

  datatype Status = Active | Cancelled

  datatype OnMiss = RunLate | Skip

  datatype Outcome = Ok | Failed | Skipped | Recovered

  /** One row. `number` is the N of its `s<N>` id; the cron text is kept parsed. */
  datatype Row = Row(number: nat, platform: string, spec: Cron.CronSpec, onMiss: OnMiss, nextRun: int,
                     lastRun: Option<int>, created: int, status: Status, lastStatus: Option<Outcome>)

  type Table = seq<Row>

  /** 9999-12-31T23:59:59: the `next_run_at` of a claimed row. */
  const SENTINEL: int := MicroStamp(DateTime(9999, 12, 31, 23, 59, 59, 0))

  /** Rows are numbered in insertion order and never deleted. */
  predicate Numbered(t: Table) {
    forall i :: 0 <= i < |t| ==> t[i].number == i + 1
  }

  predicate Has(t: Table, id: nat) {
    1 <= id <= |t|
  }

  /** The platform clause: no platform serves every row. */
  predicate Serves(platform: Option<string>, row: Row) {
    platform.None? || platform.value == row.platform
  }

  predicate IsDue(row: Row, now: int, platform: Option<string>) {
    row.status == Active && row.nextRun <= now && Serves(platform, row)
  }

  predicate IsStuck(row: Row, platform: Option<string>) {
    row.status == Active && row.nextRun == SENTINEL && Serves(platform, row)
  }

  function NumberOf(row: Row): nat {
    row.number
  }

  function IdText(row: Row): string {
    "s" + Decimal.Numeral(row.number)
  }

  /** ORDER BY next_run_at, id (ids compare as text). */
  predicate DueOrder(a: Row, b: Row) {
    a.nextRun < b.nextRun || (a.nextRun == b.nextRun && !Timestamps.TextLess(IdText(b), IdText(a)))
  }

  // ---- what each transaction does to the table ----

  function Inserted(t: Table, row: Row): Table {
    t + [row.(number := |t| + 1)]
  }

  function DueRows(t: Table, now: int, platform: Option<string>): Table {
    Sort(Select(t, row => IsDue(row, now, platform)), DueOrder)
  }

  function StuckRows(t: Table, platform: Option<string>): Table {
    Select(t, row => IsStuck(row, platform))
  }

  predicate Claimable(t: Table, id: nat, platform: Option<string>) {
    Has(t, id) && t[id - 1].status == Active && t[id - 1].nextRun != SENTINEL && Serves(platform, t[id - 1])
  }

  function Claimed(t: Table, id: nat, platform: Option<string>): Table {
    if Claimable(t, id, platform) then t[id - 1 := t[id - 1].(nextRun := SENTINEL)] else t
  }

  function Advanced(t: Table, id: nat, nextRun: int, lastRun: int, outcome: Outcome): Table {
    if Has(t, id)
    then t[id - 1 := t[id - 1].(nextRun := nextRun, lastRun := Some(lastRun), lastStatus := Some(outcome))]
    else t
  }

  predicate Cancellable(t: Table, id: nat) {
    Has(t, id) && t[id - 1].status == Active
  }

  function WithCancelled(t: Table, id: nat): Table {
    if Cancellable(t, id) then t[id - 1 := t[id - 1].(status := Cancelled)] else t
  }

  // ---- the store object ----

  class ScheduleStore {
    var rows: Table

    ghost predicate Valid()
      reads this
    {
      Numbered(rows)
    }

    constructor ()
      ensures Valid() && rows == []
    {
      rows := [];
    }

    /** `create`: the new id is one past the greatest number in use. */
    method Create(row: Row) returns (id: nat)
      requires Valid()
      modifies this
      ensures Valid() && rows == Inserted(old(rows), row)
      ensures id == |old(rows)| + 1 && !Has(old(rows), id)
    {
      var nextN := 1;
      var i := 0;
      while i < |rows|
        invariant 0 <= i <= |rows| && nextN == i + 1
        invariant rows == old(rows)
      {
        nextN := if nextN < rows[i].number + 1 then rows[i].number + 1 else nextN;
        i := i + 1;
      }
      id := nextN;
      rows := rows + [row.(number := id)];
    }

    /** `due`: the active rows of the platform at or before `now`, in run order. */
    method Due(now: int, platform: Option<string>) returns (due: seq<Row>)
      ensures due == DueRows(rows, now, platform)
    {
      var keep := (row: Row) => IsDue(row, now, platform);
      var selected := [];
      var i := |rows|;
      while i > 0
        invariant 0 <= i <= |rows|
        invariant selected == Select(rows[i..], keep)
      {
        i := i - 1;
        assert rows[i..] == [rows[i]] + rows[i + 1..];
        if keep(rows[i]) {
          selected := [rows[i]] + selected;
        }
      }
      assert rows[0..] == rows;
      due := Sort(selected, DueOrder);
    }

    /** `claim`: moves one active unclaimed row of the platform to the sentinel. */
    method Claim(id: nat, platform: Option<string>) returns (won: bool)
      modifies this
      ensures won == Claimable(old(rows), id, platform)
      ensures rows == Claimed(old(rows), id, platform)
    {
      if !Has(rows, id) || rows[id - 1].status != Active || !Serves(platform, rows[id - 1]) {
        return false;
      }
      if rows[id - 1].nextRun == SENTINEL {
        return false;
      }
      rows := rows[id - 1 := rows[id - 1].(nextRun := SENTINEL)];
      return true;
    }

    /** `advance_after_run`. */
    method AdvanceAfterRun(id: nat, nextRun: int, lastRun: int, outcome: Outcome)
      modifies this
      ensures rows == Advanced(old(rows), id, nextRun, lastRun, outcome)
    {
      if Has(rows, id) {
        rows := rows[id - 1 := rows[id - 1].(nextRun := nextRun, lastRun := Some(lastRun),
                                             lastStatus := Some(outcome))];
      }
    }

    /** `cancel`: true when this call found the row active. */
    method Cancel(id: nat) returns (removed: bool)
      modifies this
      ensures removed == Cancellable(old(rows), id)
      ensures rows == WithCancelled(old(rows), id)
    {
      removed := Has(rows, id) && rows[id - 1].status == Active;
      if removed {
        rows := rows[id - 1 := rows[id - 1].(status := Cancelled)];
      }
    }

    /** `recover_claimed`: the active rows of the platform left at the sentinel. */
    method RecoverClaimed(platform: Option<string>) returns (stuck: seq<Row>)
      ensures stuck == StuckRows(rows, platform)
    {
      stuck := [];
      var i := |rows|;
      while i > 0
        invariant 0 <= i <= |rows|
        invariant stuck == StuckRows(rows[i..], platform)
      {
        i := i - 1;
        assert rows[i..] == [rows[i]] + rows[i + 1..];
        if IsStuck(rows[i], platform) {
          stuck := [rows[i]] + stuck;
        }
      }
      assert rows[0..] == rows;
    }
  }

  // ---- what the selections contain ----

  /** `due` returns exactly the due rows of the platform, none of them claimed while the clock is
      below the sentinel. */
  lemma DueSelectsExactly(t: Table, now: int, platform: Option<string>, row: Row)
    ensures row in DueRows(t, now, platform) <==>
      && row in t && row.status == Active && row.nextRun <= now
      && (platform.Some? ==> row.platform == platform.value)
    ensures now < SENTINEL && row in DueRows(t, now, platform) ==> row.nextRun != SENTINEL
  {
    var keep := (r: Row) => IsDue(r, now, platform);
    SelectKeepsExactly(t, keep, row);
    SortKeeps(Select(t, keep), DueOrder);
    SameElements(DueRows(t, now, platform), Select(t, keep), row);
  }

  /** `recover_claimed` returns exactly the active rows of the platform at the sentinel, in the table's order. */
  lemma StuckSelectsExactly(t: Table, platform: Option<string>, row: Row)
    ensures row in StuckRows(t, platform) <==>
      && row in t && row.status == Active && row.nextRun == SENTINEL
      && (platform.Some? ==> row.platform == platform.value)
  {
    SelectKeepsExactly(t, (r: Row) => IsStuck(r, platform), row);
  }

  /** What `create` adds: the row as given, under the next number, after all others. */
  lemma CreatedAsGiven(t: Table, row: Row)
    ensures var r := Inserted(t, row);
      && |r| == |t| + 1 && r[..|t|] == t
      && var last := r[|t|];
         && last.number == |t| + 1 && last.platform == row.platform && last.spec == row.spec
         && last.onMiss == row.onMiss && last.nextRun == row.nextRun && last.lastRun == row.lastRun
         && last.created == row.created && last.status == row.status && last.lastStatus == row.lastStatus
  {
  }

  /** An id names at most one row: the texts of different numbers differ. */
  lemma IdsDistinct(t: Table, a: Row, b: Row)
    requires Numbered(t) && a in t && b in t && IdText(a) == IdText(b)
    ensures a == b
  {
    assert IdText(a)[1..] == Decimal.Numeral(a.number) && IdText(b)[1..] == Decimal.Numeral(b.number);
    Decimal.NumeralInjective(a.number, b.number);
  }

  /** The order is by run time, then by the id's text; rows with both equal are one row. */
  lemma DueOrderIs(a: Row, b: Row)
    ensures DueOrder(a, b) ==> a.nextRun <= b.nextRun
    ensures a.nextRun < b.nextRun ==> DueOrder(a, b) && !DueOrder(b, a)
    ensures a.nextRun == b.nextRun && Timestamps.TextLess(IdText(a), IdText(b)) ==> DueOrder(a, b) && !DueOrder(b, a)
  {
    Timestamps.TextTrichotomy(IdText(a), IdText(b));
  }

  /** The due rows come in run order. */
  lemma DueInOrder(t: Table, now: int, platform: Option<string>)
    ensures Sorted(DueRows(t, now, platform), DueOrder)
  {
    forall a: Row, b: Row
      ensures DueOrder(a, b) || DueOrder(b, a)
    {
      Timestamps.TextTrichotomy(IdText(a), IdText(b));
    }
    forall a: Row, b: Row, c: Row | DueOrder(a, b) && DueOrder(b, c)
      ensures DueOrder(a, c)
    {
      DueOrderTransitive(a, b, c);
    }
    SortSorts(Select(t, row => IsDue(row, now, platform)), DueOrder);
  }

  lemma DueOrderTransitive(a: Row, b: Row, c: Row)
    requires DueOrder(a, b) && DueOrder(b, c)
    ensures DueOrder(a, c)
  {
    if Timestamps.TextLess(IdText(c), IdText(a)) {
      Timestamps.TextTrichotomy(IdText(a), IdText(b));
      Timestamps.TextTrichotomy(IdText(b), IdText(c));
      if IdText(a) != IdText(b) && IdText(b) != IdText(c) {
        if a.nextRun == b.nextRun == c.nextRun {
          Timestamps.TextLessTransitive(IdText(a), IdText(b), IdText(c));
          Timestamps.TextTrichotomy(IdText(a), IdText(c));
        }
      }
    }
  }
}
