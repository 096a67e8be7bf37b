/** The archive round trip: after any number of finished turns, rebuilds, relaunches, rewinds and deaths in the
    middle of a turn, restoring the archive gives the exchanges of the turns that no rewind took back, the marker
    in place of the answer of a last one that was cut off; and exactly when that is the live history. */
module RoundTrip {
  import opened Wrappers
  import opened TurnModel
  import opened Sequences
  import opened TurnRuns
  import opened TurnPayloads
  import opened Archives
  import opened Sorting
  import opened Resume
  import opened SessionRuns

  // ---- sorting what is sorted ----

  lemma IntOrder()
    ensures TotalPreorder(IntLe)
  {
  }

  lemma PlaceOrder()
    ensures TotalPreorder(PlaceLe)
  {
  }

  lemma SortedStays(group: seq<Entry>)
    requires forall i, j :: 0 <= i < j < |group| ==> PlaceLe(group[i], group[j])
    requires forall i, j :: 0 <= i < j < |group| ==> !PlaceLe(group[j], group[i])
    ensures Sort(group, PlaceLe) == group
  {
    PlaceOrder();
    SortKeeps(group, PlaceLe);
    SortSorts(group, PlaceLe);
    forall x, y | x in group && y in group && PlaceLe(x, y) && PlaceLe(y, x)
      ensures x == y
    {
      var i :| 0 <= i < |group| && group[i] == x;
      var j :| 0 <= j < |group| && group[j] == y;
      assert i == j || i < j || j < i;
    }
    SortedUnique(group, Sort(group, PlaceLe), PlaceLe);
  }

  /** A number above all others sorts last. */
  lemma SortWithGreatest(numbers: seq<int>, turn: int)
    requires forall i :: 0 <= i < |numbers| ==> numbers[i] < turn
    ensures Sort(numbers + [turn], IntLe) == Sort(numbers, IntLe) + [turn]
  {
    IntOrder();
    SortKeeps(numbers, IntLe);
    SortSorts(numbers, IntLe);
    SortKeeps(numbers + [turn], IntLe);
    SortSorts(numbers + [turn], IntLe);
    var sorted := Sort(numbers, IntLe);
    forall i | 0 <= i < |sorted|
      ensures sorted[i] < turn
    {
      SameElements(numbers, sorted, sorted[i]);
    }
    SortedUnique(sorted + [turn], Sort(numbers + [turn], IntLe), IntLe);
  }

  // ---- the turns a reader shows ----

  datatype Row = Row(turn: int, user: string, assistant: string)

  function Flatten(rows: seq<Row>): seq<Message> {
    if rows == [] then []
    else
      var last := rows[|rows| - 1];
      Flatten(rows[..|rows| - 1]) + Exchange(last.user, last.assistant)
  }

  /** Two messages, the user's and then the assistant's, each with its text. */
  lemma ExchangeSays(user: string, assistant: string)
    ensures var said := Exchange(user, assistant);
      && |said| == 2 && said[0].role == User && said[1].role == Assistant
      && Collect(said[0].content, BlockText) == user && Collect(said[1].content, BlockText) == assistant
      && (said[1].content == [] <==> assistant == "")
  {
    CollectOne(Text(user), BlockText);
    CollectOne(Text(assistant), BlockText);
  }

  /** What is read from these rows: everything, or with the last turn cut off its user text and the marker. */
  function Reading(rows: seq<Row>, cut: bool, marker: string): seq<Message> {
    if cut && rows != []
    then Flatten(rows[..|rows| - 1]) + Exchange(rows[|rows| - 1].user, marker)
    else Flatten(rows)
  }

  /** The rows a rewind leaves. */
  function Surviving(rows: seq<Row>, r: Rewind): seq<Row> {
    if rows == [] then []
    else
      var last := rows[|rows| - 1];
      Surviving(rows[..|rows| - 1], r) + (if Hides(r, last.turn) then [] else [last])
  }

  function RowOf(entries: seq<Entry>, turn: int): Row {
    var archived := Sort(OfTurn(entries, turn), PlaceLe);
    Row(turn, Collect(archived, UserText), Collect(archived, AssistantText))
  }

  /** The rows of the first `n` turns that no rewind hides. */
  function Rows(entries: seq<Entry>, turns: seq<int>, n: nat): seq<Row>
    requires n <= |turns|
  {
    if n == 0 then []
    else if Hidden(RewindsOf(entries), turns[n - 1]) then Rows(entries, turns, n - 1)
    else Rows(entries, turns, n - 1) + [RowOf(entries, turns[n - 1])]
  }

  function ShownOf(entries: seq<Entry>): seq<Row> {
    var turns := Sort(TurnNumbers(entries), IntLe);
    Rows(entries, turns, |turns|)
  }

  /** A turn that the reader shows with the marker. */
  predicate Interrupted(entries: seq<Entry>, turn: int) {
    !Hidden(RewindsOf(entries), turn) && CutOff(Sort(OfTurn(entries, turn), PlaceLe), true)
  }

  /** The last turn is hidden or ends with its answer. */
  predicate Uncut(entries: seq<Entry>) {
    TurnNumbers(entries) == [] || !Interrupted(entries, LastTurn(TurnNumbers(entries)))
  }

  lemma RowsStep(entries: seq<Entry>, turns: seq<int>, n: nat)
    requires 0 < n <= |turns|
    ensures Rows(entries, turns, n) ==
      Rows(entries, turns, n - 1) +
      (if Hidden(RewindsOf(entries), turns[n - 1]) then [] else [RowOf(entries, turns[n - 1])])
  {
    hide RowOf, Hidden, RewindsOf;
  }

  /** One turn of the reader's loop, in terms of its row. */
  lemma RebuiltStep(entries: seq<Entry>, marker: string, turns: seq<int>, last: int, n: nat)
    requires 0 < n <= |turns|
    ensures var (history, cut) := Rebuilt(entries, marker, turns, last, n - 1);
      var (history', cut') := Rebuilt(entries, marker, turns, last, n);
      var turn := turns[n - 1];
      && (cut' <==> cut || (turn == last && Interrupted(entries, last)))
      && var row := RowOf(entries, turn);
         history' ==
           if Hidden(RewindsOf(entries), turn) then history
           else if turn == last && Interrupted(entries, last) then history + Exchange(row.user, marker)
           else history + Exchange(row.user, row.assistant)
  {
    hide Sort, Collect, OfTurn, RewindsOf, Hidden, Exchange;
  }

  lemma NothingRebuilt(entries: seq<Entry>, marker: string, turns: seq<int>, last: int)
    ensures Rebuilt(entries, marker, turns, last, 0) == (Flatten(Rows(entries, turns, 0)), false)
  {
  }

  lemma {:induction false} RebuiltIsRows(entries: seq<Entry>, marker: string, turns: seq<int>, last: int, n: nat)
    requires n <= |turns|
    ensures Rebuilt(entries, marker, turns, last, n).1 <==> last in turns[..n] && Interrupted(entries, last)
    ensures !Rebuilt(entries, marker, turns, last, n).1 ==>
      Rebuilt(entries, marker, turns, last, n).0 == Flatten(Rows(entries, turns, n))
  {
    NothingRebuilt(entries, marker, turns, last);
    hide *;
    if n > 0 {
      RebuiltIsRows(entries, marker, turns, last, n - 1);
      assert turns[..n] == turns[..n - 1] + [turns[n - 1]];
      RebuiltStep(entries, marker, turns, last, n);
      RowsStep(entries, turns, n);
      var before := Rows(entries, turns, n - 1);
      if Hidden(RewindsOf(entries), turns[n - 1]) {
        assert Rows(entries, turns, n) == before;
      } else {
        FlattenOneMore(before, RowOf(entries, turns[n - 1]));
      }
    }
  }

  lemma FlattenOneMore(rows: seq<Row>, row: Row)
    ensures Flatten(rows + [row]) == Flatten(rows) + Exchange(row.user, row.assistant)
  {
    assert (rows + [row])[..|rows|] == rows;
  }

  /** The turns in order end with the last one, and it occurs nowhere else. */
  lemma LastComesLast(numbers: seq<int>)
    requires numbers != [] && forall t :: multiset(numbers)[t] <= 1
    ensures var turns, last := Sort(numbers, IntLe), LastTurn(numbers);
      turns != [] && turns[|turns| - 1] == last && last !in turns[..|turns| - 1]
  {
    IntOrder();
    SortKeeps(numbers, IntLe);
    SortSorts(numbers, IntLe);
    LastTurnIsMax(numbers);
    var turns, last := Sort(numbers, IntLe), LastTurn(numbers);
    hide Sort, LastTurn;
    assert |turns| == |multiset(turns)| == |multiset(numbers)| == |numbers|;
    SameElements(numbers, turns, last);
    SameElements(numbers, turns, turns[|turns| - 1]);
    GreatestIsLast(turns, last);
  }

  lemma GreatestIsLast(turns: seq<int>, last: int)
    requires Sorted(turns, IntLe) && last in turns && turns[|turns| - 1] <= last && multiset(turns)[last] <= 1
    ensures turns[|turns| - 1] == last && last !in turns[..|turns| - 1]
  {
    var n := |turns| - 1;
    var i :| 0 <= i < |turns| && turns[i] == last;
    assert i == n || IntLe(turns[i], turns[n]);
    assert turns == turns[..n] + [turns[n]];
  }

  /** The reader flags an interruption exactly when the last turn is cut off and not hidden. Its history is what
      the shown turns archived, the marker standing for the answer of that last turn if it is cut off. */
  lemma RestoredIsShown(entries: seq<Entry>, marker: string)
    ensures Restored(entries, marker) ==
      ResumeResult(Reading(ShownOf(entries), !Uncut(entries), marker), !Uncut(entries), false)
    ensures var rows := ShownOf(entries);
      !Uncut(entries) ==> rows != [] && rows[|rows| - 1].turn == LastTurn(TurnNumbers(entries))
  {
    var numbers := TurnNumbers(entries);
    var turns := Sort(numbers, IntLe);
    var last, n := LastTurn(numbers), |turns|;
    RebuiltIsRows(entries, marker, turns, last, n);
    SortKeeps(numbers, IntLe);
    assert turns[..n] == turns;
    if numbers == [] {
      assert |turns| == |multiset(turns)| == 0;
    } else {
      forall t
        ensures multiset(numbers)[t] <= 1
      {
        TurnNumbersOnce(entries, t);
      }
      LastComesLast(numbers);
      RebuiltIsRows(entries, marker, turns, last, n - 1);
      RebuiltStep(entries, marker, turns, last, n);
      RowsStep(entries, turns, n);
      CutRow(entries, last);
    }
    hide TurnNumbers, Sort, Interrupted, Rebuilt, Rows, RowOf, LastTurn;
  }

  lemma CutRow(entries: seq<Entry>, turn: int)
    ensures Interrupted(entries, turn) ==> !Hidden(RewindsOf(entries), turn)
    ensures RowOf(entries, turn).turn == turn
  {
    hide Hidden, RewindsOf;
  }

  // ---- one more rewind ----

  lemma RewindReads(entries: seq<Entry>, e: Entry, r: Rewind, turn: int)
    requires e.layer == SessionRewind && e.keep == Whole(r.keep) && e.through == Whole(r.through)
    ensures OfTurn(entries + [e], turn) == OfTurn(entries, turn)
    ensures TurnNumbers(entries + [e]) == TurnNumbers(entries)
    ensures Hidden(RewindsOf(entries + [e]), turn) <==> Hidden(RewindsOf(entries), turn) || Hides(r, turn)
  {
    OneMoreRead(entries, e);
    HiddenOneMore(RewindsOf(entries), r, turn);
    hide OfTurn, TurnNumbers, RewindsOf, Hidden;
    assert !InTurn(e, turn);
  }

  lemma SurvivingOneMore(rows: seq<Row>, row: Row, r: Rewind)
    ensures Surviving(rows + [row], r) == Surviving(rows, r) + (if Hides(r, row.turn) then [] else [row])
  {
    assert (rows + [row])[..|rows|] == rows;
  }

  lemma SameRow(a: seq<Entry>, b: seq<Entry>, turn: int)
    requires OfTurn(a, turn) == OfTurn(b, turn)
    ensures RowOf(a, turn) == RowOf(b, turn) && RowOf(a, turn).turn == turn
  {
  }

  lemma NothingToHide(entries: seq<Entry>, e: Entry, r: Rewind, turns: seq<int>)
    ensures Rows(entries + [e], turns, 0) == Surviving(Rows(entries, turns, 0), r)
  {
  }

  lemma {:induction false} RowsAfterRewind(entries: seq<Entry>, e: Entry, r: Rewind, turns: seq<int>, n: nat)
    requires n <= |turns| && e.layer == SessionRewind && e.keep == Whole(r.keep) && e.through == Whole(r.through)
    ensures Rows(entries + [e], turns, n) == Surviving(Rows(entries, turns, n), r)
  {
    NothingToHide(entries, e, r, turns);
    hide *;
    if n > 0 {
      RowsAfterRewind(entries, e, r, turns, n - 1);
      RewindReads(entries, e, r, turns[n - 1]);
      SameRow(entries + [e], entries, turns[n - 1]);
      RowsStep(entries, turns, n);
      RowsStep(entries + [e], turns, n);
      var before, row := Rows(entries, turns, n - 1), RowOf(entries, turns[n - 1]);
      SurvivingOneMore(before, row, r);
      if Hidden(RewindsOf(entries), turns[n - 1]) {
        assert Rows(entries, turns, n) == before;
      } else if Hides(r, turns[n - 1]) {
        assert Rows(entries + [e], turns, n) == Surviving(before, r);
      } else {
        assert Rows(entries + [e], turns, n) == Surviving(before, r) + [row];
      }
    }
  }

  lemma HiddenOneMore(rewinds: seq<Rewind>, r: Rewind, turn: int)
    ensures Hidden(rewinds + [r], turn) <==> Hidden(rewinds, turn) || Hides(r, turn)
  {
    if Hides(r, turn) {
      assert (rewinds + [r])[|rewinds|] == r;
    }
    if i :| 0 <= i < |rewinds| && Hides(rewinds[i], turn) {
      assert (rewinds + [r])[i] == rewinds[i];
    }
  }

  /** The rows that survive are those whose turn is not above `keep` or not up to `through`. */
  lemma {:induction false} SurvivingExactly(rows: seq<Row>, r: Rewind, row: Row)
    ensures row in Surviving(rows, r) <==> row in rows && !(r.keep < row.turn <= r.through)
  {
    if rows != [] {
      var before, last := rows[..|rows| - 1], rows[|rows| - 1];
      SurvivingExactly(before, r, row);
      SurvivingOneMore(before, last, r);
      assert rows == before + [last];
      hide Surviving;
    }
  }

  /** One more rewind takes its turns out of what is shown; a last turn that was cut off stays so exactly when it
      is not one of them. */
  lemma OneMoreRewind(entries: seq<Entry>, e: Entry, r: Rewind)
    requires e.layer == SessionRewind && e.keep == Whole(r.keep) && e.through == Whole(r.through)
    ensures ShownOf(entries + [e]) == Surviving(ShownOf(entries), r)
    ensures Uncut(entries + [e]) <==>
      Uncut(entries) || r.keep < LastTurn(TurnNumbers(entries)) <= r.through
  {
    RewindReads(entries, e, r, LastTurn(TurnNumbers(entries)));
    hide TurnNumbers, LastTurn, Sort, OfTurn, RewindsOf, Hidden, CutOff;
    var turns := Sort(TurnNumbers(entries), IntLe);
    RowsAfterRewind(entries, e, r, turns, |turns|);
  }

  // ---- one more turn ----

  /** Every archived turn is numbered below `turn`. */
  ghost predicate TurnsBelow(archive: seq<Entry>, turn: int) {
    forall i, t :: 0 <= i < |archive| && InTurn(archive[i], t) ==> t < turn
  }

  /** The entries of one turn, in place order. */
  ghost predicate OneTurn(group: seq<Entry>, turn: int) {
    && group != []
    && (forall i :: 0 <= i < |group| ==> InTurn(group[i], turn))
    && (forall i, j :: 0 <= i < j < |group| ==> PlaceLe(group[i], group[j]) && !PlaceLe(group[j], group[i]))
  }

  lemma {:induction false} NumbersOfGroup(archive: seq<Entry>, group: seq<Entry>, turn: int)
    requires TurnsBelow(archive, turn) && forall i :: 0 <= i < |group| ==> InTurn(group[i], turn)
    ensures TurnNumbers(archive + group) == TurnNumbers(archive) + (if group == [] then [] else [turn])
    ensures turn !in TurnNumbers(archive)
  {
    NumbersBelow(archive, turn);
    if group == [] {
      assert archive + group == archive;
    } else {
      var n := |group| - 1;
      NumbersOfGroup(archive, group[..n], turn);
      assert archive + group == archive + group[..n] + [group[n]];
      OneMoreRead(archive + group[..n], group[n]);
    }
  }

  lemma NumbersBelow(archive: seq<Entry>, turn: int)
    requires TurnsBelow(archive, turn)
    ensures forall i :: 0 <= i < |TurnNumbers(archive)| ==> TurnNumbers(archive)[i] < turn
  {
    forall i | 0 <= i < |TurnNumbers(archive)|
      ensures TurnNumbers(archive)[i] < turn
    {
      TurnNumbersExactly(archive, TurnNumbers(archive)[i]);
    }
  }

  lemma {:induction false} OfTurnOfGroup(archive: seq<Entry>, group: seq<Entry>, turn: int, t: int)
    requires TurnsBelow(archive, turn) && forall i :: 0 <= i < |group| ==> InTurn(group[i], turn)
    ensures OfTurn(archive + group, t) == if t == turn then group else OfTurn(archive, t)
  {
    if group == [] {
      hide *;
      assert archive + group == archive;
      if t == turn {
        NoneOfTurn(archive, turn);
      }
    } else {
      var before, last := group[..|group| - 1], group[|group| - 1];
      GroupSplits(group, turn, t);
      hide *;
      OfTurnOfGroup(archive, before, turn, t);
      OneMoreOfTurn(archive + before, last, t);
      assert archive + group == archive + before + [last];
      assert t == turn ==> OfTurn(archive + group, t) == before + [last];
    }
    hide *;
  }

  lemma GroupSplits(group: seq<Entry>, turn: int, t: int)
    requires group != [] && forall i :: 0 <= i < |group| ==> InTurn(group[i], turn)
    ensures var before, last := group[..|group| - 1], group[|group| - 1];
      && group == before + [last] && (InTurn(last, t) <==> t == turn)
      && forall i :: 0 <= i < |before| ==> InTurn(before[i], turn)
  {
  }

  lemma {:induction false} NoneOfTurn(archive: seq<Entry>, turn: int)
    requires TurnsBelow(archive, turn)
    ensures OfTurn(archive, turn) == []
  {
    if archive != [] {
      NoneOfTurn(archive[..|archive| - 1], turn);
    }
  }

  lemma LastIsGreatest(numbers: seq<int>, turn: int)
    requires forall i :: 0 <= i < |numbers| ==> numbers[i] < turn
    ensures LastTurn(numbers + [turn]) == turn
  {
    assert (numbers + [turn])[..|numbers|] == numbers;
    if numbers != [] {
      LastTurnIsMax(numbers);
    }
  }

  lemma {:induction false} RewindsOfGroup(entries: seq<Entry>, group: seq<Entry>, turn: int)
    requires forall i :: 0 <= i < |group| ==> InTurn(group[i], turn)
    ensures RewindsOf(entries + group) == RewindsOf(entries)
  {
    if group == [] {
      assert entries + group == entries;
    } else {
      var before, last := group[..|group| - 1], group[|group| - 1];
      RewindsOfGroup(entries, before, turn);
      assert entries + group == entries + before + [last];
      OneMoreRead(entries + before, last);
    }
  }

  lemma {:induction false} SameRows(entries: seq<Entry>, all: seq<Entry>, turns: seq<int>, more: seq<int>, n: nat)
    requires n <= |turns| && turns <= more && RewindsOf(all) == RewindsOf(entries)
    requires forall i :: 0 <= i < |turns| ==> OfTurn(all, turns[i]) == OfTurn(entries, turns[i])
    ensures Rows(all, more, n) == Rows(entries, turns, n)
  {
    if n > 0 {
      hide Sort, Collect, OfTurn, RewindsOf, Hidden;
      SameRows(entries, all, turns, more, n - 1);
      assert more[n - 1] == turns[n - 1];
    }
  }

  /** The earlier turns are shown as they were. */
  lemma EarlierTurns(entries: seq<Entry>, group: seq<Entry>, turn: int)
    requires TurnsBelow(entries, turn) && OneTurn(group, turn)
    ensures var turns := Sort(TurnNumbers(entries), IntLe);
      Rows(entries + group, turns + [turn], |turns|) == ShownOf(entries)
  {
    var numbers, turns := TurnNumbers(entries), Sort(TurnNumbers(entries), IntLe);
    NumbersBelow(entries, turn);
    RewindsOfGroup(entries, group, turn);
    SortKeeps(numbers, IntLe);
    hide TurnNumbers, Sort, RewindsOf, OfTurn, TurnsBelow;
    forall i | 0 <= i < |turns|
      ensures OfTurn(entries + group, turns[i]) == OfTurn(entries, turns[i])
    {
      SameElements(numbers, turns, turns[i]);
      OfTurnOfGroup(entries, group, turn, turns[i]);
    }
    SameRows(entries, entries + group, turns, turns + [turn], |turns|);
  }

  /** The turn numbers, and the new turn's own entries. */
  lemma GroupReads(entries: seq<Entry>, group: seq<Entry>, turn: int)
    requires TurnsBelow(entries, turn) && OneTurn(group, turn)
    ensures var numbers := TurnNumbers(entries + group);
      && Sort(numbers, IntLe) == Sort(TurnNumbers(entries), IntLe) + [turn]
      && numbers != [] && LastTurn(numbers) == turn
      && Sort(OfTurn(entries + group, turn), PlaceLe) == group
  {
    NumbersOfGroup(entries, group, turn);
    NumbersBelow(entries, turn);
    OfTurnOfGroup(entries, group, turn, turn);
    SortedStays(group);
    hide TurnNumbers, Sort, OfTurn, TurnsBelow, LastTurn;
    SortWithGreatest(TurnNumbers(entries), turn);
    LastIsGreatest(TurnNumbers(entries), turn);
  }

  lemma LastGroupIs(all: seq<Entry>, group: seq<Entry>, turn: int)
    requires TurnNumbers(all) != [] && LastTurn(TurnNumbers(all)) == turn && Sort(OfTurn(all, turn), PlaceLe) == group
    requires group != [] && !Hidden(RewindsOf(all), turn)
    ensures Uncut(all) <==> Answer(group[|group| - 1])
    ensures RowOf(all, turn) == Row(turn, Collect(group, UserText), Collect(group, AssistantText))
  {
    hide LastTurn, TurnNumbers, Sort, OfTurn, Collect, Hidden, RewindsOf;
  }

  lemma OneMoreShown(entries: seq<Entry>, group: seq<Entry>, turn: int)
    requires TurnsBelow(entries, turn) && OneTurn(group, turn) && !Hidden(RewindsOf(entries), turn)
    ensures ShownOf(entries + group) == ShownOf(entries) + [RowOf(entries + group, turn)]
  {
    EarlierTurns(entries, group, turn);
    GroupReads(entries, group, turn);
    RewindsOfGroup(entries, group, turn);
    hide TurnNumbers, Sort, RewindsOf, Hidden, Rows, RowOf;
    var turns := Sort(TurnNumbers(entries), IntLe);
    RowsStep(entries + group, turns + [turn], |turns| + 1);
  }

  /** An archive with one more turn, finished or not, and whatever came before: it is shown after the earlier turns,
      and it is cut off exactly when its last entry is no assistant message. */
  lemma OneMoreTurn(entries: seq<Entry>, group: seq<Entry>, turn: int)
    requires TurnsBelow(entries, turn) && !Hidden(RewindsOf(entries), turn) && OneTurn(group, turn)
    ensures var last := group[|group| - 1].content;
      Uncut(entries + group) <==> last.Said? && last.message.role == Assistant
    ensures ShownOf(entries + group) ==
      ShownOf(entries) + [Row(turn, Collect(group, UserText), Collect(group, AssistantText))]
  {
    assert group != [];
    RewindsOfGroup(entries, group, turn);
    assert Answer(group[|group| - 1]) <==>
      group[|group| - 1].content.Said? && group[|group| - 1].content.message.role == Assistant;
    hide *;
    GroupReads(entries, group, turn);
    LastGroupIs(entries + group, group, turn);
    OneMoreShown(entries, group, turn);
  }

  // ---- the session's turns ----

  lemma {:induction false} WrittenTexts(c: Cursor, payloads: seq<Payload>, id: nat)
    ensures Collect(Written(c, payloads, id), UserText) == Collect(payloads, OfUser)
    ensures Collect(Written(c, payloads, id), AssistantText) == Collect(payloads, OfAssistant)
    decreases |payloads|
  {
    if payloads != [] {
      hide PayloadText;
      WrittenTexts(Advanced(c, id), payloads[1..], id + 1);
      var rest := Written(Advanced(c, id), payloads[1..], id + 1);
      assert Written(c, payloads, id) == [EntryAt(c, payloads[0], id)] + rest;
      assert ([EntryAt(c, payloads[0], id)] + rest)[1..] == rest;
    }
  }

  lemma GroupIsOneTurn(group: seq<Entry>, turn: int, place: nat, id: nat, prev: Option<nat>)
    requires GroupOk(group, turn, place, id, prev) && group != []
    ensures OneTurn(group, turn)
  {
    hide PlaceLe;
    forall i | 0 <= i < |group|
      ensures InTurn(group[i], turn) && group[i].seqNo == Whole(place + i)
    {
    }
    forall i, j | 0 <= i < j < |group|
      ensures PlaceLe(group[i], group[j]) && !PlaceLe(group[j], group[i])
    {
      PlacesRise(group[i], group[j], place + i, place + j);
    }
  }

  lemma PlacesRise(a: Entry, b: Entry, m: int, n: int)
    requires a.seqNo == Whole(m) && b.seqNo == Whole(n) && m < n
    ensures PlaceLe(a, b) && !PlaceLe(b, a)
  {
  }

  /** The entries of a turn of which something was archived. */
  lemma WrittenGroup(c: Cursor, payloads: seq<Payload>, id: nat)
    requires payloads != []
    ensures var group := Written(c, payloads, id);
      OneTurn(group, c.turnSeq) && group[|group| - 1].content == payloads[|payloads| - 1]
  {
    WrittenIsGroup(c, payloads, id);
    GroupIsOneTurn(Written(c, payloads, id), c.turnSeq, c.seqNo, id, c.prev);
    WrittenEntries(c, payloads, id, |payloads| - 1);
  }

  lemma {:induction false} InLayerHas(entries: seq<Entry>, layer: Layer, e: Entry)
    requires e in entries && e.layer == layer
    ensures e in InLayer(entries, layer)
  {
    var n := |entries| - 1;
    assert entries == entries[..n] + [entries[n]];
    if e != entries[n] {
      InLayerHas(entries[..n], layer, e);
    }
  }

  /** The number of the next turn is above every archived turn and every rewind. */
  lemma NextTurnIsNew(p: Session)
    requires Ordered(p) && p.ready
    ensures TurnsBelow(p.entries, p.engineTurn + 1) && !Hidden(RewindsOf(p.entries), p.engineTurn + 1)
  {
    ArchiveBelow(p);
    HiddenExactly(p.entries, p.engineTurn + 1);
    hide InLayer, Chained, NumberedAbove, RewindsOf, Hidden;
    forall i, t | 0 <= i < |p.entries| && InTurn(p.entries[i], t)
      ensures t < p.engineTurn + 1
    {
      InLayerHas(p.entries, TurnArchive, p.entries[i]);
      var k :| 0 <= k < |Archive(p)| && Archive(p)[k] == p.entries[i];
    }
  }

  /** What was archived of a turn ends with an assistant message. */
  predicate Answered(payloads: seq<Payload>) {
    payloads != [] && payloads[|payloads| - 1].Said? && payloads[|payloads| - 1].message.role == Assistant
  }

  /** The turns that no rewind has taken back, with what was said in them, and whether the last one was cut off. */
  datatype Shown = Shown(rows: seq<Row>, cut: bool)

  /** What is shown after an event; `turn` is the number of the turn it starts, if it starts one. */
  ghost function ShownAfter(before: Shown, event: Event, turn: int): Shown {
    match event
    case Took(env) =>
      Shown(before.rows + [Row(turn, Collect(env.userInput, BlockText), TurnPayloads.Streamed(env))], false)
    case Killed(env, count, _) =>
      if 0 < count <= |Payloads(env)| then
        var payloads := Payloads(env)[..count];
        Shown(before.rows + [Row(turn, Collect(payloads, OfUser), Collect(payloads, OfAssistant))], !Answered(payloads))
      else before
    case Rewound(keep, through) =>
      Shown(Surviving(before.rows, Rewind(keep, through)),
            before.cut && before.rows != [] && !(keep < before.rows[|before.rows| - 1].turn <= through))
    case _ => before
  }

  ghost function ShownAt(states: seq<Session>, events: seq<Event>, i: nat): Shown
    requires |states| == |events| + 1 && i < |states|
  {
    if i == 0 then Shown([], false)
    else ShownAfter(ShownAt(states, events, i - 1), events[i - 1], Prepared(states[i - 1]).engineTurn + 1)
  }

  function ReadingOf(shown: Shown, marker: string): seq<Message> {
    Reading(shown.rows, shown.cut, marker)
  }

  /** The archive shows this. */
  ghost predicate Shows(s: Session, shown: Shown) {
    ShownOf(s.entries) == shown.rows && (Uncut(s.entries) <==> !shown.cut)
  }

  lemma TurnShows(p: Session, payloads: seq<Payload>, exchange: seq<Message>, shown: Shown)
    requires Ordered(p) && p.ready && Shows(p, shown) && payloads != []
    ensures var row := Row(p.engineTurn + 1, Collect(payloads, OfUser), Collect(payloads, OfAssistant));
      Shows(WithTurn(p, payloads, exchange), Shown(shown.rows + [row], !Answered(payloads)))
  {
    hide Written, OneTurn, Collect, Ordered, ShownOf, Uncut, TurnsBelow, Hidden, RewindsOf;
    var c := p.cursor.(turnSeq := p.engineTurn + 1);
    NextTurnIsNew(p);
    WrittenTexts(c, payloads, |p.entries|);
    WrittenGroup(c, payloads, |p.entries|);
    OneMoreTurn(p.entries, Written(c, payloads, |p.entries|), c.turnSeq);
  }

  lemma StepShows(s: Session, s': Session, event: Event, shown: Shown)
    requires Ordered(s) && Shows(s, shown) && Next(s, s', event)
    ensures Shows(s', ShownAfter(shown, event, Prepared(s).engineTurn + 1))
  {
    hide Ordered, Finished, AfterTurn, AfterKill, Payloads, Prepared;
    match event
    case Rebuild =>
    case Relaunch(_) =>
    case Rewound(keep, through) => RewindShows(s, s', keep, through, shown);
    case Took(env) => TookShows(s, env, shown);
    case Killed(env, count, config) => KillShows(s, env, count, config, shown);
  }

  lemma RewindShows(s: Session, s': Session, keep: int, through: int, shown: Shown)
    requires Shows(s, shown) && s'.entries == s.entries + [RewindEntry(|s.entries|, keep, through)]
    ensures Shows(s', ShownAfter(shown, Rewound(keep, through), 0))
  {
    RestoredIsShown(s.entries, "");
    hide ShownOf, Uncut, Restored, Reading, TurnNumbers, LastTurn;
    OneMoreRewind(s.entries, RewindEntry(|s.entries|, keep, through), Rewind(keep, through));
  }

  lemma TookShows(s: Session, env: Env, shown: Shown)
    requires Ordered(s) && Shows(s, shown) && Finished(env)
    ensures Shows(AfterTurn(s, env), ShownAfter(shown, Took(env), Prepared(s).engineTurn + 1))
  {
    hide *;
    FinishedMeans(env);
    PreparedShows(s, shown);
    AfterTurnMeans(s, env, shown);
    FinishedTurnPayloads(env);
    IsAnswered(Payloads(env));
    var exchange := Exchange(Collect(env.userInput, BlockText), TurnPayloads.Streamed(env));
    TurnShows(Prepared(s), Payloads(env), exchange, shown);
  }

  lemma IsAnswered(payloads: seq<Payload>)
    requires payloads != [] && payloads[|payloads| - 1].Said? && payloads[|payloads| - 1].message.role == Assistant
    ensures Answered(payloads)
  {
  }

  lemma KillShows(s: Session, env: Env, count: nat, config: ResumeConfig, shown: Shown)
    requires Ordered(s) && Shows(s, shown) && count <= |Payloads(env)|
    ensures Shows(AfterKill(s, Payloads(env)[..count], config),
                  ShownAfter(shown, Killed(env, count, config), Prepared(s).engineTurn + 1))
  {
    hide *;
    var payloads := Payloads(env)[..count];
    AfterKillMeans(s, payloads, config);
    KillMeans(env, count, config, shown, Prepared(s).engineTurn + 1);
    PreparedShows(s, shown);
    if count == 0 {
      assert payloads == [];
      NothingWritten(Prepared(s));
      SameEntriesShow(Prepared(s), AfterKill(s, payloads, config), shown);
    } else {
      TurnShows(Prepared(s), payloads, [], shown);
      var row := Row(Prepared(s).engineTurn + 1, Collect(payloads, OfUser), Collect(payloads, OfAssistant));
      SameEntriesShow(WithTurn(Prepared(s), payloads, []), AfterKill(s, payloads, config),
                      Shown(shown.rows + [row], !Answered(payloads)));
    }
  }

  lemma AfterKillMeans(s: Session, payloads: seq<Payload>, config: ResumeConfig)
    ensures AfterKill(s, payloads, config).entries == WithTurn(Prepared(s), payloads, []).entries
  {
    hide Prepared, Load, WithTurn;
  }

  lemma KillMeans(env: Env, count: nat, config: ResumeConfig, shown: Shown, turn: int)
    requires count <= |Payloads(env)|
    ensures ShownAfter(shown, Killed(env, count, config), turn) ==
      var payloads := Payloads(env)[..count];
      if count == 0 then shown
      else Shown(shown.rows + [Row(turn, Collect(payloads, OfUser), Collect(payloads, OfAssistant))],
                 !Answered(payloads))
  {
    hide Payloads, Collect, Answered;
  }

  lemma NothingWritten(p: Session)
    ensures WithTurn(p, [], []).entries == p.entries
  {
  }

  lemma SameEntriesShow(a: Session, b: Session, shown: Shown)
    requires Shows(a, shown) && b.entries == a.entries
    ensures Shows(b, shown)
  {
  }

  lemma FinishedMeans(env: Env)
    requires Finished(env)
    ensures FallbackNotEmpty(env) && Turn(env).error.None?
  {
    hide FallbackNotEmpty, Turn;
  }

  lemma PreparedShows(s: Session, shown: Shown)
    requires Ordered(s) && Shows(s, shown)
    ensures Ordered(Prepared(s)) && Prepared(s).ready && Shows(Prepared(s), shown)
  {
    hide Ordered, Prepared;
    PreparedOk(s);
  }

  lemma AfterTurnMeans(s: Session, env: Env, shown: Shown)
    ensures var exchange := Exchange(Collect(env.userInput, BlockText), TurnPayloads.Streamed(env));
      && AfterTurn(s, env) == WithTurn(Prepared(s), Payloads(env), exchange)
      && AfterTurn(s, env).history == Prepared(s).history + exchange
    ensures ShownAfter(shown, Took(env), Prepared(s).engineTurn + 1) ==
      Shown(shown.rows + [Row(Prepared(s).engineTurn + 1, Collect(env.userInput, BlockText),
                              TurnPayloads.Streamed(env))], false)
  {
    hide Prepared, Exchange, Collect, Payloads, TurnPayloads.Streamed;
  }

  lemma {:induction false} RunShows(states: seq<Session>, events: seq<Event>, i: nat)
    requires Run(states, events) && i < |states|
    ensures Shows(states[i], ShownAt(states, events, i))
  {
    hide Shows, Next, Ordered, ShownAfter;
    if i > 0 {
      RunShows(states, events, i - 1);
      ArchiveStaysOrdered(states, events, i - 1);
      assert StepAt(states, events, i - 1);
      StepShows(states[i - 1], states[i], events[i - 1], ShownAt(states, events, i - 1));
    } else {
      StartShows();
    }
  }

  lemma StartShows()
    ensures Shows(START, Shown([], false))
  {
  }

  lemma LoadShows(s: Session, shown: Shown, config: ResumeConfig)
    requires Ordered(s) && Shows(s, shown) && config.enabled
    ensures Load(Entries(s.entries), config) == ResumeResult(ReadingOf(shown, config.marker), shown.cut, false)
  {
    RestoredIsShown(s.entries, config.marker);
    hide Restored, ShownOf, Uncut, Chained, NumberedAbove, CursorOk, Reading;
    assert AllReadable(s.entries);
  }

  /** In every reachable state, loading the archive, in any order of its entries, gives exactly what was said in
      the turns that no rewind took back; the last one, if it was cut off, with the marker for its answer, and then
      only is it flagged as interrupted. */
  lemma LoadGivesShownTurns(states: seq<Session>, events: seq<Event>, i: nat, read: seq<Entry>, config: ResumeConfig)
    requires Run(states, events) && i < |states| && config.enabled
    requires multiset(read) == multiset(states[i].entries)
    ensures var shown := ShownAt(states, events, i);
      Load(Entries(read), config) == ResumeResult(ReadingOf(shown, config.marker), shown.cut, false)
  {
    var s := states[i];
    ArchiveStaysOrdered(states, events, i);
    RunShows(states, events, i);
    OrderedPlacesDistinct(s);
    hide Run, ShownAt, Shows, Ordered, Load, PlacesDistinct, ReadingOf;
    OrderDoesNotMatter(s.entries, read, config);
    LoadShows(s, ShownAt(states, events, i), config);
  }

  // ---- the live history ----

  /** Reading with this marker gives what the conversation goes on with if the last turn is no longer the last:
      what it archived itself. */
  function OwnMarker(shown: Shown, marker: string): string {
    if shown.cut && shown.rows != [] then shown.rows[|shown.rows| - 1].assistant else marker
  }

  /** The live history is what would be read with `marker`: since the last launch no rewind has hidden a turn that
      was shown, and if that launch found a turn cut off, it was read with the same marker, or, once another turn
      has followed, with what the cut-off turn had archived. */
  ghost predicate Settled(states: seq<Session>, events: seq<Event>, i: nat, marker: string)
    requires |states| == |events| + 1 && i < |states|
  {
    if i == 0 then true
    else
      var event, before := events[i - 1], ShownAt(states, events, i - 1);
      if event.Relaunch? || event.Killed? then ShownAt(states, events, i).cut ==> event.config.marker == marker
      else if event.Took? then Settled(states, events, i - 1, OwnMarker(before, marker))
      else if event.Rewound? then
        Surviving(before.rows, Rewind(event.keep, event.through)) == before.rows
        && Settled(states, events, i - 1, marker)
      else Settled(states, events, i - 1, marker)
  }

  lemma {:induction false} FlattenLength(rows: seq<Row>)
    ensures |Flatten(rows)| == 2 * |rows|
  {
    if rows != [] {
      FlattenLength(rows[..|rows| - 1]);
    }
  }

  lemma ReadingLength(shown: Shown, marker: string)
    ensures |ReadingOf(shown, marker)| == 2 * |shown.rows|
  {
    FlattenLength(shown.rows);
    if shown.rows != [] {
      FlattenLength(shown.rows[..|shown.rows| - 1]);
    }
  }

  /** Different markers read differently, if a turn is cut off. */
  lemma MarkersDiffer(shown: Shown, a: string, b: string)
    requires shown.cut ==> shown.rows != []
    ensures ReadingOf(shown, a) == ReadingOf(shown, b) <==> (shown.cut ==> a == b)
  {
    if shown.cut {
      var user := shown.rows[|shown.rows| - 1].user;
      ExchangeSays(user, a);
      ExchangeSays(user, b);
      hide Exchange, Flatten;
      var before := Flatten(shown.rows[..|shown.rows| - 1]);
      SameTail(before, Exchange(user, a), Exchange(user, b));
    }
  }

  lemma SameTail(before: seq<Message>, a: seq<Message>, b: seq<Message>)
    ensures before + a == before + b <==> a == b
  {
    if before + a == before + b {
      assert a == (before + a)[|before|..] && b == (before + b)[|before|..];
    }
  }

  lemma SameFront(a: seq<Message>, b: seq<Message>, after: seq<Message>)
    ensures a + after == b + after <==> a == b
  {
    if a + after == b + after {
      assert a == (a + after)[..|a + after| - |after|] && b == (b + after)[..|b + after| - |after|];
    }
  }

  lemma OwnMarkerReads(shown: Shown, marker: string)
    ensures ReadingOf(shown, OwnMarker(shown, marker)) == Flatten(shown.rows)
  {
  }

  /** A rewind that leaves as many rows leaves the same rows. */
  predicate Shrinks(rows: seq<Row>, left: seq<Row>) {
    |left| <= |rows| && (|left| == |rows| ==> left == rows)
  }

  lemma {:induction false} SurvivingShrinks(rows: seq<Row>, r: Rewind)
    ensures Shrinks(rows, Surviving(rows, r))
  {
    if rows != [] {
      var before, row := rows[..|rows| - 1], rows[|rows| - 1];
      SurvivingShrinks(before, r);
      ShrinksOneMore(before, row, r);
      assert rows == before + [row];
    }
    hide Surviving;
  }

  lemma ShrinksOneMore(before: seq<Row>, row: Row, r: Rewind)
    requires Shrinks(before, Surviving(before, r))
    ensures Shrinks(before + [row], Surviving(before + [row], r))
  {
    SurvivingOneMore(before, row, r);
    hide Surviving;
  }

  /** The live history has at least the shown turns. */
  predicate LongEnough(history: seq<Message>, shown: Shown) {
    |history| >= 2 * |shown.rows| && (shown.cut ==> shown.rows != [])
  }

  lemma RewindTracks(history: seq<Message>, shown: Shown, keep: int, through: int, marker: string)
    requires LongEnough(history, shown)
    ensures var after := ShownAfter(shown, Rewound(keep, through), 0);
      && LongEnough(history, after)
      && (history == ReadingOf(after, marker) <==>
            after.rows == shown.rows && history == ReadingOf(shown, marker))
  {
    var r, after := Rewind(keep, through), ShownAfter(shown, Rewound(keep, through), 0);
    SurvivingShrinks(shown.rows, r);
    ReadingLength(after, marker);
    if shown.rows != [] {
      SurvivingExactly(shown.rows, r, shown.rows[|shown.rows| - 1]);
      LastSurvives(shown.rows, r);
    }
    hide Surviving, ReadingOf;
  }

  lemma LastSurvives(rows: seq<Row>, r: Rewind)
    requires rows != []
    ensures var last := rows[|rows| - 1];
      Surviving(rows, r) == rows ==> !(r.keep < last.turn <= r.through)
  {
    SurvivingExactly(rows, r, rows[|rows| - 1]);
  }

  lemma TurnTracks(history: seq<Message>, shown: Shown, row: Row, marker: string)
    requires LongEnough(history, shown)
    ensures var history' := history + Exchange(row.user, row.assistant);
      && LongEnough(history', Shown(shown.rows + [row], false))
      && (history' == ReadingOf(Shown(shown.rows + [row], false), marker) <==>
            history == ReadingOf(shown, OwnMarker(shown, marker)))
  {
    FlattenOneMore(shown.rows, row);
    OwnMarkerReads(shown, marker);
    SameFront(history, Flatten(shown.rows), Exchange(row.user, row.assistant));
    ExchangeSays(row.user, row.assistant);
    hide Exchange, Flatten, OwnMarker;
  }

  lemma LaunchTracks(shown: Shown, launched: string, marker: string)
    requires shown.cut ==> shown.rows != []
    ensures LongEnough(ReadingOf(shown, launched), shown)
    ensures ReadingOf(shown, launched) == ReadingOf(shown, marker) <==> (shown.cut ==> launched == marker)
  {
    ReadingLength(shown, launched);
    MarkersDiffer(shown, launched, marker);
  }

  /** Every reachable state's history: how it relates to what would be read with any marker. */
  lemma {:induction false} RunTracks(states: seq<Session>, events: seq<Event>, i: nat, marker: string)
    requires Run(states, events) && i < |states|
    ensures LongEnough(states[i].history, ShownAt(states, events, i))
    ensures states[i].history == ReadingOf(ShownAt(states, events, i), marker) <==> Settled(states, events, i, marker)
    decreases i
  {
    hide Next, Ordered, ShownAfter, LongEnough, ReadingOf, Shows;
    if i > 0 {
      var event, before := events[i - 1], ShownAt(states, events, i - 1);
      RunTracks(states, events, i - 1, if event.Took? then OwnMarker(before, marker) else marker);
      RunShows(states, events, i - 1);
      RunShows(states, events, i);
      ArchiveStaysOrdered(states, events, i - 1);
      ArchiveStaysOrdered(states, events, i);
      assert StepAt(states, events, i - 1);
      StepTracks(states[i - 1], states[i], event, before, ShownAt(states, events, i), marker);
    } else {
      StartTracks(marker);
    }
  }

  lemma StartTracks(marker: string)
    ensures LongEnough(START.history, Shown([], false)) && START.history == ReadingOf(Shown([], false), marker)
  {
  }

  lemma StepTracks(s: Session, s': Session, event: Event, shown: Shown, after: Shown, marker: string)
    requires Ordered(s) && Ordered(s') && Shows(s, shown) && Shows(s', after) && Next(s, s', event)
    requires after == ShownAfter(shown, event, Prepared(s).engineTurn + 1) && LongEnough(s.history, shown)
    ensures LongEnough(s'.history, after)
    ensures event.Relaunch? || event.Killed? ==>
      (s'.history == ReadingOf(after, marker) <==> (after.cut ==> event.config.marker == marker))
    ensures event.Took? ==>
      (s'.history == ReadingOf(after, marker) <==> s.history == ReadingOf(shown, OwnMarker(shown, marker)))
    ensures event.Rewound? ==>
      (s'.history == ReadingOf(after, marker) <==>
         Surviving(shown.rows, Rewind(event.keep, event.through)) == shown.rows
         && s.history == ReadingOf(shown, marker))
    ensures event.Rebuild? ==>
      (s'.history == ReadingOf(after, marker) <==> s.history == ReadingOf(shown, marker))
  {
    hide Ordered, Finished, AfterTurn, AfterKill, Payloads, Prepared, Shows, LongEnough, ReadingOf, OwnMarker;
    match event
    case Rebuild =>
    case Rewound(keep, through) => RewindTracks(s.history, shown, keep, through, marker);
    case Relaunch(config) =>
      CutHasRow(s', after);
      LoadShows(s', after, config);
      LaunchTracks(after, config.marker, marker);
    case Took(env) => TookTracks(s, env, shown, marker);
    case Killed(env, count, config) =>
      CutHasRow(s', after);
      KillLoads(s, Payloads(env)[..count], config);
      LoadShows(s', after, config);
      LaunchTracks(after, config.marker, marker);
  }

  lemma KillLoads(s: Session, payloads: seq<Payload>, config: ResumeConfig)
    ensures var s' := AfterKill(s, payloads, config); s'.history == Load(Entries(s'.entries), config).history
  {
    hide Load, WithTurn, Prepared;
  }

  lemma CutHasRow(s: Session, shown: Shown)
    requires Shows(s, shown)
    ensures shown.cut ==> shown.rows != []
  {
    RestoredIsShown(s.entries, "");
    hide ShownOf, Uncut, Restored;
  }

  lemma TookTracks(s: Session, env: Env, shown: Shown, marker: string)
    requires Ordered(s) && LongEnough(s.history, shown)
    ensures var s', after := AfterTurn(s, env), ShownAfter(shown, Took(env), Prepared(s).engineTurn + 1);
      && LongEnough(s'.history, after)
      && (s'.history == ReadingOf(after, marker) <==> s.history == ReadingOf(shown, OwnMarker(shown, marker)))
  {
    hide *;
    PreparedOk(s);
    AfterTurnMeans(s, env, shown);
    TurnTracks(s.history, shown, Row(Prepared(s).engineTurn + 1, Collect(env.userInput, BlockText),
                                     TurnPayloads.Streamed(env)), marker);
  }

  // ---- the round trip ----

  /** Loading the archive gives the live history exactly when it is settled for the marker. */
  lemma LoadGivesLiveHistory(states: seq<Session>, events: seq<Event>, i: nat, read: seq<Entry>, config: ResumeConfig)
    requires Run(states, events) && i < |states| && config.enabled
    requires multiset(read) == multiset(states[i].entries)
    ensures Load(Entries(read), config).history == states[i].history <==> Settled(states, events, i, config.marker)
  {
    LoadGivesShownTurns(states, events, i, read, config);
    RunTracks(states, events, i, config.marker);
    hide Run, ShownAt, Settled, Load;
  }

  /** Which is so when the last launch found nothing cut off and no rewind and no death has come since. */
  lemma {:induction false} SettledWithoutRewind(states: seq<Session>, events: seq<Event>, since: nat, i: nat,
                                                marker: string)
    requires Run(states, events) && since <= i < |states|
    requires since == 0 || events[since - 1].Relaunch? || events[since - 1].Killed?
    requires !ShownAt(states, events, since).cut
    requires forall k :: since <= k < i ==> !events[k].Rewound? && !events[k].Killed?
    ensures Settled(states, events, i, marker) && !ShownAt(states, events, i).cut
    decreases i
  {
    hide Next;
    if i > since {
      SettledWithoutRewind(states, events, since, i - 1, marker);
    }
  }

  lemma OrderedPlacesDistinct(s: Session)
    requires Ordered(s)
    ensures PlacesDistinct(s.entries)
  {
    hide InLayer, LogOk, NumberedAbove, CursorOk;
    forall x, y | x in s.entries && y in s.entries && SamePlace(x, y)
      ensures x == y
    {
      InLayerHas(s.entries, TurnArchive, x);
      InLayerHas(s.entries, TurnArchive, y);
      var i :| 0 <= i < |Archive(s)| && Archive(s)[i] == x;
      var j :| 0 <= j < |Archive(s)| && Archive(s)[j] == y;
    }
  }
}
