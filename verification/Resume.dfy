/** Rebuilding a session's text history from its archive, under rewinds. */
module Resume {
  import opened Wrappers
  import opened TurnModel
  import opened Sequences
  import opened TurnRuns
  import opened Archives
  import opened Sorting

  datatype ResumeConfig = ResumeConfig(enabled: bool, marker: string)

  datatype Source = NoStore | ReadError | Entries(entries: seq<Entry>)

  datatype ResumeResult = ResumeResult(history: seq<Message>, interrupted: bool, failed: bool)

  /** A rewind hides the turns above `keep` up to `through`. */
  datatype Rewind = Rewind(keep: int, through: int)

  predicate Hides(r: Rewind, turn: int) {
    r.keep < turn <= r.through
  }

  predicate Hidden(rewinds: seq<Rewind>, turn: int) {
    exists i :: 0 <= i < |rewinds| && Hides(rewinds[i], turn)
  }

  predicate Readable(e: Entry) {
    && (e.layer == TurnArchive ==> e.turnSeq.Whole?)
    && (e.layer == SessionRewind ==> e.keep.Whole? && e.through.Whole?)
  }

  predicate AllReadable(entries: seq<Entry>) {
    forall i :: 0 <= i < |entries| ==> Readable(entries[i])
  }

  predicate InTurn(e: Entry, turn: int) {
    e.layer == TurnArchive && e.turnSeq == Whole(turn)
  }

  /** The entries of one turn, in the order read. */
  function OfTurn(entries: seq<Entry>, turn: int): seq<Entry> {
    if entries == [] then []
    else
      var last := entries[|entries| - 1];
      OfTurn(entries[..|entries| - 1], turn) + (if InTurn(last, turn) then [last] else [])
  }

  /** The turn numbers, in the order first met. */
  function TurnNumbers(entries: seq<Entry>): seq<int> {
    if entries == [] then []
    else
      var before := TurnNumbers(entries[..|entries| - 1]);
      var last := entries[|entries| - 1];
      if last.layer == TurnArchive && last.turnSeq.Whole? && last.turnSeq.value !in before
      then before + [last.turnSeq.value]
      else before
  }

  function RewindsOf(entries: seq<Entry>): seq<Rewind> {
    if entries == [] then []
    else
      var last := entries[|entries| - 1];
      RewindsOf(entries[..|entries| - 1]) +
      (if last.layer == SessionRewind && last.keep.Whole? && last.through.Whole?
       then [Rewind(last.keep.value, last.through.value)]
       else [])
  }

  /** Order of places within a turn; entries without one come last. */
  predicate PlaceLe(a: Entry, b: Entry) {
    if a.seqNo.Whole? then b.seqNo.Whole? ==> a.seqNo.value <= b.seqNo.value else !b.seqNo.Whole?
  }

  predicate IntLe(a: int, b: int) {
    a <= b
  }

  function UserText(e: Entry): string {
    PayloadText(e.content, User)
  }

  function AssistantText(e: Entry): string {
    PayloadText(e.content, Assistant)
  }

  predicate Answer(e: Entry) {
    e.content.Said? && e.content.message.role == Assistant
  }

  function Exchange(user: string, assistant: string): seq<Message> {
    [Message(User, [Text(user)]), Message(Assistant, if assistant != "" then [Text(assistant)] else [])]
  }

  /** The last turn was cut off: its archive does not end with an assistant message. */
  predicate CutOff(archived: seq<Entry>, isLast: bool) {
    isLast && (archived == [] || !Answer(archived[|archived| - 1]))
  }

  function TurnMessages(archived: seq<Entry>, isLast: bool, marker: string): seq<Message> {
    Exchange(Collect(archived, UserText),
             if CutOff(archived, isLast) then marker else Collect(archived, AssistantText))
  }

  /** The number of the last turn, rewound or not; -1 without any. */
  function LastTurn(numbers: seq<int>): int {
    if numbers == [] then -1
    else
      var before := LastTurn(numbers[..|numbers| - 1]);
      var last := numbers[|numbers| - 1];
      if |numbers| == 1 || last > before then last else before
  }

  /** The history after the first `n` turns of `turns`, and whether the last turn was cut off. */
  function Rebuilt(entries: seq<Entry>, marker: string, turns: seq<int>, last: int, n: nat): (seq<Message>, bool)
    requires n <= |turns|
  {
    if n == 0 then ([], false)
    else
      var (history, cut) := Rebuilt(entries, marker, turns, last, n - 1);
      var turn := turns[n - 1];
      if Hidden(RewindsOf(entries), turn) then (history, cut)
      else
        var archived := Sort(OfTurn(entries, turn), PlaceLe);
        (history + TurnMessages(archived, turn == last, marker), cut || CutOff(archived, turn == last))
  }

  function Restored(entries: seq<Entry>, marker: string): ResumeResult {
    var numbers := TurnNumbers(entries);
    var (history, cut) := Rebuilt(entries, marker, Sort(numbers, IntLe), LastTurn(numbers), |Sort(numbers, IntLe)|);
    ResumeResult(history, cut, false)
  }

  /** `load_resumable_history`. */
  function Load(source: Source, config: ResumeConfig): ResumeResult {
    if !config.enabled then ResumeResult([], false, false)
    else if !source.Entries? || !AllReadable(source.entries) then ResumeResult([], false, true)
    else Restored(source.entries, config.marker)
  }

  /** Without resuming nothing is loaded; a store that is missing, that fails, or that holds an entry without the
      numbers its layer needs, is a failure, and then nothing is restored; otherwise there is none. */
  lemma FailsExactly(source: Source, config: ResumeConfig)
    ensures var r := Load(source, config);
      && (!config.enabled ==> r == ResumeResult([], false, false))
      && (r.failed <==>
            && config.enabled
            && (source.Entries? ==>
                  exists e :: e in source.entries
                              && ((e.layer == TurnArchive && !e.turnSeq.Whole?)
                                  || (e.layer == SessionRewind && !(e.keep.Whole? && e.through.Whole?)))))
      && (r.failed ==> r == ResumeResult([], false, true))
  {
    if source.Entries? && !AllReadable(source.entries) {
      var i :| 0 <= i < |source.entries| && !Readable(source.entries[i]);
      assert source.entries[i] in source.entries;
    }
    hide Rebuilt;
  }

  // ---- the reader as it runs ----

  /** One pass over the entries: the turns in a dictionary, with its keys in insertion order, and the rewinds. */
  method ReadEntries(entries: seq<Entry>)
      returns (ok: bool, numbers: seq<int>, turns: map<int, seq<Entry>>, rewinds: seq<Rewind>)
    ensures ok == AllReadable(entries)
    ensures ok ==> numbers == TurnNumbers(entries) && rewinds == RewindsOf(entries)
    ensures ok ==> forall t :: t in turns <==> t in numbers
    ensures ok ==> forall t :: t in turns ==> turns[t] == OfTurn(entries, t)
  {
    hide OfTurn, TurnNumbers, RewindsOf;
    ok, numbers, turns, rewinds := true, [], map[], [];
    NothingRead();
    var i := 0;
    while i < |entries|
      invariant 0 <= i <= |entries| && AllReadable(entries[..i])
      invariant numbers == TurnNumbers(entries[..i]) && rewinds == RewindsOf(entries[..i])
      invariant forall t :: t in turns <==> t in numbers
      invariant forall t :: OfTurn(entries[..i], t) == if t in turns then turns[t] else []
    {
      var e := entries[i];
      assert entries[..i + 1] == entries[..i] + [e];
      OneMoreRead(entries[..i], e);
      if !Readable(e) {
        ok := false;
        return;
      }
      if e.layer == TurnArchive {
        var turn := e.turnSeq.value;
        if turn !in turns {
          numbers := numbers + [turn];
          turns := turns[turn := [e]];
        } else {
          turns := turns[turn := turns[turn] + [e]];
        }
      } else if e.layer == SessionRewind {
        rewinds := rewinds + [Rewind(e.keep.value, e.through.value)];
      }
      i := i + 1;
    }
    assert entries[..|entries|] == entries;
  }

  lemma NothingRead()
    ensures TurnNumbers([]) == [] && RewindsOf([]) == [] && forall t :: OfTurn([], t) == []
  {
  }

  lemma OneMoreOfTurn(before: seq<Entry>, e: Entry, turn: int)
    ensures OfTurn(before + [e], turn) == OfTurn(before, turn) + (if InTurn(e, turn) then [e] else [])
  {
    assert (before + [e])[..|before|] == before;
  }

  /** What one more entry adds to each of the three readings. */
  lemma OneMoreRead(before: seq<Entry>, e: Entry)
    ensures forall t :: OfTurn(before + [e], t) == OfTurn(before, t) + (if InTurn(e, t) then [e] else [])
    ensures TurnNumbers(before + [e]) ==
      if e.layer == TurnArchive && e.turnSeq.Whole? && e.turnSeq.value !in TurnNumbers(before)
      then TurnNumbers(before) + [e.turnSeq.value] else TurnNumbers(before)
    ensures RewindsOf(before + [e]) ==
      if e.layer == SessionRewind && e.keep.Whole? && e.through.Whole?
      then RewindsOf(before) + [Rewind(e.keep.value, e.through.value)] else RewindsOf(before)
  {
    assert (before + [e])[..|before|] == before;
  }

  method TurnTexts(archived: seq<Entry>) returns (user: string, assistant: string)
    ensures user == Collect(archived, UserText) && assistant == Collect(archived, AssistantText)
  {
    user, assistant := "", "";
    var i := |archived|;
    while i > 0
      invariant 0 <= i <= |archived|
      invariant user == Collect(archived[i..], UserText) && assistant == Collect(archived[i..], AssistantText)
    {
      i := i - 1;
      assert archived[i..][1..] == archived[i + 1..];
      user := UserText(archived[i]) + user;
      assistant := AssistantText(archived[i]) + assistant;
    }
    assert archived[0..] == archived;
  }

  method MaxTurn(numbers: seq<int>) returns (last: int)
    ensures last == LastTurn(numbers)
  {
    last := -1;
    var i := 0;
    while i < |numbers|
      invariant 0 <= i <= |numbers| && last == LastTurn(numbers[..i])
    {
      assert numbers[..i + 1][..i] == numbers[..i];
      if i == 0 || numbers[i] > last {
        last := numbers[i];
      }
      i := i + 1;
    }
    assert numbers[..|numbers|] == numbers;
  }

  method LoadHistory(source: Source, config: ResumeConfig) returns (r: ResumeResult)
    ensures r == Load(source, config)
  {
    if !config.enabled {
      return ResumeResult([], false, false);
    }
    if !source.Entries? {
      return ResumeResult([], false, true);
    }
    var ok, numbers, byTurn, rewinds := ReadEntries(source.entries);
    if !ok {
      return ResumeResult([], false, true);
    }
    var last := MaxTurn(numbers);
    var turns := Sort(numbers, IntLe);
    SortKeeps(numbers, IntLe);
    forall i | 0 <= i < |turns|
      ensures turns[i] in byTurn
    {
      SameElements(numbers, turns, turns[i]);
    }
    var history, interrupted := BuildHistory(source.entries, config.marker, turns, last, byTurn, rewinds);
    r := ResumeResult(history, interrupted, false);
  }

  /** The loop over the turns in rising order. */
  method BuildHistory(ghost entries: seq<Entry>, marker: string, turns: seq<int>, last: int,
                      byTurn: map<int, seq<Entry>>, rewinds: seq<Rewind>)
      returns (history: seq<Message>, interrupted: bool)
    requires rewinds == RewindsOf(entries)
    requires forall i :: 0 <= i < |turns| ==> turns[i] in byTurn && byTurn[turns[i]] == OfTurn(entries, turns[i])
    ensures (history, interrupted) == Rebuilt(entries, marker, turns, last, |turns|)
  {
    hide OfTurn, RewindsOf, Sort, Collect, Hidden;
    history, interrupted := [], false;
    var n := 0;
    while n < |turns|
      invariant 0 <= n <= |turns|
      invariant (history, interrupted) == Rebuilt(entries, marker, turns, last, n)
    {
      var turn := turns[n];
      if !Hidden(rewinds, turn) {
        var archived := Sort(byTurn[turn], PlaceLe);
        var user, assistant := TurnTexts(archived);
        var cut := turn == last && (archived == [] || !Answer(archived[|archived| - 1]));
        history := history + Exchange(user, if cut then marker else assistant);
        interrupted := interrupted || cut;
      }
      n := n + 1;
    }
  }

  // ---- the order of reading does not matter ----

  lemma {:induction false} OfTurnCounts(entries: seq<Entry>, turn: int, e: Entry)
    ensures multiset(OfTurn(entries, turn))[e] == if InTurn(e, turn) then multiset(entries)[e] else 0
  {
    if entries != [] {
      var n := |entries| - 1;
      OfTurnCounts(entries[..n], turn, e);
      assert entries == entries[..n] + [entries[n]];
    }
  }

  lemma {:induction false} TurnNumbersExactly(entries: seq<Entry>, turn: int)
    ensures turn in TurnNumbers(entries) <==> exists i :: 0 <= i < |entries| && InTurn(entries[i], turn)
  {
    if entries != [] {
      var n := |entries| - 1;
      TurnNumbersExactly(entries[..n], turn);
      assert forall i :: 0 <= i < n ==> entries[..n][i] == entries[i];
    }
  }

  lemma {:induction false} TurnNumbersOnce(entries: seq<Entry>, turn: int)
    ensures multiset(TurnNumbers(entries))[turn] <= 1
  {
    if entries != [] {
      TurnNumbersOnce(entries[..|entries| - 1], turn);
    }
  }

  lemma {:induction false} RewindsExactly(entries: seq<Entry>, r: Rewind)
    ensures r in RewindsOf(entries) <==>
      exists i :: 0 <= i < |entries| && entries[i].layer == SessionRewind
                  && entries[i].keep == Whole(r.keep) && entries[i].through == Whole(r.through)
  {
    if entries != [] {
      var n := |entries| - 1;
      RewindsExactly(entries[..n], r);
      assert forall i :: 0 <= i < n ==> entries[..n][i] == entries[i];
    }
  }

  lemma SameNumbers(a: seq<Entry>, b: seq<Entry>)
    requires multiset(a) == multiset(b)
    ensures multiset(TurnNumbers(a)) == multiset(TurnNumbers(b))
  {
    forall turn
      ensures multiset(TurnNumbers(a))[turn] == multiset(TurnNumbers(b))[turn]
    {
      TurnNumbersOnce(a, turn);
      TurnNumbersOnce(b, turn);
      if turn in TurnNumbers(a) {
        MovedNumber(a, b, turn);
      } else if turn in TurnNumbers(b) {
        MovedNumber(b, a, turn);
      }
    }
  }

  lemma MovedNumber(a: seq<Entry>, b: seq<Entry>, turn: int)
    requires multiset(a) == multiset(b) && turn in TurnNumbers(a)
    ensures turn in TurnNumbers(b)
  {
    TurnNumbersExactly(a, turn);
    TurnNumbersExactly(b, turn);
    var i :| 0 <= i < |a| && InTurn(a[i], turn);
    SameElements(a, b, a[i]);
  }

  lemma SameHidden(a: seq<Entry>, b: seq<Entry>, turn: int)
    requires multiset(a) == multiset(b) && Hidden(RewindsOf(a), turn)
    ensures Hidden(RewindsOf(b), turn)
  {
    var i :| 0 <= i < |RewindsOf(a)| && Hides(RewindsOf(a)[i], turn);
    var r := RewindsOf(a)[i];
    RewindsExactly(a, r);
    RewindsExactly(b, r);
    var j :| 0 <= j < |a| && a[j].layer == SessionRewind
             && a[j].keep == Whole(r.keep) && a[j].through == Whole(r.through);
    SameElements(a, b, a[j]);
    var k :| 0 <= k < |RewindsOf(b)| && RewindsOf(b)[k] == r;
  }

  /** No two different entries of one turn share a place. */
  ghost predicate PlacesDistinct(entries: seq<Entry>) {
    forall x, y :: x in entries && y in entries && SamePlace(x, y) ==> x == y
  }

  predicate SamePlace(x: Entry, y: Entry) {
    x.layer == TurnArchive && y.layer == TurnArchive && x.turnSeq == y.turnSeq && PlaceLe(x, y) && PlaceLe(y, x)
  }

  lemma {:induction false} OfTurnExactly(entries: seq<Entry>, turn: int, e: Entry)
    ensures e in OfTurn(entries, turn) <==> e in entries && InTurn(e, turn)
  {
    OfTurnCounts(entries, turn, e);
    assert e in OfTurn(entries, turn) <==> multiset(OfTurn(entries, turn))[e] > 0;
    assert e in entries <==> multiset(entries)[e] > 0;
  }

  lemma SameTurn(a: seq<Entry>, b: seq<Entry>, turn: int)
    requires multiset(a) == multiset(b) && PlacesDistinct(a)
    ensures Sort(OfTurn(a, turn), PlaceLe) == Sort(OfTurn(b, turn), PlaceLe)
  {
    var ta, tb := OfTurn(a, turn), OfTurn(b, turn);
    assert multiset(ta) == multiset(tb) by {
      forall e
        ensures multiset(ta)[e] == multiset(tb)[e]
      {
        OfTurnCounts(a, turn, e);
        OfTurnCounts(b, turn, e);
      }
    }
    SortKeeps(ta, PlaceLe);
    SortKeeps(tb, PlaceLe);
    SortSorts(ta, PlaceLe);
    SortSorts(tb, PlaceLe);
    var sa := Sort(ta, PlaceLe);
    forall x, y | x in sa && y in sa && PlaceLe(x, y) && PlaceLe(y, x)
      ensures x == y
    {
      SameElements(ta, sa, x);
      SameElements(ta, sa, y);
      OfTurnExactly(a, turn, x);
      OfTurnExactly(a, turn, y);
      assert SamePlace(x, y);
    }
    SortedUnique(sa, Sort(tb, PlaceLe), PlaceLe);
  }

  lemma SortedNumbers(a: seq<int>, b: seq<int>)
    requires multiset(a) == multiset(b)
    ensures Sort(a, IntLe) == Sort(b, IntLe)
  {
    SortKeeps(a, IntLe);
    SortKeeps(b, IntLe);
    SortSorts(a, IntLe);
    SortSorts(b, IntLe);
    SortedUnique(Sort(a, IntLe), Sort(b, IntLe), IntLe);
  }

  lemma {:induction false} LastTurnIsMax(numbers: seq<int>)
    requires numbers != []
    ensures LastTurn(numbers) in numbers && forall i :: 0 <= i < |numbers| ==> numbers[i] <= LastTurn(numbers)
  {
    var n := |numbers| - 1;
    if n > 0 {
      LastTurnIsMax(numbers[..n]);
      assert forall i :: 0 <= i < n ==> numbers[..n][i] == numbers[i];
    }
  }

  lemma SameLast(a: seq<int>, b: seq<int>)
    requires multiset(a) == multiset(b)
    ensures LastTurn(a) == LastTurn(b)
  {
    assert |a| == |multiset(a)| && |b| == |multiset(b)|;
    if a != [] {
      LastTurnIsMax(a);
      LastTurnIsMax(b);
      SameElements(a, b, LastTurn(a));
      SameElements(a, b, LastTurn(b));
    }
  }

  lemma {:induction false} SameRebuilt(a: seq<Entry>, b: seq<Entry>, marker: string, turns: seq<int>, last: int, n: nat)
    requires multiset(a) == multiset(b) && PlacesDistinct(a) && n <= |turns|
    ensures Rebuilt(a, marker, turns, last, n) == Rebuilt(b, marker, turns, last, n)
  {
    if n > 0 {
      SameRebuilt(a, b, marker, turns, last, n - 1);
      var turn := turns[n - 1];
      if Hidden(RewindsOf(a), turn) {
        SameHidden(a, b, turn);
      } else if Hidden(RewindsOf(b), turn) {
        SameHidden(b, a, turn);
      }
      SameTurn(a, b, turn);
    }
  }

  /** The restored history does not depend on the order in which the store returns the entries. */
  lemma OrderDoesNotMatter(a: seq<Entry>, b: seq<Entry>, config: ResumeConfig)
    requires multiset(a) == multiset(b) && PlacesDistinct(a)
    ensures Load(Entries(a), config) == Load(Entries(b), config)
  {
    hide Rebuilt, Sort, TurnNumbers, PlacesDistinct;
    SameReadable(a, b);
    SameNumbers(a, b);
    SortedNumbers(TurnNumbers(a), TurnNumbers(b));
    SameLast(TurnNumbers(a), TurnNumbers(b));
    var turns := Sort(TurnNumbers(a), IntLe);
    SameRebuilt(a, b, config.marker, turns, LastTurn(TurnNumbers(a)), |turns|);
  }

  lemma SameReadable(a: seq<Entry>, b: seq<Entry>)
    requires multiset(a) == multiset(b)
    ensures AllReadable(a) == AllReadable(b)
  {
    forall e
      ensures e in a <==> e in b
    {
      SameElements(a, b, e);
    }
    assert AllReadable(a) <==> forall e :: e in a ==> Readable(e);
    assert AllReadable(b) <==> forall e :: e in b ==> Readable(e);
  }

  // ---- rewinds in one batch, or replayed ----

  /** The turns visible after replaying the log: a turn entry shows its turn, a rewind hides a range. */
  function Replayed(entries: seq<Entry>): set<int> {
    if entries == [] then {}
    else
      var before := Replayed(entries[..|entries| - 1]);
      var last := entries[|entries| - 1];
      if last.layer == TurnArchive && last.turnSeq.Whole? then before + {last.turnSeq.value}
      else set t | t in before && !RewoundBy(last, t)
  }

  /** The entry is a rewind over the turn. */
  predicate RewoundBy(e: Entry, turn: int) {
    && e.layer == SessionRewind && e.keep.Whole? && e.through.Whole?
    && Hides(Rewind(e.keep.value, e.through.value), turn)
  }

  /** The turns the reader keeps. */
  predicate Kept(entries: seq<Entry>, turn: int) {
    turn in TurnNumbers(entries) && !Hidden(RewindsOf(entries), turn)
  }

  predicate RewoundAfter(entries: seq<Entry>, turn: int, j: nat) {
    exists i :: j < i < |entries| && RewoundBy(entries[i], turn)
  }

  lemma {:induction false} ReplayedExactly(entries: seq<Entry>, turn: int)
    ensures turn in Replayed(entries) <==>
      exists j: nat :: j < |entries| && InTurn(entries[j], turn) && !RewoundAfter(entries, turn, j)
  {
    if entries != [] {
      var n := |entries| - 1;
      var before, last := entries[..n], entries[n];
      ReplayedExactly(before, turn);
      if InTurn(last, turn) {
        assert !RewoundAfter(entries, turn, n);
      } else {
        forall j: nat | j < n
          ensures RewoundAfter(entries, turn, j) <==> RewoundAfter(before, turn, j) || RewoundBy(last, turn)
        {
          RewoundAfterOneMore(entries, turn, j);
        }
        assert forall j: nat :: j < n ==> before[j] == entries[j];
      }
    }
  }

  lemma RewoundAfterOneMore(entries: seq<Entry>, turn: int, j: nat)
    requires entries != [] && j < |entries| - 1
    ensures var n := |entries| - 1;
      RewoundAfter(entries, turn, j) <==> RewoundAfter(entries[..n], turn, j) || RewoundBy(entries[n], turn)
  {
    var n := |entries| - 1;
    assert forall i :: 0 <= i < n ==> entries[..n][i] == entries[i];
  }

  lemma HiddenExactly(entries: seq<Entry>, turn: int)
    ensures Hidden(RewindsOf(entries), turn) <==> exists i :: 0 <= i < |entries| && RewoundBy(entries[i], turn)
  {
    if Hidden(RewindsOf(entries), turn) {
      var i :| 0 <= i < |RewindsOf(entries)| && Hides(RewindsOf(entries)[i], turn);
      RewindsExactly(entries, RewindsOf(entries)[i]);
    }
    if i :| 0 <= i < |entries| && RewoundBy(entries[i], turn) {
      var r := Rewind(entries[i].keep.value, entries[i].through.value);
      RewindsExactly(entries, r);
      var k :| 0 <= k < |RewindsOf(entries)| && RewindsOf(entries)[k] == r;
    }
  }

  /** The turn was archived again after a rewind over it, and no later rewind covers it. */
  predicate Revived(entries: seq<Entry>, turn: int, i: nat, j: nat) {
    && i < j < |entries| && RewoundBy(entries[i], turn) && InTurn(entries[j], turn)
    && !RewoundAfter(entries, turn, j)
  }

  /** Filtering all rewinds in one batch keeps a turn exactly when replaying the log does, unless the turn was
      archived again after a rewind over it; then the batch still hides it. */
  lemma BatchIsReplay(entries: seq<Entry>, turn: int)
    ensures Kept(entries, turn) ==> turn in Replayed(entries)
    ensures (Kept(entries, turn) <==> turn in Replayed(entries)) <==>
      !exists i: nat, j: nat :: Revived(entries, turn, i, j)
  {
    ReplayedExactly(entries, turn);
    HiddenExactly(entries, turn);
    TurnNumbersExactly(entries, turn);
    if j: nat :| j < |entries| && InTurn(entries[j], turn) && !RewoundAfter(entries, turn, j) {
      if i :| 0 <= i < |entries| && RewoundBy(entries[i], turn) {
        assert i != j;
        assert Revived(entries, turn, i, j);
      }
    }
  }

  /** Turns archived after a rewind are numbered above its bound. */
  ghost predicate NumberedAbove(entries: seq<Entry>) {
    forall i, j, turn :: 0 <= i < j < |entries| && RewoundBy(entries[i], turn) ==> !InTurn(entries[j], turn)
  }

  /** With turns numbered like that, one batch and the replay keep the same turns. */
  lemma BatchEqualsReplay(entries: seq<Entry>)
    requires NumberedAbove(entries)
    ensures forall turn :: Kept(entries, turn) <==> turn in Replayed(entries)
  {
    forall turn
      ensures Kept(entries, turn) <==> turn in Replayed(entries)
    {
      BatchIsReplay(entries, turn);
    }
  }
}
