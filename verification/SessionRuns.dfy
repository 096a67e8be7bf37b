/** A session over any number of turns, rewinds, rebuilds of its SR2 instance, relaunches of the process and deaths
    of it in the middle of a turn: its archive stays ordered and linked. */
module SessionRuns {
  import opened Wrappers
  import opened TurnModel
  import opened Sequences
  import opened TurnRuns
  import opened TurnOutput
  import opened TurnPayloads
  import opened Archives
  import opened Sorting
  import opened Resume

  /** `ready` is false until a new SR2 instance has continued the archive. */
  datatype Session = Session(entries: seq<Entry>, cursor: Cursor, engineTurn: int, ready: bool, history: seq<Message>)

  datatype Event =
    | Rebuild
    | Relaunch(config: ResumeConfig)
    | Rewound(keep: int, through: int)
    | Took(env: Env)
    | Killed(env: Env, count: nat, config: ResumeConfig)

  const START := Session([], FRESH, -1, false, [])

  function Archive(s: Session): seq<Entry> {
    InLayer(s.entries, TurnArchive)
  }

  /** The session at the start of a turn. */
  function Prepared(s: Session): Session {
    if s.ready then s
    else
      var (turn, cursor) := Continued(Archive(s), s.engineTurn, s.cursor);
      s.(engineTurn := turn, cursor := cursor, ready := true)
  }

  function WithTurn(p: Session, payloads: seq<Payload>, exchange: seq<Message>): Session {
    var turn := p.engineTurn + 1;
    var cursor := p.cursor.(turnSeq := turn);
    Session(p.entries + Written(cursor, payloads, |p.entries|), AfterAll(cursor, |payloads|, |p.entries|), turn, true,
            p.history + exchange)
  }

  /** `_stream_turn`: the turn's payloads go to the archive, its two texts to the live history. */
  function AfterTurn(s: Session, env: Env): Session {
    WithTurn(Prepared(s), Payloads(env), Exchange(Collect(env.userInput, BlockText), Streamed(env)))
  }

  /** A turn with one user text that finished, under a fallback that is not the empty text. */
  ghost predicate Finished(env: Env) {
    && |env.userInput| == 1 && env.userInput[0].Text?
    && Turn(env).error.None? && FallbackNotEmpty(env)
  }

  function RewindEntry(id: nat, keep: int, through: int): Entry {
    Entry(id, Item(Text(if keep == -1 then "reset" else "retry")), [], SessionRewind, Missing, Missing,
          Whole(keep), Whole(through))
  }

  /** A rewind entry: of its own layer, linked to nothing, with the two turn numbers that a reader takes from it. */
  lemma RewindReadsBack(entries: seq<Entry>, keep: int, through: int)
    ensures var e := RewindEntry(|entries|, keep, through);
      && Readable(e) && e.sources == [] && RewindsOf(entries + [e]) == RewindsOf(entries) + [Rewind(keep, through)]
      && InLayer(entries + [e], TurnArchive) == InLayer(entries, TurnArchive)
      && (e.content == Item(Text("reset")) <==> keep == -1) && (e.content == Item(Text("retry")) <==> keep != -1)
  {
    hide InLayer, RewindsOf;
    var e := RewindEntry(|entries|, keep, through);
    OneMoreRead(entries, e);
    RewindLeavesArchive(entries, |entries|, keep, through);
    TwoReasons();
  }

  lemma TwoReasons()
    ensures "reset" != "retry"
  {
    assert "reset"[2] != "retry"[2];
  }

  /** `write_rewind`. */
  method WriteRewind(store: ProvenanceStore, keep: int, through: int)
    modifies store
    ensures store.entries == old(store.entries) + [RewindEntry(|old(store.entries)|, keep, through)]
  {
    var reason := if keep == -1 then "reset" else "retry";
    store.entries := store.entries + [Entry(|store.entries|, Item(Text(reason)), [], SessionRewind, Missing, Missing,
                                            Whole(keep), Whole(through))];
  }

  /** The greatest archived turn number, -1 without any. */
  function Top(s: Session): int {
    if Archive(s) == [] then -1
    else
      var last := Archive(s)[|Archive(s)| - 1];
      if last.turnSeq.Whole? then last.turnSeq.value else -1
  }

  /** The process dies in a turn of which it has archived `payloads`, and is launched again. */
  function AfterKill(s: Session, payloads: seq<Payload>, config: ResumeConfig): Session {
    var dead := WithTurn(Prepared(s), payloads, []);
    dead.(cursor := FRESH, engineTurn := -1, ready := false, history := Load(Entries(dead.entries), config).history)
  }

  ghost predicate Next(s: Session, s': Session, event: Event) {
    match event
    case Rebuild => s' == s.(cursor := FRESH, engineTurn := -1, ready := false)
    case Relaunch(config) =>
      && config.enabled
      && s' == s.(cursor := FRESH, engineTurn := -1, ready := false,
                  history := Load(Entries(s.entries), config).history)
    case Rewound(keep, through) =>
      through <= Top(s) && s' == s.(entries := s.entries + [RewindEntry(|s.entries|, keep, through)])
    case Took(env) => Finished(env) && s' == AfterTurn(s, env)
    case Killed(env, count, config) =>
      count <= |Payloads(env)| && config.enabled && s' == AfterKill(s, Payloads(env)[..count], config)
  }

  ghost predicate Run(states: seq<Session>, events: seq<Event>) {
    && |states| == |events| + 1 && states[0] == START
    && forall i :: 0 <= i < |events| ==> StepAt(states, events, i)
  }

  ghost predicate StepAt(states: seq<Session>, events: seq<Event>, i: int)
    requires 0 <= i < |events| && |states| == |events| + 1
  {
    Next(states[i], states[i + 1], events[i])
  }

  // ---- the archive stays ordered and linked ----

  /** The archive in writing order: places rise strictly, and each entry links to the one before it. */
  ghost predicate Chained(archive: seq<Entry>) {
    && AllPlaced(archive)
    && (forall i, j :: 0 <= i < j < |archive| ==> Before(archive[i], archive[j]))
    && (forall i :: 0 <= i < |archive| ==> archive[i].turnSeq.value >= 0)
    && (archive != [] ==> archive[0].sources == [])
    && (forall i :: 0 < i < |archive| ==> archive[i].sources == [archive[i - 1].id])
  }

  function LastId(archive: seq<Entry>): Option<nat> {
    if archive == [] then None else Some(archive[|archive| - 1].id)
  }

  ghost predicate LogOk(entries: seq<Entry>, top: int) {
    && (forall i :: 0 <= i < |entries| ==> entries[i].id == i && Readable(entries[i]) && entries[i].layer != OtherLayer)
    && (forall i :: 0 <= i < |entries| && entries[i].layer == SessionRewind ==> entries[i].through.value <= top)
  }

  /** What a new instance starts from, or a running one keeps. */
  predicate CursorOk(s: Session) {
    if s.ready then s.engineTurn >= Top(s) && s.engineTurn >= -1 && s.cursor.prev == LastId(Archive(s))
    else s.cursor == FRESH && s.engineTurn == -1
  }

  ghost predicate Ordered(s: Session) {
    Chained(Archive(s)) && LogOk(s.entries, Top(s)) && NumberedAbove(s.entries) && CursorOk(s)
  }

  lemma {:induction false} InLayerAppend(a: seq<Entry>, b: seq<Entry>, layer: Layer)
    ensures InLayer(a + b, layer) == InLayer(a, layer) + InLayer(b, layer)
  {
    if b == [] {
      assert a + b == a;
    } else {
      var n := |b| - 1;
      assert (a + b)[..|a + b| - 1] == a + b[..n];
      InLayerAppend(a, b[..n], layer);
    }
  }

  lemma {:induction false} InLayerAll(entries: seq<Entry>, layer: Layer)
    requires forall i :: 0 <= i < |entries| ==> entries[i].layer == layer
    ensures InLayer(entries, layer) == entries
  {
    if entries != [] {
      InLayerAll(entries[..|entries| - 1], layer);
    }
  }

  /** The latest entry is the last one written. */
  lemma LatestIsLastWritten(archive: seq<Entry>)
    requires Chained(archive) && archive != []
    ensures Latest(archive) == archive[|archive| - 1]
  {
    LatestIsLast(archive, |archive|);
    var e := Latest(archive);
    var i :| 0 <= i < |archive| && archive[i] == e;
    assert !Before(e, archive[|archive| - 1]);
  }

  lemma PreparedOk(s: Session)
    requires Ordered(s)
    ensures Ordered(Prepared(s)) && Prepared(s).ready && Prepared(s).entries == s.entries
    ensures Prepared(s).history == s.history
  {
    if !s.ready && Archive(s) != [] {
      LatestIsLastWritten(Archive(s));
    }
  }

  /** The entries of one turn, written in a row. */
  ghost predicate GroupOk(group: seq<Entry>, turn: int, place: nat, id: nat, prev: Option<nat>) {
    forall i :: 0 <= i < |group| ==>
      && Placed(group[i]) && group[i].turnSeq == Whole(turn) && group[i].seqNo == Whole(place + i)
      && group[i].id == id + i
      && group[i].sources == if i > 0 then [id + i - 1] else if prev.Some? then [prev.value] else []
  }

  lemma WrittenIsGroup(c: Cursor, payloads: seq<Payload>, id: nat)
    ensures GroupOk(Written(c, payloads, id), c.turnSeq, c.seqNo, id, c.prev)
  {
    forall i | 0 <= i < |payloads|
      ensures var e := Written(c, payloads, id)[i];
        && Placed(e) && e.turnSeq == Whole(c.turnSeq) && e.seqNo == Whole(c.seqNo + i) && e.id == id + i
        && e.sources == if i > 0 then [id + i - 1] else if c.prev.Some? then [c.prev.value] else []
    {
      WrittenEntries(c, payloads, id, i);
    }
  }

  /** A turn numbered above the archive continues its chain. */
  lemma ChainGrows(archive: seq<Entry>, group: seq<Entry>, turn: int, place: nat, id: nat)
    requires Chained(archive) && GroupOk(group, turn, place, id, LastId(archive)) && turn >= 0
    requires forall i :: 0 <= i < |archive| ==> archive[i].turnSeq.value < turn
    ensures Chained(archive + group)
  {
    var all, n := archive + group, |archive|;
    forall i | 0 <= i < |all|
      ensures Placed(all[i]) && all[i].turnSeq.value >= 0
      ensures all[i] == if i < n then archive[i] else group[i - n]
    {
    }
    forall i | 0 <= i < |all|
      ensures all[i].sources == if i == 0 then [] else [all[i - 1].id]
    {
      if i > n {
        assert all[i] == group[i - n] && all[i - 1] == group[i - n - 1];
      } else if i == n {
        assert all[i] == group[0];
        assert n > 0 ==> all[i - 1] == archive[n - 1];
      } else {
        assert all[i] == archive[i] && (i > 0 ==> all[i - 1] == archive[i - 1]);
      }
    }
    forall i, j | 0 <= i < j < |all|
      ensures Before(all[i], all[j])
    {
      if j < n {
        assert all[i] == archive[i] && all[j] == archive[j];
      } else if i < n {
        assert all[i] == archive[i] && all[j] == group[j - n];
      } else {
        assert all[i] == group[i - n] && all[j] == group[j - n];
      }
    }
  }

  lemma LogGrows(entries: seq<Entry>, group: seq<Entry>, turn: int, place: nat, prev: Option<nat>, top: int, top': int)
    requires LogOk(entries, top) && GroupOk(group, turn, place, |entries|, prev) && top <= top'
    ensures LogOk(entries + group, top')
  {
  }

  lemma RewindIsNoTurn(e: Entry, turn: int)
    requires RewoundBy(e, turn)
    ensures e.layer != TurnArchive
  {
  }

  /** New entries above every rewind bound, or none of them a turn's. */
  lemma NumberedAboveGrows(entries: seq<Entry>, group: seq<Entry>, top: int)
    requires LogOk(entries, top) && NumberedAbove(entries)
    requires forall j :: 0 <= j < |group| && group[j].layer == TurnArchive ==>
      group[j].turnSeq.Whole? && group[j].turnSeq.value > top
    requires |group| <= 1 || forall j :: 0 <= j < |group| ==> group[j].layer == TurnArchive
    ensures NumberedAbove(entries + group)
  {
    var all := entries + group;
    forall i, j, t | 0 <= i < j < |all| && RewoundBy(all[i], t)
      ensures !InTurn(all[j], t)
    {
      if i < |entries| {
        assert all[j] == if j < |entries| then entries[j] else group[j - |entries|];
      } else {
        RewindIsNoTurn(all[i], t);
      }
    }
  }

  lemma TopIsTop(archive: seq<Entry>)
    requires Chained(archive) && archive != []
    ensures forall i :: 0 <= i < |archive| ==> archive[i].turnSeq.value <= archive[|archive| - 1].turnSeq.value
  {
    forall i | 0 <= i < |archive| - 1
      ensures archive[i].turnSeq.value <= archive[|archive| - 1].turnSeq.value
    {
      assert Before(archive[i], archive[|archive| - 1]);
    }
  }

  lemma GroupInArchive(entries: seq<Entry>, c: Cursor, payloads: seq<Payload>, id: nat)
    ensures var group := Written(c, payloads, id);
      InLayer(entries + group, TurnArchive) == InLayer(entries, TurnArchive) + group
  {
    WrittenIsGroup(c, payloads, id);
    InLayerAll(Written(c, payloads, id), TurnArchive);
    InLayerAppend(entries, Written(c, payloads, id), TurnArchive);
  }

  /** The cursor and the number of the last turn after the group is written. */
  lemma GroupEnds(p: Session, p': Session, group: seq<Entry>, turn: int, place: nat, prev: Option<nat>)
    requires Archive(p') == Archive(p) + group && GroupOk(group, turn, place, |p.entries|, prev)
    requires p.ready && CursorOk(p) && turn == p.engineTurn + 1 && prev == p.cursor.prev
    requires p'.ready && p'.engineTurn == turn
    requires p'.cursor.prev == if group == [] then prev else Some(|p.entries| + |group| - 1)
    ensures CursorOk(p') && Top(p) <= Top(p')
  {
    hide InLayer, Archive;
    if group != [] {
      assert Archive(p')[|Archive(p')| - 1] == group[|group| - 1];
    }
  }

  lemma ArchiveBelow(p: Session)
    requires Chained(Archive(p)) && CursorOk(p) && p.ready
    ensures forall i :: 0 <= i < |Archive(p)| ==> Archive(p)[i].turnSeq.value < p.engineTurn + 1
  {
    if Archive(p) != [] {
      TopIsTop(Archive(p));
    }
  }

  lemma TurnExtendsArchive(p: Session, payloads: seq<Payload>, exchange: seq<Message>)
    ensures var c := p.cursor.(turnSeq := p.engineTurn + 1);
      var group := Written(c, payloads, |p.entries|);
      && Archive(WithTurn(p, payloads, exchange)) == Archive(p) + group
      && GroupOk(group, c.turnSeq, c.seqNo, |p.entries|, c.prev) && |group| == |payloads|
  {
    var c := p.cursor.(turnSeq := p.engineTurn + 1);
    WrittenIsGroup(c, payloads, |p.entries|);
    GroupInArchive(p.entries, c, payloads, |p.entries|);
  }

  lemma TurnKeepsChain(p: Session, p': Session, c: Cursor, payloads: seq<Payload>, exchange: seq<Message>)
    requires Chained(Archive(p)) && CursorOk(p) && p.ready
    requires c == p.cursor.(turnSeq := p.engineTurn + 1) && p' == WithTurn(p, payloads, exchange)
    ensures Chained(Archive(p')) && CursorOk(p') && Top(p) <= Top(p')
  {
    hide Written, InLayer, Chained, GroupOk, Archive, Top;
    var group := Written(c, payloads, |p.entries|);
    TurnExtendsArchive(p, payloads, exchange);
    ArchiveBelow(p);
    ChainGrows(Archive(p), group, c.turnSeq, c.seqNo, |p.entries|);
    GroupEnds(p, p', group, c.turnSeq, c.seqNo, c.prev);
  }

  lemma TurnKeepsLog(p: Session, p': Session, c: Cursor, payloads: seq<Payload>, exchange: seq<Message>)
    requires LogOk(p.entries, Top(p)) && NumberedAbove(p.entries) && CursorOk(p) && p.ready && Top(p) <= Top(p')
    requires c == p.cursor.(turnSeq := p.engineTurn + 1) && p' == WithTurn(p, payloads, exchange)
    ensures LogOk(p'.entries, Top(p')) && NumberedAbove(p'.entries)
  {
    hide InLayer, Archive, Top;
    var group := Written(c, payloads, |p.entries|);
    WrittenIsGroup(c, payloads, |p.entries|);
    hide Written;
    LogGrows(p.entries, group, c.turnSeq, c.seqNo, c.prev, Top(p), Top(p'));
    NumberedAboveGrows(p.entries, group, Top(p));
  }

  lemma TurnKeepsOrder(p: Session, payloads: seq<Payload>, exchange: seq<Message>)
    requires Ordered(p) && p.ready
    ensures Ordered(WithTurn(p, payloads, exchange))
  {
    hide Written, InLayer, Chained, LogOk, NumberedAbove, CursorOk, WithTurn, Archive, Top;
    var c := p.cursor.(turnSeq := p.engineTurn + 1);
    TurnKeepsChain(p, WithTurn(p, payloads, exchange), c, payloads, exchange);
    TurnKeepsLog(p, WithTurn(p, payloads, exchange), c, payloads, exchange);
  }

  lemma RewindLeavesArchive(entries: seq<Entry>, id: nat, keep: int, through: int)
    ensures InLayer(entries + [RewindEntry(id, keep, through)], TurnArchive) == InLayer(entries, TurnArchive)
  {
    var rewind := [RewindEntry(id, keep, through)];
    InLayerAppend(entries, rewind, TurnArchive);
    assert InLayer(rewind[..0], TurnArchive) == [];
  }

  lemma RewindGrowsLog(entries: seq<Entry>, keep: int, through: int, top: int)
    requires LogOk(entries, top) && through <= top
    ensures LogOk(entries + [RewindEntry(|entries|, keep, through)], top)
  {
  }

  lemma RewindKeeps(s: Session, s': Session, keep: int, through: int)
    requires Ordered(s) && through <= Top(s)
    requires s' == s.(entries := s.entries + [RewindEntry(|s.entries|, keep, through)])
    ensures Ordered(s')
  {
    var rewind := [RewindEntry(|s.entries|, keep, through)];
    RewindLeavesArchive(s.entries, |s.entries|, keep, through);
    hide InLayer, Chained, NumberedAbove, LogOk;
    assert Archive(s') == Archive(s);
    RewindGrowsLog(s.entries, keep, through, Top(s));
    NumberedAboveGrows(s.entries, rewind, Top(s));
  }

  lemma StepKeepsOrder(s: Session, s': Session, event: Event)
    requires Ordered(s) && Next(s, s', event)
    ensures Ordered(s')
  {
    match event
    case Rebuild =>
    case Relaunch(_) =>
    case Rewound(keep, through) => RewindKeeps(s, s', keep, through);
    case Took(env) =>
      PreparedOk(s);
      var exchange := Exchange(Collect(env.userInput, BlockText), Streamed(env));
      TurnKeepsOrder(Prepared(s), Payloads(env), exchange);
    case Killed(env, count, config) =>
      PreparedOk(s);
      TurnKeepsOrder(Prepared(s), Payloads(env)[..count], []);
      StartingOverKeepsOrder(WithTurn(Prepared(s), Payloads(env)[..count], []), s'.history);
  }

  lemma StartingOverKeepsOrder(s: Session, history: seq<Message>)
    requires Ordered(s)
    ensures Ordered(s.(cursor := FRESH, engineTurn := -1, ready := false, history := history))
  {
    hide InLayer, Chained, LogOk, NumberedAbove;
  }

  /** Over every run: the archive's places rise strictly across turns and restarts, every entry links to the
      one written before it, and no turn is archived under a number an earlier rewind covers. */
  lemma {:induction false} ArchiveStaysOrdered(states: seq<Session>, events: seq<Event>, i: nat)
    requires Run(states, events) && i < |states|
    ensures Ordered(states[i])
  {
    hide Ordered, Next;
    if i > 0 {
      ArchiveStaysOrdered(states, events, i - 1);
      assert StepAt(states, events, i - 1);
      StepKeepsOrder(states[i - 1], states[i], events[i - 1]);
    } else {
      StartIsOrdered();
    }
  }

  lemma StartIsOrdered()
    ensures Ordered(START)
  {
  }

  // ---- turns are numbered without gaps ----

  predicate HasTurn(archive: seq<Entry>, turn: int) {
    exists i :: 0 <= i < |archive| && archive[i].turnSeq == Whole(turn)
  }

  ghost predicate NoGaps(s: Session) {
    forall turn :: 0 <= turn <= Top(s) ==> HasTurn(Archive(s), turn)
  }

  /** A running instance stands at the last archived turn. */
  predicate Current(s: Session) {
    s.ready ==> s.engineTurn == Top(s)
  }

  lemma PreparedIsCurrent(s: Session)
    requires Ordered(s) && Current(s)
    ensures Prepared(s).engineTurn == Top(s) && Current(Prepared(s))
  {
    hide InLayer, LogOk, NumberedAbove;
    if !s.ready && Archive(s) != [] {
      LatestIsLastWritten(Archive(s));
    }
  }

  lemma HasTurnGrows(archive: seq<Entry>, group: seq<Entry>, turn: int)
    requires HasTurn(archive, turn) || HasTurn(group, turn)
    ensures HasTurn(archive + group, turn)
  {
    if HasTurn(archive, turn) {
      var i :| 0 <= i < |archive| && archive[i].turnSeq == Whole(turn);
      assert (archive + group)[i] == archive[i];
    } else {
      var i :| 0 <= i < |group| && group[i].turnSeq == Whole(turn);
      assert (archive + group)[|archive| + i] == group[i];
    }
  }

  /** A turn that archives something is the next one, and one that archives nothing leaves no gap. */
  lemma TurnLeavesNoGap(p: Session, payloads: seq<Payload>, exchange: seq<Message>)
    requires NoGaps(p) && p.ready && Current(p)
    ensures var p' := WithTurn(p, payloads, exchange);
      && NoGaps(p') && (payloads != [] ==> Current(p'))
      && Top(p') == if payloads == [] then Top(p) else Top(p) + 1
  {
    var p', turn := WithTurn(p, payloads, exchange), p.engineTurn + 1;
    var group := Written(p.cursor.(turnSeq := turn), payloads, |p.entries|);
    TurnExtendsArchive(p, payloads, exchange);
    TurnStandsAt(p, payloads, exchange);
    hide InLayer, Archive, Written, WithTurn, HasTurn;
    if payloads == [] {
      assert Archive(p') == Archive(p);
    } else {
      GroupIsNext(p, p', group, turn);
    }
  }

  lemma GroupIsNext(p: Session, p': Session, group: seq<Entry>, turn: int)
    requires Archive(p') == Archive(p) + group && group != [] && NoGaps(p) && turn == Top(p) + 1
    requires group[0].turnSeq == Whole(turn) && group[|group| - 1].turnSeq == Whole(turn)
    ensures NoGaps(p') && Top(p') == turn
  {
    hide InLayer, Archive, HasTurn;
    assert Archive(p')[|Archive(p')| - 1] == group[|group| - 1];
    GroupHasTurn(group, turn);
    forall t | 0 <= t <= turn
      ensures HasTurn(Archive(p'), t)
    {
      HasTurnGrows(Archive(p), group, t);
    }
  }

  lemma TurnStandsAt(p: Session, payloads: seq<Payload>, exchange: seq<Message>)
    ensures WithTurn(p, payloads, exchange).engineTurn == p.engineTurn + 1
  {
  }

  lemma GroupHasTurn(group: seq<Entry>, turn: int)
    requires group != [] && group[0].turnSeq == Whole(turn)
    ensures HasTurn(group, turn)
  {
  }

  lemma StepLeavesNoGap(s: Session, s': Session, event: Event)
    requires Ordered(s) && NoGaps(s) && Current(s) && Next(s, s', event)
    ensures NoGaps(s') && Current(s')
  {
    match event
    case Rebuild =>
      SameArchive(s, s');
    case Relaunch(_) =>
      SameArchive(s, s');
    case Rewound(keep, through) =>
      RewindLeavesArchive(s.entries, |s.entries|, keep, through);
      SameArchive(s, s');
    case Took(env) =>
      PreparedOk(s);
      PreparedIsCurrent(s);
      SameArchive(s, Prepared(s));
      SomethingArchived(env);
      TurnLeavesNoGap(Prepared(s), Payloads(env), Exchange(Collect(env.userInput, BlockText), Streamed(env)));
    case Killed(env, count, config) =>
      PreparedOk(s);
      PreparedIsCurrent(s);
      SameArchive(s, Prepared(s));
      TurnLeavesNoGap(Prepared(s), Payloads(env)[..count], []);
      SameArchive(WithTurn(Prepared(s), Payloads(env)[..count], []), s');
  }

  lemma SameArchive(s: Session, s': Session)
    requires Archive(s') == Archive(s) && NoGaps(s)
    ensures NoGaps(s') && Top(s') == Top(s)
  {
    hide Archive, HasTurn;
  }

  lemma SomethingArchived(env: Env)
    requires Finished(env)
    ensures Payloads(env) != []
  {
    AnswerIsLast(env);
  }

  /** Over every run: every number from 0 up to the last archived turn is a turn of the archive, and the next turn takes
      the next number, whether the instance has run on, was rebuilt, or was launched again. */
  lemma {:induction false} TurnsAreNumberedOn(states: seq<Session>, events: seq<Event>, i: nat)
    requires Run(states, events) && i < |states|
    ensures NoGaps(states[i]) && Prepared(states[i]).engineTurn == Top(states[i])
    ensures Current(states[i])
  {
    hide Next, NoGaps, Ordered, Prepared, Current;
    if i > 0 {
      TurnsAreNumberedOn(states, events, i - 1);
      ArchiveStaysOrdered(states, events, i - 1);
      assert StepAt(states, events, i - 1);
      StepLeavesNoGap(states[i - 1], states[i], events[i - 1]);
    } else {
      NothingMissing();
    }
    ArchiveStaysOrdered(states, events, i);
    PreparedIsCurrent(states[i]);
  }

  lemma NothingMissing()
    ensures NoGaps(START) && Current(START)
  {
  }

  /** So a rewind filter in one batch keeps the same turns as replaying the log, in every reachable state. */
  lemma RewindsReplayable(states: seq<Session>, events: seq<Event>, i: nat)
    requires Run(states, events) && i < |states|
    ensures forall turn :: Kept(states[i].entries, turn) <==> turn in Replayed(states[i].entries)
  {
    ArchiveStaysOrdered(states, events, i);
    BatchEqualsReplay(states[i].entries);
  }
}
