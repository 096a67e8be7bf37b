/** The turn archive: an append-only store of entries, and the archivist that writes one entry per payload,
    numbered within its turn and linked to the entry before it. */
module Archives {
  import opened Wrappers
  import opened TurnModel

  /** A metadata field that should hold an integer. */
  datatype Number = Missing | Whole(value: int) | NotWhole

  datatype Layer = TurnArchive | SessionRewind | OtherLayer

  datatype Entry = Entry(id: nat, content: Payload, sources: seq<nat>, layer: Layer, turnSeq: Number, seqNo: Number,
                         keep: Number, through: Number)

  /** The archivist's fields. */
  datatype Cursor = Cursor(turnSeq: int, seqNo: nat, prev: Option<nat>)

  const FRESH := Cursor(-1, 0, None)

  function EntryAt(c: Cursor, payload: Payload, id: nat): Entry {
    Entry(id, payload, if c.prev.Some? then [c.prev.value] else [], TurnArchive, Whole(c.turnSeq), Whole(c.seqNo),
          Missing, Missing)
  }

  function Advanced(c: Cursor, id: nat): Cursor {
    c.(prev := Some(id), seqNo := c.seqNo + 1)
  }

  /** The entries for payloads archived in a row; each takes the next id of the store. */
  function Written(c: Cursor, payloads: seq<Payload>, id: nat): (entries: seq<Entry>)
    ensures |entries| == |payloads|
    decreases |payloads|
  {
    if payloads == [] then []
    else [EntryAt(c, payloads[0], id)] + Written(Advanced(c, id), payloads[1..], id + 1)
  }

  /** Strict order by turn, then by place within the turn. */
  predicate Before(a: Entry, b: Entry)
    requires a.turnSeq.Whole? && a.seqNo.Whole? && b.turnSeq.Whole? && b.seqNo.Whole?
  {
    a.turnSeq.value < b.turnSeq.value || (a.turnSeq.value == b.turnSeq.value && a.seqNo.value < b.seqNo.value)
  }

  predicate Placed(e: Entry) {
    e.layer == TurnArchive && e.turnSeq.Whole? && e.seqNo.Whole?
  }

  predicate AllPlaced(entries: seq<Entry>) {
    forall i :: 0 <= i < |entries| ==> Placed(entries[i])
  }

  /** What `max` over (turn, place) has found after `n` entries: the first one that no other exceeds. */
  function LatestOf(entries: seq<Entry>, n: nat): (e: Entry)
    requires 1 <= n <= |entries| && AllPlaced(entries)
    ensures Placed(e)
  {
    if n == 1 then entries[0]
    else
      var best := LatestOf(entries, n - 1);
      if Before(best, entries[n - 1]) then entries[n - 1] else best
  }

  function Latest(entries: seq<Entry>): Entry
    requires entries != [] && AllPlaced(entries)
  {
    LatestOf(entries, |entries|)
  }

  lemma {:induction false} LatestIsLast(entries: seq<Entry>, n: nat)
    requires 1 <= n <= |entries| && AllPlaced(entries)
    ensures var e := LatestOf(entries, n);
      e in entries && forall i :: 0 <= i < n ==> !Before(e, entries[i])
  {
    if n > 1 {
      LatestIsLast(entries, n - 1);
    }
  }

  /** `continue_archive`: the turn to continue from and the archivist's state. Unreadable metadata leaves a
      fresh instance as it is. */
  function Continued(entries: seq<Entry>, engineTurn: int, c: Cursor): (int, Cursor) {
    if entries == [] || !AllPlaced(entries) then (engineTurn, c)
    else (Latest(entries).turnSeq.value, c.(prev := Some(Latest(entries).id)))
  }

  method FindLatest(entries: seq<Entry>) returns (last: Entry)
    requires entries != [] && AllPlaced(entries)
    ensures last == Latest(entries)
  {
    last := entries[0];
    var i := 1;
    while i < |entries|
      invariant 1 <= i <= |entries| && last == LatestOf(entries, i)
    {
      if Before(last, entries[i]) {
        last := entries[i];
      }
      i := i + 1;
    }
  }

  class ProvenanceStore {
    var entries: seq<Entry>

    constructor ()
      ensures entries == []
    {
      entries := [];
    }

    /** `get_session` with the archive's layer. */
    method TurnEntries() returns (found: seq<Entry>)
      ensures found == InLayer(entries, TurnArchive)
    {
      found := [];
      var i := 0;
      while i < |entries|
        invariant 0 <= i <= |entries| && found == InLayer(entries[..i], TurnArchive)
      {
        assert entries[..i + 1][..i] == entries[..i];
        if entries[i].layer == TurnArchive {
          found := found + [entries[i]];
        }
        i := i + 1;
      }
      assert entries[..|entries|] == entries;
    }
  }

  function InLayer(entries: seq<Entry>, layer: Layer): (found: seq<Entry>)
    ensures forall i :: 0 <= i < |found| ==> found[i].layer == layer && found[i] in entries
  {
    if entries == [] then []
    else
      var last := entries[|entries| - 1];
      InLayer(entries[..|entries| - 1], layer) + (if last.layer == layer then [last] else [])
  }

  class TurnArchivist {
    const store: ProvenanceStore
    var turnSeq: int
    var seqNo: nat
    var prevId: Option<nat>

    constructor (store: ProvenanceStore)
      ensures this.store == store && State() == FRESH
    {
      this.store := store;
      turnSeq, seqNo, prevId := -1, 0, None;
    }

    function State(): Cursor
      reads this
    {
      Cursor(turnSeq, seqNo, prevId)
    }

    /** `archive`: write one entry; a write the store refuses leaves the archivist where it was. */
    method Archive(payload: Payload, id: nat, accepted: bool)
      modifies this, store
      ensures store.entries ==
        old(store.entries) + (if accepted then [EntryAt(old(State()), payload, id)] else [])
      ensures State() == if accepted then Advanced(old(State()), id) else old(State())
    {
      var genesis := prevId.None?;
      var sources := if genesis then [] else [prevId.value];
      var entry := Entry(id, payload, sources, TurnArchive, Whole(turnSeq), Whole(seqNo), Missing, Missing);
      if !accepted {
        return;
      }
      store.entries := store.entries + [entry];
      prevId := Some(id);
      seqNo := seqNo + 1;
    }

    /** The payloads of one turn, in the order they occur, all accepted. */
    method ArchiveAll(payloads: seq<Payload>)
      modifies this, store
      ensures store.entries == old(store.entries) + Written(old(State()), payloads, |old(store.entries)|)
      ensures State() == AfterAll(old(State()), |payloads|, |old(store.entries)|)
    {
      ghost var before, cursor := store.entries, State();
      var i := 0;
      while i < |payloads|
        invariant 0 <= i <= |payloads| && |store.entries| == |before| + i
        invariant State() == AfterAll(cursor, i, |before|)
        invariant store.entries + Written(State(), payloads[i..], |before| + i)
          == before + Written(cursor, payloads, |before|)
      {
        assert payloads[i..][0] == payloads[i] && payloads[i..][1..] == payloads[i + 1..];
        ghost var entries := store.entries;
        ghost var rest := Written(Advanced(State(), |before| + i), payloads[i + 1..], |before| + i + 1);
        ghost var entry := EntryAt(State(), payloads[i], |before| + i);
        assert entries + ([entry] + rest) == (entries + [entry]) + rest;
        Archive(payloads[i], |store.entries|, true);
        i := i + 1;
      }
      assert Written(State(), payloads[i..], |before| + i) == [];
    }

    /** `continue_archive`, for a new instance before its first turn. */
    method Continue(engineTurn: int) returns (turn: int)
      modifies this
      ensures (turn, State()) == Continued(InLayer(store.entries, TurnArchive), engineTurn, old(State()))
    {
      var entries := store.TurnEntries();
      turn := engineTurn;
      if entries == [] || !AllPlaced(entries) {
        return;
      }
      var last := FindLatest(entries);
      turn := last.turnSeq.value;
      prevId := Some(last.id);
    }
  }

  function AfterAll(c: Cursor, count: nat, id: nat): Cursor {
    c.(seqNo := c.seqNo + count, prev := if count == 0 then c.prev else Some(id + count - 1))
  }

  /** The entries of one turn: its number, rising places, consecutive ids, each linked to the one before. */
  lemma {:induction false} WrittenEntries(c: Cursor, payloads: seq<Payload>, id: nat, i: nat)
    requires i < |payloads|
    ensures var e := Written(c, payloads, id)[i];
      && Placed(e) && e.content == payloads[i] && e.turnSeq == Whole(c.turnSeq) && e.seqNo == Whole(c.seqNo + i)
      && e.id == id + i
      && e.sources == (if i > 0 then [id + i - 1] else if c.prev.Some? then [c.prev.value] else [])
    decreases |payloads|
  {
    if i > 0 {
      WrittenEntries(Advanced(c, id), payloads[1..], id + 1, i - 1);
    }
  }
}
