/** The continuity ledger, the per-subject views derived from it, and the cache of current records. */
module Continuity {
  import opened Wrappers
  import opened Sequences

  datatype EventKind = Formed | Reinforced | Verified | Suppressed | Unsuppressed | Dormant | Superseded

  datatype Record = Record(id: string, subject: string, kind: EventKind, supersedes: seq<string>, content: string)

  datatype Status = IsActive | IsSuppressed | IsDormant | IsSuperseded

  datatype View = View(current: Record, status: Status, history: seq<string>)

  /** One subject's records, in append order. */
  function Chain(events: seq<Record>, subject: string): (chain: seq<Record>)
    ensures |chain| <= |events|
  {
    if events == [] then []
    else
      var last := events[|events| - 1];
      Chain(events[..|events| - 1], subject) + (if last.subject == subject then [last] else [])
  }

  /** Every id some record names as superseded. */
  function SupersededIds(events: seq<Record>): set<string> {
    if events == [] then {}
    else SupersededIds(events[..|events| - 1]) + Elements(events[|events| - 1].supersedes)
  }

  function Subjects(events: seq<Record>): set<string> {
    if events == [] then {} else Subjects(events[..|events| - 1]) + {events[|events| - 1].subject}
  }

  function Ids(chain: seq<Record>): (ids: seq<string>)
    ensures |ids| == |chain| && forall i :: 0 <= i < |ids| ==> ids[i] == chain[i].id
  {
    seq(|chain|, i requires 0 <= i < |chain| => chain[i].id)
  }

  /** The walk along a chain: the latest live record so far, and whether the subject is suppressed. */
  datatype Scan = Scan(live: Option<Record>, suppressed: bool)

  function Walk(chain: seq<Record>, superseded: set<string>, n: nat): Scan
    requires n <= |chain|
  {
    if n == 0 then Scan(None, false)
    else
      var before, r := Walk(chain, superseded, n - 1), chain[n - 1];
      if r.id in superseded then before
      else if r.kind == Suppressed then Scan(before.live, true)
      else if r.kind == Unsuppressed then Scan(before.live, false)
      else if !before.suppressed then Scan(Some(r), false)
      else before
  }

  function StatusOf(suppressed: bool, current: Record): Status {
    if suppressed then IsSuppressed
    else if current.kind == Dormant then IsDormant
    else if current.kind == Superseded then IsSuperseded
    else IsActive
  }

  function ViewOf(chain: seq<Record>, superseded: set<string>): View
    requires chain != []
  {
    var scan, tail := Walk(chain, superseded, |chain|), chain[|chain| - 1];
    if scan.live.None? then View(tail, StatusOf(scan.suppressed, tail), Ids(chain))
    else
      var current := scan.live.value;
      if tail.kind == Superseded then View(current, IsSuperseded, Ids(chain))
      else View(current, StatusOf(scan.suppressed || tail.kind == Suppressed, current), Ids(chain))
  }

  lemma {:induction false} SubjectsHaveChains(events: seq<Record>, subject: string)
    ensures subject in Subjects(events) <==> Chain(events, subject) != []
  {
    if events != [] {
      SubjectsHaveChains(events[..|events| - 1], subject);
    }
  }

  /** `compute_views`. */
  function Views(events: seq<Record>): (views: map<string, View>)
    ensures views.Keys == Subjects(events)
  {
    map s | s in Subjects(events) :: SubjectsHaveChains(events, s); ViewOf(Chain(events, s), SupersededIds(events))
  }

  // ---- the projection as it runs ----

  /** The dictionary of chains after the first `n` events. */
  function ChainTable(events: seq<Record>, n: nat): map<string, seq<Record>>
    requires n <= |events|
  {
    if n == 0 then map[]
    else
      var before, r := ChainTable(events, n - 1), events[n - 1];
      before[r.subject := if r.subject in before then before[r.subject] + [r] else [r]]
  }

  lemma {:induction false} TableHoldsChain(events: seq<Record>, n: nat, s: string)
    requires n <= |events|
    ensures s in ChainTable(events, n) <==> s in Subjects(events[..n])
    ensures Chain(events[..n], s) == if s in ChainTable(events, n) then ChainTable(events, n)[s] else []
    decreases n
  {
    if n > 0 {
      TableHoldsChain(events, n - 1, s);
      assert events[..n] == events[..n - 1] + [events[n - 1]];
      OneMoreOf(events[..n - 1], events[n - 1], s);
      hide Chain, Subjects;
    }
  }

  lemma OneMoreOf(before: seq<Record>, r: Record, s: string)
    ensures Subjects(before + [r]) == Subjects(before) + {r.subject}
    ensures Chain(before + [r], s) == Chain(before, s) + (if r.subject == s then [r] else [])
  {
    assert (before + [r])[..|before|] == before;
  }

  method GatherChains(events: seq<Record>) returns (chains: map<string, seq<Record>>, superseded: set<string>)
    ensures chains.Keys == Subjects(events) && superseded == SupersededIds(events)
    ensures forall s :: s in chains ==> chains[s] == Chain(events, s)
  {
    chains, superseded := map[], {};
    var i := 0;
    while i < |events|
      invariant 0 <= i <= |events|
      invariant chains == ChainTable(events, i) && superseded == SupersededIds(events[..i])
    {
      var r := events[i];
      assert events[..i + 1][..i] == events[..i] && events[..i + 1][i] == r;
      chains := chains[r.subject := if r.subject in chains then chains[r.subject] + [r] else [r]];
      superseded := superseded + (set id | id in r.supersedes);
      i := i + 1;
    }
    assert events[..|events|] == events;
    hide Chain, ChainTable, SupersededIds, Subjects;
    forall s
      ensures s in chains <==> s in Subjects(events)
      ensures s in chains ==> chains[s] == Chain(events, s)
    {
      TableHoldsChain(events, |events|, s);
    }
  }

  lemma OneMoreEvent(before: seq<Record>, r: Record)
    ensures Subjects(before + [r]) == Subjects(before) + {r.subject}
    ensures SupersededIds(before + [r]) == SupersededIds(before) + Elements(r.supersedes)
    ensures forall s :: Chain(before + [r], s) == Chain(before, s) + (if r.subject == s then [r] else [])
  {
    assert (before + [r])[..|before|] == before;
  }

  method ViewChain(chain: seq<Record>, superseded: set<string>) returns (view: View)
    requires chain != []
    ensures view == ViewOf(chain, superseded)
  {
    var live: Option<Record>, suppressed := None, false;
    var i := 0;
    while i < |chain|
      invariant 0 <= i <= |chain| && Scan(live, suppressed) == Walk(chain, superseded, i)
    {
      var r := chain[i];
      if r.id !in superseded {
        if r.kind == Suppressed {
          suppressed := true;
        } else if r.kind == Unsuppressed {
          suppressed := false;
        } else if !suppressed {
          live := Some(r);
        }
      }
      i := i + 1;
    }
    var tail := chain[|chain| - 1];
    var current := tail;
    if live.Some? {
      current := live.value;
      if tail.kind == Suppressed {
        suppressed := true;
      } else if tail.kind == Superseded {
        return View(current, IsSuperseded, Ids(chain));
      }
    }
    view := View(current, StatusOf(suppressed, current), Ids(chain));
  }

  method ComputeViews(events: seq<Record>) returns (views: map<string, View>)
    ensures views == Views(events)
  {
    hide ViewOf, Chain, SupersededIds, Subjects;
    var chains, superseded := GatherChains(events);
    views := map[];
    var todo := chains.Keys;
    while todo != {}
      invariant todo <= chains.Keys
      invariant forall s :: s in views <==> s in chains && s !in todo
      invariant forall s :: s in views ==> chains[s] != [] && views[s] == ViewOf(chains[s], superseded)
      decreases |todo|
    {
      var s :| s in todo;
      SubjectsHaveChains(events, s);
      var view := ViewChain(chains[s], superseded);
      views := views[s := view];
      todo := todo - {s};
    }
    ViewsAreThese(events, views);
  }

  lemma ViewsAreThese(events: seq<Record>, views: map<string, View>)
    requires forall s :: s in views <==> s in Subjects(events)
    requires forall s :: s in views ==>
      Chain(events, s) != [] && views[s] == ViewOf(Chain(events, s), SupersededIds(events))
    ensures views == Views(events)
  {
    hide ViewOf, Chain, SupersededIds, Subjects;
    assert views.Keys == Views(events).Keys;
  }

  // ---- what a view depends on ----

  lemma {:induction false} ChainHasAll(events: seq<Record>, r: Record)
    ensures r in events <==> r in Chain(events, r.subject)
  {
    if events != [] {
      var n := |events| - 1;
      ChainHasAll(events[..n], r);
      assert events == events[..n] + [events[n]];
    }
  }

  lemma {:induction false} SupersededExactly(events: seq<Record>, id: string)
    ensures id in SupersededIds(events) <==> exists r :: r in events && id in r.supersedes
  {
    if events != [] {
      var n := |events| - 1;
      SupersededExactly(events[..n], id);
      assert events == events[..n] + [events[n]];
    }
  }

  /** The views depend only on each subject's own order: every re-interleaving of the ledger that keeps the
      subjects' chains gives the same views. */
  lemma InterleavingDoesNotMatter(a: seq<Record>, b: seq<Record>)
    requires forall s :: Chain(a, s) == Chain(b, s)
    ensures Views(a) == Views(b)
  {
    forall s
      ensures s in Subjects(a) <==> s in Subjects(b)
    {
      SubjectsHaveChains(a, s);
      SubjectsHaveChains(b, s);
    }
    forall id
      ensures id in SupersededIds(a) <==> id in SupersededIds(b)
    {
      SupersededMoves(a, b, id);
      SupersededMoves(b, a, id);
    }
    assert SupersededIds(a) == SupersededIds(b);
    assert Subjects(a) == Subjects(b);
  }

  lemma SupersededMoves(a: seq<Record>, b: seq<Record>, id: string)
    requires forall s :: Chain(a, s) == Chain(b, s)
    ensures id in SupersededIds(a) ==> id in SupersededIds(b)
  {
    SupersededExactly(a, id);
    SupersededExactly(b, id);
    if id in SupersededIds(a) {
      var r :| r in a && id in r.supersedes;
      ChainHasAll(a, r);
      ChainHasAll(b, r);
    }
  }

  lemma {:induction false} WalkDependsOnOwnIds(chain: seq<Record>, s: set<string>, t: set<string>, n: nat)
    requires n <= |chain| && forall i :: 0 <= i < |chain| ==> (chain[i].id in s <==> chain[i].id in t)
    ensures Walk(chain, s, n) == Walk(chain, t, n)
  {
    if n > 0 {
      WalkDependsOnOwnIds(chain, s, t, n - 1);
    }
  }

  /** Appending an event changes no view but that of its own subject and those of subjects that own an id it
      supersedes. */
  lemma AppendIsLocal(events: seq<Record>, r: Record, subject: string)
    requires subject in Subjects(events) && subject != r.subject
    requires forall i :: 0 <= i < |Chain(events, subject)| ==> Chain(events, subject)[i].id !in r.supersedes
    ensures subject in Subjects(events + [r]) && Views(events + [r])[subject] == Views(events)[subject]
  {
    OneMoreEvent(events, r);
    SubjectsHaveChains(events, subject);
    hide Chain, SupersededIds, Subjects;
    var chain := Chain(events, subject);
    assert Chain(events + [r], subject) == chain;
    WalkDependsOnOwnIds(chain, SupersededIds(events), SupersededIds(events + [r]), |chain|);
  }

  // ---- the append-only ledger ----

  predicate Distinct(events: seq<Record>) {
    forall i, j :: 0 <= i < j < |events| ==> events[i].id != events[j].id
  }

  class Ledger {
    var events: seq<Record>

    ghost predicate Valid()
      reads this
    {
      Distinct(events)
    }

    constructor ()
      ensures Valid() && events == []
    {
      events := [];
    }

    /** `append`: a duplicate id is an integrity error and changes nothing. */
    method Append(r: Record) returns (ok: bool)
      requires Valid()
      modifies this
      ensures Valid()
      ensures ok == forall i :: 0 <= i < |old(events)| ==> old(events)[i].id != r.id
      ensures events == if ok then old(events) + [r] else old(events)
    {
      ok := true;
      var i := 0;
      while i < |events|
        invariant 0 <= i <= |events| && events == old(events)
        invariant ok == forall j :: 0 <= j < i ==> events[j].id != r.id
      {
        if events[i].id == r.id {
          ok := false;
        }
        i := i + 1;
      }
      if ok {
        events := events + [r];
      }
    }

    /** `get_events` for one subject. */
    method GetEvents(subject: string) returns (chain: seq<Record>)
      ensures chain == Chain(events, subject)
    {
      chain := [];
      var i := 0;
      while i < |events|
        invariant 0 <= i <= |events| && chain == Chain(events[..i], subject)
      {
        assert events[..i + 1][..i] == events[..i];
        if events[i].subject == subject {
          chain := chain + [events[i]];
        }
        i := i + 1;
      }
      assert events[..|events|] == events;
    }
  }

  // ---- the cache of current records ----

  /** The last record of the first `n` that nothing supersedes. */
  function LastUnsuperseded(chain: seq<Record>, superseded: set<string>, n: nat): Option<Record>
    requires n <= |chain|
  {
    if n == 0 then None
    else if chain[n - 1].id !in superseded then Some(chain[n - 1])
    else LastUnsuperseded(chain, superseded, n - 1)
  }

  function CurrentOf(events: seq<Record>, subject: string): Option<Record> {
    var chain := Chain(events, subject);
    LastUnsuperseded(chain, SupersededIds(events), |chain|)
  }

  // ---- what a view says ----

  /** The record counts: nothing supersedes it. */
  predicate Counts(chain: seq<Record>, superseded: set<string>, k: int)
    requires 0 <= k < |chain|
  {
    chain[k].id !in superseded
  }

  /** The record at `k` is the last of the first `n` that counts and suppresses or unsuppresses, and it suppresses. */
  predicate SuppressedAt(chain: seq<Record>, superseded: set<string>, k: nat, n: nat)
    requires k < n <= |chain|
  {
    && Counts(chain, superseded, k) && chain[k].kind == Suppressed
    && forall i :: k < i < n && Counts(chain, superseded, i) ==> chain[i].kind != Unsuppressed
  }

  /** The subject is suppressed after `n` records: some suppression counts that no later unsuppression lifts. */
  ghost predicate SuppressedAfter(chain: seq<Record>, superseded: set<string>, n: nat)
    requires n <= |chain|
  {
    exists k: nat :: k < n && SuppressedAt(chain, superseded, k, n)
  }

  /** The record at `k` counts, is no suppression or unsuppression, and comes while the subject is not suppressed. */
  ghost predicate LiveAt(chain: seq<Record>, superseded: set<string>, k: nat)
    requires k < |chain|
  {
    && Counts(chain, superseded, k) && chain[k].kind != Suppressed && chain[k].kind != Unsuppressed
    && !SuppressedAfter(chain, superseded, k)
  }

  ghost predicate NoneLive(chain: seq<Record>, superseded: set<string>, n: nat)
    requires n <= |chain|
  {
    forall k: nat :: k < n ==> !LiveAt(chain, superseded, k)
  }

  /** The last of the first `n` records that was live when it came. */
  ghost predicate LastLive(chain: seq<Record>, superseded: set<string>, n: nat, r: Record)
    requires n <= |chain|
  {
    exists k: nat :: k < n && LiveAt(chain, superseded, k) && chain[k] == r
                     && forall j: nat :: k < j < n ==> !LiveAt(chain, superseded, j)
  }

  /** The walk finds whether the subject is suppressed, and the last record that was live when it came. */
  lemma {:induction false} WalkMeans(chain: seq<Record>, superseded: set<string>, n: nat)
    requires n <= |chain|
    ensures var scan := Walk(chain, superseded, n);
      && (scan.suppressed <==> SuppressedAfter(chain, superseded, n))
      && (scan.live.None? <==> NoneLive(chain, superseded, n))
      && (scan.live.Some? ==> LastLive(chain, superseded, n, scan.live.value))
  {
    if n > 0 {
      WalkMeans(chain, superseded, n - 1);
      SuppressionMoves(chain, superseded, n);
      hide SuppressedAfter, SuppressedAt;
      LivenessMoves(chain, superseded, n);
    }
  }

  lemma LivenessMoves(chain: seq<Record>, superseded: set<string>, n: nat)
    requires 0 < n <= |chain|
    requires Walk(chain, superseded, n - 1).suppressed <==> SuppressedAfter(chain, superseded, n - 1)
    ensures var before, after := Walk(chain, superseded, n - 1), Walk(chain, superseded, n);
      after.live == if LiveAt(chain, superseded, n - 1) then Some(chain[n - 1]) else before.live
  {
    hide SuppressedAfter;
  }

  lemma SuppressionMoves(chain: seq<Record>, superseded: set<string>, n: nat)
    requires 0 < n <= |chain|
    ensures SuppressedAfter(chain, superseded, n) <==>
      if Counts(chain, superseded, n - 1) && chain[n - 1].kind == Suppressed then true
      else if Counts(chain, superseded, n - 1) && chain[n - 1].kind == Unsuppressed then false
      else SuppressedAfter(chain, superseded, n - 1)
  {
    if Counts(chain, superseded, n - 1) && chain[n - 1].kind == Suppressed {
      assert SuppressedAt(chain, superseded, n - 1, n);
    }
    if k: nat :| k < n && SuppressedAt(chain, superseded, k, n) {
      if k < n - 1 {
        assert SuppressedAt(chain, superseded, k, n - 1);
      }
    }
    var m := n - 1;
    if k: nat :| k < m && SuppressedAt(chain, superseded, k, m) {
      if !Counts(chain, superseded, n - 1) || chain[n - 1].kind != Unsuppressed {
        assert SuppressedAt(chain, superseded, k, n);
      }
    }
  }

  /** A subject's view: its history is its chain; its record is the last that was live when it came, or the tail when
      there is none; it is superseded exactly when that is what its tail, or without a live record its only kind,
      says; suppressed exactly when a suppression holds or the tail is one; otherwise dormant or active. */
  lemma ViewMeans(events: seq<Record>, subject: string)
    requires subject in Subjects(events)
    ensures var view, chain, gone := Views(events)[subject], Chain(events, subject), SupersededIds(events);
      && chain != [] && view.history == Ids(chain)
      && var tail, n := chain[|chain| - 1], |chain|;
         var live := !NoneLive(chain, gone, n);
         && (if live then LastLive(chain, gone, n, view.current) else view.current == tail)
         && (live && tail.kind == Superseded ==> view.status == IsSuperseded)
         && (!(live && tail.kind == Superseded) ==>
               && (view.status == IsSuppressed <==>
                     SuppressedAfter(chain, gone, n) || (live && tail.kind == Suppressed))
               && (view.status != IsSuppressed ==>
                     && (view.status == IsDormant <==> view.current.kind == Dormant)
                     && (view.status == IsSuperseded <==> view.current.kind == Superseded)
                     && (view.status == IsActive <==>
                           view.current.kind != Dormant && view.current.kind != Superseded)))
  {
    SubjectsHaveChains(events, subject);
    var chain, gone := Chain(events, subject), SupersededIds(events);
    assert Views(events)[subject] == ViewOf(chain, gone);
    hide *;
    WalkMeans(chain, gone, |chain|);
    ViewOfScan(chain, gone);
  }

  lemma ViewOfScan(chain: seq<Record>, superseded: set<string>)
    requires chain != []
    ensures var view, scan := ViewOf(chain, superseded), Walk(chain, superseded, |chain|);
      var tail := chain[|chain| - 1];
      && view.history == Ids(chain) && view.current == (if scan.live.Some? then scan.live.value else tail)
      && (scan.live.Some? && tail.kind == Superseded ==> view.status == IsSuperseded)
      && (!(scan.live.Some? && tail.kind == Superseded) ==>
            && (view.status == IsSuppressed <==> scan.suppressed || (scan.live.Some? && tail.kind == Suppressed))
            && (view.status != IsSuppressed ==>
                  && (view.status == IsDormant <==> view.current.kind == Dormant)
                  && (view.status == IsSuperseded <==> view.current.kind == Superseded)
                  && (view.status == IsActive <==>
                        view.current.kind != Dormant && view.current.kind != Superseded)))
  {
    hide Walk;
  }

  class ProjectionCache {
    var bySubject: map<string, seq<Record>>
    var superseded: set<string>
    ghost var recorded: seq<Record>

    ghost predicate Valid()
      reads this
    {
      && superseded == SupersededIds(recorded)
      && forall s :: Chain(recorded, s) == if s in bySubject then bySubject[s] else []
    }

    constructor ()
      ensures Valid() && recorded == []
    {
      bySubject, superseded, recorded := map[], {}, [];
    }

    method Record(r: Record)
      requires Valid()
      modifies this
      ensures Valid() && recorded == old(recorded) + [r]
    {
      OneMoreEvent(recorded, r);
      hide Chain, SupersededIds;
      bySubject := bySubject[r.subject := if r.subject in bySubject then bySubject[r.subject] + [r] else [r]];
      superseded := superseded + (set id | id in r.supersedes);
      recorded := recorded + [r];
    }

    /** `current_id`: the newest record of the subject that nothing supersedes. */
    method CurrentId(subject: string) returns (id: Option<string>)
      requires Valid()
      ensures var current := CurrentOf(recorded, subject);
        id == if current.Some? then Some(current.value.id) else None
    {
      hide Chain, SupersededIds;
      if subject !in bySubject {
        return None;
      }
      var chain := bySubject[subject];
      var i := |chain|;
      while i > 0
        invariant 0 <= i <= |chain|
        invariant LastUnsuperseded(chain, superseded, |chain|) == LastUnsuperseded(chain, superseded, i)
      {
        i := i - 1;
        if chain[i].id !in superseded {
          return Some(chain[i].id);
        }
      }
      return None;
    }

    method Clear()
      modifies this
      ensures Valid() && recorded == []
    {
      bySubject, superseded, recorded := map[], {}, [];
    }
  }

  /** No event suppresses or unsuppresses anything. */
  predicate NoSuppression(events: seq<Record>) {
    forall i :: 0 <= i < |events| ==> events[i].kind != Suppressed && events[i].kind != Unsuppressed
  }

  lemma {:induction false} WalkFindsLast(chain: seq<Record>, superseded: set<string>, n: nat)
    requires NoSuppression(chain) && n <= |chain|
    ensures Walk(chain, superseded, n) == Scan(LastUnsuperseded(chain, superseded, n), false)
  {
    if n > 0 {
      WalkFindsLast(chain, superseded, n - 1);
    }
  }

  lemma {:induction false} ChainKeepsKinds(events: seq<Record>, subject: string)
    requires NoSuppression(events)
    ensures NoSuppression(Chain(events, subject))
  {
    if events != [] {
      ChainKeepsKinds(events[..|events| - 1], subject);
    }
  }

  /** On ledgers without suppression the cache agrees with the view exactly when the subject has a record that
      nothing supersedes; otherwise the cache knows no current record and the view falls back to the tail. */
  lemma CacheAgreesWithView(events: seq<Record>, subject: string)
    requires NoSuppression(events) && subject in Subjects(events)
    ensures var view, cached := Views(events)[subject], CurrentOf(events, subject);
      var chain := Chain(events, subject);
      && (cached == Some(view.current) <==>
            exists i :: 0 <= i < |chain| && chain[i].id !in SupersededIds(events))
      && (cached != Some(view.current) ==> cached == None && chain != [] && view.current == chain[|chain| - 1])
  {
    SubjectsHaveChains(events, subject);
    ChainKeepsKinds(events, subject);
    var chain := Chain(events, subject);
    WalkFindsLast(chain, SupersededIds(events), |chain|);
    LastUnsupersededExists(chain, SupersededIds(events), |chain|);
  }

  lemma {:induction false} LastUnsupersededExists(chain: seq<Record>, superseded: set<string>, n: nat)
    requires n <= |chain|
    ensures LastUnsuperseded(chain, superseded, n).Some? <==>
      exists i :: 0 <= i < n && chain[i].id !in superseded
  {
    if n > 0 {
      LastUnsupersededExists(chain, superseded, n - 1);
    }
  }

  /** One past the last place of the first `n` that nothing supersedes; 0 without any. */
  function LastPlace(chain: seq<Record>, superseded: set<string>, n: nat): (k: nat)
    requires n <= |chain|
    ensures k <= n && (k > 0 ==> chain[k - 1].id !in superseded)
    ensures forall i :: k <= i < n ==> chain[i].id in superseded
  {
    if n == 0 then 0 else if chain[n - 1].id !in superseded then n else LastPlace(chain, superseded, n - 1)
  }

  /** The record at `k` goes live when the walk meets it. */
  predicate GoesLive(chain: seq<Record>, superseded: set<string>, k: nat)
    requires k < |chain|
  {
    chain[k].kind != Suppressed && chain[k].kind != Unsuppressed && !Walk(chain, superseded, k).suppressed
  }

  /** The last record that nothing supersedes goes live, or it ends the chain and nothing was live before it. */
  predicate NewestIsCurrent(chain: seq<Record>, superseded: set<string>) {
    var n := LastPlace(chain, superseded, |chain|);
    && n > 0
    && (GoesLive(chain, superseded, n - 1) || (n == |chain| && Walk(chain, superseded, n - 1).live.None?))
  }

  lemma {:induction false} CachedIsLastPlace(chain: seq<Record>, superseded: set<string>, n: nat)
    requires n <= |chain|
    ensures LastUnsuperseded(chain, superseded, n) ==
      var k := LastPlace(chain, superseded, n); if k == 0 then None else Some(chain[k - 1])
  {
    if n > 0 {
      CachedIsLastPlace(chain, superseded, n - 1);
    }
  }

  /** Superseded records leave the walk where it was. */
  lemma {:induction false} WalkEndsAtLastPlace(chain: seq<Record>, superseded: set<string>, n: nat)
    requires n <= |chain|
    ensures Walk(chain, superseded, n) == Walk(chain, superseded, LastPlace(chain, superseded, n))
  {
    if n > 0 {
      WalkEndsAtLastPlace(chain, superseded, n - 1);
    }
  }

  lemma {:induction false} LiveIsEarlier(chain: seq<Record>, superseded: set<string>, n: nat)
    requires n <= |chain| && Walk(chain, superseded, n).live.Some?
    ensures exists i :: 0 <= i < n && Walk(chain, superseded, n).live == Some(chain[i])
  {
    if Walk(chain, superseded, n).live != Some(chain[n - 1]) {
      LiveIsEarlier(chain, superseded, n - 1);
    }
  }

  lemma {:induction false} ChainIsDistinct(events: seq<Record>, subject: string)
    requires Distinct(events)
    ensures Distinct(Chain(events, subject)) && forall r :: r in Chain(events, subject) ==> r in events
  {
    if events != [] {
      var before := events[..|events| - 1];
      ChainIsDistinct(before, subject);
      assert forall r :: r in before ==> r.id != events[|events| - 1].id;
      hide Chain;
      OneMoreOf(before, events[|events| - 1], subject);
      assert before + [events[|events| - 1]] == events;
    }
  }

  lemma NewestDecides(chain: seq<Record>, superseded: set<string>)
    requires Distinct(chain) && chain != []
    ensures LastUnsuperseded(chain, superseded, |chain|) == Some(ViewOf(chain, superseded).current) <==>
      NewestIsCurrent(chain, superseded)
  {
    var n := LastPlace(chain, superseded, |chain|);
    CachedIsLastPlace(chain, superseded, |chain|);
    WalkEndsAtLastPlace(chain, superseded, |chain|);
    if n > 0 {
      hide LastPlace, LastUnsuperseded;
      var scan, before := Walk(chain, superseded, n), Walk(chain, superseded, n - 1);
      assert scan.live == if GoesLive(chain, superseded, n - 1) then Some(chain[n - 1]) else before.live;
      if before.live.Some? {
        LiveIsEarlier(chain, superseded, n - 1);
        assert before.live != Some(chain[n - 1]);
      }
      hide Walk;
    }
  }

  /** On every ledger the cache's record is the view's current one exactly when the last record that nothing
      supersedes goes live, or ends a chain with nothing live before it. Consolidation puts formations and
      verifications into its cache and nothing else, so events of the other kinds reach the projection alone. */
  lemma CacheAgreesExactly(events: seq<Record>, subject: string)
    requires Distinct(events) && subject in Subjects(events)
    ensures CurrentOf(events, subject) == Some(Views(events)[subject].current) <==>
      NewestIsCurrent(Chain(events, subject), SupersededIds(events))
  {
    SubjectsHaveChains(events, subject);
    ChainIsDistinct(events, subject);
    hide ViewOf, LastUnsuperseded, NewestIsCurrent, Chain, SupersededIds;
    NewestDecides(Chain(events, subject), SupersededIds(events));
  }

  /** So they differ on a record followed by its suppression, which does not go live: the cache would take the
      suppressing event itself, the view keeps the record that was live. */
  lemma SuppressionParts(a: string, b: string, subject: string)
    requires a != b
    ensures var formed, hidden := Record(a, subject, Formed, [], ""), Record(b, subject, Suppressed, [], "");
      var events := [formed, hidden];
      && subject in Subjects(events) && !NewestIsCurrent(Chain(events, subject), SupersededIds(events))
      && CurrentOf(events, subject) == Some(hidden)
      && Views(events)[subject].current == formed && Views(events)[subject].status == IsSuppressed
  {
    var formed, hidden := Record(a, subject, Formed, [], ""), Record(b, subject, Suppressed, [], "");
    var events := [formed, hidden];
    assert events == [] + [formed] + [hidden];
    OneMoreOf([], formed, subject);
    OneMoreOf([] + [formed], hidden, subject);
    assert Chain(events, subject) == events && subject in Subjects(events);
    assert SupersededIds(events) == {} by {
      NothingSuperseded(formed, hidden);
    }
    hide Chain, SupersededIds, Subjects;
    assert Walk(events, {}, 1) == Scan(Some(formed), false);
    assert Walk(events, {}, 2) == Scan(Some(formed), true);
    assert LastUnsuperseded(events, {}, 2) == Some(hidden);
  }

  lemma NothingSuperseded(a: Record, b: Record)
    requires a.supersedes == [] && b.supersedes == []
    ensures SupersededIds([a, b]) == {}
  {
    var one := [a];
    assert [a, b] == one + [b] && one == [] + one;
    OneMoreEvent([], a);
    OneMoreEvent(one, b);
    assert Elements<string>([]) == {};
  }
}
