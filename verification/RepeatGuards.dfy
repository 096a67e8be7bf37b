/** The consecutive repeat guard of one turn. Its counters are proved to measure the call history: the
    longest suffix of identical calls, and the longest suffix of identical calls with identical results. */
module RepeatGuards {
  import opened Wrappers

  datatype Limits = Limits(notesBeforeStop: nat, maxIdenticalCalls: nat)

  /** The bounds the configuration fields carry. */
  predicate Allowed(limits: Limits) {
    limits.notesBeforeStop >= 1 && limits.maxIdenticalCalls >= 2
  }

  /** A tool name with its arguments, serialized with sorted keys. */
  datatype Call = Call(name: string, input: string)

  /** One executed call with the result it really had. */
  datatype Seen = Seen(call: Call, text: string, isError: bool)

  /** What a result block shows: the real text, or the note that replaced it. */
  datatype Content = Real(text: string) | Note(firstCall: nat, repeat: nat, warned: bool)

  /** The event meta of an action; `stop` false is a note. */
  datatype Meta = Meta(call: nat, firstCall: nat, identicalCalls: nat, sameResultRepeats: nat, stop: bool)

  // ---- the history seen from its end ----

  /** All elements from `lo` up to `hi` are equal. */
  predicate Level<T(==)>(s: seq<T>, lo: nat, hi: nat)
    requires lo <= hi <= |s|
  {
    forall i :: lo <= i < hi ==> s[i] == s[hi - 1]
  }

  /** How many elements just before `k` are equal to each other. */
  function Streak<T(==)>(s: seq<T>, k: nat): (n: nat)
    requires k <= |s|
    ensures n <= k && (k > 0 ==> n >= 1)
  {
    if k < 2 then k
    else if s[k - 1] == s[k - 2] then Streak(s, k - 1) + 1
    else 1
  }

  function CallsOf(history: seq<Seen>): (calls: seq<Call>)
    ensures |calls| == |history| && forall i :: 0 <= i < |calls| ==> calls[i] == history[i].call
  {
    seq(|history|, i requires 0 <= i < |history| => history[i].call)
  }

  /** The identical calls that end at call `k`. */
  function RunLength(history: seq<Seen>, k: nat): (n: nat)
    requires k <= |history|
    ensures n <= k && (k > 0 ==> n >= 1)
  {
    Streak(CallsOf(history), k)
  }

  /** The identical calls with one same result that end at call `k`. */
  function ChainLength(history: seq<Seen>, k: nat): (n: nat)
    requires k <= |history|
    ensures n <= k && (k > 0 ==> n >= 1)
  {
    Streak(history, k)
  }

  /** Call `k` repeats the one before it, with the same real result. */
  predicate Repeats(history: seq<Seen>, k: nat)
    requires k <= |history|
  {
    k >= 2 && history[k - 1] == history[k - 2]
  }

  /** A limit is passed: more same-result repeats than get a note, or too many identical calls. */
  predicate Stops(limits: Limits, history: seq<Seen>, k: nat)
    requires k <= |history|
  {
    ChainLength(history, k) >= limits.notesBeforeStop + 2 || RunLength(history, k) >= limits.maxIdenticalCalls
  }

  /** The chain length at which the guard stops. */
  function ChainLimit(limits: Limits): nat {
    limits.notesBeforeStop + 2
  }

  /** What the result block of call `k` shows. */
  function Shown(limits: Limits, history: seq<Seen>, k: nat): Content
    requires 1 <= k <= |history|
  {
    var chain := ChainLength(history, k);
    if Repeats(history, k)
    then Note(k - chain + 1, chain - 1, chain - 1 == limits.notesBeforeStop)
    else Real(history[k - 1].text)
  }

  /** The event for call `k`. */
  function Verdict(limits: Limits, history: seq<Seen>, k: nat): Option<Meta>
    requires 1 <= k <= |history|
  {
    var chain := ChainLength(history, k);
    if Repeats(history, k) || Stops(limits, history, k)
    then Some(Meta(k, k - chain + 1, RunLength(history, k), chain - 1, Stops(limits, history, k)))
    else None
  }

  /** What comes later in the history does not change a streak. */
  lemma {:induction false} StreakOfPrefix<T>(s: seq<T>, t: seq<T>, k: nat)
    requires k <= |s| && k <= |t| && forall i :: 0 <= i < k ==> s[i] == t[i]
    ensures Streak(s, k) == Streak(t, k)
  {
    if k >= 2 {
      StreakOfPrefix(s, t, k - 1);
    }
  }

  /** One more call: the run and the chain grow by one, or start anew. */
  lemma CountersGrow(before: seq<Seen>, seen: Seen)
    ensures var n, after := |before|, before + [seen];
      && RunLength(after, n + 1) == (if n > 0 && before[n - 1].call == seen.call then RunLength(before, n) + 1 else 1)
      && ChainLength(after, n + 1) == (if n > 0 && before[n - 1] == seen then ChainLength(before, n) + 1 else 1)
  {
    var after := before + [seen];
    StreakOfPrefix(after, before, |before|);
    StreakOfPrefix(CallsOf(after), CallsOf(before), |before|);
  }

  // ---- the guard object ----

  class ResultBlock {
    var content: Content
    const isError: bool

    constructor (text: string, isError: bool)
      ensures content == Real(text) && this.isError == isError
    {
      content := Real(text);
      this.isError := isError;
    }
  }

  class RepeatGuard {
    const limits: Limits
    var callCount: nat
    var prevKey: Option<Call>
    var prevResult: Option<(string, bool)>
    var firstCall: nat
    var runStart: nat
    var identicalCalls: nat
    var sameResultRepeats: nat
    ghost var history: seq<Seen>

    ghost predicate Valid()
      reads this
    {
      && Allowed(limits)
      && callCount == |history|
      && (history == [] ==> prevKey.None? && prevResult.None? && identicalCalls == sameResultRepeats == 0)
      && (history != [] ==>
            var last := history[|history| - 1];
            && prevKey == Some(last.call) && prevResult == Some((last.text, last.isError))
            && identicalCalls == RunLength(history, |history|) && runStart + identicalCalls == callCount + 1
            && sameResultRepeats + 1 == ChainLength(history, |history|) && firstCall + sameResultRepeats == callCount)
    }

    constructor (limits: Limits)
      requires Allowed(limits)
      ensures Valid() && history == [] && this.limits == limits
    {
      this.limits := limits;
      callCount, firstCall, runStart, identicalCalls, sameResultRepeats := 0, 0, 0, 0, 0;
      prevKey, prevResult := None, None;
      history := [];
    }

    /** The counting half of `observe`: number the call, compare it to the previous one, keep its real result. */
    method Number(call: Call, text: string, isError: bool) returns (identical: bool, sameResult: bool)
      requires Valid()
      modifies this
      ensures Valid() && history == old(history) + [Seen(call, text, isError)]
      ensures sameResult == Repeats(history, |history|) && (sameResult ==> identical)
      ensures identical <==> identicalCalls > 1
    {
      hide RunLength, ChainLength;
      CountersGrow(history, Seen(call, text, isError));
      history := history + [Seen(call, text, isError)];
      callCount := callCount + 1;
      identical := prevKey == Some(call);
      sameResult := identical && prevResult == Some((text, isError));
      prevKey := Some(call);
      prevResult := Some((text, isError));
      if identical {
        identicalCalls := identicalCalls + 1;
        sameResultRepeats := if sameResult then sameResultRepeats + 1 else 0;
        firstCall := if sameResult then firstCall else callCount;
      } else {
        runStart, firstCall := callCount, callCount;
        identicalCalls, sameResultRepeats := 1, 0;
      }
    }

    /** `observe`: number one executed call, classify it, and replace its result when it repeats. */
    method Observe(call: Call, result: ResultBlock) returns (meta: Option<Meta>)
      requires Valid() && result.content.Real?
      modifies this, result
      ensures Valid() && history == old(history) + [Seen(call, old(result.content).text, result.isError)]
      ensures result.content == Shown(limits, history, |history|)
      ensures meta == Verdict(limits, history, |history|)
    {
      hide RunLength;
      var identical, sameResult := Number(call, result.content.text, result.isError);
      if !identical {
        return None;
      }
      var stop := sameResultRepeats > limits.notesBeforeStop || identicalCalls >= limits.maxIdenticalCalls;
      if !stop && !sameResult {
        return None;
      }
      if sameResult {
        result.content := Note(firstCall, sameResultRepeats, sameResultRepeats == limits.notesBeforeStop);
      }
      meta := Some(MetaOf(stop));
    }

    function MetaOf(stop: bool): Meta
      reads this
    {
      Meta(callCount, firstCall, identicalCalls, sameResultRepeats, stop)
    }
  }

  // ---- what the counters mean ----

  /** A stretch ending at `k` is level exactly when it is no longer than the streak. */
  lemma {:induction false} StreakIsLongest<T>(s: seq<T>, k: nat, n: nat)
    requires n <= k <= |s|
    ensures Level(s, k - n, k) <==> n <= Streak(s, k)
  {
    if n >= 2 {
      StreakIsLongest(s, k - 1, n - 1);
      assert Level(s, k - n, k) <==> s[k - 2] == s[k - 1] && Level(s, k - n, k - 1);
    }
  }

  /** The two counters are the longest stretches before call `k`, the chain within the run. */
  lemma CountersMeasureHistory(history: seq<Seen>, k: nat, n: nat)
    requires n <= k <= |history|
    ensures Level(CallsOf(history), k - n, k) <==> n <= RunLength(history, k)
    ensures Level(history, k - n, k) <==> n <= ChainLength(history, k)
    ensures ChainLength(history, k) <= RunLength(history, k)
  {
    StreakIsLongest(CallsOf(history), k, n);
    StreakIsLongest(history, k, n);
    var chain := ChainLength(history, k);
    StreakIsLongest(history, k, chain);
    StreakIsLongest(CallsOf(history), k, chain);
  }

  /** A note names the first call of an unbroken stretch that returned the very result it hides. */
  lemma NoteNamesFirstReturn(limits: Limits, history: seq<Seen>, k: nat)
    requires 1 <= k <= |history| && Shown(limits, history, k).Note?
    ensures var first := Shown(limits, history, k).firstCall;
      && 1 <= first < k && Shown(limits, history, k).repeat == k - first
      && (forall j :: first - 1 <= j < k ==> history[j] == history[k - 1])
      && (first > 1 ==> history[first - 2] != history[first - 1])
  {
    var chain := ChainLength(history, k);
    StreakIsLongest(history, k, chain);
    StreakIsLongest(history, k, 2);
    if chain < k {
      StreakIsLongest(history, k, chain + 1);
    }
  }

  // ---- when a turn is stopped ----

  /** `n` identical calls in a row from call `i` + 1 on. */
  predicate SameCalls(history: seq<Seen>, i: nat, n: nat) {
    i + n <= |history| && Level(CallsOf(history), i, i + n)
  }

  /** `n` identical calls in a row with one same result. */
  predicate SameSeen(history: seq<Seen>, i: nat, n: nat) {
    i + n <= |history| && Level(history, i, i + n)
  }

  predicate StopsAt(limits: Limits, history: seq<Seen>, k: nat) {
    k <= |history| && Stops(limits, history, k)
  }

  lemma StopIsWindow(limits: Limits, history: seq<Seen>, k: nat)
    requires Allowed(limits) && k <= |history|
    ensures var m, c := limits.maxIdenticalCalls, ChainLimit(limits);
      StopsAt(limits, history, k) <==>
        (m <= k && SameCalls(history, k - m, m)) || (c <= k && SameSeen(history, k - c, c))
  {
    var m, c := limits.maxIdenticalCalls, ChainLimit(limits);
    if m <= k {
      CountersMeasureHistory(history, k, m);
    }
    if c <= k {
      CountersMeasureHistory(history, k, c);
    }
  }

  /** Over a whole turn: the guard stops at some call exactly when somewhere `maxIdenticalCalls` calls in a
      row were identical, or `notesBeforeStop` + 2 in a row were identical with one and the same result. */
  lemma SomeCallStops(limits: Limits, history: seq<Seen>)
    requires Allowed(limits)
    ensures (exists k: nat :: StopsAt(limits, history, k)) <==>
      || (exists i: nat :: SameCalls(history, i, limits.maxIdenticalCalls))
      || (exists i: nat :: SameSeen(history, i, ChainLimit(limits)))
  {
    hide StopsAt, SameCalls, SameSeen;
    var m, c := limits.maxIdenticalCalls, ChainLimit(limits);
    if k: nat :| StopsAt(limits, history, k) {
      StopHasWindow(limits, history, k);
    }
    if i: nat :| SameCalls(history, i, m) {
      WindowStops(limits, history, i, m);
    }
    if i: nat :| SameSeen(history, i, c) {
      WindowStops(limits, history, i, c);
    }
  }

  lemma StopHasWindow(limits: Limits, history: seq<Seen>, k: nat)
    requires Allowed(limits) && StopsAt(limits, history, k)
    ensures (exists i: nat :: SameCalls(history, i, limits.maxIdenticalCalls))
      || (exists i: nat :: SameSeen(history, i, ChainLimit(limits)))
  {
    StopIsWindow(limits, history, k);
    hide SameCalls, SameSeen;
  }

  lemma WindowStops(limits: Limits, history: seq<Seen>, i: nat, n: nat)
    requires Allowed(limits)
    requires (n == limits.maxIdenticalCalls && SameCalls(history, i, n))
      || (n == ChainLimit(limits) && SameSeen(history, i, n))
    ensures StopsAt(limits, history, i + n)
  {
    StopIsWindow(limits, history, i + n);
  }

  /** The first stop of a turn comes exactly at a limit, never beyond it. */
  lemma FirstStopIsAtALimit(limits: Limits, history: seq<Seen>, k: nat)
    requires Allowed(limits) && 1 <= k <= |history|
    requires Stops(limits, history, k) && !Stops(limits, history, k - 1)
    ensures ChainLength(history, k) == ChainLimit(limits) || RunLength(history, k) == limits.maxIdenticalCalls
    ensures ChainLength(history, k) <= ChainLimit(limits) && RunLength(history, k) <= limits.maxIdenticalCalls
  {
    StreakGrowsByOne(history, k);
    StreakGrowsByOne(CallsOf(history), k);
  }

  lemma StreakGrowsByOne<T>(s: seq<T>, k: nat)
    requires 1 <= k <= |s|
    ensures Streak(s, k) <= Streak(s, k - 1) + 1
  {
  }

  // ---- what the guard shows and reports ----

  /** Call `k` and the one before it are the same, with the same real result. */
  predicate SameAsBefore(history: seq<Seen>, k: nat)
    requires 1 <= k <= |history|
  {
    && k >= 2 && history[k - 1].call == history[k - 2].call && history[k - 1].text == history[k - 2].text
    && history[k - 1].isError == history[k - 2].isError
  }

  /** A result is replaced by a note exactly when it repeats, and the note warns exactly when one more repeat would
      be one too many; otherwise it shows its real text. */
  lemma ShownMeans(limits: Limits, history: seq<Seen>, k: nat)
    requires 1 <= k <= |history|
    ensures var shown := Shown(limits, history, k);
      && (shown.Note? <==> SameAsBefore(history, k))
      && (shown.Note? ==> (shown.warned <==> shown.repeat == limits.notesBeforeStop))
      && (shown.Real? ==> shown.text == history[k - 1].text)
  {
    hide ChainLength;
  }

  /** There is an event exactly when the call repeats its result or a whole window of identical calls is full, and it
      stops the turn exactly when a window is full: `maxIdenticalCalls` identical calls, or `notesBeforeStop` + 2 with
      one and the same result. Its counters are the longest such stretches that end with the call. */
  lemma VerdictMeans(limits: Limits, history: seq<Seen>, k: nat, n: nat)
    requires Allowed(limits) && n <= k && 1 <= k <= |history|
    ensures var m, c := limits.maxIdenticalCalls, limits.notesBeforeStop + 2;
      var full := (m <= k && SameCalls(history, k - m, m)) || (c <= k && SameSeen(history, k - c, c));
      var verdict := Verdict(limits, history, k);
      && (verdict.Some? <==> SameAsBefore(history, k) || full)
      && (verdict.Some? ==>
            var meta := verdict.value;
            && meta.call == k && (meta.stop <==> full) && meta.firstCall == k - meta.sameResultRepeats
            && (Level(CallsOf(history), k - n, k) <==> n <= meta.identicalCalls)
            && (Level(history, k - n, k) <==> n <= meta.sameResultRepeats + 1))
  {
    StopIsWindow(limits, history, k);
    CountersMeasureHistory(history, k, n);
    hide ChainLength, RunLength, SameCalls, SameSeen, Level;
  }
}
