/** What a turn reports: the repeat guard over all batches of the turn, the reason a forced question gives, what is
    streamed of each reply, and the errors gathered on the way. */
module TurnReports {
  import opened Wrappers
  import opened Sequences
  import opened RepeatGuards
  import opened TurnModel
  import opened TurnRuns
  import Decimal
  import TurnTrace

  /** What a list of effects has reported: the questions asked and the last reply, whether its batch was left without
      results, the reason of a forced question, whether the guard watches, the calls it has seen and how many of those
      are new since its last event, the errors gathered, whether errors were told since the last question, and what of
      the last reply is still to be streamed. */
  datatype Watch = Watch(asked: nat, last: seq<ModelEvent>, unrun: bool, reason: Option<string>, guarded: bool,
                         log: seq<Seen>, unseen: nat, errors: seq<string>, told: bool, owed: seq<Output>)

  /** A turn begins with the errors of starting it and of its user input. */
  function Begun(env: Env): Watch {
    Watch(0, [], false, None, true, [], 0, env.busErrors(0) + if env.userInput == [] then [] else env.busErrors(1),
          false, [])
  }

  // ---- the real results of a batch ----

  function CallOf(b: Block): Call {
    if b.ToolUse? then b.call else Call("", "")
  }

  function Bad(uses: seq<Block>): seq<Block> {
    Collect(uses, TurnTrace.IfMalformed)
  }

  function Good(uses: seq<Block>): seq<Block> {
    Collect(uses, TurnTrace.IfWellFormed)
  }

  /** The `i`-th result of the batch of the `n`-th reply, before the guard sees it: refusals come first. */
  function RealOf(env: Env, n: nat, uses: seq<Block>, i: nat): (string, bool)
    requires i < |Bad(uses)| + |Good(uses)|
  {
    if i < |Bad(uses)| then (env.malformedText(CallOf(Bad(uses)[i])), true)
    else
      var j := i - |Bad(uses)|;
      var outcome := env.tool(n, j, CallOf(Good(uses)[j]));
      (outcome.text, outcome.isError)
  }

  /** What the guard sees of a batch: the calls that ran, with the results at the same positions. */
  function Observed(env: Env, n: nat, uses: seq<Block>): (seen: seq<Seen>)
    ensures |seen| == |Good(uses)|
  {
    seq(|Good(uses)|, i requires 0 <= i < |Good(uses)| =>
      Seen(CallOf(Good(uses)[i]), RealOf(env, n, uses, i).0, RealOf(env, n, uses, i).1))
  }

  /** The number of the last reply. */
  function Batch(w: Watch): nat {
    if w.asked == 0 then 0 else w.asked - 1
  }

  /** The guard's history once it has seen the last batch. */
  function Grown(env: Env, w: Watch): seq<Seen> {
    w.log + Observed(env, Batch(w), ToolBlocks(w.last))
  }

  // ---- what is reported ----

  /** Why a forced question is asked: the limit, or the identical calls at the end of the guard's history. */
  function Reason(env: Env, w: Watch): string {
    if w.unrun then "you reached the tool-call limit of " + Decimal.Numeral(env.maxIterations) + " iterations"
    else
      var times := RunLength(w.log, |w.log|);
      "you repeated call " + Decimal.Numeral(|w.log| + 1 - times) + " " + Decimal.Numeral(times) + " times"
  }

  /** The reply was no text, or it called tools where none were offered. */
  predicate NoText(events: seq<ModelEvent>) {
    ToolBlocks(events) != [] || Blank(TextOf(events))
  }

  /** What the answer to a question is: the reply's text, and the fallback for a forced question that got none. */
  function AnswerText(env: Env, reason: Option<string>, events: seq<ModelEvent>): string {
    if reason.Some? && NoText(events) then env.fallback(reason.value) else TextOf(events)
  }

  /** What is to be streamed of a reply: its texts and usage, piece by piece; of a forced question its answer. */
  function Owed(env: Env, reason: Option<string>, events: seq<ModelEvent>): seq<Output> {
    if reason.None? then Collect(events, TurnTrace.OutputIn)
    else if AnswerText(env, reason, events) == "" then []
    else [TextOut(AnswerText(env, reason, events))]
  }

  function Asking(env: Env, w: Watch, reason: Option<string>, reply: Reply): Watch {
    var events := if reply.Reply? then reply.events else [];
    w.(asked := w.asked + 1, last := events, unrun := false, reason := reason, told := false,
       owed := Owed(env, reason, events))
  }

  function Noticed(env: Env, w: Watch, e: Effect): Watch {
    match e
    case Asked(_, forced, reply) => Asking(env, w, if forced then Some(Reason(env, w)) else None, reply)
    case Queued(iteration, _, _) =>
      if iteration >= env.maxIterations then w.(unrun := true)
      else if env.guard.Some? && w.guarded then w.(log := Grown(env, w), unseen := |Grown(env, w)| - |w.log|)
      else w
    case Sent(output) =>
      (match output
       case TextOut(_) => if w.owed != [] && output == w.owed[0] then w.(owed := w.owed[1..]) else w
       case UsageOut(_) => if w.owed != [] && output == w.owed[0] then w.(owed := w.owed[1..]) else w
       case RetryOut(_) => w.(guarded := false, owed := [])
       case GuardOut(_, _) => w.(unseen := 0)
       case CompleteOut(iteration) =>
         w.(guarded := true, unseen := 0, errors := w.errors + env.busErrors(iteration + 2))
       case ErrorsOut(_) => w.(told := true)
       case _ => w)
    case _ => w
  }

  function WatchAfter(env: Env, w: Watch, effects: seq<Effect>): Watch {
    if effects == [] then w else Noticed(env, WatchAfter(env, w, effects[..|effects| - 1]), effects[|effects| - 1])
  }

  /** Each result is the real one; of a batch that the guard watches, the first ones as the guard shows them. */
  predicate Results(env: Env, w: Watch, results: seq<Block>) {
    var n, uses := Batch(w), ToolBlocks(w.last);
    && |results| == |Bad(uses)| + |Good(uses)|
    && forall i :: 0 <= i < |results| ==>
         && results[i].ToolResult? && results[i].isError == RealOf(env, n, uses, i).1
         && results[i].content ==
              if env.guard.Some? && w.guarded && i < |Good(uses)|
              then Shown(env.guard.value, Grown(env, w), |w.log| + i + 1)
              else Real(RealOf(env, n, uses, i).0)
  }

  /** The guard's last verdict on the calls from the `from`-th on. */
  ghost predicate LastVerdict(limits: Limits, log: seq<Seen>, from: int, event: Option<Meta>) {
    if event.None? then forall k :: 1 <= k <= |log| && from < k ==> Verdict(limits, log, k).None?
    else
      exists k :: 1 <= k <= |log| && from < k && Verdict(limits, log, k) == event
                  && forall j :: k < j <= |log| ==> Verdict(limits, log, j).None?
  }

  ghost predicate Due(env: Env, w: Watch, event: Option<Meta>) {
    env.guard.Some? && LastVerdict(env.guard.value, w.log, |w.log| - w.unseen, event)
  }

  /** The guard has nothing to report that it has not reported. */
  ghost predicate Quiet(env: Env, w: Watch) {
    env.guard.Some? ==> Due(env, w, None)
  }

  /** What may come before the turn: the error of the work the turn before deferred. */
  function Deferred(env: Env): seq<string> {
    if env.deferredError.Some? then [env.deferredError.value] else []
  }

  /** That error is told. */
  predicate DeferredTold(env: Env, w: Watch) {
    w.asked == 0 && env.deferredError.Some? ==> w.told
  }

  /** The answer is blank, so that the placeholder may stand for it. */
  predicate BlankAnswer(env: Env, w: Watch) {
    (w.reason.Some? || ToolBlocks(w.last) == []) && Blank(AnswerText(env, w.reason, w.last))
  }

  /** What is finalized is the answer, or the placeholder for a blank one. */
  predicate Concludes(env: Env, w: Watch, content: seq<Block>) {
    || content == [Text(AnswerText(env, w.reason, w.last))]
    || (BlankAnswer(env, w) && content == [Text(PLACEHOLDER)])
  }

  /** Everything of the reply is streamed. */
  predicate Streamed(env: Env, w: Watch) {
    w.owed == [] || BlankAnswer(env, w)
  }

  ghost predicate Reports(env: Env, w: Watch, e: Effect) {
    match e
    case Asked(request, forced, _) =>
      && Quiet(env, w) && DeferredTold(env, w) && (w.owed == [] || w.unrun)
      && (forced ==> TurnTrace.Last(request.messages) == Message(User, [Text(env.instruction(Reason(env, w)))]))
    case Queued(iteration, _, results) => iteration < env.maxIterations ==> Results(env, w, results)
    case Archived(payload) => payload.Said? && payload.message.role == User ==> DeferredTold(env, w)
    case Finalized(content) => Quiet(env, w) && Concludes(env, w, content)
    case Sent(output) =>
      (match output
       case GuardOut(_, meta) => Due(env, w, Some(meta))
       case CompleteOut(_) => Quiet(env, w) && w.owed == []
       case ErrorsOut(errors) => errors != [] && !w.told && errors == if w.asked == 0 then Deferred(env) else w.errors
       case EndOut => (w.errors != [] ==> w.told) && Streamed(env, w)
       case TextOut(text) => (w.owed != [] && output == w.owed[0]) || (BlankAnswer(env, w) && text == PLACEHOLDER)
       case UsageOut(_) => w.owed != [] && output == w.owed[0]
       case _ => true)
    case _ => true
  }

  // ---- lists of effects ----

  ghost predicate AllReport(env: Env, w: Watch, effects: seq<Effect>) {
    forall i :: 0 <= i < |effects| ==> Reports(env, WatchAfter(env, w, effects[..i]), effects[i])
  }

  /** The effects are reported and lead to `w'`. */
  ghost predicate Leads(env: Env, w: Watch, effects: seq<Effect>, w': Watch) {
    AllReport(env, w, effects) && WatchAfter(env, w, effects) == w'
  }

  lemma {:induction false} WatchAppend(env: Env, w: Watch, a: seq<Effect>, b: seq<Effect>)
    ensures WatchAfter(env, w, a + b) == WatchAfter(env, WatchAfter(env, w, a), b)
  {
    if b == [] {
      assert a + b == a;
    } else {
      var n := |b| - 1;
      assert (a + b)[..|a + b| - 1] == a + b[..n];
      WatchAppend(env, w, a, b[..n]);
      hide Noticed;
    }
  }

  lemma LeadsOn(env: Env, w: Watch, a: seq<Effect>, w': Watch, b: seq<Effect>, w'': Watch)
    requires Leads(env, w, a, w') && Leads(env, w', b, w'')
    ensures Leads(env, w, a + b, w'')
  {
    WatchAppend(env, w, a, b);
    hide Reports, Noticed, WatchAfter;
    forall i | 0 <= i < |a + b|
      ensures Reports(env, WatchAfter(env, w, (a + b)[..i]), (a + b)[i])
    {
      if i < |a| {
        assert (a + b)[..i] == a[..i];
      } else {
        assert (a + b)[..i] == a + b[..i - |a|];
        WatchAppend(env, w, a, b[..i - |a|]);
      }
    }
  }

  lemma LeadsOne(env: Env, w: Watch, e: Effect)
    requires Reports(env, w, e)
    ensures Leads(env, w, [e], Noticed(env, w, e))
  {
    hide Reports, Noticed;
    assert [e][..0] == [];
    assert WatchAfter(env, w, []) == w;
  }

  lemma LeadsNowhere(env: Env, w: Watch)
    ensures Leads(env, w, [], w)
  {
  }

  /** Effects of which nothing is asked here: archived entries of the model, calls and results. */
  predicate Aside(e: Effect) {
    || e.Ran? || (e.Archived? && (e.payload.Said? ==> e.payload.message.role != User))
    || (e.Sent? && (e.output.ToolUsesOut? || e.output.ToolResultsOut? || e.output.FinalAnswerOut?))
  }

  predicate AllAside(effects: seq<Effect>) {
    forall i :: 0 <= i < |effects| ==> Aside(effects[i])
  }

  lemma {:induction false} AsideLeads(env: Env, w: Watch, effects: seq<Effect>)
    requires AllAside(effects)
    ensures Leads(env, w, effects, w)
  {
    if effects == [] {
      LeadsNowhere(env, w);
    } else {
      var before, last := effects[..|effects| - 1], effects[|effects| - 1];
      AsideLeads(env, w, before);
      AsideReports(env, w, last);
      LeadsOne(env, w, last);
      hide Leads;
      LeadsOn(env, w, before, w, [last], w);
      assert effects == before + [last];
    }
  }

  lemma AsideReports(env: Env, w: Watch, e: Effect)
    requires Aside(e)
    ensures Reports(env, w, e) && Noticed(env, w, e) == w
  {
  }

  // ---- the guard's walk over a batch ----

  /** A later call does not change what was shown and found before. */
  lemma VerdictStays(limits: Limits, log: seq<Seen>, more: seq<Seen>, k: nat)
    requires 1 <= k <= |log|
    ensures Verdict(limits, log + more, k) == Verdict(limits, log, k)
    ensures Shown(limits, log + more, k) == Shown(limits, log, k)
  {
    StreakOfPrefix(log + more, log, k);
    StreakOfPrefix(CallsOf(log + more), CallsOf(log), k);
  }

  function SeenOf(valid: seq<Block>, results: seq<Block>, k: nat): (seen: seq<Seen>)
    requires k <= |valid| && k <= |results| && AllUses(valid) && AllReal(results)
    ensures |seen| == k
  {
    seq(k, i requires 0 <= i < k => Seen(valid[i].call, results[i].content.text, results[i].isError))
  }

  /** The walk adds each call with the real result at its place, shows what the guard makes of it, and keeps the
      last verdict. */
  ghost predicate Walked(limits: Limits, log: seq<Seen>, seen: seq<Seen>, results: seq<Block>, w: Walk) {
    && w.log == log + seen && |seen| <= |results| == |w.results|
    && (forall i :: 0 <= i < |seen| ==>
          w.results[i].ToolResult? && w.results[i].content == Shown(limits, w.log, |log| + i + 1))
    && (forall i :: |seen| <= i < |results| ==> w.results[i] == results[i])
    && LastVerdict(limits, w.log, |log|, w.event)
  }

  lemma WalkBegins(limits: Limits, log: seq<Seen>, results: seq<Block>)
    ensures Walked(limits, log, [], results, Walk(log, results, None))
  {
    hide Verdict, Shown;
  }

  lemma VerdictComes(limits: Limits, log: seq<Seen>, from: nat, seen: Seen, event: Option<Meta>)
    requires from <= |log| && LastVerdict(limits, log, from, event)
    ensures var after := log + [seen]; var verdict := Verdict(limits, after, |after|);
      LastVerdict(limits, after, from, if verdict.Some? then verdict else event)
  {
    hide Verdict;
    var after := log + [seen];
    var verdict := Verdict(limits, after, |after|);
    forall k: int | 1 <= k <= |log|
      ensures Verdict(limits, after, k) == Verdict(limits, log, k)
    {
      VerdictStays(limits, log, [seen], k);
    }
    if verdict.None? && event.Some? {
      var k :| 1 <= k <= |log| && from < k && Verdict(limits, log, k) == event
               && forall j :: k < j <= |log| ==> Verdict(limits, log, j).None?;
      assert Verdict(limits, after, k) == event;
    }
  }

  /** One step of the walk, field by field. */
  lemma StepIs(limits: Limits, w: Walk, use: Block, i: nat)
    requires i < |w.results| && use.ToolUse? && w.results[i].ToolResult? && w.results[i].content.Real?
    ensures var r := w.results[i];
      var log := w.log + [Seen(use.call, r.content.text, r.isError)];
      var w' := GuardStep(limits, w, use, i);
      && w'.log == log && |w'.results| == |w.results|
      && w'.results[i].ToolResult? && w'.results[i].content == Shown(limits, log, |log|)
      && (forall j :: 0 <= j < |w.results| && j != i ==> w'.results[j] == w.results[j])
      && w'.event == if Verdict(limits, log, |log|).Some? then Verdict(limits, log, |log|) else w.event
  {
    hide Verdict, Shown;
  }

  lemma WalkGoesOn(limits: Limits, log: seq<Seen>, seen: seq<Seen>, results: seq<Block>, w: Walk, use: Block)
    requires Walked(limits, log, seen, results, w) && |seen| < |results| && use.ToolUse?
    requires results[|seen|].ToolResult? && results[|seen|].content.Real?
    requires w.results[|seen|] == results[|seen|]
    ensures var r := results[|seen|];
      Walked(limits, log, seen + [Seen(use.call, r.content.text, r.isError)], results,
             GuardStep(limits, w, use, |seen|))
  {
    hide LastVerdict, Verdict, Shown, GuardStep;
    var n, r := |seen|, results[|seen|];
    var next := Seen(use.call, r.content.text, r.isError);
    StepIs(limits, w, use, n);
    VerdictComes(limits, w.log, |log|, next, w.event);
    ShownStays(limits, w.log, next);
    var w' := GuardStep(limits, w, use, n);
    assert w'.log == log + (seen + [next]);
  }

  lemma ShownStays(limits: Limits, log: seq<Seen>, next: Seen)
    ensures forall k: int :: 1 <= k <= |log| ==> Shown(limits, log + [next], k) == Shown(limits, log, k)
  {
    hide Verdict, Shown;
    forall k: int | 1 <= k <= |log|
      ensures Shown(limits, log + [next], k) == Shown(limits, log, k)
    {
      VerdictStays(limits, log, [next], k);
    }
  }

  lemma {:induction false} WalkSays(limits: Limits, log: seq<Seen>, valid: seq<Block>, results: seq<Block>, k: nat)
    requires k <= |valid| && k <= |results| && AllUses(valid) && AllReal(results)
    ensures Walked(limits, log, SeenOf(valid, results, k), results, GuardWalk(limits, log, valid, results, k))
    decreases k
  {
    hide *;
    if k == 0 {
      WalkBegins(limits, log, results);
      NothingSeen(limits, log, valid, results);
    } else {
      TurnTrace.WalkUnfolds(limits, log, valid, results, k);
      WalkSays(limits, log, valid, results, k - 1);
      OneMoreSeen(valid, results, k);
      WalkGoesOn(limits, log, SeenOf(valid, results, k - 1), results, GuardWalk(limits, log, valid, results, k - 1),
                 valid[k - 1]);
    }
  }

  lemma NothingSeen(limits: Limits, log: seq<Seen>, valid: seq<Block>, results: seq<Block>)
    requires AllUses(valid) && AllReal(results)
    ensures SeenOf(valid, results, 0) == [] && GuardWalk(limits, log, valid, results, 0) == Walk(log, results, None)
  {
  }

  lemma OneMoreSeen(valid: seq<Block>, results: seq<Block>, k: nat)
    requires 0 < k <= |valid| && k <= |results| && AllUses(valid) && AllReal(results)
    ensures valid[k - 1].ToolUse? && results[k - 1].ToolResult? && results[k - 1].content.Real?
    ensures var r := results[k - 1];
      SeenOf(valid, results, k) ==
        SeenOf(valid, results, k - 1) + [Seen(valid[k - 1].call, r.content.text, r.isError)]
  {
  }

  // ---- one batch ----

  lemma BatchIsReal(env: Env, n: nat, uses: seq<Block>)
    requires AllUses(uses)
    ensures Valid(uses) == Good(uses)
    ensures var results := MalformedResults(env, uses) + ExecutedResults(env, n, Valid(uses));
      && |results| == |Bad(uses)| + |Good(uses)| && AllReal(results)
      && (forall i :: 0 <= i < |results| ==>
            results[i].content == Real(RealOf(env, n, uses, i).0) && results[i].isError == RealOf(env, n, uses, i).1)
      && SeenOf(Valid(uses), results, |Valid(uses)|) == Observed(env, n, uses)
  {
    TurnTrace.BatchSplits(env, uses);
    hide MalformedResults, Valid;
    var results := MalformedResults(env, uses) + ExecutedResults(env, n, Valid(uses));
    forall i | 0 <= i < |results|
      ensures results[i].content == Real(RealOf(env, n, uses, i).0)
      ensures results[i].isError == RealOf(env, n, uses, i).1
    {
    }
    assert SeenOf(Valid(uses), results, |Valid(uses)|) == Observed(env, n, uses);
  }

  /** The batch of the last reply was run: its results are as they should be, and so is what the guard has seen. */
  ghost predicate BatchRun(env: Env, w: Watch, it: Iteration, log: seq<Seen>) {
    && Results(env, w, it.results)
    && if env.guard.Some? && w.guarded
       then log == Grown(env, w) && LastVerdict(env.guard.value, log, |w.log|, it.guardEvent)
       else log == w.log && it.guardEvent.None?
  }

  /** The guard an attempt runs under. */
  function GuardOf(env: Env, w: Watch): Option<Limits> {
    if w.guarded then env.guard else None
  }

  lemma IterationRuns(env: Env, w: Watch, n: nat, events: seq<ModelEvent>)
    requires w.asked == n + 1 && w.last == events
    ensures var (it, log) := ToolIteration(env, n, w.log, GuardOf(env, w), events); BatchRun(env, w, it, log)
  {
    hide *;
    var uses, guard := ToolBlocks(events), GuardOf(env, w);
    CallsAre(events);
    BatchIsReal(env, n, uses);
    var results := MalformedResults(env, uses) + ExecutedResults(env, n, Valid(uses));
    IterationIs(env, n, w.log, guard, events);
    LastBatch(w, n);
    if guard.Some? {
      GuardIs(env, w);
      WalkSays(guard.value, w.log, Valid(uses), results, |Valid(uses)|);
      WalkedBatch(env, w, results, GuardWalk(guard.value, w.log, Valid(uses), results, |Valid(uses)|));
      GuardedRun(env, w, ToolIteration(env, n, w.log, guard, events).0, ToolIteration(env, n, w.log, guard, events).1);
    } else {
      UnguardedRun(env, w, ToolIteration(env, n, w.log, guard, events).0);
    }
  }

  lemma LastBatch(w: Watch, n: nat)
    requires w.asked == n + 1
    ensures Batch(w) == n
  {
  }

  lemma GuardIs(env: Env, w: Watch)
    requires GuardOf(env, w).Some?
    ensures env.guard == GuardOf(env, w) && w.guarded
  {
  }

  lemma GuardedRun(env: Env, w: Watch, it: Iteration, log: seq<Seen>)
    requires env.guard.Some? && w.guarded && Results(env, w, it.results)
    requires log == Grown(env, w) && LastVerdict(env.guard.value, log, |w.log|, it.guardEvent)
    ensures BatchRun(env, w, it, log)
  {
    hide Results, Grown, LastVerdict;
  }

  lemma UnguardedRun(env: Env, w: Watch, it: Iteration)
    requires GuardOf(env, w).None? && it.guardEvent.None? && AllReal(it.results)
    requires var n, uses := Batch(w), ToolBlocks(w.last);
      && |it.results| == |Bad(uses)| + |Good(uses)|
      && forall i :: 0 <= i < |it.results| ==>
           && it.results[i].content == Real(RealOf(env, n, uses, i).0)
           && it.results[i].isError == RealOf(env, n, uses, i).1
    ensures BatchRun(env, w, it, w.log)
  {
    hide Bad, Good, RealOf, Grown, LastVerdict;
  }

  lemma IterationIs(env: Env, n: nat, log: seq<Seen>, guard: Option<Limits>, events: seq<ModelEvent>)
    ensures var uses := ToolBlocks(events);
      var results := MalformedResults(env, uses) + ExecutedResults(env, n, Valid(uses));
      var (it, log') := ToolIteration(env, n, log, guard, events);
      && |Valid(uses)| <= |results| && AllReal(results)
      && (forall i :: 0 <= i < |results| ==> results[i].ToolResult?)
      && if guard.None? then it.results == results && log' == log && it.guardEvent.None?
         else
           var w := GuardWalk(guard.value, log, Valid(uses), results, |Valid(uses)|);
           && it.results == w.results && log' == w.log && it.guardEvent == w.event
           && |w.results| == |results|
           && forall i :: 0 <= i < |results| ==> w.results[i].ToolResult? && w.results[i].isError == results[i].isError
  {
    hide MalformedResults, Valid, GuardWalk, AssistantContent;
  }

  lemma WalkedBatch(env: Env, w: Watch, results: seq<Block>, walk: Walk)
    requires env.guard.Some? && w.guarded
    requires var n, uses := Batch(w), ToolBlocks(w.last);
      && |results| == |Bad(uses)| + |Good(uses)| && AllReal(results) && |results| == |walk.results|
      && (forall i :: 0 <= i < |results| ==>
            results[i].content == Real(RealOf(env, n, uses, i).0) && results[i].isError == RealOf(env, n, uses, i).1)
      && Walked(env.guard.value, w.log, Observed(env, n, uses), results, walk)
    requires forall i :: 0 <= i < |results| ==>
      results[i].ToolResult? && walk.results[i].ToolResult? && walk.results[i].isError == results[i].isError
    ensures Results(env, w, walk.results) && walk.log == Grown(env, w)
    ensures LastVerdict(env.guard.value, walk.log, |w.log|, walk.event)
  {
    hide Shown, LastVerdict, RealOf, Bad, Good;
  }

  // ---- one attempt ----

  /** The turn stands before its next question, or after an answer. */
  predicate At(env: Env, w: Watch, n: nat, log: seq<Seen>, errors: seq<string>) {
    w.asked == n && w.log == log && w.errors == errors && w.unseen == 0 && !w.unrun && DeferredTold(env, w)
  }

  /** An attempt has its answer: the reply's text, or the fallback for the reason given. */
  predicate Answered(env: Env, w: Watch, it: Iteration) {
    && !w.told && w.asked > 0 && (it.forced.Some? <==> w.reason.Some?)
    && (it.forced.Some? ==> it.assistant == [Text(it.text)]) && it.text == AnswerText(env, w.reason, w.last)
    && (w.reason.None? ==> ToolBlocks(w.last) == [])
  }

  /** What is to be streamed of an attempt. */
  predicate Owes(w: Watch, it: Iteration) {
    w.owed == if it.forced.Some? then TextOuts(it.text) else it.forwarded
  }

  lemma NothingDue(env: Env, w: Watch)
    requires w.unseen == 0
    ensures Quiet(env, w)
  {
  }

  lemma AskLeads(env: Env, w: Watch, request: Request, forced: bool, reply: Reply)
    requires w.unseen == 0 && DeferredTold(env, w) && (w.owed == [] || w.unrun)
    requires forced ==> TurnTrace.Last(request.messages) == Message(User, [Text(env.instruction(Reason(env, w)))])
    ensures Leads(env, w, [Asked(request, forced, reply)], Noticed(env, w, Asked(request, forced, reply)))
  {
    NothingDue(env, w);
    hide Quiet, Reason;
    LeadsOne(env, w, Asked(request, forced, reply));
  }

  lemma ForcedLeads(env: Env, w: Watch, n: nat, request: Request, assistant: seq<Block>, results: seq<Block>,
                    reason: Reason, log: seq<Seen>)
    requires w.unseen == 0 && w.asked == n && w.asked > 0 && (w.owed == [] || w.unrun)
    ensures var a := ForcedAnswer(env, n, request, assistant, results, reason, Reason(env, w), log);
      exists w' ::
        && Leads(env, w, a.effects, w')
        && w' == w.(asked := n + 1, last := w'.last, unrun := false, reason := Some(Reason(env, w)), told := false,
                    owed := w'.owed)
        && (a.Attempted? ==> Answered(env, w', a.iteration) && Owes(w', a.iteration))
  {
    var forced := ForcedRequest(env, request, assistant, results, Reason(env, w));
    var e := Asked(forced, true, env.model(n, forced));
    var a := ForcedAnswer(env, n, request, assistant, results, reason, Reason(env, w), log);
    hide Reason, Leads;
    AskLeads(env, w, forced, true, env.model(n, forced));
    assert a.effects == [e];
    assert a.Attempted? ==> Answered(env, Noticed(env, w, e), a.iteration) && Owes(Noticed(env, w, e), a.iteration);
  }

  /** After an attempt: a batch that was run, or an answer. */
  ghost predicate Tried(env: Env, w: Watch, w': Watch, log: seq<Seen>, errors: seq<string>, a: Attempt) {
    && Leads(env, w, a.effects, w')
    && (a.Attempted? ==>
          && At(env, w', a.calls, log, errors) && w'.guarded == w.guarded && TurnTrace.Forwards(a.iteration)
          && Owes(w', a.iteration)
          && (a.iteration.hadTools ==> !w'.told && w'.asked > 0 && BatchRun(env, w', a.iteration, a.log))
          && (!a.iteration.hadTools ==> a.log == log && Answered(env, w', a.iteration)))
  }

  lemma AttemptLeads(env: Env, w: Watch, n: nat, request: Request, iteration: nat, log: seq<Seen>,
                     errors: seq<string>)
    requires At(env, w, n, log, errors) && w.owed == []
    ensures exists w' :: Tried(env, w, w', log, errors, RunIteration(env, n, request, iteration, log, GuardOf(env, w)))
  {
    var reply := env.model(n, request);
    var asked := Asked(request, false, reply);
    var w1 := Noticed(env, w, asked);
    AskLeads(env, w, request, false, reply);
    if reply.Unavailable? || ToolBlocks(reply.events) == [] {
      PlainTried(env, w, n, request, iteration, log, errors);
    } else if iteration >= env.maxIterations {
      if env.finalAnswer {
        LimitTried(env, w, n, request, iteration, log, errors);
      } else {
        PlainTried(env, w, n, request, iteration, log, errors);
      }
    } else if env.hasExecutor {
      ToolsTried(env, w, n, request, iteration, log, errors);
    } else {
      PlainTried(env, w, n, request, iteration, log, errors);
    }
  }

  /** Only the question was asked: the answer is a text, or the turn breaks. */
  lemma PlainTried(env: Env, w: Watch, n: nat, request: Request, iteration: nat, log: seq<Seen>, errors: seq<string>)
    requires At(env, w, n, log, errors) && w.owed == []
    requires var reply := env.model(n, request);
      || reply.Unavailable? || ToolBlocks(reply.events) == []
      || (if iteration >= env.maxIterations then !env.finalAnswer else !env.hasExecutor)
    ensures exists w' :: Tried(env, w, w', log, errors, RunIteration(env, n, request, iteration, log, GuardOf(env, w)))
  {
    var reply := env.model(n, request);
    var asked := Asked(request, false, reply);
    AskLeads(env, w, request, false, reply);
    if reply.Reply? {
      TurnTrace.ForwardedIsPlain(reply.events);
      TurnTrace.ReadInOrder(reply.events);
    }
    hide Leads, Reason, BatchRun, ToolIteration, ForcedAnswer, AssistantContent;
    assert Tried(env, w, Noticed(env, w, asked), log, errors,
                 RunIteration(env, n, request, iteration, log, GuardOf(env, w)));
  }

  lemma LimitTried(env: Env, w: Watch, n: nat, request: Request, iteration: nat, log: seq<Seen>, errors: seq<string>)
    requires At(env, w, n, log, errors) && w.owed == [] && iteration >= env.maxIterations && env.finalAnswer
    requires var reply := env.model(n, request); reply.Reply? && ToolBlocks(reply.events) != []
    ensures exists w' :: Tried(env, w, w', log, errors, RunIteration(env, n, request, iteration, log, GuardOf(env, w)))
  {
    hide *;
    var reply := env.model(n, request);
    CallsAre(reply.events);
    var uses, results := ToolBlocks(reply.events), NotRunResults(env, ToolBlocks(reply.events));
    var asked, queued := Asked(request, false, reply), Queued(iteration, uses, results);
    var assistant := AssistantContent(env, reply.events);
    AtMeans(env, w, n, log, errors);
    AskLeads(env, w, request, false, reply);
    var w1 := Noticed(env, w, asked);
    AskedIs(env, w, request, reply);
    UnrunLeads(env, w1, queued);
    var w2 := w1.(unrun := true);
    LeadsOn(env, w, [asked], w1, [queued], w2);
    LimitIs(env, w2);
    ForcedLeads(env, w2, n + 1, request, assistant, results, Limit, log);
    TurnTrace.LimitAttemptIs(env, n, request, iteration, log, GuardOf(env, w));
    var forced := ForcedAnswer(env, n + 1, request, assistant, results, Limit, LimitReason(env.maxIterations), log);
    var w3 :|
      && Leads(env, w2, forced.effects, w3)
      && w3 == w2.(asked := n + 2, last := w3.last, unrun := false, reason := Some(Reason(env, w2)), told := false,
                   owed := w3.owed)
      && (forced.Attempted? ==> Answered(env, w3, forced.iteration) && Owes(w3, forced.iteration));
    LeadsOn(env, w, [asked] + [queued], w2, forced.effects, w3);
    ForcedForwards(env, n + 1, request, assistant, results, Limit, LimitReason(env.maxIterations), log);
    LimitAttemptLog(env, n, request, iteration, log, GuardOf(env, w));
    AtAgain(env, w, w3, n, n + 2, log, errors);
    TriedAnswer(env, w, w3, log, errors, RunIteration(env, n, request, iteration, log, GuardOf(env, w)));
  }

  lemma CallsAre(events: seq<ModelEvent>)
    ensures AllUses(ToolBlocks(events))
  {
  }

  lemma TriedAnswer(env: Env, w: Watch, w': Watch, log: seq<Seen>, errors: seq<string>, a: Attempt)
    requires Leads(env, w, a.effects, w')
    requires a.Attempted? ==>
      && At(env, w', a.calls, log, errors) && w'.guarded == w.guarded && TurnTrace.Forwards(a.iteration)
      && !a.iteration.hadTools && a.log == log && Answered(env, w', a.iteration) && Owes(w', a.iteration)
    ensures Tried(env, w, w', log, errors, a)
  {
    hide Leads, At, Answered, Owes;
  }

  lemma AtMeans(env: Env, w: Watch, n: nat, log: seq<Seen>, errors: seq<string>)
    requires At(env, w, n, log, errors)
    ensures w.asked == n && w.log == log && w.errors == errors && w.unseen == 0 && !w.unrun && DeferredTold(env, w)
  {
  }

  lemma AtAgain(env: Env, w: Watch, w': Watch, n: nat, n': nat, log: seq<Seen>, errors: seq<string>)
    requires At(env, w, n, log, errors) && n' > 0
    requires w'.asked == n' && w'.log == w.log && w'.errors == w.errors && w'.unseen == w.unseen && !w'.unrun
    ensures At(env, w', n', log, errors)
  {
  }

  lemma AskedIs(env: Env, w: Watch, request: Request, reply: Reply)
    ensures Noticed(env, w, Asked(request, false, reply)) ==
      w.(asked := w.asked + 1, last := if reply.Reply? then reply.events else [], unrun := false, reason := None,
         told := false, owed := Forwarded(if reply.Reply? then reply.events else []))
  {
    TurnTrace.ReadInOrder(if reply.Reply? then reply.events else []);
  }

  lemma UnrunLeads(env: Env, w: Watch, e: Effect)
    requires e.Queued? && e.iteration >= env.maxIterations
    ensures Leads(env, w, [e], w.(unrun := true))
  {
    LeadsOne(env, w, e);
    hide Leads;
  }

  lemma LimitIs(env: Env, w: Watch)
    requires w.unrun
    ensures Reason(env, w) == LimitReason(env.maxIterations)
  {
  }

  lemma ForcedForwards(env: Env, n: nat, request: Request, assistant: seq<Block>, results: seq<Block>, reason: Reason,
                       reasonText: string, log: seq<Seen>)
    ensures var a := ForcedAnswer(env, n, request, assistant, results, reason, reasonText, log);
      a.Attempted? ==> TurnTrace.Forwards(a.iteration) && a.log == log && !a.iteration.hadTools
  {
  }

  lemma LimitAttemptLog(env: Env, n: nat, request: Request, iteration: nat, log: seq<Seen>, guard: Option<Limits>)
    requires iteration >= env.maxIterations && env.finalAnswer
    requires var reply := env.model(n, request); reply.Reply? && ToolBlocks(reply.events) != []
    ensures var a := RunIteration(env, n, request, iteration, log, guard); a.Attempted? ==> a.log == log
  {
    hide AssistantContent, NotRunResults;
  }

  lemma ToolsTried(env: Env, w: Watch, n: nat, request: Request, iteration: nat, log: seq<Seen>, errors: seq<string>)
    requires At(env, w, n, log, errors) && w.owed == [] && iteration < env.maxIterations && env.hasExecutor
    requires var reply := env.model(n, request); reply.Reply? && ToolBlocks(reply.events) != []
    ensures exists w' :: Tried(env, w, w', log, errors, RunIteration(env, n, request, iteration, log, GuardOf(env, w)))
  {
    hide *;
    var reply := env.model(n, request);
    var asked := Asked(request, false, reply);
    var a := RunIteration(env, n, request, iteration, log, GuardOf(env, w));
    var it := ToolIteration(env, n, log, GuardOf(env, w), reply.events).0;
    var ran := if it.valid != [] then [Ran(iteration, it.valid)] else [];
    AtMeans(env, w, n, log, errors);
    AskLeads(env, w, request, false, reply);
    AskedIs(env, w, request, reply);
    var w1 := Noticed(env, w, asked);
    RanIsAside(iteration, it.valid);
    AsideLeads(env, w1, ran);
    LeadsOn(env, w, [asked], w1, ran, w1);
    TurnTrace.ToolsAttemptIs(env, n, request, iteration, log, GuardOf(env, w));
    ToolsAttemptLog(env, n, request, iteration, log, GuardOf(env, w));
    SameGuard(env, w, w1);
    IterationRuns(env, w1, n, reply.events);
    TurnTrace.IterationForwards(env, n, log, GuardOf(env, w), reply.events);
    IterationOwes(env, w1, n, log, GuardOf(env, w), reply.events);
    AtAgain(env, w, w1, n, n + 1, log, errors);
    TriedTools(env, w, w1, log, errors, a);
  }

  lemma IterationOwes(env: Env, w: Watch, n: nat, log: seq<Seen>, guard: Option<Limits>, events: seq<ModelEvent>)
    requires w.owed == Forwarded(events)
    ensures Owes(w, ToolIteration(env, n, log, guard, events).0)
  {
  }

  lemma SameGuard(env: Env, w: Watch, w': Watch)
    requires w'.guarded == w.guarded
    ensures GuardOf(env, w') == GuardOf(env, w)
  {
  }

  lemma ToolsAttemptLog(env: Env, n: nat, request: Request, iteration: nat, log: seq<Seen>, guard: Option<Limits>)
    requires iteration < env.maxIterations && env.hasExecutor
    requires var reply := env.model(n, request); reply.Reply? && ToolBlocks(reply.events) != []
    ensures var a, reply := RunIteration(env, n, request, iteration, log, guard), env.model(n, request);
      a.Attempted? && a.log == ToolIteration(env, n, log, guard, reply.events).1
  {
    hide ToolIteration;
  }

  lemma RanIsAside(iteration: nat, valid: seq<Block>)
    ensures AllAside(if valid != [] then [Ran(iteration, valid)] else [])
  {
  }

  lemma TriedTools(env: Env, w: Watch, w': Watch, log: seq<Seen>, errors: seq<string>, a: Attempt)
    requires Leads(env, w, a.effects, w') && a.Attempted? && a.iteration.hadTools
    requires At(env, w', a.calls, log, errors) && w'.guarded == w.guarded && TurnTrace.Forwards(a.iteration)
    requires !w'.told && w'.asked > 0 && BatchRun(env, w', a.iteration, a.log) && Owes(w', a.iteration)
    ensures Tried(env, w, w', log, errors, a)
  {
    hide Leads, At, BatchRun, Owes;
  }

  // ---- how a turn ends ----

  /** The turn may end: all is reported but the errors. */
  predicate Ending(env: Env, w: Watch, errors: seq<string>) {
    w.unseen == 0 && w.asked > 0 && !w.told && w.errors == errors
  }

  lemma ErrorsLead(env: Env, w: Watch, errors: seq<string>)
    requires Ending(env, w, errors) && Streamed(env, w)
    ensures Leads(env, w, AfterAnswer(errors), w.(told := errors != []))
  {
    var end := [Sent(EndOut)];
    assert Streamed(env, w.(told := true));
    hide Streamed;
    if errors != [] {
      LeadsOne(env, w, Sent(ErrorsOut(errors)));
      LeadsOne(env, w.(told := true), Sent(EndOut));
      hide Leads, Reports;
      LeadsOn(env, w, [Sent(ErrorsOut(errors))], w.(told := true), end, w.(told := true));
    } else {
      LeadsOne(env, w, Sent(EndOut));
      assert AfterAnswer(errors) == end;
    }
  }

  // ---- streaming ----

  predicate Pieces(outputs: seq<Output>) {
    forall i :: 0 <= i < |outputs| ==> outputs[i].TextOut? || outputs[i].UsageOut?
  }

  /** What is owed is streamed piece by piece. */
  lemma {:induction false} StreamLeads(env: Env, w: Watch, outputs: seq<Output>)
    requires w.owed == outputs && Pieces(outputs)
    ensures Leads(env, w, Sends(outputs), w.(owed := []))
    decreases |outputs|
  {
    hide *;
    if outputs == [] {
      LeadsNowhere(env, w);
      NothingSent();
      assert w.(owed := []) == w;
    } else {
      var first, rest := outputs[0], outputs[1..];
      PiecesOf(outputs);
      PieceLeads(env, w);
      StreamLeads(env, w.(owed := rest), rest);
      LeadsOn(env, w, [Sent(first)], w.(owed := rest), Sends(rest), w.(owed := []));
      assert w.(owed := rest).(owed := []) == w.(owed := []);
    }
  }

  lemma NothingSent()
    ensures Sends([]) == []
  {
  }

  lemma PiecesOf(outputs: seq<Output>)
    requires outputs != [] && Pieces(outputs)
    ensures (outputs[0].TextOut? || outputs[0].UsageOut?) && Pieces(outputs[1..])
    ensures Sends(outputs) == [Sent(outputs[0])] + Sends(outputs[1..])
  {
  }

  lemma PieceLeads(env: Env, w: Watch)
    requires w.owed != [] && (w.owed[0].TextOut? || w.owed[0].UsageOut?)
    ensures Leads(env, w, [Sent(w.owed[0])], w.(owed := w.owed[1..]))
  {
    LeadsOne(env, w, Sent(w.owed[0]));
    hide Leads;
  }

  lemma SendsAppend(a: seq<Output>, b: seq<Output>)
    ensures Sends(a + b) == Sends(a) + Sends(b)
  {
  }

  /** Archive, finalize, stream, report the errors, end. */
  lemma ClosingLeads(env: Env, w: Watch, w1: Watch, text: string, content: seq<Block>, outputs: seq<Output>,
                     errors: seq<string>)
    requires w.unseen == 0 && Concludes(env, w, content) && Leads(env, w, Sends(outputs), w1)
    requires Ending(env, w1, errors) && Streamed(env, w1)
    ensures Leads(env, w, ArchivedText(text) + Closing(content, outputs, errors), w1.(told := errors != []))
  {
    hide *;
    var w2 := w1.(told := errors != []);
    TextIsAside(text);
    AsideLeads(env, w, ArchivedText(text));
    NothingDue(env, w);
    FinalizedLeads(env, w, content);
    ErrorsLead(env, w1, errors);
    LeadsOn(env, w, Sends(outputs), w1, AfterAnswer(errors), w2);
    LeadsOn(env, w, [Finalized(content)], w, Sends(outputs) + AfterAnswer(errors), w2);
    ClosingIs(content, outputs, errors);
    LeadsOn(env, w, ArchivedText(text), w, Closing(content, outputs, errors), w2);
  }

  lemma FinalizedLeads(env: Env, w: Watch, content: seq<Block>)
    requires Quiet(env, w) && Concludes(env, w, content)
    ensures Leads(env, w, [Finalized(content)], w)
  {
    hide Quiet, Concludes;
    LeadsOne(env, w, Finalized(content));
  }

  lemma ClosingIs(content: seq<Block>, outputs: seq<Output>, errors: seq<string>)
    ensures Closing(content, outputs, errors) == [Finalized(content)] + (Sends(outputs) + AfterAnswer(errors))
  {
  }

  lemma TextIsAside(text: string)
    ensures AllAside(ArchivedText(text))
  {
  }

  lemma ForcedFinishLeads(env: Env, w: Watch, it: Iteration, iteration: nat, errors: seq<string>)
    requires it.forced.Some? && Answered(env, w, it) && Ending(env, w, errors) && Owes(w, it)
    ensures Leads(env, w, FinishForced(it, iteration, errors), w.(owed := [], told := errors != []))
  {
    var final := [FinalAnswerOut(iteration, it.forced.value.reason, it.forced.value.fallbackUsed)];
    var w1 := w.(owed := []);
    assert Concludes(env, w, it.assistant);
    assert AllAside(Sends(final)) && Pieces(TextOuts(it.text));
    assert Ending(env, w1, errors) && Streamed(env, w1);
    hide Leads, Closing, ArchivedText, AllAside, Sends, Pieces, Concludes, Ending, Streamed, Answered;
    AsideLeads(env, w, Sends(final));
    StreamLeads(env, w, TextOuts(it.text));
    SendsAppend(final, TextOuts(it.text));
    LeadsOn(env, w, Sends(final), w, Sends(TextOuts(it.text)), w1);
    ClosingLeads(env, w, w1, it.text, it.assistant, final + TextOuts(it.text), errors);
  }

  lemma PlainFinishLeads(env: Env, w: Watch, it: Iteration, errors: seq<string>)
    requires it.forced.None? && Answered(env, w, it) && Ending(env, w, errors) && Owes(w, it)
    requires TurnTrace.Forwards(it) && it.text != ""
    ensures Leads(env, w, FinishPlain(it, errors), w.(owed := [], told := errors != []))
  {
    var w1 := w.(owed := []);
    assert Concludes(env, w, [Text(it.text)]);
    assert Pieces(it.forwarded);
    assert Ending(env, w1, errors) && Streamed(env, w1);
    hide Leads, Closing, ArchivedText, AllAside, Sends, Pieces, Concludes, Ending, Streamed, Answered;
    StreamLeads(env, w, it.forwarded);
    ClosingLeads(env, w, w1, it.text, [Text(it.text)], it.forwarded, errors);
  }

  lemma PlaceholderLeads(env: Env, w: Watch, it: Iteration, errors: seq<string>) returns (w': Watch)
    requires Empty(it) && Answered(env, w, it) && Ending(env, w, errors)
    ensures Leads(env, w, FinishPlaceholder(errors), w')
  {
    var e := Sent(TextOut(PLACEHOLDER));
    assert BlankAnswer(env, w);
    LeadsOne(env, w, e);
    var w1 := Noticed(env, w, e);
    BlankStreams(env, w, w1);
    assert Ending(env, w1, errors);
    assert Concludes(env, w, [Text(PLACEHOLDER)]);
    assert Sends([TextOut(PLACEHOLDER)]) == [e];
    hide Leads, Closing, ArchivedText, Ending, Sends, Concludes, Streamed, BlankAnswer, Noticed, Answered;
    ClosingLeads(env, w, w1, PLACEHOLDER, [Text(PLACEHOLDER)], [TextOut(PLACEHOLDER)], errors);
    w' := w1.(told := errors != []);
  }

  lemma BlankStreams(env: Env, w: Watch, w': Watch)
    requires BlankAnswer(env, w) && w'.reason == w.reason && w'.last == w.last
    ensures Streamed(env, w')
  {
    hide AnswerText;
  }

  // ---- an executed batch ----

  /** A batch is queued, archived and told, and the reply streamed; then the guard's last verdict on it is due. */
  lemma BatchLeads(env: Env, w: Watch, it: Iteration, iteration: nat, log: seq<Seen>)
    requires BatchRun(env, w, it, log) && TurnTrace.Forwards(it) && iteration < env.maxIterations && w.unseen == 0
    requires w.owed == it.forwarded
    ensures var w' := w.(log := log, unseen := if env.guard.Some? && w.guarded then |log| - |w.log| else 0, owed := []);
      && |w.log| <= |log| && Leads(env, w, ToolEffects(it, iteration), w')
      && (it.guardEvent.Some? ==> Due(env, w', it.guardEvent)) && (it.guardEvent.None? ==> Quiet(env, w'))
  {
    hide *;
    var queued := Queued(iteration, UsesIn(it.assistant), it.results);
    QueuedNotices(env, w, it, iteration, log);
    var w1 := w.(log := log, unseen := if env.guard.Some? && w.guarded then |log| - |w.log| else 0);
    LeadsOne(env, w, queued);
    ReportLeads(env, w1, it);
    LeadsOn(env, w, [queued], w1, ToolReport(it), w1.(owed := []));
    ToolEffectsAre(it, iteration);
    VerdictIsDue(env, w, w1.(owed := []), it, log);
  }

  lemma ToolEffectsAre(it: Iteration, iteration: nat)
    ensures ToolEffects(it, iteration) == [Queued(iteration, UsesIn(it.assistant), it.results)] + ToolReport(it)
  {
    hide ToolReport;
  }

  lemma VerdictIsDue(env: Env, w: Watch, w': Watch, it: Iteration, log: seq<Seen>)
    requires BatchRun(env, w, it, log) && |w.log| <= |log|
    requires w'.log == log && w'.unseen == if env.guard.Some? && w.guarded then |log| - |w.log| else 0
    ensures (it.guardEvent.Some? ==> Due(env, w', it.guardEvent)) && (it.guardEvent.None? ==> Quiet(env, w'))
  {
    hide LastVerdict, Results, Grown;
    if env.guard.Some? && !w.guarded {
      NothingDue(env, w');
    }
  }

  lemma ReportLeads(env: Env, w: Watch, it: Iteration)
    requires TurnTrace.Forwards(it) && w.owed == it.forwarded
    ensures Leads(env, w, ToolReport(it), w.(owed := []))
  {
    var text, tools := ArchivedText(it.text), ArchivedTools(it);
    var told := [ToolUsesOut(it.valid), ToolResultsOut(it.results)];
    var w1 := w.(owed := []);
    TextIsAside(it.text);
    assert AllAside(tools) && AllAside(Sends(told)) && Pieces(it.forwarded);
    hide Leads, AllAside, Pieces, ArchivedText, ArchivedTools, Sends;
    AsideLeads(env, w, text);
    AsideLeads(env, w, tools);
    StreamLeads(env, w, it.forwarded);
    AsideLeads(env, w1, Sends(told));
    LeadsOn(env, w, Sends(it.forwarded), w1, Sends(told), w1);
    SendsAppend(it.forwarded, told);
    LeadsOn(env, w, tools, w, Sends(ToolOutputs(it)), w1);
    LeadsOn(env, w, text, w, tools + Sends(ToolOutputs(it)), w1);
  }

  lemma QueuedNotices(env: Env, w: Watch, it: Iteration, iteration: nat, log: seq<Seen>)
    requires BatchRun(env, w, it, log) && iteration < env.maxIterations && w.unseen == 0
    ensures |w.log| <= |log| && Reports(env, w, Queued(iteration, UsesIn(it.assistant), it.results))
    ensures Noticed(env, w, Queued(iteration, UsesIn(it.assistant), it.results)) ==
      w.(log := log, unseen := if env.guard.Some? && w.guarded then |log| - |w.log| else 0)
  {
    hide Results, LastVerdict, Observed;
  }

  lemma BetweenLeads(env: Env, w: Watch, it: Iteration, iteration: nat)
    requires it.guardEvent.Some? ==> Due(env, w, it.guardEvent)
    requires (it.guardEvent.None? ==> Quiet(env, w)) && w.owed == []
    ensures Leads(env, w, Between(it, iteration),
                  w.(guarded := true, unseen := 0, errors := w.errors + env.busErrors(iteration + 2)))
  {
    hide Due;
    var complete := Sent(CompleteOut(iteration));
    if it.guardEvent.Some? {
      var noted := Sent(GuardOut(iteration, it.guardEvent.value));
      LeadsOne(env, w, noted);
      var w1 := w.(unseen := 0);
      NothingDue(env, w1);
      LeadsOne(env, w1, complete);
      hide Leads;
      LeadsOn(env, w, [noted], w1, [complete], Noticed(env, w1, complete));
    } else {
      LeadsOne(env, w, complete);
      assert Between(it, iteration) == [complete];
    }
  }

  // ---- one round, and the whole turn ----

  /** The effects are reported; the next round stands before its question, under the guard. */
  ghost predicate StepLeads(env: Env, w: Watch, step: Step) {
    exists w' ::
      && Leads(env, w, step.effects, w')
      && (step.More? ==> At(env, w', step.next.calls, step.next.log, step.next.errors) && w'.guarded && w'.owed == [])
  }

  lemma StepIsLed(env: Env, w: Watch, step: Step, w': Watch)
    requires Leads(env, w, step.effects, w')
    requires step.More? ==> At(env, w', step.next.calls, step.next.log, step.next.errors) && w'.guarded && w'.owed == []
    ensures StepLeads(env, w, step)
  {
    hide Leads, At;
  }

  lemma MoreLeads(env: Env, w: Watch, s: State, it: Iteration, log: seq<Seen>)
    requires At(env, w, s.calls, log, s.errors) && BatchRun(env, w, it, s.log) && TurnTrace.Forwards(it)
    requires w.asked > 0 && s.iteration < env.maxIterations && AfterTools(env, s, it).More? && w.owed == it.forwarded
    ensures StepLeads(env, w, AfterTools(env, s, it))
  {
    hide *;
    AtMeans(env, w, s.calls, log, s.errors);
    BatchLeads(env, w, it, s.iteration, s.log);
    var w1 := w.(log := s.log, unseen := if env.guard.Some? && w.guarded then |s.log| - |w.log| else 0,
                 owed := []);
    BetweenLeads(env, w1, it, s.iteration);
    var w2 := w1.(guarded := true, unseen := 0, errors := w1.errors + env.busErrors(s.iteration + 2));
    LeadsOn(env, w, ToolEffects(it, s.iteration), w1, Between(it, s.iteration), w2);
    MoreParts(env, s, it);
    MoreState(env, s, it);
    NowAt(env, w2, s.calls, s.log, s.errors + env.busErrors(s.iteration + 2));
    StepIsLed(env, w, AfterTools(env, s, it), w2);
  }

  lemma MoreState(env: Env, s: State, it: Iteration)
    requires AfterTools(env, s, it).More?
    ensures var next := AfterTools(env, s, it).next;
      next.calls == s.calls && next.log == s.log && next.errors == s.errors + env.busErrors(s.iteration + 2)
  {
    hide ToolEffects;
  }

  lemma NowAt(env: Env, w: Watch, n: nat, log: seq<Seen>, errors: seq<string>)
    requires w.asked == n > 0 && w.log == log && w.errors == errors && w.unseen == 0 && !w.unrun
    ensures At(env, w, n, log, errors)
  {
  }

  lemma StopLeads(env: Env, w: Watch, s: State, it: Iteration, log: seq<Seen>)
    requires At(env, w, s.calls, log, s.errors) && BatchRun(env, w, it, s.log) && TurnTrace.Forwards(it)
    requires w.asked > 0 && s.iteration < env.maxIterations && AfterTools(env, s, it).Ended? && w.owed == it.forwarded
    ensures StepLeads(env, w, AfterTools(env, s, it))
  {
    hide *;
    AtMeans(env, w, s.calls, log, s.errors);
    StopParts(env, s, it);
    TurnTrace.StopHasEvent(it);
    BatchLeads(env, w, it, s.iteration, s.log);
    var w1 := w.(log := s.log, unseen := if env.guard.Some? && w.guarded then |s.log| - |w.log| else 0,
                 owed := []);
    var tools, stop := ToolEffects(it, s.iteration), Sent(GuardOut(s.iteration, it.guardEvent.value));
    StopIsLed(env, w1, stop, it.guardEvent);
    var w2 := w1.(unseen := 0);
    LeadsOn(env, w, tools, w1, [stop], w2);
    RepeatIs(env, w2, s, it);
    ForcedLeads(env, w2, s.calls, s.request, it.assistant, it.results, Repeat, s.log);
    var a := StopAnswer(env, s, it);
    var w3 :|
      && Leads(env, w2, a.effects, w3)
      && w3 == w2.(asked := s.calls + 1, last := w3.last, unrun := false, reason := Some(Reason(env, w2)),
                   told := false, owed := w3.owed)
      && (a.Attempted? ==> Answered(env, w3, a.iteration) && Owes(w3, a.iteration));
    LeadsOn(env, w, tools + [stop], w2, a.effects, w3);
    if a.Attempted? {
      ForcedForwards(env, s.calls, s.request, it.assistant, it.results, Repeat, Reason(env, w2), s.log);
      StopForced(env, s, it);
      NowEnding(env, w3, s.errors);
      ForcedFinishLeads(env, w3, a.iteration, s.iteration, s.errors);
      var w4 := w3.(owed := [], told := s.errors != []);
      LeadsOn(env, w, tools + [stop] + a.effects, w3, FinishForced(a.iteration, s.iteration, s.errors), w4);
      StepIsLed(env, w, AfterTools(env, s, it), w4);
    } else {
      LeadsNowhere(env, w3);
      LeadsOn(env, w, tools + [stop] + a.effects, w3, [], w3);
      StepIsLed(env, w, AfterTools(env, s, it), w3);
    }
  }

  lemma StopIsLed(env: Env, w: Watch, stop: Effect, event: Option<Meta>)
    requires event.Some? && stop.Sent? && stop.output.GuardOut? && stop.output.meta == event.value
    requires Due(env, w, event)
    ensures Leads(env, w, [stop], w.(unseen := 0))
  {
    hide Due;
    LeadsOne(env, w, stop);
  }

  lemma RepeatIs(env: Env, w: Watch, s: State, it: Iteration)
    requires !w.unrun && w.log == s.log
    ensures StopAnswer(env, s, it) ==
      ForcedAnswer(env, s.calls, s.request, it.assistant, it.results, Repeat, Reason(env, w), s.log)
  {
    hide ForcedAnswer;
    var times := RunLength(s.log, |s.log|);
    assert |s.log| + 1 - times == |s.log| - times + 1;
  }

  lemma StopForced(env: Env, s: State, it: Iteration)
    ensures StopAnswer(env, s, it).Attempted? ==> StopAnswer(env, s, it).iteration.forced.Some?
  {
  }

  lemma NowEnding(env: Env, w: Watch, errors: seq<string>)
    requires w.unseen == 0 && w.asked > 0 && !w.told && w.errors == errors
    ensures Ending(env, w, errors)
  {
  }

  /** What the turn does with an attempt that is not empty. */
  lemma SettleLeads(env: Env, w: Watch, s: State, it: Iteration, log: seq<Seen>)
    requires At(env, w, s.calls, log, s.errors) && TurnTrace.Forwards(it) && w.asked > 0
    requires it.hadTools ==>
      BatchRun(env, w, it, s.log) && s.iteration < env.maxIterations && it.forced.None?
    requires !it.hadTools ==> Answered(env, w, it) && it.text != ""
    requires Owes(w, it)
    ensures StepLeads(env, w, Settle(env, s, it))
  {
    AtMeans(env, w, s.calls, log, s.errors);
    hide At, BatchRun, AfterTools, StepLeads, Answered, FinishForced, FinishPlain;
    if it.hadTools {
      if AfterTools(env, s, it).More? {
        MoreLeads(env, w, s, it, log);
      } else {
        StopLeads(env, w, s, it, log);
      }
    } else {
      AnswerNotTold(env, w, it);
      NowEnding(env, w, s.errors);
      if it.forced.Some? {
        ForcedFinishLeads(env, w, it, s.iteration, s.errors);
      } else {
        PlainFinishLeads(env, w, it, s.errors);
      }
      StepIsLed(env, w, Settle(env, s, it), w.(owed := [], told := s.errors != []));
    }
  }

  lemma AnswerNotTold(env: Env, w: Watch, it: Iteration)
    requires Answered(env, w, it)
    ensures !w.told && w.asked > 0
  {
  }

  lemma PrependLeads(env: Env, w: Watch, before: seq<Effect>, w': Watch, step: Step)
    requires Leads(env, w, before, w') && StepLeads(env, w', step)
    ensures StepLeads(env, w, Prepend(before, step))
  {
    hide Leads, At;
    var w'' :|
      && Leads(env, w', step.effects, w'')
      && (step.More? ==>
            At(env, w'', step.next.calls, step.next.log, step.next.errors) && w''.guarded && w''.owed == []);
    LeadsOn(env, w, before, w', step.effects, w'');
    StepIsLed(env, w, Prepend(before, step), w'');
  }

  lemma TriedMeans(env: Env, w: Watch, w': Watch, log: seq<Seen>, errors: seq<string>, a: Attempt)
    requires Tried(env, w, w', log, errors, a)
    ensures Leads(env, w, a.effects, w')
    ensures a.Attempted? ==>
      && At(env, w', a.calls, log, errors) && w'.guarded == w.guarded && TurnTrace.Forwards(a.iteration)
      && w'.asked > 0 && !w'.told && Owes(w', a.iteration)
      && (a.iteration.hadTools ==> BatchRun(env, w', a.iteration, a.log))
      && (!a.iteration.hadTools ==> a.log == log && Answered(env, w', a.iteration))
  {
    hide Leads, At, BatchRun, Owes;
  }

  /** What becomes of an attempt that is not retried. */
  lemma AttemptEnds(env: Env, w: Watch, w': Watch, s: State, a: Attempt, retryUsed: bool, request: Request, n: nat,
                    guard: Option<Limits>)
    requires Tried(env, w, w', s.log, s.errors, a) && a == RunIteration(env, n, request, s.iteration, s.log, guard)
    ensures a.Broke? ==> StepLeads(env, w, Ended(a.effects, Some(a.error)))
    ensures a.Attempted? && Empty(a.iteration) ==>
      StepLeads(env, w, Ended(a.effects + FinishPlaceholder(s.errors), None))
    ensures a.Attempted? && !Empty(a.iteration) ==>
      StepLeads(env, w, Prepend(a.effects, Settle(env, s.(calls := a.calls, log := a.log, retryUsed := retryUsed),
                                                  a.iteration)))
  {
    hide *;
    TriedMeans(env, w, w', s.log, s.errors, a);
    if a.Broke? {
      StepIsLed(env, w, Ended(a.effects, Some(a.error)), w');
    } else if Empty(a.iteration) {
      EmptyHasNoTools(a.iteration);
      AtMeans(env, w', a.calls, s.log, s.errors);
      NowEnding(env, w', s.errors);
      var w'' := PlaceholderLeads(env, w', a.iteration, s.errors);
      LeadsOn(env, w, a.effects, w', FinishPlaceholder(s.errors), w'');
      StepIsLed(env, w, Ended(a.effects + FinishPlaceholder(s.errors), None), w'');
    } else {
      var s' := s.(calls := a.calls, log := a.log, retryUsed := retryUsed);
      TurnTrace.NotEmptySpeaks(env, n, request, s.iteration, s.log, guard);
      SettleLeads(env, w', s', a.iteration, s.log);
      PrependLeads(env, w, a.effects, w', Settle(env, s', a.iteration));
    }
  }

  lemma EmptyHasNoTools(it: Iteration)
    requires Empty(it)
    ensures !it.hadTools
  {
  }

  lemma RoundLeads(env: Env, w: Watch, s: State)
    requires At(env, w, s.calls, s.log, s.errors) && w.guarded && w.owed == []
    ensures StepLeads(env, w, Iterate(env, s))
  {
    var first := RunIteration(env, s.calls, s.request, s.iteration, s.log, env.guard);
    AttemptLeads(env, w, s.calls, s.request, s.iteration, s.log, s.errors);
    assert GuardOf(env, w) == env.guard;
    hide At, Tried, RunIteration, Settle, FinishPlaceholder, StepLeads, Empty;
    var w' :| Tried(env, w, w', s.log, s.errors, first);
    AttemptEnds(env, w, w', s, first, s.retryUsed, s.request, s.calls, env.guard);
    if first.Attempted? && Empty(first.iteration) && !s.retryUsed {
      RetryLeads(env, w, w', s, first);
    }
    assert s == s.(retryUsed := s.retryUsed);
  }

  lemma RetryLeads(env: Env, w: Watch, w': Watch, s: State, first: Attempt)
    requires first == RunIteration(env, s.calls, s.request, s.iteration, s.log, env.guard) && first.Attempted?
    requires Tried(env, w, w', s.log, s.errors, first) && Empty(first.iteration) && !s.retryUsed
    ensures StepLeads(env, w, Iterate(env, s))
  {
    hide *;
    var retry := [Sent(RetryOut(s.iteration))];
    var w1 := w'.(guarded := false, owed := []);
    TriedMeans(env, w, w', s.log, s.errors, first);
    EmptyHasNoTools(first.iteration);
    RetryIsLed(env, w', s.iteration);
    LeadsOn(env, w, first.effects, w', retry, w1);
    AtMeans(env, w', first.calls, s.log, s.errors);
    AtAgain(env, w', w1, first.calls, first.calls, s.log, s.errors);
    AttemptLeads(env, w1, first.calls, s.request, s.iteration, s.log, s.errors);
    NoGuard(env, w1);
    var second := RunIteration(env, first.calls, s.request, s.iteration, first.log, None);
    var w2 :| Tried(env, w1, w2, s.log, s.errors, second);
    RetriedLeads(env, w1, w2, s, second, first.calls);
    RetryIs(env, s);
    PrependLeads(env, w, first.effects + retry, w1, Retried(env, s, second));
  }

  lemma RetryIsLed(env: Env, w: Watch, iteration: nat)
    ensures Leads(env, w, [Sent(RetryOut(iteration))], w.(guarded := false, owed := []))
  {
    LeadsOne(env, w, Sent(RetryOut(iteration)));
  }

  lemma NoGuard(env: Env, w: Watch)
    requires !w.guarded
    ensures GuardOf(env, w) == None
  {
  }

  /** What the second attempt of a round comes to. */
  function Retried(env: Env, s: State, second: Attempt): Step {
    if second.Broke? then Ended(second.effects, Some(second.error))
    else if Empty(second.iteration) then Ended(second.effects + FinishPlaceholder(s.errors), None)
    else
      Prepend(second.effects, Settle(env, s.(calls := second.calls, log := second.log, retryUsed := true),
                                     second.iteration))
  }

  lemma RetriedLeads(env: Env, w: Watch, w': Watch, s: State, second: Attempt, n: nat)
    requires Tried(env, w, w', s.log, s.errors, second)
    requires second == RunIteration(env, n, s.request, s.iteration, s.log, None)
    ensures StepLeads(env, w, Retried(env, s, second))
  {
    AttemptEnds(env, w, w', s, second, true, s.request, n, None);
    hide StepLeads, Empty, RunIteration, Tried, Settle, FinishPlaceholder, Prepend;
  }

  lemma RetryIs(env: Env, s: State)
    ensures var first := RunIteration(env, s.calls, s.request, s.iteration, s.log, env.guard);
      first.Attempted? && Empty(first.iteration) && !s.retryUsed ==>
        var second := RunIteration(env, first.calls, s.request, s.iteration, first.log, None);
        Iterate(env, s) == Prepend(first.effects + [Sent(RetryOut(s.iteration))], Retried(env, s, second))
  {
    hide RunIteration, Settle, FinishPlaceholder, Empty;
  }

  lemma {:induction false} RunLeads(env: Env, w: Watch, s: State)
    requires At(env, w, s.calls, s.log, s.errors) && w.guarded && w.owed == []
    ensures exists w' :: Leads(env, w, RunFrom(env, s).effects, w')
    decreases env.maxIterations - s.iteration
  {
    hide Iterate, Leads, At;
    RoundLeads(env, w, s);
    var step := Iterate(env, s);
    var w' :|
      && Leads(env, w, step.effects, w')
      && (step.More? ==> At(env, w', step.next.calls, step.next.log, step.next.errors) && w'.guarded && w'.owed == []);
    if step.More? {
      RunLeads(env, w', step.next);
      var rest := RunFrom(env, step.next);
      var w'' :| Leads(env, w', rest.effects, w'');
      LeadsOn(env, w, step.effects, w', rest.effects, w'');
      assert Leads(env, w, RunFrom(env, s).effects, w'');
    } else {
      assert Leads(env, w, RunFrom(env, s).effects, w');
    }
  }

  /** The deferred error, then the user's message. */
  lemma OpeningLeads(env: Env)
    ensures Leads(env, Begun(env), Opening(env), Begun(env).(told := env.deferredError.Some?))
  {
    var w := Begun(env);
    var a := if env.deferredError.Some? then [Sent(ErrorsOut([env.deferredError.value]))] else [];
    var b := if env.userInput != [] then [Archived(Said(Message(User, env.userInput)))] else [];
    var w' := w.(told := env.deferredError.Some?);
    if a != [] {
      LeadsOne(env, w, a[0]);
    } else {
      LeadsNowhere(env, w);
    }
    if b != [] {
      LeadsOne(env, w', b[0]);
    } else {
      LeadsNowhere(env, w');
    }
    hide Leads, Begun;
    LeadsOn(env, w, a, w', b, w');
    assert Opening(env) == a + b;
  }

  /** Everything a turn reports is right where it stands: results as the guard shows them over the whole history of
      the turn, its last verdict on every batch and no other, the reason of every forced question and of the fallback,
      the texts and usage of each reply, and all errors once, before the end. */
  lemma EveryReportIsDue(env: Env, i: nat)
    requires i < |Turn(env).effects|
    ensures Reports(env, WatchAfter(env, Begun(env), Turn(env).effects[..i]), Turn(env).effects[i])
  {
    hide *;
    var w := Begun(env).(told := env.deferredError.Some?);
    var opening, rest := Opening(env), RunFrom(env, Initial(env)).effects;
    OpeningLeads(env);
    TurnStarts(env);
    RunLeads(env, w, Initial(env));
    var w' :| Leads(env, w, rest, w');
    LeadsOn(env, Begun(env), opening, w, rest, w');
    OneReports(env, Begun(env), opening + rest, w', i);
  }

  lemma TurnStarts(env: Env)
    ensures var w := Begun(env).(told := env.deferredError.Some?);
      At(env, w, Initial(env).calls, Initial(env).log, Initial(env).errors) && w.guarded && w.owed == []
    ensures Turn(env).effects == Opening(env) + RunFrom(env, Initial(env)).effects
  {
    hide RunFrom;
  }

  lemma OneReports(env: Env, w: Watch, effects: seq<Effect>, w': Watch, i: nat)
    requires Leads(env, w, effects, w') && i < |effects|
    ensures Reports(env, WatchAfter(env, w, effects[..i]), effects[i])
  {
    hide Reports, WatchAfter;
  }
}
