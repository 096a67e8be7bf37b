/** What the model is told: every request of a turn, every batch run and every bus pair, determined by the effects
    before it. A request carries, after the compiled messages, the calls and the results of every batch that was
    run, in order. */
module TurnTrace {
  import opened Wrappers
  import opened Sequences
  import opened RepeatGuards
  import opened TurnModel
  import opened TurnRuns

  /** One round of calls: the reply that made them, and the calls and results that were queued. */
  datatype Pair = Pair(reply: seq<ModelEvent>, uses: seq<Block>, results: seq<Block>)

  /** What a list of effects has said: how many times the model was asked, its last reply and whether that was
      forced, the batches that were run and what was archived since the last of them, and, since the last question,
      the batch that the iteration limit left without results and whether the guard stopped the turn. */
  datatype Talk = Talk(asked: nat, last: seq<ModelEvent>, forced: bool, pairs: seq<Pair>, filed: seq<Block>,
                       unrun: seq<Pair>, stopped: bool)

  const SILENCE := Talk(0, [], false, [], [], [], false)

  function Heard(env: Env, t: Talk, e: Effect): Talk {
    match e
    case Asked(_, forced, reply) =>
      Talk(t.asked + 1, if reply.Reply? then reply.events else [], forced, t.pairs, t.filed, [], false)
    case Queued(iteration, uses, results) =>
      var pair := Pair(t.last, uses, results);
      if iteration < env.maxIterations then t.(pairs := t.pairs + [pair], filed := []) else t.(unrun := [pair])
    case Archived(payload) => if payload.Item? then t.(filed := t.filed + [payload.block]) else t
    case Sent(output) => if output.GuardOut? then t.(stopped := output.meta.stop) else t
    case _ => t
  }

  /** What has been said after `t` and the effects. */
  function TalkAfter(env: Env, t: Talk, effects: seq<Effect>): Talk {
    if effects == [] then t else Heard(env, TalkAfter(env, t, effects[..|effects| - 1]), effects[|effects| - 1])
  }

  lemma {:induction false} TalkAppend(env: Env, t: Talk, a: seq<Effect>, b: seq<Effect>)
    ensures TalkAfter(env, t, a + b) == TalkAfter(env, TalkAfter(env, t, a), b)
  {
    if b == [] {
      assert a + b == a;
    } else {
      var n := |b| - 1;
      assert (a + b)[..|a + b| - 1] == a + b[..n];
      TalkAppend(env, t, a, b[..n]);
    }
  }

  lemma TalkOne(env: Env, t: Talk, e: Effect)
    ensures TalkAfter(env, t, [e]) == Heard(env, t, e)
  {
    assert TalkAfter(env, t, []) == t;
  }

  /** Archived messages and events, none of the guard's. */
  predicate Silent(effects: seq<Effect>) {
    forall i :: 0 <= i < |effects| ==>
      || (effects[i].Archived? && effects[i].payload.Said?) || effects[i].Finalized?
      || (effects[i].Sent? && !effects[i].output.GuardOut?)
  }

  lemma {:induction false} SilentSaysNothing(env: Env, t: Talk, effects: seq<Effect>)
    requires Silent(effects)
    ensures TalkAfter(env, t, effects) == t
  {
    if effects != [] {
      SilentSaysNothing(env, t, effects[..|effects| - 1]);
    }
  }

  // ---- what each effect must be ----

  function ThinkingText(b: Block): string {
    if b.Thinking? then b.text else ""
  }

  /** The assistant message of a reply: its reasoning if that is replayed, its text, its calls. */
  predicate Says(env: Env, content: seq<Block>, reply: seq<ModelEvent>) {
    && UsesIn(content) == ToolBlocks(reply)
    && Collect(content, BlockText) == TextOf(reply)
    && Collect(content, ThinkingText) == if env.replayReasoning then ThinkingOf(reply) else ""
  }

  /** The messages `at` and after are the two of the pair. */
  predicate PairAt(env: Env, messages: seq<Message>, at: nat, pair: Pair) {
    && at + 1 < |messages|
    && messages[at].role == Assistant && Says(env, messages[at].content, pair.reply)
    && UsesIn(messages[at].content) == pair.uses
    && messages[at + 1] == Message(User, pair.results)
  }

  /** The compiled messages, then exactly the pairs, then `rest` more messages. */
  predicate Carries(env: Env, request: Request, pairs: seq<Pair>, rest: nat) {
    var n := |env.compiled.messages|;
    && request.system == env.compiled.system
    && |request.messages| == n + 2 * |pairs| + rest && request.messages[..n] == env.compiled.messages
    && forall j :: 0 <= j < |pairs| ==> PairAt(env, request.messages, n + 2 * j, pairs[j])
  }

  function IfMalformed(b: Block): seq<Block> {
    if b.ToolUse? && b.malformed then [b] else []
  }

  function IfWellFormed(b: Block): seq<Block> {
    if b.ToolUse? && !b.malformed then [b] else []
  }

  /** The result block of a call: under its id, flagged as given, with the text unless the guard put a note. */
  predicate Result(env: Env, use: Block, result: Block, text: string, isError: bool) {
    && use.ToolUse? && result.ToolResult? && result.id == use.id && result.isError == isError
    && (result.content == Real(text) || (env.guard.Some? && result.content.Note?))
  }

  /** The results of the batch of the `n`-th reply: first the malformed calls', then those the tools gave. */
  predicate BatchResults(env: Env, n: nat, uses: seq<Block>, results: seq<Block>) {
    var bad, good := Collect(uses, IfMalformed), Collect(uses, IfWellFormed);
    && |results| == |bad| + |good|
    && (forall i :: 0 <= i < |bad| ==> Refusal(env, bad[i], results[i]))
    && (forall i :: 0 <= i < |good| ==> Execution(env, n, i, good[i], results[|bad| + i]))
  }

  predicate Refusal(env: Env, use: Block, result: Block) {
    use.ToolUse? && Result(env, use, result, env.malformedText(use.call), true)
  }

  /** The outcome of the `i`-th call that ran after the `n`-th reply. */
  predicate Execution(env: Env, n: nat, i: nat, use: Block, result: Block) {
    use.ToolUse? && var outcome := env.tool(n, i, use.call); Result(env, use, result, outcome.text, outcome.isError)
  }

  predicate NotRun(env: Env, uses: seq<Block>, results: seq<Block>) {
    && |results| == |uses|
    && forall i :: 0 <= i < |uses| ==>
         uses[i].ToolUse? && results[i] == ToolResult(uses[i].id, Real(env.notRun), false)
  }

  /** The last message of a forced request: the instruction, for some reason. */
  ghost predicate Instructs(env: Env, m: Message) {
    exists reason: string :: m == Message(User, [Text(env.instruction(reason))])
  }

  /** The answer to a question: the reply's text; after a forced question that was answered with calls or with
      nothing, the fallback for the reason. */
  function AnswerTo(env: Env, t: Talk, reason: string): string {
    if t.forced && (ToolBlocks(t.last) != [] || Blank(TextOf(t.last))) then env.fallback(reason) else TextOf(t.last)
  }

  /** The answer as finalized: a blank one may be replaced by the placeholder. */
  predicate AnswerAs(env: Env, t: Talk, content: seq<Block>, reason: string) {
    && |content| == 1 && content[0].Text?
    && (content[0].text == AnswerTo(env, t, reason)
        || (Blank(AnswerTo(env, t, reason)) && content[0].text == PLACEHOLDER))
  }

  ghost predicate AnswerOk(env: Env, t: Talk, content: seq<Block>) {
    exists reason: string :: AnswerAs(env, t, content, reason)
  }

  /** The last batch that was run. */
  predicate LastPair(t: Talk, pair: Pair) {
    t.pairs != [] && t.pairs[|t.pairs| - 1] == pair
  }

  /** What the caller is told: the iteration that is retried, guarded or complete, the calls that ran, once all calls
      and results are archived, and the results, and whether a forced answer is the fallback and why it was forced. */
  predicate OutputOk(env: Env, t: Talk, o: Output) {
    match o
    case RetryOut(iteration) => iteration == |t.pairs| && t.asked > 0
    case ToolUsesOut(uses) =>
      && t.pairs != [] && uses == Collect(t.pairs[|t.pairs| - 1].uses, IfWellFormed)
      && t.filed == t.pairs[|t.pairs| - 1].uses + t.pairs[|t.pairs| - 1].results
    case ToolResultsOut(results) => t.pairs != [] && results == t.pairs[|t.pairs| - 1].results
    case GuardOut(iteration, _) => iteration + 1 == |t.pairs|
    case CompleteOut(iteration) => iteration + 1 == |t.pairs|
    case FinalAnswerOut(iteration, reason, fallbackUsed) =>
      && t.forced && (fallbackUsed <==> ToolBlocks(t.last) != [] || Blank(TextOf(t.last)))
      && iteration == if reason == Limit then |t.pairs| else |t.pairs| - 1
    case _ => true
  }

  /** What is archived: the user's message before anything was asked, and the calls and then the
      results of the last batch, one after the other. */
  predicate PayloadOk(env: Env, t: Talk, p: Payload) {
    match p
    case Said(m) => m.role == User ==> m.content == env.userInput && t.asked == 0
    case Item(b) =>
      && t.pairs != []
      && t.filed + [b] <= t.pairs[|t.pairs| - 1].uses + t.pairs[|t.pairs| - 1].results
  }

  /** What an effect must be after what was said. */
  ghost predicate Follows(env: Env, t: Talk, e: Effect) {
    match e
    case Asked(request, forced, reply) =>
      && reply == env.model(t.asked, request) && (forced <==> t.stopped || t.unrun != [])
      && if forced
         then Carries(env, request, t.pairs + t.unrun, 1) && !request.tools && Instructs(env, Last(request.messages))
         else Carries(env, request, t.pairs, 0) && request.tools == env.compiled.tools
    case Ran(iteration, calls) =>
      iteration == |t.pairs| < env.maxIterations && calls == Collect(ToolBlocks(t.last), IfWellFormed)
    case Queued(iteration, uses, results) =>
      && t.asked > 0 && !t.forced && uses == ToolBlocks(t.last) && iteration == |t.pairs|
      && if iteration < env.maxIterations then BatchResults(env, t.asked - 1, uses, results)
         else env.finalAnswer && NotRun(env, uses, results)
    case Finalized(content) => AnswerOk(env, t, content)
    case Archived(payload) => PayloadOk(env, t, payload)
    case Sent(output) => OutputOk(env, t, output)
  }

  function Last(messages: seq<Message>): Message {
    if messages == [] then Message(User, []) else messages[|messages| - 1]
  }

  /** Every effect follows from `t` and those before it. */
  ghost predicate AllFollow(env: Env, t: Talk, effects: seq<Effect>) {
    forall i :: 0 <= i < |effects| ==> Follows(env, TalkAfter(env, t, effects[..i]), effects[i])
  }

  lemma FollowAppend(env: Env, t: Talk, a: seq<Effect>, b: seq<Effect>)
    requires AllFollow(env, t, a) && AllFollow(env, TalkAfter(env, t, a), b)
    ensures AllFollow(env, t, a + b) && TalkAfter(env, t, a + b) == TalkAfter(env, TalkAfter(env, t, a), b)
  {
    TalkAppend(env, t, a, b);
    hide Follows, Heard;
    forall i | 0 <= i < |a + b|
      ensures Follows(env, TalkAfter(env, t, (a + b)[..i]), (a + b)[i])
    {
      if i < |a| {
        assert (a + b)[..i] == a[..i];
      } else {
        assert (a + b)[..i] == a + b[..i - |a|];
        TalkAppend(env, t, a, b[..i - |a|]);
      }
    }
  }

  lemma FollowOne(env: Env, t: Talk, e: Effect)
    requires Follows(env, t, e)
    ensures AllFollow(env, t, [e]) && TalkAfter(env, t, [e]) == Heard(env, t, e)
  {
    assert [e][..0] == [];
    TalkOne(env, t, e);
  }

  lemma FollowNothing(env: Env, t: Talk)
    ensures AllFollow(env, t, []) && TalkAfter(env, t, []) == t
  {
  }

  lemma SilentFollows(env: Env, t: Talk, effects: seq<Effect>)
    requires Silent(effects)
    requires EachFollows(env, t, effects)
    ensures AllFollow(env, t, effects) && TalkAfter(env, t, effects) == t
  {
    SilentSaysNothing(env, t, effects);
    hide Follows, TalkAfter;
    forall i | 0 <= i < |effects|
      ensures Follows(env, TalkAfter(env, t, effects[..i]), effects[i])
    {
      SilentSaysNothing(env, t, effects[..i]);
    }
  }

  /** Each effect by itself follows from `t`. */
  ghost predicate EachFollows(env: Env, t: Talk, effects: seq<Effect>) {
    forall i :: 0 <= i < |effects| ==> Follows(env, t, effects[i])
  }

  // ---- what a reply puts into the messages ----

  lemma {:induction false} CallsSayNothing(blocks: seq<Block>)
    requires AllUses(blocks)
    ensures Collect(blocks, BlockText) == "" && Collect(blocks, ThinkingText) == ""
  {
    CollectNothing(blocks, BlockText);
    CollectNothing(blocks, ThinkingText);
  }

  lemma AssistantSays(env: Env, events: seq<ModelEvent>)
    ensures Says(env, AssistantContent(env, events), events)
  {
    var thinking := if env.replayReasoning && ThinkingOf(events) != "" then [Thinking(ThinkingOf(events))] else [];
    var text := if TextOf(events) != "" then [Text(TextOf(events))] else [];
    var uses := ToolBlocks(events);
    AssistantUses(env, events);
    CallsSayNothing(uses);
    CollectAppend(thinking + text, uses, BlockText);
    CollectAppend(thinking, text, BlockText);
    CollectAppend(thinking + text, uses, ThinkingText);
    CollectAppend(thinking, text, ThinkingText);
    if thinking != [] {
      CollectOne(thinking[0], BlockText);
      CollectOne(thinking[0], ThinkingText);
    }
    if text != [] {
      CollectOne(text[0], BlockText);
      CollectOne(text[0], ThinkingText);
    }
    assert AssistantContent(env, events) == thinking + text + uses;
  }

  lemma {:induction false} BatchSplits(env: Env, uses: seq<Block>)
    requires AllUses(uses)
    ensures Valid(uses) == Collect(uses, IfWellFormed)
    ensures var bad, results := Collect(uses, IfMalformed), MalformedResults(env, uses);
      |results| == |bad| && forall i :: 0 <= i < |bad| ==>
        bad[i].ToolUse? && results[i] == ToolResult(bad[i].id, Real(env.malformedText(bad[i].call)), true)
  {
    if uses != [] {
      var rest, last := uses[..|uses| - 1], uses[|uses| - 1];
      BatchSplits(env, rest);
      assert uses == rest + [last];
      CollectAppend(rest, [last], IfWellFormed);
      CollectAppend(rest, [last], IfMalformed);
      CollectOne(last, IfWellFormed);
      CollectOne(last, IfMalformed);
    }
  }

  /** Every result is shown as it is or with a note in its place. */
  predicate KeptOrNoted(results: seq<Block>, shown: seq<Block>) {
    && |shown| == |results|
    && forall i :: 0 <= i < |results| ==>
         && shown[i].ToolResult? && results[i].ToolResult? && shown[i].id == results[i].id
         && shown[i].isError == results[i].isError
         && (shown[i].content == results[i].content || shown[i].content.Note?)
  }

  lemma {:induction false} WalkKeepsOrNotes(limits: Limits, log: seq<Seen>, valid: seq<Block>, results: seq<Block>,
                                            k: nat)
    requires k <= |valid| && k <= |results| && AllUses(valid) && AllReal(results)
    ensures KeptOrNoted(results, GuardWalk(limits, log, valid, results, k).results)
    decreases k
  {
    hide *;
    if k == 0 {
      WalkOfNone(limits, log, valid, results);
    } else {
      WalkUnfolds(limits, log, valid, results, k);
      WalkKeepsOrNotes(limits, log, valid, results, k - 1);
      StepKeepsOrNotes(limits, GuardWalk(limits, log, valid, results, k - 1), valid[k - 1], k - 1, results);
    }
  }

  lemma WalkOfNone(limits: Limits, log: seq<Seen>, valid: seq<Block>, results: seq<Block>)
    requires AllUses(valid) && AllReal(results)
    ensures KeptOrNoted(results, GuardWalk(limits, log, valid, results, 0).results)
  {
  }

  lemma WalkUnfolds(limits: Limits, log: seq<Seen>, valid: seq<Block>, results: seq<Block>, k: nat)
    requires 0 < k <= |valid| && k <= |results| && AllUses(valid) && AllReal(results)
    ensures valid[k - 1].ToolUse? && results[k - 1].ToolResult? && results[k - 1].content.Real?
    ensures var before := GuardWalk(limits, log, valid, results, k - 1);
      && before.results[k - 1] == results[k - 1]
      && GuardWalk(limits, log, valid, results, k) == GuardStep(limits, before, valid[k - 1], k - 1)
  {
    hide GuardStep;
  }

  lemma StepKeepsOrNotes(limits: Limits, w: Walk, use: Block, i: nat, results: seq<Block>)
    requires i < |w.results| && use.ToolUse? && w.results[i].ToolResult? && w.results[i].content.Real?
    requires KeptOrNoted(results, w.results)
    ensures KeptOrNoted(results, GuardStep(limits, w, use, i).results)
  {
    assert GuardStep(limits, w, use, i).results[i].content == w.results[i].content
           || GuardStep(limits, w, use, i).results[i].content.Note?;
    hide GuardStep;
  }

  lemma RealBatchResults(env: Env, n: nat, uses: seq<Block>)
    requires AllUses(uses)
    ensures BatchResults(env, n, uses, MalformedResults(env, uses) + ExecutedResults(env, n, Valid(uses)))
  {
    BatchSplits(env, uses);
    var bad, good := Collect(uses, IfMalformed), Collect(uses, IfWellFormed);
    var refused, executed := MalformedResults(env, uses), ExecutedResults(env, n, good);
    forall i | 0 <= i < |good|
      ensures Execution(env, n, i, good[i], executed[i])
    {
    }
    hide ExecutedResults, MalformedResults, Valid, Execution, IfMalformed, IfWellFormed;
    forall i | 0 <= i < |bad|
      ensures Refusal(env, bad[i], (refused + executed)[i])
    {
      assert (refused + executed)[i] == refused[i];
    }
    assert forall i :: 0 <= i < |good| ==> (refused + executed)[|bad| + i] == executed[i];
  }

  lemma NotesKeepBatch(env: Env, n: nat, uses: seq<Block>, results: seq<Block>, noted: seq<Block>)
    requires BatchResults(env, n, uses, results) && KeptOrNoted(results, noted)
    requires env.guard.Some? || noted == results
    ensures BatchResults(env, n, uses, noted)
  {
    hide IfMalformed, IfWellFormed;
    var bad, good := Collect(uses, IfMalformed), Collect(uses, IfWellFormed);
    forall i | 0 <= i < |bad|
      ensures Refusal(env, bad[i], noted[i])
    {
      assert Refusal(env, bad[i], results[i]);
    }
    forall i | 0 <= i < |good|
      ensures Execution(env, n, i, good[i], noted[|bad| + i])
    {
      assert Execution(env, n, i, good[i], results[|bad| + i]);
    }
  }

  lemma IterationResults(env: Env, n: nat, log: seq<Seen>, guard: Option<Limits>, events: seq<ModelEvent>)
    requires guard.Some? ==> env.guard.Some?
    ensures var it := ToolIteration(env, n, log, guard, events).0;
      && it.assistant == AssistantContent(env, events) && it.valid == Collect(ToolBlocks(events), IfWellFormed)
      && BatchResults(env, n, ToolBlocks(events), it.results)
  {
    var uses := ToolBlocks(events);
    BatchSplits(env, uses);
    RealBatchResults(env, n, uses);
    WalkedResults(env, n, log, guard, events);
    hide BatchResults, MalformedResults, ExecutedResults, Valid, AssistantContent, GuardWalk, ToolIteration;
    NotesKeepBatch(env, n, uses, MalformedResults(env, uses) + ExecutedResults(env, n, Valid(uses)),
                   ToolIteration(env, n, log, guard, events).0.results);
  }

  lemma WalkedResults(env: Env, n: nat, log: seq<Seen>, guard: Option<Limits>, events: seq<ModelEvent>)
    ensures var uses := ToolBlocks(events);
      var it, results := ToolIteration(env, n, log, guard, events).0,
                         MalformedResults(env, uses) + ExecutedResults(env, n, Valid(uses));
      && it.assistant == AssistantContent(env, events) && it.valid == Valid(uses)
      && KeptOrNoted(results, it.results) && (guard.None? ==> it.results == results)
  {
    var uses := ToolBlocks(events);
    var results := MalformedResults(env, uses) + ExecutedResults(env, n, Valid(uses));
    assert AllReal(results) && |Valid(uses)| <= |results|;
    hide MalformedResults, ExecutedResults, Valid, AssistantContent, GuardWalk;
    if guard.Some? {
      WalkKeepsOrNotes(guard.value, log, Valid(uses), results, |Valid(uses)|);
    }
  }

  // ---- requests ----

  /** The next unforced request carries what was said. */
  predicate Ready(env: Env, t: Talk, request: Request) {
    Carries(env, request, t.pairs, 0) && request.tools == env.compiled.tools
  }

  lemma CarriesMore(env: Env, request: Request, pairs: seq<Pair>, pair: Pair, a: Message, b: Message,
                    rest: seq<Message>, request': Request)
    requires Carries(env, request, pairs, 0)
    requires a.role == Assistant && Says(env, a.content, pair.reply) && UsesIn(a.content) == pair.uses
    requires b == Message(User, pair.results)
    requires request'.system == request.system && request'.messages == request.messages + [a, b] + rest
    ensures Carries(env, request', pairs + [pair], |rest|)
  {
    hide Says, UsesIn;
    var n := |env.compiled.messages|;
    assert request'.messages[..n] == request.messages[..n];
    forall j | 0 <= j < |pairs + [pair]|
      ensures PairAt(env, request'.messages, n + 2 * j, (pairs + [pair])[j])
    {
      if j < |pairs| {
        assert PairAt(env, request.messages, n + 2 * j, pairs[j]);
        assert request'.messages[n + 2 * j] == request.messages[n + 2 * j];
        assert request'.messages[n + 2 * j + 1] == request.messages[n + 2 * j + 1];
      } else {
        assert request'.messages[n + 2 * j] == a && request'.messages[n + 2 * j + 1] == b;
      }
    }
  }

  // ---- how a turn ends ----

  /** The last effect of a turn gives the reason for its error: a model call that failed, calls that were made when
      all iterations were used and no final answer is configured, or calls without an executor. Without an error the
      turn ends with its `end`. */
  predicate Explains(env: Env, t: Talk, effects: seq<Effect>, error: Option<Error>) {
    && effects != []
    && var e := effects[|effects| - 1];
       if error.None? then e == Sent(EndOut)
       else
         && e.Asked?
         && match error.value
            case ModelFailed(text) => e.reply == Unavailable(text)
            case ToolLoopLimit => MadeCalls(e) && |t.pairs| >= env.maxIterations && !env.finalAnswer
            case NoExecutor => MadeCalls(e) && |t.pairs| < env.maxIterations && !env.hasExecutor
  }

  /** A question that was answered with calls. */
  predicate MadeCalls(e: Effect) {
    e.Asked? && !e.forced && e.reply.Reply? && ToolBlocks(e.reply.events) != []
  }

  lemma ForcedExplains(env: Env, t: Talk, n: nat, request: Request, assistant: seq<Block>, results: seq<Block>,
                       reason: Reason, reasonText: string, log: seq<Seen>)
    ensures var a := ForcedAnswer(env, n, request, assistant, results, reason, reasonText, log);
      a.Broke? ==> Explains(env, t, a.effects, Some(a.error))
  {
  }

  lemma ExplainsAfter(env: Env, t: Talk, before: seq<Effect>, effects: seq<Effect>, error: Option<Error>)
    requires Explains(env, t, effects, error)
    ensures Explains(env, t, before + effects, error)
  {
    hide MadeCalls;
    assert (before + effects)[|before + effects| - 1] == effects[|effects| - 1];
  }

  lemma AttemptExplains(env: Env, t: Talk, n: nat, request: Request, iteration: nat, log: seq<Seen>,
                        guard: Option<Limits>)
    ensures var a := RunIteration(env, n, request, iteration, log, guard);
      a.Broke? && (a.effects == [Asked(request, false, env.model(n, request))] ==> |t.pairs| == iteration) ==>
        Explains(env, t, a.effects, Some(a.error))
  {
    var reply := env.model(n, request);
    if reply.Reply? && ToolBlocks(reply.events) != [] && iteration >= env.maxIterations && env.finalAnswer {
      var uses, results := ToolBlocks(reply.events), NotRunResults(env, ToolBlocks(reply.events));
      var assistant := AssistantContent(env, reply.events);
      var forced := ForcedAnswer(env, n + 1, request, assistant, results, Limit, LimitReason(env.maxIterations), log);
      ForcedExplains(env, t, n + 1, request, assistant, results, Limit, LimitReason(env.maxIterations), log);
      hide ForcedAnswer, AssistantContent, NotRunResults, Explains;
      if forced.Broke? {
        ExplainsAfter(env, t, [Asked(request, false, reply)] + [Queued(iteration, uses, results)], forced.effects,
                      Some(forced.error));
      }
    }
    hide ForcedAnswer, AssistantContent, NotRunResults, ToolIteration;
  }

  lemma FinishExplains(env: Env, t: Talk, it: Iteration, iteration: nat, errors: seq<string>)
    ensures Explains(env, t, FinishPlain(it, errors), None) && Explains(env, t, FinishPlaceholder(errors), None)
    ensures it.forced.Some? ==> Explains(env, t, FinishForced(it, iteration, errors), None)
  {
  }

  // ---- one attempt ----

  /** The turn has asked `n` times and run `iteration` batches, its request carries all that was said, and nothing
      stands in the way of the next question. */
  predicate Poised(env: Env, t: Talk, n: nat, request: Request, iteration: nat) {
    t.asked == n && |t.pairs| == iteration && Ready(env, t, request) && t.unrun == [] && !t.stopped
  }

  /** What the turn forwards of a reply: texts and usage. */
  predicate Forwards(it: Iteration) {
    forall i :: 0 <= i < |it.forwarded| ==> it.forwarded[i].TextOut? || it.forwarded[i].UsageOut?
  }

  lemma {:induction false} ForwardedIsPlain(events: seq<ModelEvent>)
    ensures forall i :: 0 <= i < |Forwarded(events)| ==> Forwarded(events)[i].TextOut? || Forwarded(events)[i].UsageOut?
  {
    if events != [] {
      ForwardedIsPlain(events[..|events| - 1]);
    }
  }

  /** The text of an attempt without calls: the reply's, or the fallback. */
  ghost predicate Spoken(env: Env, t: Talk, it: Iteration) {
    && Forwards(it) && (it.forced.Some? <==> t.forced) && (it.forced.Some? ==> it.assistant == [Text(it.text)])
    && (it.forced.Some? ==> (it.forced.value.fallbackUsed <==> ToolBlocks(t.last) != [] || Blank(TextOf(t.last))))
    && exists reason: string :: it.text == AnswerTo(env, t, reason)
  }

  /** A batch was run and is not yet queued: its messages are those of the last reply. */
  predicate BatchOpen(env: Env, t: Talk, n: nat, request: Request, iteration: nat, it: Iteration) {
    && Forwards(it) && Poised(env, t, n, request, iteration) && n > 0 && !t.forced
    && it.valid == Collect(ToolBlocks(t.last), IfWellFormed)
    && Says(env, it.assistant, t.last) && BatchResults(env, n - 1, ToolBlocks(t.last), it.results)
  }

  lemma AskFollows(env: Env, t: Talk, n: nat, request: Request, iteration: nat)
    requires Poised(env, t, n, request, iteration)
    ensures var reply := env.model(n, request);
      var t' := TalkAfter(env, t, [Asked(request, false, reply)]);
      && AllFollow(env, t, [Asked(request, false, reply)]) && Poised(env, t', n + 1, request, iteration)
      && t'.last == (if reply.Reply? then reply.events else []) && t'.pairs == t.pairs && !t'.forced
      && |t'.pairs| == iteration
  {
    hide Carries;
    FollowOne(env, t, Asked(request, false, env.model(n, request)));
  }

  /** The forced call: it carries what was said and the open pair, then the instruction. */
  lemma ForcedFollows(env: Env, t: Talk, n: nat, request: Request, assistant: seq<Block>, results: seq<Block>,
                      reason: Reason, reasonText: string, log: seq<Seen>, before: seq<Pair>, pair: Pair)
    requires t.asked == n && Carries(env, request, before, 0) && t.pairs + t.unrun == before + [pair]
    requires Says(env, assistant, pair.reply) && UsesIn(assistant) == pair.uses && results == pair.results
    requires t.stopped || t.unrun != []
    ensures var a := ForcedAnswer(env, n, request, assistant, results, reason, reasonText, log);
      var t' := TalkAfter(env, t, a.effects);
      && AllFollow(env, t, a.effects) && (a.Attempted? ==> Spoken(env, t', a.iteration))
      && t'.asked == n + 1 && t'.pairs == t.pairs && t'.unrun == [] && !t'.stopped
  {
    var forced := ForcedRequest(env, request, assistant, results, reasonText);
    var a, b := Message(Assistant, assistant), Message(User, results);
    var rest := [Message(User, [Text(env.instruction(reasonText))])];
    assert forced.messages == request.messages + [a, b] + rest;
    assert Instructs(env, Last(forced.messages));
    hide Carries, Says, UsesIn, Instructs;
    CarriesMore(env, request, before, pair, a, b, rest, forced);
    var asked := Asked(forced, true, env.model(n, forced));
    FollowOne(env, t, asked);
    ForcedSpeaks(env, Heard(env, t, asked), n, request, assistant, results, reason, reasonText, log);
    hide Follows, Spoken;
  }

  lemma ForcedSpeaks(env: Env, t: Talk, n: nat, request: Request, assistant: seq<Block>, results: seq<Block>,
                     reason: Reason, reasonText: string, log: seq<Seen>)
    requires t.forced
    requires var reply := env.model(n, ForcedRequest(env, request, assistant, results, reasonText));
      reply.Reply? ==> t.last == reply.events
    ensures var a := ForcedAnswer(env, n, request, assistant, results, reason, reasonText, log);
      a.Attempted? ==> Spoken(env, t, a.iteration)
  {
    var a := ForcedAnswer(env, n, request, assistant, results, reason, reasonText, log);
    assert a.Attempted? ==> a.iteration.text == AnswerTo(env, t, reasonText);
  }

  lemma LimitFollows(env: Env, t: Talk, n: nat, request: Request, iteration: nat, log: seq<Seen>,
                     events: seq<ModelEvent>)
    requires Poised(env, t, n, request, iteration) && t.last == events && !t.forced && n > 0
    requires iteration >= env.maxIterations && env.finalAnswer
    ensures var results := NotRunResults(env, ToolBlocks(events));
      var forced := ForcedAnswer(env, n, request, AssistantContent(env, events), results, Limit,
                                 LimitReason(env.maxIterations), log);
      var effects := [Queued(iteration, ToolBlocks(events), results)] + forced.effects;
      var t' := TalkAfter(env, t, effects);
      && AllFollow(env, t, effects) && Poised(env, t', n + 1, request, iteration)
      && (forced.Attempted? ==> Spoken(env, t', forced.iteration))
  {
    var uses, results := ToolBlocks(events), NotRunResults(env, ToolBlocks(events));
    var pair := Pair(events, uses, results);
    AssistantSays(env, events);
    AssistantUses(env, events);
    FollowOne(env, t, Queued(iteration, uses, results));
    var t' := Heard(env, t, Queued(iteration, uses, results));
    assert t'.pairs + t'.unrun == t.pairs + [pair];
    hide Carries, Says, UsesIn, AssistantContent, Follows, NotRunResults, Spoken, ForcedAnswer;
    ForcedFollows(env, t', n, request, AssistantContent(env, events), results, Limit, LimitReason(env.maxIterations),
                  log, t.pairs, pair);
    FollowAppend(env, t, [Queued(iteration, uses, results)],
                 ForcedAnswer(env, n, request, AssistantContent(env, events), results, Limit,
                              LimitReason(env.maxIterations), log).effects);
  }

  lemma AttemptFollows(env: Env, t: Talk, n: nat, request: Request, iteration: nat, log: seq<Seen>,
                       guard: Option<Limits>)
    requires Poised(env, t, n, request, iteration) && (guard.Some? ==> env.guard.Some?)
    ensures var a := RunIteration(env, n, request, iteration, log, guard);
      var t' := TalkAfter(env, t, a.effects);
      && AllFollow(env, t, a.effects)
      && (a.Attempted? && a.iteration.hadTools ==>
            iteration < env.maxIterations && BatchOpen(env, t', a.calls, request, iteration, a.iteration))
      && (a.Attempted? && !a.iteration.hadTools ==>
            Poised(env, t', a.calls, request, iteration) && Spoken(env, t', a.iteration))
      && (a.Broke? ==> Explains(env, t', a.effects, Some(a.error)))
  {
    AskFollows(env, t, n, request, iteration);
    AttemptExplains(env, TalkAfter(env, t, RunIteration(env, n, request, iteration, log, guard).effects), n, request,
                    iteration, log, guard);
    var reply := env.model(n, request);
    if reply.Reply? {
      PlainSpeaks(env, TalkAfter(env, t, [Asked(request, false, reply)]), reply.events);
    }
    hide AllFollow, Poised, BatchOpen, TalkAfter, ToolIteration, ForcedAnswer, AssistantContent, NotRunResults, Spoken,
         Explains;
    if reply.Reply? && ToolBlocks(reply.events) != [] {
      if iteration >= env.maxIterations && env.finalAnswer {
        LimitAttemptFollows(env, t, n, request, iteration, log, guard);
      } else if iteration < env.maxIterations && env.hasExecutor {
        ToolsAttemptFollows(env, t, n, request, iteration, log, guard);
      }
    }
  }

  lemma PlainSpeaks(env: Env, t: Talk, events: seq<ModelEvent>)
    requires t.last == events && !t.forced
    ensures Spoken(env, t, PlainIteration(events))
  {
    ForwardedIsPlain(events);
    assert PlainIteration(events).text == AnswerTo(env, t, "");
  }

  lemma LimitAttemptFollows(env: Env, t: Talk, n: nat, request: Request, iteration: nat, log: seq<Seen>,
                            guard: Option<Limits>)
    requires Poised(env, t, n, request, iteration) && iteration >= env.maxIterations && env.finalAnswer
    requires var reply := env.model(n, request); reply.Reply? && ToolBlocks(reply.events) != []
    ensures var a := RunIteration(env, n, request, iteration, log, guard);
      && AllFollow(env, t, a.effects) && (a.Attempted? ==> !a.iteration.hadTools)
      && (a.Attempted? ==>
            var t' := TalkAfter(env, t, a.effects);
            Poised(env, t', a.calls, request, iteration) && Spoken(env, t', a.iteration))
  {
    var reply := env.model(n, request);
    var uses, results := ToolBlocks(reply.events), NotRunResults(env, ToolBlocks(reply.events));
    var asked, queued := [Asked(request, false, reply)], [Queued(iteration, uses, results)];
    var forced := ForcedAnswer(env, n + 1, request, AssistantContent(env, reply.events), results, Limit,
                               LimitReason(env.maxIterations), log);
    AskFollows(env, t, n, request, iteration);
    var t1 := TalkAfter(env, t, asked);
    LimitFollows(env, t1, n + 1, request, iteration, log, reply.events);
    LimitAttemptIs(env, n, request, iteration, log, guard);
    hide *;
    FollowAppend(env, t, asked, queued + forced.effects);
    Regroup(asked, queued, forced.effects);
  }

  lemma LimitAttemptIs(env: Env, n: nat, request: Request, iteration: nat, log: seq<Seen>, guard: Option<Limits>)
    requires iteration >= env.maxIterations && env.finalAnswer
    requires var reply := env.model(n, request); reply.Reply? && ToolBlocks(reply.events) != []
    ensures var a, reply := RunIteration(env, n, request, iteration, log, guard), env.model(n, request);
      var uses, results := ToolBlocks(reply.events), NotRunResults(env, ToolBlocks(reply.events));
      var forced := ForcedAnswer(env, n + 1, request, AssistantContent(env, reply.events), results, Limit,
                                 LimitReason(env.maxIterations), log);
      && a.effects == [Asked(request, false, reply)] + [Queued(iteration, uses, results)] + forced.effects
      && a.Attempted? == forced.Attempted?
      && (a.Attempted? ==> a.calls == n + 2 && a.iteration == forced.iteration && !a.iteration.hadTools)
  {
    hide AssistantContent, NotRunResults;
  }

  lemma ToolsAttemptFollows(env: Env, t: Talk, n: nat, request: Request, iteration: nat, log: seq<Seen>,
                            guard: Option<Limits>)
    requires Poised(env, t, n, request, iteration) && (guard.Some? ==> env.guard.Some?)
    requires iteration < env.maxIterations && env.hasExecutor
    requires var reply := env.model(n, request); reply.Reply? && ToolBlocks(reply.events) != []
    ensures var a := RunIteration(env, n, request, iteration, log, guard);
      && AllFollow(env, t, a.effects) && a.Attempted? && a.iteration.hadTools
      && BatchOpen(env, TalkAfter(env, t, a.effects), a.calls, request, iteration, a.iteration)
  {
    hide *;
    var reply := env.model(n, request);
    var it := ToolIteration(env, n, log, guard, reply.events).0;
    var asked := [Asked(request, false, reply)];
    var ran := if it.valid != [] then [Ran(iteration, it.valid)] else [];
    var t1 := TalkAfter(env, t, asked);
    AskFollows(env, t, n, request, iteration);
    IterationResults(env, n, log, guard, reply.events);
    IterationForwards(env, n, log, guard, reply.events);
    AssistantSays(env, reply.events);
    ToolsAttemptIs(env, n, request, iteration, log, guard);
    RanFollows(env, t1, iteration, it.valid);
    OpensBatch(env, t1, n + 1, request, iteration, it);
    FollowAppend(env, t, asked, ran);
  }

  lemma ToolsAttemptIs(env: Env, n: nat, request: Request, iteration: nat, log: seq<Seen>, guard: Option<Limits>)
    requires iteration < env.maxIterations && env.hasExecutor
    requires var reply := env.model(n, request); reply.Reply? && ToolBlocks(reply.events) != []
    ensures var a, reply := RunIteration(env, n, request, iteration, log, guard), env.model(n, request);
      var it := ToolIteration(env, n, log, guard, reply.events).0;
      && a.Attempted? && a.iteration == it && it.hadTools && a.calls == n + 1
      && a.effects == [Asked(request, false, reply)] + if it.valid != [] then [Ran(iteration, it.valid)] else []
  {
    hide AssistantContent, GuardWalk;
  }

  lemma IterationForwards(env: Env, n: nat, log: seq<Seen>, guard: Option<Limits>, events: seq<ModelEvent>)
    ensures Forwards(ToolIteration(env, n, log, guard, events).0)
  {
    ForwardedIsPlain(events);
  }

  lemma RanFollows(env: Env, t: Talk, iteration: nat, valid: seq<Block>)
    requires iteration == |t.pairs| < env.maxIterations && valid == Collect(ToolBlocks(t.last), IfWellFormed)
    ensures var ran := if valid != [] then [Ran(iteration, valid)] else [];
      AllFollow(env, t, ran) && TalkAfter(env, t, ran) == t
  {
    if valid != [] {
      FollowOne(env, t, Ran(iteration, valid));
    } else {
      FollowNothing(env, t);
    }
  }

  lemma OpensBatch(env: Env, t: Talk, n: nat, request: Request, iteration: nat, it: Iteration)
    requires Poised(env, t, n, request, iteration) && n > 0 && !t.forced && Forwards(it)
    requires it.valid == Collect(ToolBlocks(t.last), IfWellFormed)
    requires Says(env, it.assistant, t.last) && BatchResults(env, n - 1, ToolBlocks(t.last), it.results)
    ensures BatchOpen(env, t, n, request, iteration, it)
  {
  }

  // ---- one round, and the whole turn ----

  /** The effects follow, and the next round is poised. */
  ghost predicate StepFollows(env: Env, t: Talk, step: Step) {
    && AllFollow(env, t, step.effects)
    && (step.More? ==>
          Poised(env, TalkAfter(env, t, step.effects), step.next.calls, step.next.request, step.next.iteration))
    && (step.Ended? ==> Explains(env, TalkAfter(env, t, step.effects), step.effects, step.error))
  }

  lemma QueuedFollows(env: Env, t: Talk, s: State, it: Iteration)
    requires BatchOpen(env, t, s.calls, s.request, s.iteration, it) && s.iteration < env.maxIterations
    ensures var t' := TalkAfter(env, t, ToolEffects(it, s.iteration));
      && AllFollow(env, t, ToolEffects(it, s.iteration)) && t'.asked == s.calls && t'.unrun == [] && !t'.stopped
      && t'.pairs == t.pairs + [Pair(t.last, ToolBlocks(t.last), it.results)] && |t'.pairs| == s.iteration + 1
  {
    var queued := Queued(s.iteration, UsesIn(it.assistant), it.results);
    FollowOne(env, t, queued);
    UsesAre(env, it.assistant, t.last);
    hide Carries, BatchResults, ToolReport, Says, Follows;
    ReportFollows(env, Heard(env, t, queued), it);
    FollowAppend(env, t, [queued], ToolReport(it));
  }

  /** The calls and results are archived in order. */
  lemma {:induction false} ItemsFollow(env: Env, t: Talk, blocks: seq<Block>)
    requires t.pairs != [] && t.filed + blocks <= t.pairs[|t.pairs| - 1].uses + t.pairs[|t.pairs| - 1].results
    ensures AllFollow(env, t, ArchivedBlocks(blocks))
    ensures TalkAfter(env, t, ArchivedBlocks(blocks)) == t.(filed := t.filed + blocks)
  {
    if blocks == [] {
      FollowNothing(env, t);
      assert t.filed + blocks == t.filed;
    } else {
      var before, last := blocks[..|blocks| - 1], blocks[|blocks| - 1];
      assert t.filed + blocks == t.filed + before + [last];
      ItemsFollow(env, t, before);
      var t' := t.(filed := t.filed + before);
      ItemFollows(env, t', last);
      hide *;
      FollowAppend(env, t, ArchivedBlocks(before), [Archived(Item(last))]);
      assert ArchivedBlocks(blocks) == ArchivedBlocks(before) + [Archived(Item(last))];
    }
  }

  lemma ItemFollows(env: Env, t: Talk, b: Block)
    requires t.pairs != [] && t.filed + [b] <= t.pairs[|t.pairs| - 1].uses + t.pairs[|t.pairs| - 1].results
    ensures AllFollow(env, t, [Archived(Item(b))])
    ensures TalkAfter(env, t, [Archived(Item(b))]) == t.(filed := t.filed + [b])
  {
    FollowOne(env, t, Archived(Item(b)));
  }

  /** The report of a batch: the reply's text and the batch are archived, then the caller is told. */
  lemma ReportFollows(env: Env, t: Talk, it: Iteration)
    requires Forwards(it) && LastPair(t, Pair(t.last, UsesIn(it.assistant), it.results)) && t.filed == []
    requires it.valid == Collect(UsesIn(it.assistant), IfWellFormed)
    ensures AllFollow(env, t, ToolReport(it))
    ensures TalkAfter(env, t, ToolReport(it)) == t.(filed := UsesIn(it.assistant) + it.results)
  {
    hide *;
    var text, uses, sends := ArchivedText(it.text), UsesIn(it.assistant), Sends(ToolOutputs(it));
    var t' := t.(filed := uses + it.results);
    ReportParts(t, it);
    TextIsFiled(env, t, it.text);
    SilentFollows(env, t, text);
    ItemsFollow(env, t, uses + it.results);
    ReportIsTold(env, t', it);
    SilentFollows(env, t', sends);
    FollowAppend(env, t, ArchivedBlocks(uses + it.results), sends);
    FollowAppend(env, t, text, ArchivedBlocks(uses + it.results) + sends);
  }

  lemma ReportParts(t: Talk, it: Iteration)
    requires LastPair(t, Pair(t.last, UsesIn(it.assistant), it.results)) && t.filed == []
    requires it.valid == Collect(UsesIn(it.assistant), IfWellFormed)
    ensures ToolReport(it) ==
      ArchivedText(it.text) + (ArchivedBlocks(UsesIn(it.assistant) + it.results) + Sends(ToolOutputs(it)))
    ensures var t' := t.(filed := UsesIn(it.assistant) + it.results);
      && LastPair(t', Pair(t'.last, UsesIn(it.assistant), it.results)) && t.pairs != []
      && t.filed + (UsesIn(it.assistant) + it.results) <=
           t.pairs[|t.pairs| - 1].uses + t.pairs[|t.pairs| - 1].results
      && t' == t.(filed := t.filed + (UsesIn(it.assistant) + it.results))
  {
    var uses := UsesIn(it.assistant);
    hide UsesIn;
    assert [] + (uses + it.results) == uses + it.results;
    assert ArchivedBlocks(uses + it.results) == ArchivedTools(it);
  }

  lemma TextIsFiled(env: Env, t: Talk, text: string)
    ensures Silent(ArchivedText(text)) && EachFollows(env, t, ArchivedText(text))
  {
  }

  lemma ReportIsTold(env: Env, t: Talk, it: Iteration)
    requires Forwards(it) && LastPair(t, Pair(t.last, UsesIn(it.assistant), it.results))
    requires t.filed == UsesIn(it.assistant) + it.results && it.valid == Collect(UsesIn(it.assistant), IfWellFormed)
    ensures Silent(Sends(ToolOutputs(it))) && EachFollows(env, t, Sends(ToolOutputs(it)))
  {
    hide UsesIn;
    var sends := Sends(ToolOutputs(it));
    forall i | 0 <= i < |sends|
      ensures Follows(env, t, sends[i]) && sends[i].Sent? && !sends[i].output.GuardOut?
    {
    }
  }

  lemma UsesAre(env: Env, content: seq<Block>, reply: seq<ModelEvent>)
    requires Says(env, content, reply)
    ensures UsesIn(content) == ToolBlocks(reply)
  {
  }

  lemma MoreFollows(env: Env, t: Talk, s: State, it: Iteration)
    requires BatchOpen(env, t, s.calls, s.request, s.iteration, it) && s.iteration < env.maxIterations
    requires AfterTools(env, s, it).More?
    ensures StepFollows(env, t, AfterTools(env, s, it))
  {
    hide *;
    var tools, between := ToolEffects(it, s.iteration), Between(it, s.iteration);
    var t' := TalkAfter(env, t, tools);
    var pair := Pair(t.last, ToolBlocks(t.last), it.results);
    QueuedFollows(env, t, s, it);
    MoreParts(env, s, it);
    OpenBatchIs(env, t, s, it);
    BetweenFollows(env, t', it, s.iteration);
    FollowAppend(env, t, tools, between);
    NextRequest(env, s, it);
    CarriesMore(env, s.request, t.pairs, pair, Message(Assistant, it.assistant), Message(User, it.results), [],
                AfterTools(env, s, it).next.request);
    MorePoised(env, t', t, s, it);
  }

  lemma MorePoised(env: Env, t': Talk, t: Talk, s: State, it: Iteration)
    requires BatchOpen(env, t, s.calls, s.request, s.iteration, it) && AfterTools(env, s, it).More?
    requires t'.asked == s.calls && t'.unrun == [] && !t'.stopped
    requires t'.pairs == t.pairs + [Pair(t.last, ToolBlocks(t.last), it.results)]
    requires var step := AfterTools(env, s, it);
      Carries(env, step.next.request, t'.pairs, 0) && AllFollow(env, t, step.effects)
      && TalkAfter(env, t, step.effects) == t'
    ensures StepFollows(env, t, AfterTools(env, s, it))
  {
    NextRequest(env, s, it);
    hide AllFollow, TalkAfter, Carries, ToolEffects;
  }

  /** The guard's event, if it does not stop the turn, and the end of the iteration. */
  lemma BetweenFollows(env: Env, t: Talk, it: Iteration, iteration: nat)
    requires !GuardStopped(it) && !t.stopped && |t.pairs| == iteration + 1
    ensures AllFollow(env, t, Between(it, iteration)) && TalkAfter(env, t, Between(it, iteration)) == t
  {
    var complete := [Sent(CompleteOut(iteration))];
    SilentFollows(env, t, complete);
    if it.guardEvent.Some? {
      var noted := Sent(GuardOut(iteration, it.guardEvent.value));
      FollowOne(env, t, noted);
      assert Heard(env, t, noted) == t;
      FollowAppend(env, t, [noted], complete);
    } else {
      assert Between(it, iteration) == complete;
    }
  }

  lemma NextRequest(env: Env, s: State, it: Iteration)
    requires AfterTools(env, s, it).More?
    ensures var next := AfterTools(env, s, it).next;
      && next.calls == s.calls && next.request.system == s.request.system && next.request.tools == s.request.tools
      && var pair := [Message(Assistant, it.assistant), Message(User, it.results)];
         next.request.messages == s.request.messages + pair + []
  {
    hide ToolEffects;
  }

  lemma StopFollows(env: Env, t: Talk, s: State, it: Iteration)
    requires BatchOpen(env, t, s.calls, s.request, s.iteration, it) && s.iteration < env.maxIterations
    requires AfterTools(env, s, it).Ended? && GuardStopped(it)
    ensures var step := AfterTools(env, s, it);
      AllFollow(env, t, step.effects) && Explains(env, TalkAfter(env, t, step.effects), step.effects, step.error)
  {
    hide *;
    StopHasEvent(it);
    StopError(env, s, it);
    var tools, stop := ToolEffects(it, s.iteration), Sent(GuardOut(s.iteration, it.guardEvent.value));
    var a := StopAnswer(env, s, it);
    var finish := if a.Attempted? then FinishForced(a.iteration, s.iteration, s.errors) else [];
    var t' := TalkAfter(env, t, tools);
    var t'' := Heard(env, t', stop);
    QueuedFollows(env, t, s, it);
    StopIsHeard(env, t', stop);
    StopParts(env, s, it);
    OpenBatchIs(env, t, s, it);
    FollowOne(env, t', stop);
    StopAnswerFollows(env, t'', s, it, t.pairs, Pair(t.last, ToolBlocks(t.last), it.results));
    if a.Attempted? {
      ForcedFinishFollows(env, TalkAfter(env, t'', a.effects), a.iteration, s.iteration, s.errors);
    } else {
      FollowNothing(env, TalkAfter(env, t'', a.effects));
    }
    FollowAppend(env, t, tools, [stop]);
    FollowAppend(env, t, tools + [stop], a.effects);
    FollowAppend(env, t, tools + [stop] + a.effects, finish);
    StopExplains(env, TalkAfter(env, t, tools + [stop] + a.effects + finish), s, it);
  }

  lemma StopExplains(env: Env, end: Talk, s: State, it: Iteration)
    requires AfterTools(env, s, it).Ended? && GuardStopped(it)
    ensures Explains(env, end, AfterTools(env, s, it).effects, AfterTools(env, s, it).error)
  {
    hide *;
    StopHasEvent(it);
    StopParts(env, s, it);
    StopError(env, s, it);
    var a := StopAnswer(env, s, it);
    var before := ToolEffects(it, s.iteration) + [Sent(GuardOut(s.iteration, it.guardEvent.value))];
    if a.Attempted? {
      FinishExplains(env, end, a.iteration, s.iteration, s.errors);
      ExplainsAfter(env, end, before + a.effects, FinishForced(a.iteration, s.iteration, s.errors), None);
    } else {
      StopAnswerExplains(env, end, s, it);
      ExplainsAfter(env, end, before, a.effects, Some(a.error));
      assert before + a.effects + [] == before + a.effects;
    }
  }

  lemma StopError(env: Env, s: State, it: Iteration)
    requires AfterTools(env, s, it).Ended?
    ensures var a := StopAnswer(env, s, it);
      && AfterTools(env, s, it).error == (if a.Broke? then Some(a.error) else None)
      && (a.Attempted? ==> a.iteration.forced.Some? && a.iteration.forced.value.reason == Repeat)
  {
    hide ToolEffects, FinishForced;
  }

  lemma StopAnswerExplains(env: Env, t: Talk, s: State, it: Iteration)
    ensures var a := StopAnswer(env, s, it); a.Broke? ==> Explains(env, t, a.effects, Some(a.error))
  {
    var identical := RunLength(s.log, |s.log|);
    ForcedExplains(env, t, s.calls, s.request, it.assistant, it.results, Repeat,
                   RepeatReason(|s.log| - identical + 1, identical), s.log);
    hide Explains, ForcedAnswer;
  }

  lemma StopHasEvent(it: Iteration)
    requires GuardStopped(it)
    ensures it.guardEvent.Some? && it.guardEvent.value.stop
  {
  }

  lemma StopIsHeard(env: Env, t: Talk, stop: Effect)
    requires stop.Sent? && stop.output.GuardOut? && stop.output.meta.stop && stop.output.iteration + 1 == |t.pairs|
    ensures Heard(env, t, stop) == t.(stopped := true) && Follows(env, t, stop)
  {
  }

  /** Finishing with a forced answer, or with a reply's text. */
  lemma ForcedFinishFollows(env: Env, t: Talk, it: Iteration, iteration: nat, errors: seq<string>)
    requires it.forced.Some? && Spoken(env, t, it)
    requires iteration == if it.forced.value.reason == Limit then |t.pairs| else |t.pairs| - 1
    ensures AllFollow(env, t, FinishForced(it, iteration, errors))
    ensures TalkAfter(env, t, FinishForced(it, iteration, errors)) == t
  {
    SpokenIsAnswer(env, t, it);
    FinishesSilently(env, t, it, iteration, errors);
    hide Spoken, FinishForced, AnswerOk;
    SilentFollows(env, t, FinishForced(it, iteration, errors));
  }

  lemma PlainFinishFollows(env: Env, t: Talk, it: Iteration, errors: seq<string>)
    requires it.forced.None? && Spoken(env, t, it) && it.text != ""
    ensures AllFollow(env, t, FinishPlain(it, errors))
  {
    SpokenIsAnswer(env, t, it);
    PlainFinishesSilently(env, t, it, errors);
    hide Spoken, FinishPlain, AnswerOk;
    SilentFollows(env, t, FinishPlain(it, errors));
  }

  lemma SpokenIsAnswer(env: Env, t: Talk, it: Iteration)
    requires Spoken(env, t, it)
    ensures AnswerOk(env, t, [Text(it.text)]) && Forwards(it)
    ensures it.forced.Some? ==> it.assistant == [Text(it.text)]
    ensures Blank(it.text) ==> AnswerOk(env, t, [Text(PLACEHOLDER)])
  {
    hide AnswerTo;
    var reason: string :| it.text == AnswerTo(env, t, reason);
    assert AnswerAs(env, t, [Text(it.text)], reason);
    assert Blank(it.text) ==> AnswerAs(env, t, [Text(PLACEHOLDER)], reason);
  }

  lemma FinishesSilently(env: Env, t: Talk, it: Iteration, iteration: nat, errors: seq<string>)
    requires it.forced.Some? && it.assistant == [Text(it.text)] && AnswerOk(env, t, [Text(it.text)])
    requires OutputOk(env, t, FinalAnswerOut(iteration, it.forced.value.reason, it.forced.value.fallbackUsed))
    ensures Silent(FinishForced(it, iteration, errors)) && EachFollows(env, t, FinishForced(it, iteration, errors))
  {
    hide AnswerOk;
    EndsSilently(env, t, errors);
  }

  lemma PlainFinishesSilently(env: Env, t: Talk, it: Iteration, errors: seq<string>)
    requires it.text != "" && Forwards(it) && AnswerOk(env, t, [Text(it.text)])
    ensures Silent(FinishPlain(it, errors)) && EachFollows(env, t, FinishPlain(it, errors))
  {
    hide AnswerOk;
    EndsSilently(env, t, errors);
  }

  lemma EndsSilently(env: Env, t: Talk, errors: seq<string>)
    ensures Silent(AfterAnswer(errors)) && EachFollows(env, t, AfterAnswer(errors))
  {
  }

  lemma OpenBatchIs(env: Env, t: Talk, s: State, it: Iteration)
    requires BatchOpen(env, t, s.calls, s.request, s.iteration, it)
    ensures Carries(env, s.request, t.pairs, 0) && Says(env, it.assistant, t.last)
    ensures UsesIn(it.assistant) == ToolBlocks(t.last)
  {
    hide Carries;
  }

  lemma StopAnswerFollows(env: Env, t: Talk, s: State, it: Iteration, before: seq<Pair>, pair: Pair)
    requires t.asked == s.calls && Carries(env, s.request, before, 0) && t.pairs + t.unrun == before + [pair]
    requires Says(env, it.assistant, pair.reply) && UsesIn(it.assistant) == pair.uses && it.results == pair.results
    requires t.stopped
    ensures var a := StopAnswer(env, s, it);
      var t' := TalkAfter(env, t, a.effects);
      AllFollow(env, t, a.effects) && (a.Attempted? ==> Spoken(env, t', a.iteration)) && t'.pairs == t.pairs
  {
    hide Carries, Says, UsesIn;
    var identical := RunLength(s.log, |s.log|);
    ForcedFollows(env, t, s.calls, s.request, it.assistant, it.results, Repeat,
                  RepeatReason(|s.log| - identical + 1, identical), s.log, before, pair);
  }

  lemma SettleFollows(env: Env, t: Talk, s: State, it: Iteration)
    requires it.hadTools ==> BatchOpen(env, t, s.calls, s.request, s.iteration, it) && s.iteration < env.maxIterations
    requires it.hadTools ==> it.forced.None?
    requires !it.hadTools ==> Spoken(env, t, it) && it.text != "" && |t.pairs| == s.iteration
    requires it.forced.Some? ==> it.forced.value.reason == Limit
    ensures StepFollows(env, t, Settle(env, s, it))
  {
    hide FinishForced, FinishPlain, AfterTools, BatchOpen, AllFollow, Spoken, Explains;
    if it.forced.Some? {
      ForcedFinishFollows(env, t, it, s.iteration, s.errors);
      FinishExplains(env, TalkAfter(env, t, FinishForced(it, s.iteration, s.errors)), it, s.iteration, s.errors);
    } else if !it.hadTools {
      PlainFinishFollows(env, t, it, s.errors);
      FinishExplains(env, TalkAfter(env, t, FinishPlain(it, s.errors)), it, s.iteration, s.errors);
    } else if AfterTools(env, s, it).More? {
      MoreFollows(env, t, s, it);
    } else {
      StopParts(env, s, it);
      StopFollows(env, t, s, it);
    }
  }

  lemma PrependFollows(env: Env, t: Talk, before: seq<Effect>, step: Step)
    requires AllFollow(env, t, before) && StepFollows(env, TalkAfter(env, t, before), step)
    ensures StepFollows(env, t, Prepend(before, step))
  {
    hide AllFollow, TalkAfter, Poised, Explains;
    FollowAppend(env, t, before, step.effects);
    if step.Ended? {
      ExplainsAfter(env, TalkAfter(env, t, before + step.effects), before, step.effects, step.error);
    }
  }

  lemma RoundFollows(env: Env, t: Talk, s: State)
    requires Poised(env, t, s.calls, s.request, s.iteration)
    ensures StepFollows(env, t, Iterate(env, s))
  {
    hide RunIteration, Settle, FinishPlaceholder, AllFollow, TalkAfter, Poised, BatchOpen, StepFollows, Spoken,
         Explains;
    var first := RunIteration(env, s.calls, s.request, s.iteration, s.log, env.guard);
    AttemptFollows(env, t, s.calls, s.request, s.iteration, s.log, env.guard);
    var t1 := TalkAfter(env, t, first.effects);
    if first.Broke? {
      EndFollows(env, t, first.effects, Some(first.error));
    } else if !Empty(first.iteration) {
      var s' := s.(calls := first.calls, log := first.log);
      NotEmptySpeaks(env, s.calls, s.request, s.iteration, s.log, env.guard);
      PoisedPairs(env, t1, first.calls, s.request, s.iteration, first.iteration);
      SettleFollows(env, t1, s', first.iteration);
      PrependFollows(env, t, first.effects, Settle(env, s', first.iteration));
    } else if s.retryUsed {
      PlaceholderFollows(env, t, first.effects, first.iteration, s.errors);
    } else {
      RetryFollows(env, t, s, first);
    }
  }

  lemma PoisedPairs(env: Env, t: Talk, n: nat, request: Request, iteration: nat, it: Iteration)
    requires Poised(env, t, n, request, iteration) || BatchOpen(env, t, n, request, iteration, it)
    ensures |t.pairs| == iteration
  {
    hide Ready, Says, BatchResults;
  }

  lemma NotEmptySpeaks(env: Env, n: nat, request: Request, iteration: nat, log: seq<Seen>, guard: Option<Limits>)
    ensures var a := RunIteration(env, n, request, iteration, log, guard);
      a.Attempted? ==>
        && (a.iteration.hadTools ==> a.iteration.forced.None?)
        && (!a.iteration.hadTools && !Empty(a.iteration) ==> a.iteration.text != "")
        && (a.iteration.forced.Some? ==> a.iteration.forced.value.reason == Limit)
  {
    hide ToolBlocks, AssistantContent, GuardWalk, NotRunResults, MalformedResults, ExecutedResults;
  }

  lemma EndFollows(env: Env, t: Talk, effects: seq<Effect>, error: Option<Error>)
    requires AllFollow(env, t, effects) && Explains(env, TalkAfter(env, t, effects), effects, error)
    ensures StepFollows(env, t, Ended(effects, error))
  {
  }

  lemma PlaceholderFollows(env: Env, t: Talk, before: seq<Effect>, it: Iteration, errors: seq<string>)
    requires AllFollow(env, t, before) && Spoken(env, TalkAfter(env, t, before), it) && Blank(it.text)
    ensures StepFollows(env, t, Ended(before + FinishPlaceholder(errors), None))
  {
    hide *;
    var effects := FinishPlaceholder(errors);
    SpokenIsAnswer(env, TalkAfter(env, t, before), it);
    PlaceholderIsSilent(env, TalkAfter(env, t, before), errors);
    SilentFollows(env, TalkAfter(env, t, before), effects);
    FollowAppend(env, t, before, effects);
    FinishExplains(env, TalkAfter(env, t, before + effects), it, 0, errors);
    ExplainsAfter(env, TalkAfter(env, t, before + effects), before, effects, None);
    EndFollows(env, t, before + effects, None);
  }

  lemma PlaceholderIsSilent(env: Env, t: Talk, errors: seq<string>)
    requires AnswerOk(env, t, [Text(PLACEHOLDER)])
    ensures Silent(FinishPlaceholder(errors)) && EachFollows(env, t, FinishPlaceholder(errors))
  {
    hide AnswerOk;
    EndsSilently(env, t, errors);
  }

  lemma RetryIsTold(env: Env, t: Talk, n: nat, request: Request, iteration: nat)
    requires Poised(env, t, n, request, iteration) && n > 0
    ensures EachFollows(env, t, [Sent(RetryOut(iteration))]) && Silent([Sent(RetryOut(iteration))])
  {
    hide Ready;
  }

  lemma RetryFollows(env: Env, t: Talk, s: State, first: Attempt)
    requires first == RunIteration(env, s.calls, s.request, s.iteration, s.log, env.guard) && first.Attempted?
    requires Empty(first.iteration) && !s.retryUsed && AllFollow(env, t, first.effects)
    requires Poised(env, TalkAfter(env, t, first.effects), first.calls, s.request, s.iteration)
    ensures StepFollows(env, t, Iterate(env, s))
  {
    var retry := [Sent(RetryOut(s.iteration))];
    var t1 := TalkAfter(env, t, first.effects);
    RetryIsTold(env, t1, first.calls, s.request, s.iteration);
    SilentFollows(env, t1, retry);
    hide RunIteration, Settle, FinishPlaceholder, AllFollow, TalkAfter, Poised, BatchOpen, StepFollows, Spoken,
         Explains;
    FollowAppend(env, t, first.effects, retry);
    var second := RunIteration(env, first.calls, s.request, s.iteration, first.log, None);
    AttemptFollows(env, t1, first.calls, s.request, s.iteration, first.log, None);
    FollowAppend(env, t, first.effects + retry, second.effects);
    var before := first.effects + retry + second.effects;
    if second.Broke? {
      ExplainsAfter(env, TalkAfter(env, t, before), first.effects + retry, second.effects, Some(second.error));
      EndFollows(env, t, before, Some(second.error));
    } else if Empty(second.iteration) {
      PlaceholderFollows(env, t, before, second.iteration, s.errors);
    } else {
      NotEmptySpeaks(env, first.calls, s.request, s.iteration, first.log, None);
      PoisedPairs(env, TalkAfter(env, t, before), second.calls, s.request, s.iteration, second.iteration);
      var s' := s.(calls := second.calls, log := second.log, retryUsed := true);
      SettleFollows(env, TalkAfter(env, t, before), s', second.iteration);
      PrependFollows(env, t, before, Settle(env, s', second.iteration));
    }
  }

  lemma {:induction false} RunFollows(env: Env, t: Talk, s: State)
    requires Poised(env, t, s.calls, s.request, s.iteration)
    ensures var done := RunFrom(env, s);
      AllFollow(env, t, done.effects) && Explains(env, TalkAfter(env, t, done.effects), done.effects, done.error)
    decreases env.maxIterations - s.iteration
  {
    hide Iterate, AllFollow, TalkAfter, Poised, Explains;
    RoundFollows(env, t, s);
    var step := Iterate(env, s);
    if step.More? {
      var rest := RunFrom(env, step.next);
      RunFollows(env, TalkAfter(env, t, step.effects), step.next);
      FollowAppend(env, t, step.effects, rest.effects);
      ExplainsAfter(env, TalkAfter(env, t, step.effects + rest.effects), step.effects, rest.effects, rest.error);
    }
  }

  /** Every effect of every turn follows from those before it: what a request carries, what the model answered,
      which calls ran, and which results were queued. */
  lemma EveryEffectFollows(env: Env, i: nat)
    requires i < |Turn(env).effects|
    ensures Follows(env, TalkAfter(env, SILENCE, Turn(env).effects[..i]), Turn(env).effects[i])
  {
    hide *;
    var opening, rest := Opening(env), RunFrom(env, Initial(env)).effects;
    OpeningIsSilent(env);
    SilentFollows(env, SILENCE, opening);
    RunFollows(env, SILENCE, Initial(env));
    FollowAppend(env, SILENCE, opening, rest);
    OneFollows(env, SILENCE, opening + rest, i);
  }

  /** The last effect of every turn explains whether and how it failed. */
  lemma EveryErrorExplained(env: Env)
    ensures Explains(env, TalkAfter(env, SILENCE, Turn(env).effects), Turn(env).effects, Turn(env).error)
  {
    hide *;
    var opening, rest := Opening(env), RunFrom(env, Initial(env));
    OpeningIsSilent(env);
    SilentFollows(env, SILENCE, opening);
    RunFollows(env, SILENCE, Initial(env));
    FollowAppend(env, SILENCE, opening, rest.effects);
    ExplainsAfter(env, TalkAfter(env, SILENCE, opening + rest.effects), opening, rest.effects, rest.error);
  }

  lemma OpeningIsSilent(env: Env)
    ensures Silent(Opening(env)) && EachFollows(env, SILENCE, Opening(env))
    ensures Poised(env, SILENCE, Initial(env).calls, Initial(env).request, Initial(env).iteration)
    ensures Turn(env).effects == Opening(env) + RunFrom(env, Initial(env)).effects
    ensures Turn(env).error == RunFrom(env, Initial(env)).error
  {
    hide RunFrom;
  }

  lemma OneFollows(env: Env, t: Talk, effects: seq<Effect>, i: nat)
    requires AllFollow(env, t, effects) && i < |effects|
    ensures Follows(env, TalkAfter(env, t, effects[..i]), effects[i])
  {
    hide Follows, TalkAfter;
  }

  // ---- reading a reply ----

  function TextIn(e: ModelEvent): string {
    if e.TextEvent? then e.text else ""
  }

  function ThinkingIn(e: ModelEvent): string {
    if e.ThinkingEvent? then e.text else ""
  }

  function CallIn(e: ModelEvent): seq<Block> {
    if e.ToolEvent? then [ToolUse(e.id, e.call, e.malformed)] else []
  }

  function OutputIn(e: ModelEvent): seq<Output> {
    match e
    case TextEvent(text) => if text == "" then [] else [TextOut(text)]
    case UsageEvent(tokens) => [UsageOut(tokens)]
    case _ => []
  }

  /** A reply is read event by event: texts, reasoning, calls and forwarded events, each in order. */
  lemma {:induction false} ReadInOrder(events: seq<ModelEvent>)
    ensures TextOf(events) == Collect(events, TextIn) && ThinkingOf(events) == Collect(events, ThinkingIn)
    ensures ToolBlocks(events) == Collect(events, CallIn) && Forwarded(events) == Collect(events, OutputIn)
  {
    if events != [] {
      var before, last := events[..|events| - 1], events[|events| - 1];
      ReadInOrder(before);
      assert events == before + [last];
      CollectAppend(before, [last], TextIn);
      CollectAppend(before, [last], ThinkingIn);
      CollectAppend(before, [last], CallIn);
      CollectAppend(before, [last], OutputIn);
      CollectOne(last, TextIn);
      CollectOne(last, ThinkingIn);
      CollectOne(last, CallIn);
      CollectOne(last, OutputIn);
    }
  }
}
