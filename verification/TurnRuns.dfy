/** What every turn guarantees whatever the model answers: bounds on the calls, the order of finalizing and
    streaming, one bus pair per tool-calling reply, and an archive that holds what was streamed. */
module TurnRuns {
  import opened Wrappers
  import opened RepeatGuards
  import opened TurnModel
  import opened Sequences

  // ---- observing a list of effects ----

  function AskOf(e: Effect): seq<Effect> {
    if e.Asked? then [e] else []
  }

  function RunOf(e: Effect): seq<nat> {
    if e.Ran? then [e.iteration] else []
  }

  function QueuedUses(e: Effect): seq<seq<Block>> {
    if e.Queued? then [e.uses] else []
  }

  /** The tool calls of an unforced reply that has any. */
  function RepliedUses(e: Effect): seq<seq<Block>> {
    if e.Asked? && !e.forced && e.reply.Reply? && ToolBlocks(e.reply.events) != []
    then [ToolBlocks(e.reply.events)]
    else []
  }

  function OutText(o: Output): string {
    if o.TextOut? then o.text else ""
  }

  function TextSent(e: Effect): string {
    if e.Sent? then OutText(e.output) else ""
  }

  function BlockText(b: Block): string {
    if b.Text? then b.text else ""
  }

  /** The text a payload contributes to one side of the conversation. */
  function PayloadText(p: Payload, role: Role): string {
    if p.Said? && p.message.role == role then Collect(p.message.content, BlockText) else ""
  }

  /** The text of an archived assistant message. */
  function TextArchived(e: Effect): string {
    if e.Archived? then PayloadText(e.payload, Assistant) else ""
  }

  predicate Outward(effects: seq<Effect>) {
    forall i :: 0 <= i < |effects| ==> effects[i].Archived? || effects[i].Finalized? || effects[i].Sent?
  }

  lemma OutwardAsksNothing(effects: seq<Effect>)
    requires Outward(effects)
    ensures Collect(effects, AskOf) == [] && Collect(effects, RunOf) == []
    ensures Collect(effects, QueuedUses) == [] && Collect(effects, RepliedUses) == []
  {
    CollectNothing(effects, AskOf);
    CollectNothing(effects, RunOf);
    CollectNothing(effects, QueuedUses);
    CollectNothing(effects, RepliedUses);
  }

  // ---- how many calls a turn makes ----

  function Asks(effects: seq<Effect>): nat {
    |Collect(effects, AskOf)|
  }

  lemma AsksAppend(a: seq<Effect>, b: seq<Effect>)
    ensures Asks(a + b) == Asks(a) + Asks(b)
  {
    CollectAppend(a, b, AskOf);
  }

  /** The fallback would itself count as an empty reply. */
  predicate BlankFallback(env: Env) {
    env.finalAnswer && Blank(env.fallback(LimitReason(env.maxIterations)))
  }

  lemma ForcedAsksOnce(env: Env, n: nat, request: Request, assistant: seq<Block>, results: seq<Block>,
                       reason: Reason, reasonText: string, log: seq<Seen>)
    ensures var a := ForcedAnswer(env, n, request, assistant, results, reason, reasonText, log);
      && Asks(a.effects) == 1
      && (a.Attempted? ==> a.calls == n + 1 && (Empty(a.iteration) ==> Blank(env.fallback(reasonText))))
  {
    var a := ForcedAnswer(env, n, request, assistant, results, reason, reasonText, log);
    CollectOne(a.effects[0], AskOf);
  }

  lemma AttemptAsks(env: Env, n: nat, request: Request, iteration: nat, log: seq<Seen>, guard: Option<Limits>)
    ensures var a := RunIteration(env, n, request, iteration, log, guard);
      && 1 <= Asks(a.effects) <= 2
      && (iteration < env.maxIterations ==> Asks(a.effects) == 1)
      && (a.Attempted? ==> a.calls == n + Asks(a.effects))
      && (a.Attempted? && Empty(a.iteration) ==> Asks(a.effects) == 1 || BlankFallback(env))
  {
    var reply := env.model(n, request);
    var asked := [Asked(request, false, reply)];
    CollectOne(asked[0], AskOf);
    if reply.Reply? {
      var uses := ToolBlocks(reply.events);
      if uses != [] && iteration >= env.maxIterations && env.finalAnswer {
        var results := NotRunResults(env, uses);
        var assistant := AssistantContent(env, reply.events);
        ForcedAsksOnce(env, n + 1, request, assistant, results, Limit, LimitReason(env.maxIterations), log);
        var pair := [Queued(iteration, uses, results)];
        CollectOne(pair[0], AskOf);
        AsksAppend(asked, pair);
        AsksAppend(asked + pair, ForcedAnswer(env, n + 1, request, assistant, results, Limit,
                                              LimitReason(env.maxIterations), log).effects);
      } else if uses != [] && iteration < env.maxIterations && env.hasExecutor {
        var valid := ToolIteration(env, n, log, guard, reply.events).0.valid;
        var ran := if valid != [] then [Ran(iteration, valid)] else [];
        CollectNothing(ran, AskOf);
        AsksAppend(asked, ran);
      }
    }
  }

  lemma FinishOutward(it: Iteration, iteration: nat, errors: seq<string>)
    ensures Outward(FinishPlain(it, errors)) && Outward(FinishPlaceholder(errors))
    ensures it.forced.Some? ==> Outward(FinishForced(it, iteration, errors))
  {
  }

  lemma ToolReportOutward(it: Iteration)
    ensures Outward(ToolReport(it))
  {
  }

  lemma ToolEffectsParts(it: Iteration, iteration: nat)
    ensures Asks(ToolEffects(it, iteration)) == 0
    ensures Collect(ToolEffects(it, iteration), RunOf) == []
    ensures Collect(ToolEffects(it, iteration), QueuedUses) == [UsesIn(it.assistant)]
    ensures Collect(ToolEffects(it, iteration), RepliedUses) == []
  {
    ToolReportOutward(it);
    hide ToolReport;
    var report := ToolReport(it);
    var pair := [Queued(iteration, UsesIn(it.assistant), it.results)];
    OutwardAsksNothing(report);
    CollectAppend(pair, report, AskOf);
    AppendTools(pair, report);
  }

  lemma AppendTools(a: seq<Effect>, b: seq<Effect>)
    ensures Collect(a + b, RunOf) == Collect(a, RunOf) + Collect(b, RunOf)
    ensures Collect(a + b, QueuedUses) == Collect(a, QueuedUses) + Collect(b, QueuedUses)
    ensures Collect(a + b, RepliedUses) == Collect(a, RepliedUses) + Collect(b, RepliedUses)
  {
    CollectAppend(a, b, RunOf);
    CollectAppend(a, b, QueuedUses);
    CollectAppend(a, b, RepliedUses);
  }

  /** The events after an executed iteration that does not stop. */
  function Between(it: Iteration, iteration: nat): (effects: seq<Effect>)
    ensures Outward(effects)
  {
    (if it.guardEvent.Some? then [Sent(GuardOut(iteration, it.guardEvent.value))] else []) +
    [Sent(CompleteOut(iteration))]
  }

  lemma MoreParts(env: Env, s: State, it: Iteration)
    requires AfterTools(env, s, it).More?
    ensures AfterTools(env, s, it).effects == ToolEffects(it, s.iteration) + Between(it, s.iteration)
    ensures !GuardStopped(it)
  {
  }

  /** After a guard stop: the iteration's effects, the stop event, the forced call and the closing. */
  lemma StopParts(env: Env, s: State, it: Iteration)
    requires AfterTools(env, s, it).Ended?
    ensures GuardStopped(it)
    ensures var a := StopAnswer(env, s, it);
      AfterTools(env, s, it).effects ==
        ToolEffects(it, s.iteration) + [Sent(GuardOut(s.iteration, it.guardEvent.value))] + a.effects +
        (if a.Attempted? then FinishForced(a.iteration, s.iteration, s.errors) else [])
  {
  }

  lemma SettleAsks(env: Env, s: State, it: Iteration)
    ensures Asks(Settle(env, s, it).effects) <= 1
    ensures !it.hadTools || Settle(env, s, it).More? ==> Asks(Settle(env, s, it).effects) == 0
    ensures Settle(env, s, it).More? ==>
      Settle(env, s, it).next.retryUsed == s.retryUsed && Settle(env, s, it).next.calls == s.calls
  {
    hide ToolEffects, FinishForced, FinishPlain;
    FinishOutward(it, s.iteration, s.errors);
    if it.forced.Some? {
      OutwardAsksNothing(FinishForced(it, s.iteration, s.errors));
    } else if !it.hadTools {
      OutwardAsksNothing(FinishPlain(it, s.errors));
    } else {
      ToolEffectsParts(it, s.iteration);
      AfterToolsAsks(env, s, it);
    }
  }

  lemma StopAsks(env: Env, s: State, it: Iteration)
    requires GuardStopped(it)
    ensures var a := StopAnswer(env, s, it);
      && Asks([Sent(GuardOut(s.iteration, it.guardEvent.value))]) == 0 && Asks(a.effects) == 1
      && (a.Attempted? ==> Asks(FinishForced(a.iteration, s.iteration, s.errors)) == 0)
  {
    var identical := RunLength(s.log, |s.log|);
    ForcedAsksOnce(env, s.calls, s.request, it.assistant, it.results, Repeat,
                   RepeatReason(|s.log| - identical + 1, identical), s.log);
    var a := StopAnswer(env, s, it);
    OutwardAsksNothing([Sent(GuardOut(s.iteration, it.guardEvent.value))]);
    if a.Attempted? {
      FinishOutward(a.iteration, s.iteration, s.errors);
      OutwardAsksNothing(FinishForced(a.iteration, s.iteration, s.errors));
    }
  }

  lemma AfterToolsAsks(env: Env, s: State, it: Iteration)
    ensures Asks(AfterTools(env, s, it).effects) <= 1
    ensures AfterTools(env, s, it).More? ==> Asks(AfterTools(env, s, it).effects) == 0
  {
    ToolEffectsParts(it, s.iteration);
    var tools := ToolEffects(it, s.iteration);
    if AfterTools(env, s, it).More? {
      MoreParts(env, s, it);
      OutwardAsksNothing(Between(it, s.iteration));
      hide AfterTools, ToolEffects, GuardStopped;
      AsksAppend(tools, Between(it, s.iteration));
    } else {
      StopParts(env, s, it);
      StopAsks(env, s, it);
      OutwardAsksNothing([]);
      hide AfterTools, ToolEffects, StopAnswer, FinishForced, GuardStopped, AskOf;
      var a, stop := StopAnswer(env, s, it), [Sent(GuardOut(s.iteration, it.guardEvent.value))];
      var finish := if a.Attempted? then FinishForced(a.iteration, s.iteration, s.errors) else [];
      AsksAppend(tools, stop);
      AsksAppend(tools + stop, a.effects);
      AsksAppend(tools + stop + a.effects, finish);
    }
  }

  function One(b: bool): nat {
    if b then 1 else 0
  }

  /** What is left of the call budget of a turn. */
  function Budget(env: Env, s: State): nat
    requires s.iteration <= env.maxIterations
  {
    env.maxIterations - s.iteration + 2 + One(!s.retryUsed) + One(!s.retryUsed && BlankFallback(env))
  }

  lemma RoundAsks(env: Env, s: State)
    requires s.iteration <= env.maxIterations
    ensures var step := Iterate(env, s);
      && Asks(step.effects) + (if step.More? then Budget(env, step.next) else 0) <= Budget(env, s)
      && (step.More? ==> step.next.calls == s.calls + Asks(step.effects))
  {
    hide RunIteration, Settle, FinishPlaceholder, Empty, BlankFallback;
    var first := RunIteration(env, s.calls, s.request, s.iteration, s.log, env.guard);
    AttemptAsks(env, s.calls, s.request, s.iteration, s.log, env.guard);
    if first.Attempted? {
      var it := first.iteration;
      var placeholder := FinishPlaceholder(s.errors);
      FinishOutward(it, s.iteration, s.errors);
      OutwardAsksNothing(placeholder);
      if !Empty(it) {
        var s' := s.(calls := first.calls, log := first.log);
        SettleAsks(env, s', it);
        AsksAppend(first.effects, Settle(env, s', it).effects);
      } else if s.retryUsed {
        AsksAppend(first.effects, placeholder);
      } else {
        RetryAsks(env, s, first, placeholder);
      }
    }
  }

  lemma RetryAsks(env: Env, s: State, first: Attempt, placeholder: seq<Effect>)
    requires s.iteration <= env.maxIterations && !s.retryUsed
    requires first == RunIteration(env, s.calls, s.request, s.iteration, s.log, env.guard)
    requires first.Attempted? && Empty(first.iteration) && first.calls == s.calls + Asks(first.effects)
    requires Asks(first.effects) == 1 || (Asks(first.effects) == 2 && BlankFallback(env))
    requires s.iteration < env.maxIterations ==> Asks(first.effects) == 1
    requires placeholder == FinishPlaceholder(s.errors) && Asks(placeholder) == 0
    ensures var step := Iterate(env, s);
      && Asks(step.effects) + (if step.More? then Budget(env, step.next) else 0) <= Budget(env, s)
      && (step.More? ==> step.next.calls == s.calls + Asks(step.effects))
  {
    hide RunIteration, Settle, FinishPlaceholder, Empty, BlankFallback, AskOf;
    var retry := [Sent(RetryOut(s.iteration))];
    OutwardAsksNothing(retry);
    AsksAppend(first.effects, retry);
    var second := RunIteration(env, first.calls, s.request, s.iteration, first.log, None);
    AttemptAsks(env, first.calls, s.request, s.iteration, first.log, None);
    var before := first.effects + retry;
    AsksAppend(before, second.effects);
    if second.Attempted? {
      AsksAppend(before + second.effects, placeholder);
      var s' := s.(calls := second.calls, log := second.log, retryUsed := true);
      SettleAsks(env, s', second.iteration);
      AsksAppend(before + second.effects, Settle(env, s', second.iteration).effects);
      if !Empty(second.iteration) && !Settle(env, s', second.iteration).More? && second.iteration.hadTools {
        assert s.iteration < env.maxIterations;
      }
    }
  }

  lemma {:induction false} RunAsks(env: Env, s: State)
    requires s.iteration <= env.maxIterations
    ensures Asks(RunFrom(env, s).effects) <= Budget(env, s)
    decreases env.maxIterations - s.iteration
  {
    hide Iterate, Budget, Asks;
    RoundAsks(env, s);
    var step := Iterate(env, s);
    if step.More? {
      RunAsks(env, step.next);
      AsksAppend(step.effects, RunFrom(env, step.next).effects);
    }
  }

  /** Every turn asks the model at most `maxIterations` + 3 times, or + 4 when the fallback is blank. */
  lemma CallsBounded(env: Env)
    ensures Asks(Turn(env).effects) <= env.maxIterations + 3 + One(BlankFallback(env))
  {
    RunAsks(env, Initial(env));
    AsksAppend(Opening(env), RunFrom(env, Initial(env)).effects);
    OutwardAsksNothing(Opening(env));
  }

  // ---- tools run and bus pairs queued ----

  lemma {:induction false} UsesInAppend(a: seq<Block>, b: seq<Block>)
    ensures UsesIn(a + b) == UsesIn(a) + UsesIn(b)
  {
    if a == [] {
      assert a + b == b;
    } else {
      UsesInAppend(a[1..], b);
      assert (a + b)[1..] == a[1..] + b;
    }
  }

  lemma {:induction false} UsesInUses(blocks: seq<Block>)
    requires AllUses(blocks)
    ensures UsesIn(blocks) == blocks
  {
    if blocks != [] {
      UsesInUses(blocks[1..]);
    }
  }

  /** The tool calls of an assistant message are those of the reply it was built from. */
  lemma AssistantUses(env: Env, events: seq<ModelEvent>)
    ensures UsesIn(AssistantContent(env, events)) == ToolBlocks(events)
  {
    var thinking := if env.replayReasoning && ThinkingOf(events) != "" then [Thinking(ThinkingOf(events))] else [];
    var text := if TextOf(events) != "" then [Text(TextOf(events))] else [];
    UsesInUses(ToolBlocks(events));
    assert UsesIn(thinking) == [] && UsesIn(text) == [];
    UsesInAppend(thinking, text);
    UsesInAppend(thinking + text, ToolBlocks(events));
  }

  /** No tools were run, and every pair queued answers one replied batch. */
  predicate NoRun(effects: seq<Effect>) {
    Collect(effects, RunOf) == [] && Collect(effects, QueuedUses) == Collect(effects, RepliedUses)
  }

  lemma OutwardNoRun(effects: seq<Effect>)
    requires Outward(effects)
    ensures NoRun(effects)
  {
    OutwardAsksNothing(effects);
  }

  lemma NoRunAppend(a: seq<Effect>, b: seq<Effect>)
    requires NoRun(a) && NoRun(b)
    ensures NoRun(a + b)
  {
    AppendTools(a, b);
  }

  lemma AskTools(request: Request, forced: bool, reply: Reply)
    ensures var asked := [Asked(request, forced, reply)];
      && Collect(asked, RunOf) == [] && Collect(asked, QueuedUses) == []
      && Collect(asked, RepliedUses) == RepliedUses(asked[0])
  {
    var asked := [Asked(request, forced, reply)];
    CollectOne(asked[0], RunOf);
    CollectOne(asked[0], QueuedUses);
    CollectOne(asked[0], RepliedUses);
  }

  lemma ForcedTools(env: Env, n: nat, request: Request, assistant: seq<Block>, results: seq<Block>,
                    reason: Reason, reasonText: string, log: seq<Seen>)
    ensures NoRun(ForcedAnswer(env, n, request, assistant, results, reason, reasonText, log).effects)
  {
    var forced := ForcedRequest(env, request, assistant, results, reasonText);
    AskTools(forced, true, env.model(n, forced));
  }

  lemma AttemptTools(env: Env, n: nat, request: Request, iteration: nat, log: seq<Seen>, guard: Option<Limits>)
    ensures var a := RunIteration(env, n, request, iteration, log, guard);
      && (a.Attempted? && a.iteration.hadTools ==>
            && (Collect(a.effects, RunOf) == [] || Collect(a.effects, RunOf) == [iteration])
            && Collect(a.effects, QueuedUses) == []
            && Collect(a.effects, RepliedUses) == [UsesIn(a.iteration.assistant)])
      && (a.Attempted? && !a.iteration.hadTools ==> NoRun(a.effects))
      && (a.Broke? ==> Collect(a.effects, RunOf) == [])
  {
    hide ToolIteration, AssistantContent, ForcedAnswer;
    var reply := env.model(n, request);
    var asked := [Asked(request, false, reply)];
    AskTools(request, false, reply);
    if reply.Reply? {
      var uses := ToolBlocks(reply.events);
      AssistantUses(env, reply.events);
      if uses != [] && iteration >= env.maxIterations && env.finalAnswer {
        LimitTools(env, n, request, iteration, log, guard);
      } else if uses != [] && iteration < env.maxIterations && env.hasExecutor {
        ToolIterationKeepsCalls(env, n, log, guard, reply.events);
        var valid := ToolIteration(env, n, log, guard, reply.events).0.valid;
        var ran := if valid != [] then [Ran(iteration, valid)] else [];
        RanTools(iteration, valid);
        AppendTools(asked, ran);
      }
    }
  }

  lemma ToolIterationKeepsCalls(env: Env, n: nat, log: seq<Seen>, guard: Option<Limits>, events: seq<ModelEvent>)
    ensures ToolIteration(env, n, log, guard, events).0.assistant == AssistantContent(env, events)
    ensures ToolIteration(env, n, log, guard, events).0.hadTools
  {
  }

  lemma RanTools(iteration: nat, valid: seq<Block>)
    ensures var ran := if valid != [] then [Ran(iteration, valid)] else [];
      && Collect(ran, RunOf) == (if valid != [] then [iteration] else [])
      && Collect(ran, QueuedUses) == [] && Collect(ran, RepliedUses) == []
  {
    var ran := if valid != [] then [Ran(iteration, valid)] else [];
    CollectNothing(ran, QueuedUses);
    CollectNothing(ran, RepliedUses);
  }

  lemma LimitTools(env: Env, n: nat, request: Request, iteration: nat, log: seq<Seen>, guard: Option<Limits>)
    requires var reply := env.model(n, request);
      reply.Reply? && ToolBlocks(reply.events) != [] && iteration >= env.maxIterations && env.finalAnswer
    ensures var a := RunIteration(env, n, request, iteration, log, guard);
      NoRun(a.effects) && (a.Attempted? ==> !a.iteration.hadTools)
  {
    var reply := env.model(n, request);
    var asked := [Asked(request, false, reply)];
    var uses := ToolBlocks(reply.events);
    var results := NotRunResults(env, uses);
    var assistant := AssistantContent(env, reply.events);
    var pair := [Queued(iteration, uses, results)];
    var forced := ForcedAnswer(env, n + 1, request, assistant, results, Limit, LimitReason(env.maxIterations), log);
    assert RunIteration(env, n, request, iteration, log, guard).effects == asked + pair + forced.effects;
    ForcedTools(env, n + 1, request, assistant, results, Limit, LimitReason(env.maxIterations), log);
    AskTools(request, false, reply);
    hide RunIteration, ForcedAnswer;
    assert Collect(pair, RunOf) == [] && Collect(pair, QueuedUses) == [uses] && Collect(pair, RepliedUses) == [];
    AppendTools(asked, pair);
    NoRunAppend(asked + pair, forced.effects);
  }

  lemma SettleTools(env: Env, s: State, it: Iteration)
    ensures var effects := Settle(env, s, it).effects;
      && Collect(effects, RunOf) == [] && Collect(effects, RepliedUses) == []
      && (it.hadTools && it.forced.None? ==> Collect(effects, QueuedUses) == [UsesIn(it.assistant)])
      && (!it.hadTools ==> NoRun(effects))
  {
    hide FinishForced, FinishPlain, AfterTools;
    FinishOutward(it, s.iteration, s.errors);
    if it.forced.Some? {
      OutwardAsksNothing(FinishForced(it, s.iteration, s.errors));
    } else if !it.hadTools {
      OutwardAsksNothing(FinishPlain(it, s.errors));
    } else {
      AfterToolsTools(env, s, it);
    }
  }

  lemma AfterToolsTools(env: Env, s: State, it: Iteration)
    ensures var effects := AfterTools(env, s, it).effects;
      && Collect(effects, RunOf) == [] && Collect(effects, RepliedUses) == []
      && Collect(effects, QueuedUses) == [UsesIn(it.assistant)]
  {
    ToolEffectsParts(it, s.iteration);
    var tools := ToolEffects(it, s.iteration);
    if AfterTools(env, s, it).More? {
      MoreParts(env, s, it);
      hide ToolEffects, AfterTools, UsesIn;
      OutwardAsksNothing(Between(it, s.iteration));
      AppendTools(tools, Between(it, s.iteration));
    } else {
      StopParts(env, s, it);
      var a := StopAnswer(env, s, it);
      StopAnswerTools(env, s, it);
      hide ToolEffects, FinishForced, AfterTools, StopAnswer, UsesIn;
      var stop := [Sent(GuardOut(s.iteration, it.guardEvent.value))];
      var finish := if a.Attempted? then FinishForced(a.iteration, s.iteration, s.errors) else [];
      OutwardAsksNothing(stop);
      if a.Attempted? {
        FinishOutward(a.iteration, s.iteration, s.errors);
      }
      OutwardAsksNothing(finish);
      AppendTools(tools, stop);
      AppendTools(tools + stop, a.effects);
      AppendTools(tools + stop + a.effects, finish);
    }
  }

  lemma StopAnswerTools(env: Env, s: State, it: Iteration)
    ensures var effects := StopAnswer(env, s, it).effects;
      Collect(effects, RunOf) == [] && Collect(effects, QueuedUses) == [] && Collect(effects, RepliedUses) == []
  {
    var identical := RunLength(s.log, |s.log|);
    var reason := RepeatReason(|s.log| - identical + 1, identical);
    var forced := ForcedRequest(env, s.request, it.assistant, it.results, reason);
    AskTools(forced, true, env.model(s.calls, forced));
  }

  predicate ToolsOk(env: Env, step: Step, iteration: nat) {
    && (Collect(step.effects, RunOf) == []
        || (Collect(step.effects, RunOf) == [iteration] && iteration < env.maxIterations))
    && (step.More? || step.error.None? ==> Collect(step.effects, QueuedUses) == Collect(step.effects, RepliedUses))
  }

  /** A batch replied in `a` and queued in `b`. */
  lemma RepliedThenQueued(before: seq<Effect>, a: seq<Effect>, b: seq<Effect>, uses: seq<Block>)
    requires NoRun(before)
    requires Collect(a, QueuedUses) == [] && Collect(a, RepliedUses) == [uses]
    requires Collect(b, QueuedUses) == [uses] && Collect(b, RepliedUses) == [] && Collect(b, RunOf) == []
    ensures Collect(before + a + b, QueuedUses) == Collect(before + a + b, RepliedUses)
    ensures Collect(before + a + b, RunOf) == Collect(a, RunOf)
  {
    hide Collect;
    AppendTools(before, a);
    AppendTools(before + a, b);
    assert Collect(before + a + b, RunOf) == [] + Collect(a, RunOf) + [];
  }

  lemma AttemptThenSettle(env: Env, s: State, attempt: Attempt, before: seq<Effect>, s': State)
    requires NoRun(before) && s'.iteration == s.iteration && attempt.Attempted?
    requires attempt.iteration.hadTools ==>
      && (Collect(attempt.effects, RunOf) == [] || Collect(attempt.effects, RunOf) == [s.iteration])
      && Collect(attempt.effects, QueuedUses) == []
      && Collect(attempt.effects, RepliedUses) == [UsesIn(attempt.iteration.assistant)]
      && attempt.iteration.forced.None? && s.iteration < env.maxIterations
    requires !attempt.iteration.hadTools ==> NoRun(attempt.effects)
    ensures ToolsOk(env, Prepend(before + attempt.effects, Settle(env, s', attempt.iteration)), s.iteration)
  {
    SettleTools(env, s', attempt.iteration);
    hide Settle, UsesIn, Collect;
    var settled := Settle(env, s', attempt.iteration).effects;
    if attempt.iteration.hadTools {
      RepliedThenQueued(before, attempt.effects, settled, UsesIn(attempt.iteration.assistant));
    } else {
      NoRunAppend(before, attempt.effects);
      NoRunAppend(before + attempt.effects, settled);
    }
  }

  lemma HadToolsIsNotForced(env: Env, n: nat, request: Request, iteration: nat, log: seq<Seen>, guard: Option<Limits>)
    ensures var a := RunIteration(env, n, request, iteration, log, guard);
      a.Attempted? && a.iteration.hadTools ==> a.iteration.forced.None?
  {
  }

  lemma RoundTools(env: Env, s: State)
    ensures ToolsOk(env, Iterate(env, s), s.iteration)
  {
    var first := RunIteration(env, s.calls, s.request, s.iteration, s.log, env.guard);
    AttemptTools(env, s.calls, s.request, s.iteration, s.log, env.guard);
    HadToolsIsNotForced(env, s.calls, s.request, s.iteration, s.log, env.guard);
    hide RunIteration, Settle, FinishPlaceholder;
    if first.Attempted? {
      var placeholder := FinishPlaceholder(s.errors);
      FinishOutward(first.iteration, s.iteration, s.errors);
      OutwardNoRun(placeholder);
      if !Empty(first.iteration) {
        assert [] + first.effects == first.effects;
        AttemptThenSettle(env, s, first, [], s.(calls := first.calls, log := first.log));
      } else {
        RetryTools(env, s, first, placeholder);
      }
    }
  }

  lemma RetryTools(env: Env, s: State, first: Attempt, placeholder: seq<Effect>)
    requires first == RunIteration(env, s.calls, s.request, s.iteration, s.log, env.guard)
    requires first.Attempted? && Empty(first.iteration) && NoRun(first.effects)
    requires placeholder == FinishPlaceholder(s.errors) && NoRun(placeholder)
    ensures ToolsOk(env, Iterate(env, s), s.iteration)
  {
    if s.retryUsed {
      NoRunAppend(first.effects, placeholder);
    } else {
      var second := RunIteration(env, first.calls, s.request, s.iteration, first.log, None);
      AttemptTools(env, first.calls, s.request, s.iteration, first.log, None);
      HadToolsIsNotForced(env, first.calls, s.request, s.iteration, first.log, None);
      hide RunIteration, Settle, FinishPlaceholder;
      var retry := [Sent(RetryOut(s.iteration))];
      OutwardNoRun(retry);
      NoRunAppend(first.effects, retry);
      var before := first.effects + retry;
      if second.Broke? {
        AppendTools(before, second.effects);
      } else if Empty(second.iteration) {
        NoRunAppend(before, second.effects);
        NoRunAppend(before + second.effects, placeholder);
      } else {
        AttemptThenSettle(env, s, second, before, s.(calls := second.calls, log := second.log, retryUsed := true));
      }
    }
  }

  lemma {:induction false} RunTools(env: Env, s: State)
    requires s.iteration <= env.maxIterations
    ensures var done := RunFrom(env, s);
      && Rising(Collect(done.effects, RunOf), s.iteration, env.maxIterations)
      && (done.error.None? ==> Collect(done.effects, QueuedUses) == Collect(done.effects, RepliedUses))
    decreases env.maxIterations - s.iteration
  {
    RoundTools(env, s);
    hide Iterate;
    var step := Iterate(env, s);
    if step.More? {
      RunTools(env, step.next);
      AppendTools(step.effects, RunFrom(env, step.next).effects);
    }
  }

  /** Tools run in rising iterations below the limit, so in at most `maxIterations` of them; and in a turn
      that does not raise, exactly the replied batches of calls are queued, one bus pair each, in order. */
  lemma ToolsBounded(env: Env)
    ensures var effects := Turn(env).effects;
      && Rising(Collect(effects, RunOf), 0, env.maxIterations)
      && |Collect(effects, RunOf)| <= env.maxIterations
      && (Turn(env).error.None? ==> Collect(effects, QueuedUses) == Collect(effects, RepliedUses))
  {
    RunTools(env, Initial(env));
    OutwardAsksNothing(Opening(env));
    AppendTools(Opening(env), RunFrom(env, Initial(env)).effects);
    RisingIsShort(Collect(Turn(env).effects, RunOf), 0, env.maxIterations);
  }
}
