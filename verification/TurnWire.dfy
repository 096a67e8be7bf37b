/** Wire pairing: in every request a turn builds, each assistant message it appended is followed at once by a
    user message that answers exactly its tool calls, and the compiled request stays a prefix. */
module TurnWire {
  import opened Wrappers
  import opened RepeatGuards
  import opened TurnModel
  import opened TurnRuns

  function IdOf(b: Block): string {
    if b.ToolUse? || b.ToolResult? then b.id else ""
  }

  function Ids(blocks: seq<Block>): (ids: seq<string>)
    ensures |ids| == |blocks| && forall i :: 0 <= i < |blocks| ==> ids[i] == IdOf(blocks[i])
  {
    seq(|blocks|, i requires 0 <= i < |blocks| => IdOf(blocks[i]))
  }

  /** The results answer exactly the calls: as many results under an id as calls under it. */
  predicate Answers(uses: seq<Block>, results: seq<Block>) {
    && uses != [] && AllUses(uses)
    && (forall i :: 0 <= i < |results| ==> results[i].ToolResult?)
    && multiset(Ids(results)) == multiset(Ids(uses))
  }

  predicate PairOk(a: Message, b: Message) {
    a.role == Assistant && b.role == User && Answers(UsesIn(a.content), b.content)
  }

  /** Assistant and user messages in pairs. */
  predicate PairedUp(messages: seq<Message>) {
    messages == [] || (|messages| >= 2 && PairOk(messages[0], messages[1]) && PairedUp(messages[2..]))
  }

  lemma {:induction false} PairedUpAppend(messages: seq<Message>, a: Message, b: Message)
    requires PairedUp(messages) && PairOk(a, b)
    ensures PairedUp(messages + [a, b])
  {
    if messages == [] {
      assert messages + [a, b] == [a, b];
    } else {
      PairedUpAppend(messages[2..], a, b);
      assert (messages + [a, b])[2..] == messages[2..] + [a, b];
    }
  }

  /** The compiled request, then pairs. */
  predicate Grown(env: Env, system: string, messages: seq<Message>) {
    && system == env.compiled.system
    && env.compiled.messages <= messages
    && PairedUp(messages[|env.compiled.messages|..])
  }

  lemma GrownByPair(env: Env, system: string, messages: seq<Message>, a: Message, b: Message)
    requires Grown(env, system, messages) && PairOk(a, b)
    ensures Grown(env, system, messages + [a, b])
  {
    var n := |env.compiled.messages|;
    PairedUpAppend(messages[n..], a, b);
    assert (messages + [a, b])[n..] == messages[n..] + [a, b];
  }

  /** An unforced request is the compiled one grown by pairs; a forced one is grown by at least one pair and
      then asks, without tools, for the answer. */
  predicate AskOk(env: Env, request: Request, forced: bool) {
    if !forced then Grown(env, request.system, request.messages) && request.tools == env.compiled.tools
    else
      var n := |request.messages|;
      && n >= |env.compiled.messages| + 3 && !request.tools
      && Grown(env, request.system, request.messages[..n - 1])
      && request.messages[n - 1].role == User
      && |request.messages[n - 1].content| == 1 && request.messages[n - 1].content[0].Text?
  }

  predicate EffectOk(env: Env, e: Effect) {
    && (e.Asked? ==> AskOk(env, e.request, e.forced))
    && (e.Queued? ==> Answers(e.uses, e.results))
  }

  predicate AllOk(env: Env, effects: seq<Effect>) {
    forall i :: 0 <= i < |effects| ==> EffectOk(env, effects[i])
  }

  lemma OutwardOk(env: Env, effects: seq<Effect>)
    requires Outward(effects)
    ensures AllOk(env, effects)
  {
  }

  lemma AllOkAppend(env: Env, a: seq<Effect>, b: seq<Effect>)
    requires AllOk(env, a) && AllOk(env, b)
    ensures AllOk(env, a + b)
  {
  }

  // ---- the results of a batch answer its calls ----

  lemma IdsAppend(a: seq<Block>, b: seq<Block>)
    ensures Ids(a + b) == Ids(a) + Ids(b)
  {
  }

  lemma BatchUnfolds(env: Env, rest: seq<Block>, last: Block)
    requires AllUses(rest) && last.ToolUse?
    ensures var uses := rest + [last];
      AllUses(uses) &&
      if last.malformed then
        && Valid(uses) == Valid(rest)
        && MalformedResults(env, uses) ==
             MalformedResults(env, rest) + [ToolResult(last.id, Real(env.malformedText(last.call)), true)]
      else
        && Valid(uses) == Valid(rest) + [last]
        && MalformedResults(env, uses) == MalformedResults(env, rest)
  {
    assert (rest + [last])[..|rest|] == rest;
  }

  lemma {:induction false} MalformedAndValid(env: Env, uses: seq<Block>)
    requires AllUses(uses)
    ensures multiset(Ids(MalformedResults(env, uses))) + multiset(Ids(Valid(uses))) == multiset(Ids(uses))
  {
    if uses != [] {
      var rest, last := uses[..|uses| - 1], uses[|uses| - 1];
      MalformedAndValid(env, rest);
      BatchUnfolds(env, rest, last);
      var result := [ToolResult(last.id, Real(env.malformedText(last.call)), true)];
      assert Ids([last]) == [last.id] && Ids(result) == [last.id];
      hide Ids, Valid, MalformedResults;
      IdsAppend(rest, [last]);
      IdsAppend(Valid(rest), [last]);
      IdsAppend(MalformedResults(env, rest), result);
      assert uses == rest + [last];
    }
  }

  lemma BatchAnswers(env: Env, n: nat, uses: seq<Block>)
    requires AllUses(uses) && uses != []
    ensures Answers(uses, MalformedResults(env, uses) + ExecutedResults(env, n, Valid(uses)))
  {
    var malformed, executed := MalformedResults(env, uses), ExecutedResults(env, n, Valid(uses));
    MalformedAndValid(env, uses);
    IdsAppend(malformed, executed);
    assert Ids(executed) == Ids(Valid(uses));
  }

  lemma {:induction false} WellFormedAllRun(env: Env, uses: seq<Block>)
    requires AllUses(uses) && forall i :: 0 <= i < |uses| ==> !uses[i].malformed
    ensures Valid(uses) == uses && MalformedResults(env, uses) == []
  {
    if uses != [] {
      WellFormedAllRun(env, uses[..|uses| - 1]);
    }
  }

  /** With no malformed call the results come in the order of the calls. */
  lemma WellFormedBatchInOrder(env: Env, n: nat, uses: seq<Block>)
    requires AllUses(uses) && forall i :: 0 <= i < |uses| ==> !uses[i].malformed
    ensures Ids(MalformedResults(env, uses) + ExecutedResults(env, n, Valid(uses))) == Ids(uses)
  {
    WellFormedAllRun(env, uses);
    hide Valid, MalformedResults;
    assert MalformedResults(env, uses) + ExecutedResults(env, n, Valid(uses)) == ExecutedResults(env, n, uses);
  }

  lemma NotRunAnswers(env: Env, uses: seq<Block>)
    requires AllUses(uses) && uses != []
    ensures Answers(uses, NotRunResults(env, uses))
  {
    assert Ids(NotRunResults(env, uses)) == Ids(uses);
  }

  /** The guard changes what results show, not what they answer. */
  lemma IterationAnswers(env: Env, n: nat, log: seq<Seen>, guard: Option<Limits>, events: seq<ModelEvent>)
    requires ToolBlocks(events) != []
    ensures var it := ToolIteration(env, n, log, guard, events).0;
      PairOk(Message(Assistant, it.assistant), Message(User, it.results))
  {
    var uses := ToolBlocks(events);
    var it := ToolIteration(env, n, log, guard, events).0;
    var results := MalformedResults(env, uses) + ExecutedResults(env, n, Valid(uses));
    BatchAnswers(env, n, uses);
    AssistantUses(env, events);
    hide UsesIn, AssistantContent, MalformedResults, ExecutedResults, Valid;
    assert Ids(it.results) == Ids(results);
  }

  // ---- every request and every pair of a turn ----

  lemma ForcedOk(env: Env, n: nat, request: Request, assistant: seq<Block>, results: seq<Block>, reason: Reason,
                 reasonText: string, log: seq<Seen>)
    requires Grown(env, request.system, request.messages)
    requires PairOk(Message(Assistant, assistant), Message(User, results))
    ensures AllOk(env, ForcedAnswer(env, n, request, assistant, results, reason, reasonText, log).effects)
  {
    var forced := ForcedRequest(env, request, assistant, results, reasonText);
    var a, b := Message(Assistant, assistant), Message(User, results);
    GrownByPair(env, request.system, request.messages, a, b);
    assert forced.messages[..|forced.messages| - 1] == request.messages + [a, b];
    assert AskOk(env, forced, true);
  }

  lemma AttemptOk(env: Env, n: nat, request: Request, iteration: nat, log: seq<Seen>, guard: Option<Limits>)
    requires AskOk(env, request, false)
    ensures var a := RunIteration(env, n, request, iteration, log, guard);
      && AllOk(env, a.effects)
      && (a.Attempted? && a.iteration.hadTools ==>
            PairOk(Message(Assistant, a.iteration.assistant), Message(User, a.iteration.results)))
  {
    hide AskOk, Answers, AssistantContent, UsesIn, Grown;
    var reply := env.model(n, request);
    if reply.Reply? {
      var uses := ToolBlocks(reply.events);
      if uses != [] && iteration >= env.maxIterations {
        LimitOk(env, n, request, iteration, log, guard);
      } else if uses != [] {
        IterationAnswers(env, n, log, guard, reply.events);
      }
    }
  }

  lemma LimitOk(env: Env, n: nat, request: Request, iteration: nat, log: seq<Seen>, guard: Option<Limits>)
    requires AskOk(env, request, false) && iteration >= env.maxIterations
    requires var reply := env.model(n, request); reply.Reply? && ToolBlocks(reply.events) != []
    ensures AllOk(env, RunIteration(env, n, request, iteration, log, guard).effects)
  {
    var reply := env.model(n, request);
    var uses := ToolBlocks(reply.events);
    var results := NotRunResults(env, uses);
    var assistant := AssistantContent(env, reply.events);
    AssistantUses(env, reply.events);
    NotRunAnswers(env, uses);
    ForcedOk(env, n + 1, request, assistant, results, Limit, LimitReason(env.maxIterations), log);
    hide AskOk, Answers, AssistantContent, UsesIn, Grown, ForcedAnswer;
    var asked, pair := [Asked(request, false, reply)], [Queued(iteration, uses, results)];
    assert AllOk(env, asked) && AllOk(env, pair);
    AllOkAppend(env, asked, pair);
    AllOkAppend(env, asked + pair, ForcedAnswer(env, n + 1, request, assistant, results, Limit,
                                                LimitReason(env.maxIterations), log).effects);
  }

  predicate StateOk(env: Env, s: State) {
    AskOk(env, s.request, false)
  }

  predicate StepOk(env: Env, step: Step) {
    AllOk(env, step.effects) && (step.More? ==> StateOk(env, step.next))
  }

  lemma SettleOk(env: Env, s: State, it: Iteration)
    requires StateOk(env, s)
    requires it.hadTools ==> PairOk(Message(Assistant, it.assistant), Message(User, it.results))
    ensures StepOk(env, Settle(env, s, it))
  {
    hide FinishForced, FinishPlain, AfterTools, StateOk, PairOk;
    FinishOutward(it, s.iteration, s.errors);
    if it.forced.Some? {
      OutwardOk(env, FinishForced(it, s.iteration, s.errors));
    } else if !it.hadTools {
      OutwardOk(env, FinishPlain(it, s.errors));
    } else {
      AfterToolsOk(env, s, it);
    }
  }

  lemma ToolEffectsOk(env: Env, it: Iteration, iteration: nat)
    requires PairOk(Message(Assistant, it.assistant), Message(User, it.results))
    ensures AllOk(env, ToolEffects(it, iteration))
  {
    ToolReportOutward(it);
    hide ToolReport, Answers, UsesIn;
    var pair := [Queued(iteration, UsesIn(it.assistant), it.results)];
    OutwardOk(env, ToolReport(it));
    assert AllOk(env, pair);
    AllOkAppend(env, pair, ToolReport(it));
  }

  lemma AfterToolsOk(env: Env, s: State, it: Iteration)
    requires StateOk(env, s) && PairOk(Message(Assistant, it.assistant), Message(User, it.results))
    ensures StepOk(env, AfterTools(env, s, it))
  {
    ToolEffectsOk(env, it, s.iteration);
    var tools := ToolEffects(it, s.iteration);
    if AfterTools(env, s, it).More? {
      MoreParts(env, s, it);
      OutwardOk(env, Between(it, s.iteration));
      GrownByPair(env, s.request.system, s.request.messages,
                  Message(Assistant, it.assistant), Message(User, it.results));
      hide ToolEffects, PairOk, EffectOk, Grown;
      AllOkAppend(env, tools, Between(it, s.iteration));
    } else {
      StopParts(env, s, it);
      StopOk(env, s, it);
      hide ToolEffects, FinishForced, AfterTools, StopAnswer, EffectOk, StateOk, PairOk;
      var a := StopAnswer(env, s, it);
      var stop := [Sent(GuardOut(s.iteration, it.guardEvent.value))];
      var finish := if a.Attempted? then FinishForced(a.iteration, s.iteration, s.errors) else [];
      AllOkAppend(env, tools, stop);
      AllOkAppend(env, tools + stop, a.effects);
      AllOkAppend(env, tools + stop + a.effects, finish);
    }
  }

  lemma StopOk(env: Env, s: State, it: Iteration)
    requires StateOk(env, s) && PairOk(Message(Assistant, it.assistant), Message(User, it.results))
    requires GuardStopped(it)
    ensures var a := StopAnswer(env, s, it);
      && AllOk(env, [Sent(GuardOut(s.iteration, it.guardEvent.value))]) && AllOk(env, a.effects)
      && (a.Attempted? ==> AllOk(env, FinishForced(a.iteration, s.iteration, s.errors)))
  {
    var identical := RunLength(s.log, |s.log|);
    ForcedOk(env, s.calls, s.request, it.assistant, it.results, Repeat,
             RepeatReason(|s.log| - identical + 1, identical), s.log);
    var a := StopAnswer(env, s, it);
    if a.Attempted? {
      FinishOutward(a.iteration, s.iteration, s.errors);
      OutwardOk(env, FinishForced(a.iteration, s.iteration, s.errors));
    }
  }

  lemma PrependOk(env: Env, before: seq<Effect>, step: Step)
    requires AllOk(env, before) && StepOk(env, step)
    ensures StepOk(env, Prepend(before, step))
  {
  }

  lemma RoundOk(env: Env, s: State)
    requires StateOk(env, s)
    ensures StepOk(env, Iterate(env, s))
  {
    hide RunIteration, Settle, FinishPlaceholder, AskOk, PairOk, EffectOk;
    var first := RunIteration(env, s.calls, s.request, s.iteration, s.log, env.guard);
    AttemptOk(env, s.calls, s.request, s.iteration, s.log, env.guard);
    if first.Attempted? {
      var it := first.iteration;
      FinishOutward(it, s.iteration, s.errors);
      OutwardOk(env, FinishPlaceholder(s.errors));
      if !Empty(it) {
        var s' := s.(calls := first.calls, log := first.log);
        SettleOk(env, s', it);
        PrependOk(env, first.effects, Settle(env, s', it));
      } else if s.retryUsed {
        AllOkAppend(env, first.effects, FinishPlaceholder(s.errors));
      } else {
        RetryOk(env, s, first);
      }
    }
  }

  lemma RetryOk(env: Env, s: State, first: Attempt)
    requires StateOk(env, s) && first == RunIteration(env, s.calls, s.request, s.iteration, s.log, env.guard)
    requires first.Attempted? && Empty(first.iteration) && !s.retryUsed && AllOk(env, first.effects)
    requires AllOk(env, FinishPlaceholder(s.errors))
    ensures StepOk(env, Iterate(env, s))
  {
    var retry := [Sent(RetryOut(s.iteration))];
    OutwardOk(env, retry);
    hide RunIteration, Settle, FinishPlaceholder, AskOk, PairOk, EffectOk;
    AllOkAppend(env, first.effects, retry);
    var second := RunIteration(env, first.calls, s.request, s.iteration, first.log, None);
    AttemptOk(env, first.calls, s.request, s.iteration, first.log, None);
    var before := first.effects + retry + second.effects;
    AllOkAppend(env, first.effects + retry, second.effects);
    if second.Attempted? {
      AllOkAppend(env, before, FinishPlaceholder(s.errors));
      var s' := s.(calls := second.calls, log := second.log, retryUsed := true);
      SettleOk(env, s', second.iteration);
      PrependOk(env, before, Settle(env, s', second.iteration));
    }
  }

  lemma {:induction false} RunOk(env: Env, s: State)
    requires StateOk(env, s)
    ensures AllOk(env, RunFrom(env, s).effects)
    decreases env.maxIterations - s.iteration
  {
    hide Iterate, EffectOk, StateOk;
    RoundOk(env, s);
    var step := Iterate(env, s);
    if step.More? {
      RunOk(env, step.next);
      AllOkAppend(env, step.effects, RunFrom(env, step.next).effects);
    }
  }

  /** Every request of every turn is well paired, and so is every bus pair. */
  lemma EveryRequestWellPaired(env: Env)
    ensures AllOk(env, Turn(env).effects)
  {
    assert AskOk(env, env.compiled, false) by {
      assert env.compiled.messages[|env.compiled.messages|..] == [];
    }
    RunOk(env, Initial(env));
    hide EffectOk;
    assert AllOk(env, Opening(env)) by {
      OutwardOk(env, Opening(env));
    }
    AllOkAppend(env, Opening(env), RunFrom(env, Initial(env)).effects);
  }
}
