/** What one finished turn leaves in the archive: the user's text once, the streamed text, and the answer last. */
module TurnPayloads {
  import opened Wrappers
  import opened RepeatGuards
  import opened TurnModel
  import opened Sequences
  import opened TurnRuns
  import opened TurnOutput

  function PayloadOf(e: Effect): seq<Payload> {
    if e.Archived? then [e.payload] else []
  }

  /** The payloads a turn archives, in order. */
  function Payloads(env: Env): seq<Payload> {
    Collect(Turn(env).effects, PayloadOf)
  }

  function UserArchived(e: Effect): string {
    if e.Archived? then PayloadText(e.payload, User) else ""
  }

  function OfUser(p: Payload): string {
    PayloadText(p, User)
  }

  function OfAssistant(p: Payload): string {
    PayloadText(p, Assistant)
  }

  /** Observing the observations. */
  lemma {:induction false} CollectCompose<S, T, U>(xs: seq<S>, f: S -> seq<T>, g: T -> seq<U>, h: S -> seq<U>)
    requires forall i :: 0 <= i < |xs| ==> h(xs[i]) == Collect(f(xs[i]), g)
    ensures Collect(Collect(xs, f), g) == Collect(xs, h)
  {
    if xs != [] {
      assert forall i :: 0 <= i < |xs[1..]| ==> xs[1..][i] == xs[i + 1];
      CollectCompose(xs[1..], f, g, h);
      CollectAppend(f(xs[0]), Collect(xs[1..], f), g);
    }
  }

  lemma PayloadTexts(effects: seq<Effect>)
    ensures Collect(Collect(effects, PayloadOf), OfUser) == Collect(effects, UserArchived)
    ensures Collect(Collect(effects, PayloadOf), OfAssistant) == Collect(effects, TextArchived)
  {
    forall i | 0 <= i < |effects|
      ensures UserArchived(effects[i]) == Collect(PayloadOf(effects[i]), OfUser)
      ensures TextArchived(effects[i]) == Collect(PayloadOf(effects[i]), OfAssistant)
    {
      hide PayloadText;
      if effects[i].Archived? {
        CollectOne(effects[i].payload, OfUser);
        CollectOne(effects[i].payload, OfAssistant);
      }
    }
    CollectCompose(effects, PayloadOf, OfUser, UserArchived);
    CollectCompose(effects, PayloadOf, OfAssistant, TextArchived);
  }

  // ---- no user message after the opening, no empty answer ----

  /** No forced answer can fall back to nothing at all. */
  ghost predicate FallbackNotEmpty(env: Env) {
    forall reason: string :: env.fallback(reason) != ""
  }

  predicate FromModel(e: Effect) {
    && (e.Archived? ==> e.payload.Item? || e.payload.message.role == Assistant)
    && (e.Finalized? ==> Collect(e.content, BlockText) != "")
  }

  predicate AllFromModel(effects: seq<Effect>) {
    forall i :: 0 <= i < |effects| ==> FromModel(effects[i])
  }

  predicate Answered(it: Iteration) {
    it.forced.Some? ==> it.text != "" && AnswersItself(it)
  }

  lemma ForcedFromModel(env: Env, n: nat, request: Request, assistant: seq<Block>, results: seq<Block>,
                        reason: Reason, reasonText: string, log: seq<Seen>)
    requires FallbackNotEmpty(env)
    ensures var a := ForcedAnswer(env, n, request, assistant, results, reason, reasonText, log);
      AllFromModel(a.effects) && (a.Attempted? ==> Answered(a.iteration))
  {
    assert Blank("");
  }

  lemma AttemptFromModel(env: Env, n: nat, request: Request, iteration: nat, log: seq<Seen>, guard: Option<Limits>)
    requires FallbackNotEmpty(env)
    ensures var a := RunIteration(env, n, request, iteration, log, guard);
      AllFromModel(a.effects) && (a.Attempted? ==> Answered(a.iteration))
  {
    hide ForcedAnswer, AssistantContent, Answered, FallbackNotEmpty;
    var reply := env.model(n, request);
    if reply.Reply? && ToolBlocks(reply.events) != [] && iteration >= env.maxIterations && env.finalAnswer {
      var uses := ToolBlocks(reply.events);
      ForcedFromModel(env, n + 1, request, AssistantContent(env, reply.events), NotRunResults(env, uses), Limit,
                      LimitReason(env.maxIterations), log);
    } else {
      UnforcedAnswered(env, n, request, iteration, log, guard);
    }
  }

  lemma UnforcedAnswered(env: Env, n: nat, request: Request, iteration: nat, log: seq<Seen>, guard: Option<Limits>)
    requires iteration < env.maxIterations || !env.finalAnswer || env.model(n, request).Unavailable?
             || ToolBlocks(env.model(n, request).events) == []
    ensures var a := RunIteration(env, n, request, iteration, log, guard);
      a.Attempted? ==> Answered(a.iteration)
  {
  }

  lemma ClosingFromModel(content: seq<Block>, outputs: seq<Output>, errors: seq<string>)
    requires Collect(content, BlockText) != ""
    ensures AllFromModel(Closing(content, outputs, errors))
  {
    hide Collect;
  }

  lemma OneText(text: string)
    ensures Collect([Text(text)], BlockText) == text
  {
  }

  lemma FinishFromModel(it: Iteration, iteration: nat, errors: seq<string>)
    ensures it.text != "" ==> AllFromModel(FinishPlain(it, errors))
    ensures it.forced.Some? && it.text != "" && AnswersItself(it) ==> AllFromModel(FinishForced(it, iteration, errors))
    ensures AllFromModel(FinishPlaceholder(errors))
  {
    OneText(it.text);
    OneText(PLACEHOLDER);
    hide Collect, Closing;
    if it.text != "" {
      ClosingFromModel([Text(it.text)], it.forwarded, errors);
      if it.forced.Some? {
        ClosingFromModel([Text(it.text)],
                         [FinalAnswerOut(iteration, it.forced.value.reason, it.forced.value.fallbackUsed)] +
                         TextOuts(it.text), errors);
      }
    }
    ClosingFromModel([Text(PLACEHOLDER)], [TextOut(PLACEHOLDER)], errors);
  }

  lemma ToolEffectsFromModel(it: Iteration, iteration: nat)
    ensures AllFromModel(ToolEffects(it, iteration))
  {
  }

  lemma SettleFromModel(env: Env, s: State, it: Iteration)
    requires FallbackNotEmpty(env) && Answered(it) && !Empty(it)
    requires !it.hadTools ==> it.valid == []
    ensures AllFromModel(Settle(env, s, it).effects)
  {
    hide FinishForced, FinishPlain, AfterTools, FromModel, AnswersItself;
    FinishFromModel(it, s.iteration, s.errors);
    if it.forced.None? {
      if !it.hadTools {
        assert it.text != "";
      } else {
        AfterToolsFromModel(env, s, it);
      }
    }
  }

  lemma AfterToolsFromModel(env: Env, s: State, it: Iteration)
    requires FallbackNotEmpty(env)
    ensures AllFromModel(AfterTools(env, s, it).effects)
  {
    ToolEffectsFromModel(it, s.iteration);
    if AfterTools(env, s, it).More? {
      MoreParts(env, s, it);
    } else {
      StopParts(env, s, it);
      StopFromModel(env, s, it);
      hide AfterTools, ToolEffects, StopAnswer, FinishForced;
    }
  }

  lemma StopFromModel(env: Env, s: State, it: Iteration)
    requires FallbackNotEmpty(env)
    ensures var a := StopAnswer(env, s, it);
      AllFromModel(a.effects) && (a.Attempted? ==> AllFromModel(FinishForced(a.iteration, s.iteration, s.errors)))
  {
    var a := StopAnswer(env, s, it);
    if a.Attempted? {
      assert a.iteration.text != "" && AnswersItself(a.iteration);
      FinishFromModel(a.iteration, s.iteration, s.errors);
    }
  }

  lemma PlainHasNoCalls(env: Env, n: nat, request: Request, iteration: nat, log: seq<Seen>, guard: Option<Limits>)
    ensures var a := RunIteration(env, n, request, iteration, log, guard);
      a.Attempted? && !a.iteration.hadTools ==> a.iteration.valid == []
  {
  }

  lemma RoundFromModel(env: Env, s: State)
    requires FallbackNotEmpty(env)
    ensures AllFromModel(Iterate(env, s).effects)
  {
    hide RunIteration, Settle, FinishPlaceholder, FromModel, Answered, Empty, FallbackNotEmpty;
    var first := RunIteration(env, s.calls, s.request, s.iteration, s.log, env.guard);
    AttemptFromModel(env, s.calls, s.request, s.iteration, s.log, env.guard);
    PlainHasNoCalls(env, s.calls, s.request, s.iteration, s.log, env.guard);
    if first.Attempted? {
      FinishFromModel(first.iteration, s.iteration, s.errors);
      if !Empty(first.iteration) {
        SettleFromModel(env, s.(calls := first.calls, log := first.log), first.iteration);
      } else if !s.retryUsed {
        var second := RunIteration(env, first.calls, s.request, s.iteration, first.log, None);
        AttemptFromModel(env, first.calls, s.request, s.iteration, first.log, None);
        PlainHasNoCalls(env, first.calls, s.request, s.iteration, first.log, None);
        assert FromModel(Sent(RetryOut(s.iteration))) by {
          RetryFromModel(s.iteration);
        }
        if second.Attempted? && !Empty(second.iteration) {
          SettleFromModel(env, s.(calls := second.calls, log := second.log, retryUsed := true), second.iteration);
        }
      }
    }
  }

  lemma RetryFromModel(iteration: nat)
    ensures FromModel(Sent(RetryOut(iteration)))
  {
  }

  lemma {:induction false} RunFromModel(env: Env, s: State)
    requires FallbackNotEmpty(env)
    ensures AllFromModel(RunFrom(env, s).effects)
    decreases env.maxIterations - s.iteration
  {
    hide FromModel, Iterate, FallbackNotEmpty;
    RoundFromModel(env, s);
    var step := Iterate(env, s);
    if step.More? {
      RunFromModel(env, step.next);
    }
  }

  // ---- the payloads of a finished turn ----

  /** The text streamed by the turn. */
  function Streamed(env: Env): string {
    Collect(Turn(env).effects, TextSent)
  }

  lemma UserOnce(env: Env)
    requires FallbackNotEmpty(env)
    ensures Collect(Turn(env).effects, UserArchived) == Collect(env.userInput, BlockText)
  {
    var rest := RunFrom(env, Initial(env)).effects;
    RunFromModel(env, Initial(env));
    assert forall i :: 0 <= i < |rest| ==> FromModel(rest[i]) && UserArchived(rest[i]) == "";
    CollectNothing(rest, UserArchived);
    CollectAppend(Opening(env), rest, UserArchived);
    OpeningUser(env);
  }

  lemma OpeningUser(env: Env)
    ensures Collect(Opening(env), UserArchived) == Collect(env.userInput, BlockText)
  {
    var a := if env.deferredError.Some? then [Sent(ErrorsOut([env.deferredError.value]))] else [];
    var b := if env.userInput != [] then [Archived(Said(Message(User, env.userInput)))] else [];
    CollectNothing(a, UserArchived);
    CollectAppend(a, b, UserArchived);
    if env.userInput != [] {
      CollectOne(b[0], UserArchived);
    }
  }

  /** The answer is the last thing archived. */
  lemma AnswerIsLast(env: Env)
    requires FallbackNotEmpty(env) && Turn(env).error.None?
    ensures var payloads := Payloads(env);
      payloads != [] && payloads[|payloads| - 1].Said? && payloads[|payloads| - 1].message.role == Assistant
  {
    FinalizedOnceThenEnds(env);
    RunFromModel(env, Initial(env));
    var effects := Turn(env).effects;
    var k: nat :| ClosedAt(effects, k);
    FinalIsFromModel(env, k);
    var text := Collect(effects[k].content, BlockText);
    LastArchived(effects, k, Archives(text));
  }

  lemma FinalIsFromModel(env: Env, k: nat)
    requires AllFromModel(RunFrom(env, Initial(env)).effects)
    requires k < |Turn(env).effects| && Turn(env).effects[k].Finalized?
    ensures FromModel(Turn(env).effects[k])
  {
    hide RunFrom;
    assert forall i :: 0 <= i < |Opening(env)| ==> !Opening(env)[i].Finalized?;
    assert Turn(env).effects[k] == RunFrom(env, Initial(env)).effects[k - |Opening(env)|];
  }

  lemma LastArchived(effects: seq<Effect>, k: nat, e: Effect)
    requires 0 < k < |effects| && effects[k - 1] == e && e.Archived?
    requires forall i :: k <= i < |effects| ==> !effects[i].Archived?
    ensures var payloads := Collect(effects, PayloadOf);
      payloads != [] && payloads[|payloads| - 1] == e.payload
  {
    var head, tail := effects[..k - 1], effects[k..];
    assert effects == head + [e] + tail;
    CollectAppend(head + [e], tail, PayloadOf);
    CollectAppend(head, [e], PayloadOf);
    CollectNothing(tail, PayloadOf);
    CollectOne(e, PayloadOf);
  }

  /** A finished turn archives the user's text, then as much assistant text as it streamed, the answer last. */
  lemma FinishedTurnPayloads(env: Env)
    requires FallbackNotEmpty(env) && Turn(env).error.None?
    ensures var payloads := Payloads(env);
      && Collect(payloads, OfUser) == Collect(env.userInput, BlockText)
      && Collect(payloads, OfAssistant) == Streamed(env)
      && payloads != [] && payloads[|payloads| - 1].Said? && payloads[|payloads| - 1].message.role == Assistant
  {
    PayloadTexts(Turn(env).effects);
    UserOnce(env);
    ArchivedIsStreamed(env);
    AnswerIsLast(env);
  }
}
