/** The turn as it is run: loops over the reply's events, over the calls of a batch and over the iterations,
    each proved to compute what `TurnModel` defines. */
module TurnLoop {
  import opened Wrappers
  import opened RepeatGuards
  import opened TurnModel

  method Classify(events: seq<ModelEvent>)
      returns (text: string, thinking: string, uses: seq<Block>, forwarded: seq<Output>)
    ensures text == TextOf(events) && thinking == ThinkingOf(events)
    ensures uses == ToolBlocks(events) && forwarded == Forwarded(events)
  {
    text, thinking, uses, forwarded := "", "", [], [];
    var i := 0;
    while i < |events|
      invariant 0 <= i <= |events|
      invariant text == TextOf(events[..i]) && thinking == ThinkingOf(events[..i])
      invariant uses == ToolBlocks(events[..i]) && forwarded == Forwarded(events[..i])
    {
      assert events[..i + 1][..i] == events[..i];
      match events[i] {
        case TextEvent(t) =>
          text := text + t;
          if t != "" {
            forwarded := forwarded + [TextOut(t)];
          }
        case ThinkingEvent(t) => thinking := thinking + t;
        case ToolEvent(id, call, malformed) => uses := uses + [ToolUse(id, call, malformed)];
        case UsageEvent(tokens) => forwarded := forwarded + [UsageOut(tokens)];
      }
      i := i + 1;
    }
    assert events[..|events|] == events;
  }

  /** Malformed calls get their answer at once; the others are run and their results follow. */
  method RunBatch(env: Env, n: nat, uses: seq<Block>) returns (valid: seq<Block>, results: seq<Block>)
    requires AllUses(uses)
    ensures valid == Valid(uses) && results == MalformedResults(env, uses) + ExecutedResults(env, n, valid)
  {
    valid, results := [], [];
    var i := 0;
    while i < |uses|
      invariant 0 <= i <= |uses|
      invariant valid == Valid(uses[..i]) && results == MalformedResults(env, uses[..i])
    {
      assert uses[..i + 1][..i] == uses[..i];
      if uses[i].malformed {
        results := results + [ToolResult(uses[i].id, Real(env.malformedText(uses[i].call)), true)];
      } else {
        valid := valid + [uses[i]];
      }
      i := i + 1;
    }
    assert uses[..|uses|] == uses;
    var executed := [];
    i := 0;
    while i < |valid|
      invariant 0 <= i <= |valid| && executed == ExecutedResults(env, n, valid)[..i]
    {
      var outcome := env.tool(n, i, valid[i].call);
      executed := executed + [ToolResult(valid[i].id, Real(outcome.text), outcome.isError)];
      i := i + 1;
    }
    results := results + executed;
  }

  /** The guard observes each executed call with the result at the same position. */
  method WalkGuard(limits: Limits, log: seq<Seen>, valid: seq<Block>, results: seq<Block>) returns (w: Walk)
    requires |valid| <= |results| && AllUses(valid) && AllReal(results)
    ensures w == GuardWalk(limits, log, valid, results, |valid|)
  {
    hide Verdict, Shown;
    w := Walk(log, results, None);
    var k := 0;
    while k < |valid|
      invariant 0 <= k <= |valid| && w == GuardWalk(limits, log, valid, results, k)
    {
      var r := w.results[k];
      var seen := w.log + [Seen(valid[k].call, r.content.text, r.isError)];
      var verdict := Verdict(limits, seen, |seen|);
      w := Walk(seen, w.results[k := ToolResult(r.id, Shown(limits, seen, |seen|), r.isError)],
                if verdict.Some? then verdict else w.event);
      k := k + 1;
    }
  }

  method ForceAnswer(env: Env, n: nat, request: Request, assistant: seq<Block>, results: seq<Block>,
                     reason: Reason, reasonText: string, log: seq<Seen>) returns (a: Attempt)
    ensures a == ForcedAnswer(env, n, request, assistant, results, reason, reasonText, log)
  {
    var forced := ForcedRequest(env, request, assistant, results, reasonText);
    var reply := env.model(n, forced);
    if reply.Unavailable? {
      return Broke(ModelFailed(reply.error), [Asked(forced, true, reply)]);
    }
    var text, _, uses, _ := Classify(reply.events);
    var fallbackUsed := uses != [] || Blank(text);
    var final := if fallbackUsed then env.fallback(reasonText) else text;
    a := Attempted(Iteration(false, final, [], [], [Text(final)], [TextOut(final)],
                             Some(Forced(reason, fallbackUsed)), None),
                   [Asked(forced, true, reply)], n + 1, log);
  }

  method RunToolIteration(env: Env, n: nat, request: Request, iteration: nat, log: seq<Seen>, guard: Option<Limits>)
      returns (a: Attempt)
    ensures a == RunIteration(env, n, request, iteration, log, guard)
  {
    var reply := env.model(n, request);
    var asked := [Asked(request, false, reply)];
    if reply.Unavailable? {
      return Broke(ModelFailed(reply.error), asked);
    }
    var text, thinking, uses, forwarded := Classify(reply.events);
    if uses == [] {
      return Attempted(Iteration(false, text, [], [], [], forwarded, None, None), asked, n + 1, log);
    }
    var assistant := [];
    if env.replayReasoning && thinking != "" {
      assistant := assistant + [Thinking(thinking)];
    }
    if text != "" {
      assistant := assistant + [Text(text)];
    }
    assistant := assistant + uses;
    assert assistant == AssistantContent(env, reply.events);
    if iteration >= env.maxIterations {
      if !env.finalAnswer {
        return Broke(ToolLoopLimit, asked);
      }
      var notRun := NotRunResults(env, uses);
      a := ForceAnswer(env, n + 1, request, assistant, notRun, Limit, LimitReason(env.maxIterations), log);
      return After(asked + [Queued(iteration, uses, notRun)], a);
    }
    if !env.hasExecutor {
      return Broke(NoExecutor, asked);
    }
    var valid, results := RunBatch(env, n, uses);
    var w := Walk(log, results, None);
    if guard.Some? {
      w := WalkGuard(guard.value, log, valid, results);
    }
    var ran := if valid != [] then [Ran(iteration, valid)] else [];
    a := Attempted(Iteration(true, text, valid, w.results, assistant, forwarded, None, w.event),
                   asked + ran, n + 1, w.log);
  }

  method ArchiveText(text: string) returns (effects: seq<Effect>)
    ensures effects == ArchivedText(text)
  {
    effects := [];
    if text != "" {
      effects := [Archived(Said(Message(Assistant, [Text(text)])))];
    }
  }

  method ArchiveBlocks(blocks: seq<Block>) returns (effects: seq<Effect>)
    ensures effects == ArchivedBlocks(blocks)
  {
    effects := [];
    var i := 0;
    while i < |blocks|
      invariant 0 <= i <= |blocks| && effects == ArchivedBlocks(blocks)[..i]
    {
      effects := effects + [Archived(Item(blocks[i]))];
      i := i + 1;
    }
  }

  method Send(outputs: seq<Output>) returns (effects: seq<Effect>)
    ensures effects == Sends(outputs)
  {
    effects := [];
    var i := 0;
    while i < |outputs|
      invariant 0 <= i <= |outputs| && effects == Sends(outputs)[..i]
    {
      effects := effects + [Sent(outputs[i])];
      i := i + 1;
    }
  }

  method UseBlocks(content: seq<Block>) returns (uses: seq<Block>)
    ensures uses == UsesIn(content)
  {
    uses := [];
    var i := |content|;
    while i > 0
      invariant 0 <= i <= |content| && uses == UsesIn(content[i..])
    {
      i := i - 1;
      assert content[i..][1..] == content[i + 1..];
      if content[i].ToolUse? {
        uses := [content[i]] + uses;
      }
    }
    assert content[0..] == content;
  }

  /** Finalize first, then stream the outputs, the accumulated errors if there are any, and the end. */
  method Finish(archived: string, content: seq<Block>, outputs: seq<Output>, errors: seq<string>)
      returns (effects: seq<Effect>)
    ensures effects == ArchivedText(archived) + Closing(content, outputs, errors)
  {
    effects := ArchiveText(archived);
    effects := effects + [Finalized(content)];
    var sent := Send(outputs);
    effects := effects + sent;
    ghost var before := effects;
    if errors != [] {
      effects := effects + [Sent(ErrorsOut(errors))];
    }
    effects := effects + [Sent(EndOut)];
    assert effects == before + AfterAnswer(errors);
  }

  /** An executed iteration: its bus pair, its archive entries, its events. */
  method ReportIteration(it: Iteration, iteration: nat) returns (effects: seq<Effect>)
    ensures effects == ToolEffects(it, iteration)
  {
    var uses := UseBlocks(it.assistant);
    effects := [Queued(iteration, uses, it.results)];
    var text := ArchiveText(it.text);
    var calls := ArchiveBlocks(uses);
    var results := ArchiveBlocks(it.results);
    var events := Send(it.forwarded + [ToolUsesOut(it.valid), ToolResultsOut(it.results)]);
    effects := effects + text + calls + results + events;
  }

  /** What the turn does with an attempt: it answers and ends, or reports the batch and goes on, unless the guard
      stopped it. */
  method EndRound(env: Env, s: State, it: Iteration) returns (step: Step)
    ensures step == Settle(env, s, it)
  {
    if it.forced.Some? {
      var forced := it.forced.value;
      var text := if it.text != "" then [TextOut(it.text)] else [];
      var effects := Finish(it.text, it.assistant,
                            [FinalAnswerOut(s.iteration, forced.reason, forced.fallbackUsed)] + text, s.errors);
      return Ended(effects, None);
    }
    if !it.hadTools {
      var effects := Finish(it.text, if it.text != "" then [Text(it.text)] else [], it.forwarded, s.errors);
      return Ended(effects, None);
    }
    var effects := ReportIteration(it, s.iteration);
    if it.guardEvent.Some? && it.guardEvent.value.stop {
      step := StopRound(env, s, it, effects);
      return;
    }
    if it.guardEvent.Some? {
      effects := effects + [Sent(GuardOut(s.iteration, it.guardEvent.value))];
    }
    var messages := s.request.messages + [Message(Assistant, it.assistant), Message(User, it.results)];
    var request := Request(s.request.system, messages, s.request.tools);
    effects := effects + [Sent(CompleteOut(s.iteration))];
    step := More(effects, s.(iteration := s.iteration + 1, request := request,
                             errors := s.errors + env.busErrors(s.iteration + 2)));
  }

  /** The guard stopped the turn: one forced call, which keeps the iteration's results. */
  method StopRound(env: Env, s: State, it: Iteration, before: seq<Effect>) returns (step: Step)
    requires it.hadTools && it.forced.None? && GuardStopped(it) && before == ToolEffects(it, s.iteration)
    ensures step == Settle(env, s, it)
  {
    hide ToolEffects, ForcedAnswer, RunLength;
    var effects := before + [Sent(GuardOut(s.iteration, it.guardEvent.value))];
    var identical := RunLength(s.log, |s.log|);
    var a := ForceAnswer(env, s.calls, s.request, it.assistant, it.results, Repeat,
                         RepeatReason(|s.log| - identical + 1, identical), s.log);
    effects := effects + a.effects;
    if a.Broke? {
      return Ended(effects, Some(a.error));
    }
    var final := a.iteration;
    var text := if final.text != "" then [TextOut(final.text)] else [];
    var finish := Finish(final.text, final.assistant,
                         [FinalAnswerOut(s.iteration, final.forced.value.reason, final.forced.value.fallbackUsed)] +
                         text, s.errors);
    step := Ended(effects + finish, None);
  }

  lemma RunUnfolds(env: Env, s: State)
    ensures var step := Iterate(env, s);
      RunFrom(env, s) == if step.Ended? then Done(step.effects, step.error)
                         else Done(step.effects + RunFrom(env, step.next).effects, RunFrom(env, step.next).error)
  {
  }

  /** `turn`: the loop over the iterations, with the one retry of an empty reply. */
  method RunTurn(env: Env) returns (done: Done)
    ensures done == Turn(env)
  {
    hide RunIteration, Settle, Iterate, RunFrom;
    var effects := Opening(env);
    var s := Initial(env);
    while true
      invariant s.iteration <= env.maxIterations
      invariant Turn(env) == Done(effects + RunFrom(env, s).effects, RunFrom(env, s).error)
      decreases env.maxIterations - s.iteration
    {
      RunUnfolds(env, s);
      var step := RunRound(env, s);
      effects := effects + step.effects;
      if step.Ended? {
        return Done(effects, step.error);
      }
      s := step.next;
    }
  }

  /** One round of the loop: the attempt, its retry when it is empty, and what the turn does with it. */
  method RunRound(env: Env, s: State) returns (step: Step)
    ensures step == Iterate(env, s)
  {
    hide RunIteration, Settle;
    var effects, emptyRetryUsed := [], s.retryUsed;
    var attempt := RunToolIteration(env, s.calls, s.request, s.iteration, s.log, env.guard);
    effects := attempt.effects;
    if attempt.Broke? {
      return Ended(effects, Some(attempt.error));
    }
    if Empty(attempt.iteration) {
      if !emptyRetryUsed {
        emptyRetryUsed := true;
        effects := effects + [Sent(RetryOut(s.iteration))];
        attempt := RunToolIteration(env, attempt.calls, s.request, s.iteration, attempt.log, None);
        effects := effects + attempt.effects;
        if attempt.Broke? {
          return Ended(effects, Some(attempt.error));
        }
      }
      if Empty(attempt.iteration) {
        var finish := Finish(PLACEHOLDER, [Text(PLACEHOLDER)], [TextOut(PLACEHOLDER)], s.errors);
        return Ended(effects + finish, None);
      }
    }
    var counted := s.(calls := attempt.calls, log := attempt.log, retryUsed := emptyRetryUsed);
    step := EndRound(env, counted, attempt.iteration);
    step := Prepend(effects, step);
  }
}
