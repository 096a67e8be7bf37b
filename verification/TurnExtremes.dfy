/** The exact call bound of a turn: `maxIterations` + 4 calls are reached just when the fallback is blank, and
    one call is enough for a model that answers at once. */
module TurnExtremes {
  import opened Wrappers
  import opened RepeatGuards
  import opened TurnModel
  import opened TurnRuns

  function Strokes(n: nat): (s: string)
    ensures |s| == n
  {
    seq(n, i requires 0 <= i < n => 'x')
  }

  /** A model that answers every request with one tool call, never the same twice. */
  function Insistent(n: nat, request: Request): Reply {
    Reply([ToolEvent("t", Call("f", Strokes(n)), false)])
  }

  /** The turn with that model in place of its own. */
  function WithInsistent(env: Env): Env {
    env.(model := Insistent)
  }

  /** Tool calls can be run, or are never run, and the forced answer falls back to nothing. */
  predicate CanStall(env: Env) {
    && BlankFallback(env) && (env.hasExecutor || env.maxIterations == 0)
    && (env.guard.Some? ==> Allowed(env.guard.value))
  }

  /** Every call so far was shorter than the next one. */
  predicate Growing(s: State) {
    && s.calls == s.iteration && !s.retryUsed
    && (s.log != [] ==> |s.log[|s.log| - 1].call.input| < s.calls)
  }

  lemma OneCall(n: nat, request: Request)
    ensures ToolBlocks(Insistent(n, request).events) == [ToolUse("t", Call("f", Strokes(n)), false)]
  {
    var events := Insistent(n, request).events;
    assert events[..0] == [];
    assert ToolBlocks(events[..0]) == [];
  }

  lemma GuardPasses(limits: Limits, w: Walk, n: nat)
    requires Allowed(limits) && w.event.None? && |w.results| == 1
    requires w.results[0].ToolResult? && w.results[0].content.Real?
    requires w.log != [] ==> |w.log[|w.log| - 1].call.input| < n
    ensures var w' := GuardStep(limits, w, ToolUse("t", Call("f", Strokes(n)), false), 0);
      w'.event.None? && w'.log[|w'.log| - 1].call.input == Strokes(n)
  {
    var seen := Seen(Call("f", Strokes(n)), w.results[0].content.text, w.results[0].isError);
    CountersGrow(w.log, seen);
    hide RunLength, ChainLength;
    assert Verdict(limits, w.log + [seen], |w.log| + 1).None?;
  }

  lemma InsistentIteration(env: Env, n: nat, log: seq<Seen>, request: Request)
    requires env.guard.Some? ==> Allowed(env.guard.value)
    requires log != [] ==> |log[|log| - 1].call.input| < n
    ensures var (it, log') := ToolIteration(env, n, log, env.guard, Insistent(n, request).events);
      it.guardEvent.None? && it.valid != [] && (log' != [] ==> |log'[|log'| - 1].call.input| <= n)
  {
    hide RunLength, ChainLength, Verdict, Shown, GuardStep;
    OneCall(n, request);
    var use := ToolUse("t", Call("f", Strokes(n)), false);
    var uses := [use];
    assert uses[..0] == [];
    assert Valid(uses[..0]) == [] && MalformedResults(env, uses[..0]) == [];
    assert Valid(uses) == [use] && MalformedResults(env, uses) == [];
    var results := MalformedResults(env, uses) + ExecutedResults(env, n, [use]);
    if env.guard.Some? {
      var start := GuardWalk(env.guard.value, log, [use], results, 0);
      GuardPasses(env.guard.value, start, n);
    }
  }

  lemma RoundContinues(env: Env, s: State)
    requires CanStall(env) && env.model == Insistent && Growing(s) && s.iteration < env.maxIterations
    ensures var step := Iterate(env, s);
      step.More? && Growing(step.next) && Asks(step.effects) == 1
  {
    hide ToolIteration, ToolEffects, BlankFallback;
    OneCall(s.calls, s.request);
    InsistentIteration(env, s.calls, s.log, s.request);
    ToolIterationKeepsCalls(env, s.calls, s.log, env.guard, Insistent(s.calls, s.request).events);
    HadToolsIsNotForced(env, s.calls, s.request, s.iteration, s.log, env.guard);
    RoundAsks(env, s);
  }

  lemma ForcedFallsBack(env: Env, n: nat, request: Request, iteration: nat, log: seq<Seen>, guard: Option<Limits>)
    requires CanStall(env) && env.model == Insistent && iteration >= env.maxIterations
    ensures var a := RunIteration(env, n, request, iteration, log, guard);
      a.Attempted? && a.calls == n + 2 && Empty(a.iteration) && a.log == log
  {
    OneCall(n, request);
    var forced := ForcedRequest(env, request, AssistantContent(env, Insistent(n, request).events),
                                NotRunResults(env, ToolBlocks(Insistent(n, request).events)),
                                LimitReason(env.maxIterations));
    OneCall(n + 1, forced);
    hide AssistantContent, LimitReason, Blank, Insistent;
  }

  lemma LastRoundAsksFour(env: Env, s: State)
    requires CanStall(env) && env.model == Insistent && Growing(s) && s.iteration == env.maxIterations
    ensures Iterate(env, s).Ended? && Asks(Iterate(env, s).effects) == 4
  {
    hide RunIteration, CanStall, FinishPlaceholder, Empty;
    ForcedFallsBack(env, s.calls, s.request, s.iteration, s.log, env.guard);
    AttemptAsks(env, s.calls, s.request, s.iteration, s.log, env.guard);
    var first := RunIteration(env, s.calls, s.request, s.iteration, s.log, env.guard);
    ForcedFallsBack(env, first.calls, s.request, s.iteration, first.log, None);
    AttemptAsks(env, first.calls, s.request, s.iteration, first.log, None);
    var second := RunIteration(env, first.calls, s.request, s.iteration, first.log, None);
    var retry := [Sent(RetryOut(s.iteration))];
    OutwardAsksNothing(retry);
    FinishOutward(first.iteration, s.iteration, s.errors);
    OutwardAsksNothing(FinishPlaceholder(s.errors));
    AsksAppend(first.effects, retry);
    AsksAppend(first.effects + retry, second.effects);
    AsksAppend(first.effects + retry + second.effects, FinishPlaceholder(s.errors));
  }

  lemma {:induction false} InsistentRun(env: Env, s: State)
    requires CanStall(env) && env.model == Insistent && Growing(s) && s.iteration <= env.maxIterations
    ensures Asks(RunFrom(env, s).effects) == env.maxIterations - s.iteration + 4
    decreases env.maxIterations - s.iteration
  {
    hide Iterate, CanStall, Growing, Asks;
    if s.iteration < env.maxIterations {
      RoundContinues(env, s);
      var next := Iterate(env, s).next;
      InsistentRun(env, next);
      AsksAppend(Iterate(env, s).effects, RunFrom(env, next).effects);
    } else {
      LastRoundAsksFour(env, s);
    }
  }

  /** The blank fallback costs a fourth extra call: with it, and only with it, a model can keep a turn busy
      for `maxIterations` + 4 calls. */
  lemma FourExtraCallsReached(env: Env)
    requires env.hasExecutor || env.maxIterations == 0
    requires env.guard.Some? ==> Allowed(env.guard.value)
    ensures BlankFallback(env) ==> Asks(Turn(WithInsistent(env)).effects) == env.maxIterations + 4
    ensures Asks(Turn(env).effects) >= env.maxIterations + 4 ==> BlankFallback(env)
  {
    CallsBounded(env);
    var e := WithInsistent(env);
    if BlankFallback(env) {
      InsistentRun(e, Initial(e));
      OutwardAsksNothing(Opening(e));
      AsksAppend(Opening(e), RunFrom(e, Initial(e)).effects);
    }
  }

  // ---- the best case ----

  lemma OneText(text: string)
    ensures var events := [TextEvent(text)];
      ToolBlocks(events) == [] && TextOf(events) == text
      && Forwarded(events) == (if text == "" then [] else [TextOut(text)])
  {
    var events := [TextEvent(text)];
    assert events[..0] == [];
    assert ToolBlocks(events[..0]) == [] && TextOf(events[..0]) == "" && Forwarded(events[..0]) == [];
  }

  lemma DirectRound(env: Env, text: string)
    requires env.model(0, env.compiled) == Reply([TextEvent(text)]) && !Blank(text)
    ensures Iterate(env, Initial(env)) ==
      Ended([Asked(env.compiled, false, Reply([TextEvent(text)]))] +
            (ArchivedText(text) + Closing([Text(text)], [TextOut(text)], Initial(env).errors)), None)
  {
    OneText(text);
    hide Closing, TextOf, ToolBlocks, Forwarded;
    var it := PlainIteration([TextEvent(text)]);
    assert RunIteration(env, 0, env.compiled, 0, [], env.guard) ==
      Attempted(it, [Asked(env.compiled, false, Reply([TextEvent(text)]))], 1, []);
  }

  /** A model that answers with text at once is asked exactly once, and its text is the turn's answer. */
  lemma DirectAnswer(env: Env, text: string)
    requires env.model(0, env.compiled) == Reply([TextEvent(text)]) && !Blank(text)
    ensures Turn(env).error.None? && Asks(Turn(env).effects) == 1
    ensures Turn(env).effects == Opening(env) +
      ([Asked(env.compiled, false, Reply([TextEvent(text)]))] +
       (ArchivedText(text) + Closing([Text(text)], [TextOut(text)], Initial(env).errors)))
  {
    DirectRound(env, text);
    var asked := [Asked(env.compiled, false, Reply([TextEvent(text)]))];
    var finish := ArchivedText(text) + Closing([Text(text)], [TextOut(text)], Initial(env).errors);
    assert Outward(finish);
    OutwardAsksNothing(finish);
    OutwardAsksNothing(Opening(env));
    hide Iterate, Closing, ArchivedText;
    AsksAppend(asked, finish);
    AsksAppend(Opening(env), asked + finish);
  }
}
