/** What a turn streams and archives: it is finalized once and before its answer is streamed, ends with
    exactly one `end`, and archives the very text it streams. */
module TurnOutput {
  import opened Wrappers
  import opened RepeatGuards
  import opened TurnModel
  import opened Sequences
  import opened TurnRuns

  // ---- the text of an iteration ----

  /** The forwarded events carry the iteration's text. */
  predicate Streams(it: Iteration) {
    Collect(it.forwarded, OutText) == it.text
  }

  predicate NoEnd(outputs: seq<Output>) {
    forall i :: 0 <= i < |outputs| ==> outputs[i] != EndOut
  }

  lemma {:induction false} ForwardedText(events: seq<ModelEvent>)
    ensures Collect(Forwarded(events), OutText) == TextOf(events) && NoEnd(Forwarded(events))
  {
    if events != [] {
      var before, e := events[..|events| - 1], events[|events| - 1];
      ForwardedText(before);
      var last := if e.TextEvent? && e.text != "" then [TextOut(e.text)]
                  else if e.UsageEvent? then [UsageOut(e.tokens)]
                  else [];
      assert Collect(last, OutText) == if e.TextEvent? then e.text else "";
      CollectAppend(Forwarded(before), last, OutText);
    }
  }

  lemma AttemptStreams(env: Env, n: nat, request: Request, iteration: nat, log: seq<Seen>, guard: Option<Limits>)
    ensures var a := RunIteration(env, n, request, iteration, log, guard);
      a.Attempted? && a.iteration.forced.None? ==> Streams(a.iteration) && NoEnd(a.iteration.forwarded)
  {
    hide Forwarded, TextOf;
    var reply := env.model(n, request);
    if reply.Reply? {
      ForwardedText(reply.events);
    }
  }

  lemma {:induction false} SendsText(outputs: seq<Output>)
    ensures Collect(Sends(outputs), TextSent) == Collect(outputs, OutText)
    ensures Collect(Sends(outputs), TextArchived) == ""
  {
    if outputs != [] {
      SendsText(outputs[1..]);
      assert Sends(outputs)[1..] == Sends(outputs[1..]);
    }
  }

  // ---- archived text is streamed text ----

  predicate Balanced(effects: seq<Effect>) {
    Collect(effects, TextSent) == Collect(effects, TextArchived)
  }

  lemma BalancedAppend(a: seq<Effect>, b: seq<Effect>)
    requires Balanced(a) && Balanced(b)
    ensures Balanced(a + b)
  {
    CollectAppend(a, b, TextSent);
    CollectAppend(a, b, TextArchived);
  }

  lemma Textless(effects: seq<Effect>)
    requires forall i :: 0 <= i < |effects| ==> TextSent(effects[i]) == "" && TextArchived(effects[i]) == ""
    ensures Collect(effects, TextSent) == "" && Collect(effects, TextArchived) == ""
  {
    CollectNothing(effects, TextSent);
    CollectNothing(effects, TextArchived);
  }

  lemma ArchivedTextIsText(text: string)
    ensures Collect(ArchivedText(text), TextArchived) == text && Collect(ArchivedText(text), TextSent) == ""
  {
    if text != "" {
      var content := [Text(text)];
      assert Collect(content, BlockText) == text;
    }
  }

  lemma TextOutsText(text: string)
    ensures Collect(TextOuts(text), OutText) == text
  {
  }

  /** A text is archived, then `part` streams it. */
  lemma ArchivedThenStreamed(text: string, part: seq<Effect>)
    requires Collect(part, TextSent) == text && Collect(part, TextArchived) == ""
    ensures Balanced(ArchivedText(text) + part)
  {
    ArchivedTextIsText(text);
    CollectAppend(ArchivedText(text), part, TextSent);
    CollectAppend(ArchivedText(text), part, TextArchived);
  }

  lemma CloseText(content: seq<Block>, outputs: seq<Output>, errors: seq<string>)
    ensures var tail := Sends(outputs) + AfterAnswer(errors);
      && Collect(tail, TextSent) == Collect(outputs, OutText)
      && Collect([Finalized(content)] + tail, TextSent) == Collect(outputs, OutText)
      && Collect([Finalized(content)] + tail, TextArchived) == ""
  {
    var rest := AfterAnswer(errors);
    var tail := Sends(outputs) + rest;
    SendsText(outputs);
    Textless(rest);
    Textless([Finalized(content)]);
    hide Collect, Sends, AfterAnswer;
    CollectAppend(Sends(outputs), rest, TextSent);
    CollectAppend(Sends(outputs), rest, TextArchived);
    CollectAppend([Finalized(content)], tail, TextSent);
    CollectAppend([Finalized(content)], tail, TextArchived);
  }

  lemma ClosingBalanced(text: string, content: seq<Block>, outputs: seq<Output>, errors: seq<string>)
    requires Collect(outputs, OutText) == text
    ensures Balanced(ArchivedText(text) + Closing(content, outputs, errors))
  {
    CloseText(content, outputs, errors);
    ArchivedThenStreamed(text, Closing(content, outputs, errors));
  }

  lemma FinishForcedBalanced(it: Iteration, iteration: nat, errors: seq<string>)
    requires it.forced.Some?
    ensures Balanced(FinishForced(it, iteration, errors))
  {
    var outputs := [FinalAnswerOut(iteration, it.forced.value.reason, it.forced.value.fallbackUsed)];
    TextOutsText(it.text);
    CollectAppend(outputs, TextOuts(it.text), OutText);
    assert Collect(outputs, OutText) == "";
    ClosingBalanced(it.text, it.assistant, outputs + TextOuts(it.text), errors);
  }

  lemma ToolOutputsText(it: Iteration)
    requires Streams(it)
    ensures Collect(ToolOutputs(it), OutText) == it.text
  {
    var tools := [ToolUsesOut(it.valid), ToolResultsOut(it.results)];
    CollectAppend(it.forwarded, tools, OutText);
    CollectNothing(tools, OutText);
  }

  lemma ToolReportBalanced(it: Iteration)
    requires Streams(it)
    ensures Balanced(ToolReport(it))
  {
    ToolOutputsText(it);
    Textless(ArchivedTools(it));
    SendsText(ToolOutputs(it));
    hide Collect, Sends, ArchivedTools, ToolOutputs;
    CollectAppend(ArchivedTools(it), Sends(ToolOutputs(it)), TextSent);
    CollectAppend(ArchivedTools(it), Sends(ToolOutputs(it)), TextArchived);
    ArchivedThenStreamed(it.text, ArchivedTools(it) + Sends(ToolOutputs(it)));
  }

  lemma ToolEffectsBalanced(it: Iteration, iteration: nat)
    requires Streams(it)
    ensures Balanced(ToolEffects(it, iteration))
  {
    ToolReportBalanced(it);
    var pair := [Queued(iteration, UsesIn(it.assistant), it.results)];
    Textless(pair);
    hide ToolReport;
    BalancedAppend(pair, ToolReport(it));
  }

  lemma AttemptTextless(env: Env, n: nat, request: Request, iteration: nat, log: seq<Seen>, guard: Option<Limits>)
    ensures Balanced(RunIteration(env, n, request, iteration, log, guard).effects)
  {
    AttemptInward(env, n, request, iteration, log, guard);
    hide RunIteration;
    Textless(RunIteration(env, n, request, iteration, log, guard).effects);
  }

  /** An attempt itself neither archives nor streams anything. */
  lemma AttemptInward(env: Env, n: nat, request: Request, iteration: nat, log: seq<Seen>, guard: Option<Limits>)
    ensures var effects := RunIteration(env, n, request, iteration, log, guard).effects;
      forall i :: 0 <= i < |effects| ==> effects[i].Asked? || effects[i].Ran? || effects[i].Queued?
  {
    hide ToolIteration, ForcedRequest, AssistantContent;
  }

  lemma SettleBalanced(env: Env, s: State, it: Iteration)
    requires it.forced.None? ==> Streams(it)
    ensures Balanced(Settle(env, s, it).effects)
  {
    hide FinishForced, ToolEffects;
    if it.forced.Some? {
      FinishForcedBalanced(it, s.iteration, s.errors);
    } else if !it.hadTools {
      ClosingBalanced(it.text, if it.text != "" then [Text(it.text)] else [], it.forwarded, s.errors);
    } else {
      AfterToolsBalanced(env, s, it);
    }
  }

  lemma StopBalanced(env: Env, s: State, it: Iteration)
    requires GuardStopped(it)
    ensures var a := StopAnswer(env, s, it);
      && Balanced([Sent(GuardOut(s.iteration, it.guardEvent.value))]) && Balanced(a.effects)
      && (a.Attempted? ==> Balanced(FinishForced(a.iteration, s.iteration, s.errors)))
  {
    var a := StopAnswer(env, s, it);
    Textless([Sent(GuardOut(s.iteration, it.guardEvent.value))]);
    Textless(a.effects);
    if a.Attempted? {
      FinishForcedBalanced(a.iteration, s.iteration, s.errors);
    }
  }

  lemma AfterToolsBalanced(env: Env, s: State, it: Iteration)
    requires Streams(it)
    ensures Balanced(AfterTools(env, s, it).effects)
  {
    ToolEffectsBalanced(it, s.iteration);
    var tools := ToolEffects(it, s.iteration);
    if AfterTools(env, s, it).More? {
      MoreParts(env, s, it);
      Textless(Between(it, s.iteration));
      hide AfterTools, ToolEffects, Balanced;
      BalancedAppend(tools, Between(it, s.iteration));
    } else {
      StopParts(env, s, it);
      StopBalanced(env, s, it);
      Textless([]);
      hide AfterTools, ToolEffects, StopAnswer, FinishForced, Collect, Streams, GuardStopped;
      var a := StopAnswer(env, s, it);
      var stop := [Sent(GuardOut(s.iteration, it.guardEvent.value))];
      var finish := if a.Attempted? then FinishForced(a.iteration, s.iteration, s.errors) else [];
      BalancedAppend(tools, stop);
      BalancedAppend(tools + stop, a.effects);
      BalancedAppend(tools + stop + a.effects, finish);
    }
  }

  lemma PlaceholderBalanced(errors: seq<string>)
    ensures Balanced(FinishPlaceholder(errors))
  {
    assert Collect([TextOut(PLACEHOLDER)], OutText) == PLACEHOLDER;
    ClosingBalanced(PLACEHOLDER, [Text(PLACEHOLDER)], [TextOut(PLACEHOLDER)], errors);
  }

  lemma RoundBalanced(env: Env, s: State)
    ensures Balanced(Iterate(env, s).effects)
  {
    hide RunIteration, Settle, FinishPlaceholder, Balanced, Streams;
    var first := RunIteration(env, s.calls, s.request, s.iteration, s.log, env.guard);
    AttemptTextless(env, s.calls, s.request, s.iteration, s.log, env.guard);
    AttemptStreams(env, s.calls, s.request, s.iteration, s.log, env.guard);
    PlaceholderBalanced(s.errors);
    if first.Attempted? {
      if !Empty(first.iteration) {
        var s' := s.(calls := first.calls, log := first.log);
        SettleBalanced(env, s', first.iteration);
        BalancedAppend(first.effects, Settle(env, s', first.iteration).effects);
      } else if s.retryUsed {
        BalancedAppend(first.effects, FinishPlaceholder(s.errors));
      } else {
        RetryBalanced(env, s, first);
      }
    }
  }

  lemma RetryBalanced(env: Env, s: State, first: Attempt)
    requires first == RunIteration(env, s.calls, s.request, s.iteration, s.log, env.guard)
    requires first.Attempted? && Empty(first.iteration) && !s.retryUsed && Balanced(first.effects)
    ensures Balanced(Iterate(env, s).effects)
  {
    var retry := [Sent(RetryOut(s.iteration))];
    Textless(retry);
    BalancedAppend(first.effects, retry);
    hide RunIteration, Settle, FinishPlaceholder, Balanced, Streams, Empty;
    var before := first.effects + retry;
    var second := RunIteration(env, first.calls, s.request, s.iteration, first.log, None);
    AttemptTextless(env, first.calls, s.request, s.iteration, first.log, None);
    BalancedAppend(before, second.effects);
    if second.Attempted? {
      AttemptStreams(env, first.calls, s.request, s.iteration, first.log, None);
      hide Iterate;
      if Empty(second.iteration) {
        PlaceholderBalanced(s.errors);
        BalancedAppend(before + second.effects, FinishPlaceholder(s.errors));
      } else {
        var s' := s.(calls := second.calls, log := second.log, retryUsed := true);
        SettleBalanced(env, s', second.iteration);
        BalancedAppend(before + second.effects, Settle(env, s', second.iteration).effects);
      }
    }
    assert Iterate(env, s).effects ==
      if second.Broke? then before + second.effects
      else if Empty(second.iteration) then before + second.effects + FinishPlaceholder(s.errors)
      else before + second.effects +
           Settle(env, s.(calls := second.calls, log := second.log, retryUsed := true), second.iteration).effects;
  }

  lemma {:induction false} RunBalanced(env: Env, s: State)
    ensures Balanced(RunFrom(env, s).effects)
    decreases env.maxIterations - s.iteration
  {
    hide Balanced;
    RoundBalanced(env, s);
    var step := Iterate(env, s);
    if step.More? {
      RunBalanced(env, step.next);
      BalancedAppend(step.effects, RunFrom(env, step.next).effects);
    }
  }

  /** The archived assistant text of a turn is exactly the text it streamed, also when it raises. */
  lemma ArchivedIsStreamed(env: Env)
    ensures Collect(Turn(env).effects, TextArchived) == Collect(Turn(env).effects, TextSent)
  {
    RunBalanced(env, Initial(env));
    Textless(Opening(env));
    BalancedAppend(Opening(env), RunFrom(env, Initial(env)).effects);
  }

  // ---- finalized once, before the answer; one end, last ----

  /** Neither finalized nor ended. */
  predicate Unfinished(effects: seq<Effect>) {
    forall i :: 0 <= i < |effects| ==> !effects[i].Finalized? && effects[i] != Sent(EndOut)
  }

  function Archives(text: string): Effect {
    Archived(Said(Message(Assistant, [Text(text)])))
  }

  /** Finalized at `k` and nowhere else, just after the final text was archived; from there on only events,
      their text the finalized one; the last of them the only `end`. */
  predicate ClosedAt(effects: seq<Effect>, k: nat) {
    && k + 1 < |effects|
    && effects[k].Finalized?
    && (forall i :: 0 <= i < |effects| && i != k ==> !effects[i].Finalized?)
    && (forall i :: k < i < |effects| ==> effects[i].Sent?)
    && (forall i :: 0 <= i < |effects| ==> (effects[i] == Sent(EndOut) <==> i == |effects| - 1))
    && var text := Collect(effects[k].content, BlockText);
       && Collect(effects[k + 1..], TextSent) == text
       && (text != "" ==> k > 0 && effects[k - 1] == Archives(text))
  }

  ghost predicate Closed(effects: seq<Effect>) {
    exists k: nat :: ClosedAt(effects, k)
  }

  lemma UnfinishedThenClosed(a: seq<Effect>, b: seq<Effect>)
    requires Unfinished(a) && Closed(b)
    ensures Closed(a + b)
  {
    var k: nat :| ClosedAt(b, k);
    assert (a + b)[|a| + k + 1..] == b[k + 1..];
    assert ClosedAt(a + b, |a| + k);
  }

  lemma HeadCloses(text: string, content: seq<Block>, tail: seq<Effect>)
    requires tail != [] && forall i :: 0 <= i < |tail| ==> tail[i].Sent?
    requires forall i :: 0 <= i < |tail| ==> (tail[i] == Sent(EndOut) <==> i == |tail| - 1)
    requires Collect(tail, TextSent) == Collect(content, BlockText) == text
    ensures Closed(ArchivedText(text) + ([Finalized(content)] + tail))
  {
    hide Collect;
    var effects := ArchivedText(text) + ([Finalized(content)] + tail);
    var k := |ArchivedText(text)|;
    assert effects[k + 1..] == tail;
    assert forall i :: k < i < |effects| ==> effects[i] == tail[i - k - 1];
    assert ClosedAt(effects, k);
  }

  lemma ClosingCloses(text: string, content: seq<Block>, outputs: seq<Output>, errors: seq<string>)
    requires NoEnd(outputs) && Collect(outputs, OutText) == Collect(content, BlockText) == text
    ensures Closed(ArchivedText(text) + Closing(content, outputs, errors))
  {
    CloseText(content, outputs, errors);
    hide Collect, ArchivedText;
    HeadCloses(text, content, Sends(outputs) + AfterAnswer(errors));
  }

  /** A forced answer's content is its text. */
  predicate AnswersItself(it: Iteration) {
    it.assistant == [Text(it.text)]
  }

  lemma FinishForcedCloses(it: Iteration, iteration: nat, errors: seq<string>)
    requires it.forced.Some? && AnswersItself(it)
    ensures Closed(FinishForced(it, iteration, errors))
  {
    var outputs := [FinalAnswerOut(iteration, it.forced.value.reason, it.forced.value.fallbackUsed)];
    TextOutsText(it.text);
    CollectAppend(outputs, TextOuts(it.text), OutText);
    assert Collect(outputs, OutText) == "";
    assert Collect(it.assistant, BlockText) == it.text;
    ClosingCloses(it.text, it.assistant, outputs + TextOuts(it.text), errors);
  }

  ghost predicate WellClosed(step: Step) {
    if step.Ended? && step.error.None? then Closed(step.effects) else Unfinished(step.effects)
  }

  /** What an attempt must bring to close well. */
  predicate Closable(it: Iteration) {
    if it.forced.Some? then AnswersItself(it) else Streams(it) && NoEnd(it.forwarded)
  }

  lemma AttemptClosable(env: Env, n: nat, request: Request, iteration: nat, log: seq<Seen>, guard: Option<Limits>)
    ensures var a := RunIteration(env, n, request, iteration, log, guard);
      Unfinished(a.effects) && (a.Attempted? ==> Closable(a.iteration))
  {
    AttemptStreams(env, n, request, iteration, log, guard);
  }

  lemma SettleCloses(env: Env, s: State, it: Iteration)
    requires Closable(it)
    ensures WellClosed(Settle(env, s, it))
  {
    hide FinishForced, AfterTools, Closed, Unfinished;
    if it.forced.Some? {
      FinishForcedCloses(it, s.iteration, s.errors);
    } else if !it.hadTools {
      var content := if it.text != "" then [Text(it.text)] else [];
      assert Collect(content, BlockText) == it.text;
      ClosingCloses(it.text, content, it.forwarded, s.errors);
    } else {
      AfterToolsCloses(env, s, it);
    }
  }

  lemma ToolEffectsUnfinished(it: Iteration, iteration: nat)
    requires NoEnd(it.forwarded)
    ensures Unfinished(ToolEffects(it, iteration))
  {
  }

  lemma StopCloses(env: Env, s: State, it: Iteration)
    requires GuardStopped(it)
    ensures var a := StopAnswer(env, s, it);
      && Unfinished([Sent(GuardOut(s.iteration, it.guardEvent.value))]) && Unfinished(a.effects)
      && (a.Attempted? ==> Closed(FinishForced(a.iteration, s.iteration, s.errors)))
  {
    var a := StopAnswer(env, s, it);
    if a.Attempted? {
      assert AnswersItself(a.iteration);
      hide FinishForced;
      FinishForcedCloses(a.iteration, s.iteration, s.errors);
    }
  }

  lemma UnfinishedAppend(a: seq<Effect>, b: seq<Effect>)
    requires Unfinished(a) && Unfinished(b)
    ensures Unfinished(a + b)
  {
  }

  lemma AfterToolsCloses(env: Env, s: State, it: Iteration)
    requires NoEnd(it.forwarded)
    ensures WellClosed(AfterTools(env, s, it))
  {
    ToolEffectsUnfinished(it, s.iteration);
    var tools := ToolEffects(it, s.iteration);
    if AfterTools(env, s, it).More? {
      MoreParts(env, s, it);
      assert Unfinished(Between(it, s.iteration));
      hide ToolEffects, AfterTools, Unfinished, Between;
      UnfinishedAppend(tools, Between(it, s.iteration));
    } else {
      StopParts(env, s, it);
      StopCloses(env, s, it);
      var a := StopAnswer(env, s, it);
      var stop := [Sent(GuardOut(s.iteration, it.guardEvent.value))];
      AfterToolsError(env, s, it);
      hide ToolEffects, FinishForced, AfterTools, StopAnswer, Unfinished, Closed, GuardStopped;
      UnfinishedAppend(tools, stop);
      UnfinishedAppend(tools + stop, a.effects);
      if a.Attempted? {
        UnfinishedThenClosed(tools + stop + a.effects, FinishForced(a.iteration, s.iteration, s.errors));
      } else {
        assert tools + stop + a.effects + [] == tools + stop + a.effects;
      }
    }
  }

  lemma AfterToolsError(env: Env, s: State, it: Iteration)
    requires AfterTools(env, s, it).Ended?
    ensures AfterTools(env, s, it).error.None? <==> StopAnswer(env, s, it).Attempted?
  {
  }

  lemma PlaceholderCloses(errors: seq<string>)
    ensures Closed(FinishPlaceholder(errors))
  {
    assert Collect([TextOut(PLACEHOLDER)], OutText) == PLACEHOLDER;
    assert Collect([Text(PLACEHOLDER)], BlockText) == PLACEHOLDER;
    ClosingCloses(PLACEHOLDER, [Text(PLACEHOLDER)], [TextOut(PLACEHOLDER)], errors);
  }

  lemma PrependCloses(before: seq<Effect>, step: Step)
    requires Unfinished(before) && WellClosed(step)
    ensures WellClosed(Prepend(before, step))
  {
    if step.Ended? && step.error.None? {
      UnfinishedThenClosed(before, step.effects);
    }
  }

  lemma RoundCloses(env: Env, s: State)
    ensures WellClosed(Iterate(env, s))
  {
    hide RunIteration, Settle, FinishPlaceholder, Closed, Closable;
    var first := RunIteration(env, s.calls, s.request, s.iteration, s.log, env.guard);
    AttemptClosable(env, s.calls, s.request, s.iteration, s.log, env.guard);
    if first.Attempted? {
      if !Empty(first.iteration) {
        var s' := s.(calls := first.calls, log := first.log);
        SettleCloses(env, s', first.iteration);
        PrependCloses(first.effects, Settle(env, s', first.iteration));
      } else if s.retryUsed {
        PlaceholderCloses(s.errors);
        UnfinishedThenClosed(first.effects, FinishPlaceholder(s.errors));
      } else {
        RetryCloses(env, s, first);
      }
    }
  }

  lemma RetryCloses(env: Env, s: State, first: Attempt)
    requires first == RunIteration(env, s.calls, s.request, s.iteration, s.log, env.guard)
    requires first.Attempted? && Empty(first.iteration) && !s.retryUsed && Unfinished(first.effects)
    ensures WellClosed(Iterate(env, s))
  {
    hide RunIteration, Settle, FinishPlaceholder, Closed, Closable;
    var second := RunIteration(env, first.calls, s.request, s.iteration, first.log, None);
    AttemptClosable(env, first.calls, s.request, s.iteration, first.log, None);
    var before := first.effects + [Sent(RetryOut(s.iteration))] + second.effects;
    assert Unfinished(before);
    if second.Attempted? {
      if Empty(second.iteration) {
        PlaceholderCloses(s.errors);
        UnfinishedThenClosed(before, FinishPlaceholder(s.errors));
      } else {
        var s' := s.(calls := second.calls, log := second.log, retryUsed := true);
        SettleCloses(env, s', second.iteration);
        PrependCloses(before, Settle(env, s', second.iteration));
      }
    }
  }

  lemma {:induction false} RunCloses(env: Env, s: State)
    ensures var done := RunFrom(env, s);
      if done.error.None? then Closed(done.effects) else Unfinished(done.effects)
    decreases env.maxIterations - s.iteration
  {
    hide Closed, Iterate;
    RoundCloses(env, s);
    var step := Iterate(env, s);
    if step.More? {
      RunCloses(env, step.next);
      if RunFrom(env, step.next).error.None? {
        UnfinishedThenClosed(step.effects, RunFrom(env, step.next).effects);
      }
    }
  }

  /** A turn that does not raise is finalized exactly once, before its answer is streamed, streams exactly the
      finalized text after that, and ends with its only `end`; a turn that raises is neither finalized nor
      ended. */
  lemma FinalizedOnceThenEnds(env: Env)
    ensures Turn(env).error.None? <==> Closed(Turn(env).effects)
    ensures Turn(env).error.Some? <==> Unfinished(Turn(env).effects)
  {
    RunCloses(env, Initial(env));
    var rest := RunFrom(env, Initial(env));
    if rest.error.None? {
      UnfinishedThenClosed(Opening(env), rest.effects);
      var k: nat :| ClosedAt(Turn(env).effects, k);
      assert !Unfinished(Turn(env).effects);
    } else {
      assert Unfinished(Turn(env).effects);
      assert forall k: nat :: !ClosedAt(Turn(env).effects, k);
    }
  }
}
