/** One turn: the model is asked, its tool calls are run, and it is asked again, until it answers, the
    iteration limit or the repeat guard forces a final answer, or it answers with nothing twice. What a turn
    does is given as the list of its effects in order. */
module TurnModel {
  import opened Wrappers
  import opened RepeatGuards
  import Decimal

  // ---- messages ----

  datatype Role = User | Assistant

  datatype Block =
    | Thinking(text: string)
    | Text(text: string)
    | ToolUse(id: string, call: Call, malformed: bool)
    | ToolResult(id: string, content: Content, isError: bool)

  datatype Message = Message(role: Role, content: seq<Block>)

  /** `tools` is false when the request offers none. */
  datatype Request = Request(system: string, messages: seq<Message>, tools: bool)

  datatype ModelEvent =
    | TextEvent(text: string)
    | ThinkingEvent(text: string)
    | ToolEvent(id: string, call: Call, malformed: bool)
    | UsageEvent(tokens: nat)

  datatype Reply = Reply(events: seq<ModelEvent>) | Unavailable(error: string)

  datatype Reason = Limit | Repeat

  /** What the caller of a turn receives. */
  datatype Output =
    | TextOut(text: string)
    | UsageOut(tokens: nat)
    | RetryOut(iteration: nat)
    | ToolUsesOut(uses: seq<Block>)
    | ToolResultsOut(results: seq<Block>)
    | GuardOut(iteration: nat, meta: Meta)
    | FinalAnswerOut(iteration: nat, reason: Reason, fallbackUsed: bool)
    | CompleteOut(iteration: nat)
    | ErrorsOut(errors: seq<string>)
    | EndOut

  /** A payload of the archive: a whole message, or a single tool block. */
  datatype Payload = Said(message: Message) | Item(block: Block)

  datatype Effect =
    | Asked(request: Request, forced: bool, reply: Reply)
    | Ran(iteration: nat, calls: seq<Block>)
    | Queued(iteration: nat, uses: seq<Block>, results: seq<Block>)
    | Archived(payload: Payload)
    | Finalized(content: seq<Block>)
    | Sent(output: Output)

  datatype Error = ModelFailed(error: string) | ToolLoopLimit | NoExecutor

  datatype ToolOutcome = ToolOutcome(text: string, isError: bool)

  /** Configuration and surroundings of one turn. The model's replies and the tools' results are arbitrary
      functions, of the number of the call within the turn among other things. */
  datatype Env = Env(maxIterations: nat, finalAnswer: bool, instruction: string -> string,
                     fallback: string -> string, notRun: string, guard: Option<Limits>, replayReasoning: bool,
                     hasExecutor: bool, malformedText: Call -> string,
                     model: (nat, Request) -> Reply, tool: (nat, nat, Call) -> ToolOutcome,
                     busErrors: nat -> seq<string>, deferredError: Option<string>,
                     userInput: seq<Block>, compiled: Request)

  const PLACEHOLDER := "[empty model response]"

  function LimitReason(max: nat): string {
    "you reached the tool-call limit of " + Decimal.Numeral(max) + " iterations"
  }

  function RepeatReason(first: nat, times: nat): string {
    "you repeated call " + Decimal.Numeral(first) + " " + Decimal.Numeral(times) + " times"
  }

  predicate Blank(text: string) {
    forall i :: 0 <= i < |text| ==> Decimal.IsSpace(text[i])
  }

  // ---- reading one reply ----

  function TextOf(events: seq<ModelEvent>): string {
    if events == [] then ""
    else TextOf(events[..|events| - 1]) + (var e := events[|events| - 1]; if e.TextEvent? then e.text else "")
  }

  function ThinkingOf(events: seq<ModelEvent>): string {
    if events == [] then ""
    else ThinkingOf(events[..|events| - 1]) + (var e := events[|events| - 1]; if e.ThinkingEvent? then e.text else "")
  }

  function ToolBlocks(events: seq<ModelEvent>): (blocks: seq<Block>)
    ensures forall i :: 0 <= i < |blocks| ==> blocks[i].ToolUse?
  {
    if events == [] then []
    else
      var e := events[|events| - 1];
      ToolBlocks(events[..|events| - 1]) + (if e.ToolEvent? then [ToolUse(e.id, e.call, e.malformed)] else [])
  }

  /** The non-empty text events and the usage events, forwarded as they came. */
  function Forwarded(events: seq<ModelEvent>): seq<Output> {
    if events == [] then []
    else
      var e := events[|events| - 1];
      Forwarded(events[..|events| - 1]) +
      (if e.TextEvent? && e.text != "" then [TextOut(e.text)]
       else if e.UsageEvent? then [UsageOut(e.tokens)]
       else [])
  }

  function AssistantContent(env: Env, events: seq<ModelEvent>): seq<Block> {
    (if env.replayReasoning && ThinkingOf(events) != "" then [Thinking(ThinkingOf(events))] else []) +
    (if TextOf(events) != "" then [Text(TextOf(events))] else []) +
    ToolBlocks(events)
  }

  function UsesIn(blocks: seq<Block>): seq<Block> {
    if blocks == [] then [] else (if blocks[0].ToolUse? then [blocks[0]] else []) + UsesIn(blocks[1..])
  }

  // ---- running one batch of tool calls ----

  predicate AllUses(blocks: seq<Block>) {
    forall i :: 0 <= i < |blocks| ==> blocks[i].ToolUse?
  }

  /** Only results, none replaced by a note. */
  predicate AllReal(blocks: seq<Block>) {
    forall i :: 0 <= i < |blocks| ==> blocks[i].ToolResult? && blocks[i].content.Real?
  }

  function Valid(uses: seq<Block>): (valid: seq<Block>)
    requires AllUses(uses)
    ensures AllUses(valid)
  {
    if uses == [] then []
    else Valid(uses[..|uses| - 1]) + (if uses[|uses| - 1].malformed then [] else [uses[|uses| - 1]])
  }

  function MalformedResults(env: Env, uses: seq<Block>): (results: seq<Block>)
    requires AllUses(uses)
    ensures AllReal(results)
  {
    if uses == [] then []
    else
      var last := uses[|uses| - 1];
      MalformedResults(env, uses[..|uses| - 1]) +
      (if last.malformed then [ToolResult(last.id, Real(env.malformedText(last.call)), true)] else [])
  }

  function ExecutedResults(env: Env, n: nat, valid: seq<Block>): (results: seq<Block>)
    requires AllUses(valid)
    ensures |results| == |valid| && AllReal(results)
    ensures forall i :: 0 <= i < |valid| ==> results[i].id == valid[i].id
  {
    seq(|valid|, i requires 0 <= i < |valid| =>
      var outcome := env.tool(n, i, valid[i].call);
      ToolResult(valid[i].id, Real(outcome.text), outcome.isError))
  }

  function NotRunResults(env: Env, uses: seq<Block>): (results: seq<Block>)
    requires AllUses(uses)
    ensures |results| == |uses| && AllReal(results)
    ensures forall i :: 0 <= i < |uses| ==> results[i].id == uses[i].id
  {
    seq(|uses|, i requires 0 <= i < |uses| => ToolResult(uses[i].id, Real(env.notRun), false))
  }

  /** The guard's walk: its history, the results as shown, and the last event. */
  datatype Walk = Walk(log: seq<Seen>, results: seq<Block>, event: Option<Meta>)

  /** One observation: the result shown may become a note, the history keeps the real one. */
  function GuardStep(limits: Limits, w: Walk, use: Block, i: nat): (w': Walk)
    requires i < |w.results| && use.ToolUse? && w.results[i].ToolResult? && w.results[i].content.Real?
    ensures |w'.log| == |w.log| + 1 && |w'.results| == |w.results|
    ensures w'.results[i].ToolResult? && w'.results[i].id == w.results[i].id
    ensures w'.results[i].isError == w.results[i].isError
    ensures forall j :: 0 <= j < |w.results| && j != i ==> w'.results[j] == w.results[j]
  {
    var r := w.results[i];
    var seen := w.log + [Seen(use.call, r.content.text, r.isError)];
    var verdict := Verdict(limits, seen, |seen|);
    Walk(seen, w.results[i := ToolResult(r.id, Shown(limits, seen, |seen|), r.isError)],
         if verdict.Some? then verdict else w.event)
  }

  /** The first `k` steps of the walk over calls and results, zipped by position. */
  function GuardWalk(limits: Limits, log: seq<Seen>, valid: seq<Block>, results: seq<Block>, k: nat): (w: Walk)
    requires k <= |valid| && k <= |results| && AllUses(valid) && AllReal(results)
    ensures |w.log| == |log| + k && |w.results| == |results|
    ensures forall i :: 0 <= i < |results| ==>
      && w.results[i].ToolResult? && w.results[i].id == results[i].id && w.results[i].isError == results[i].isError
      && (k <= i ==> w.results[i] == results[i])
  {
    if k == 0 then Walk(log, results, None)
    else GuardStep(limits, GuardWalk(limits, log, valid, results, k - 1), valid[k - 1], k - 1)
  }

  // ---- one iteration ----

  datatype Forced = Forced(reason: Reason, fallbackUsed: bool)

  datatype Iteration = Iteration(hadTools: bool, text: string, valid: seq<Block>, results: seq<Block>,
                                 assistant: seq<Block>, forwarded: seq<Output>, forced: Option<Forced>,
                                 guardEvent: Option<Meta>)

  /** `calls` and `log` are the model calls and the guard history after the attempt. */
  datatype Attempt =
    | Attempted(iteration: Iteration, effects: seq<Effect>, calls: nat, log: seq<Seen>)
    | Broke(error: Error, effects: seq<Effect>)

  predicate Empty(it: Iteration) {
    !it.hadTools && it.valid == [] && Blank(it.text)
  }

  function After(effects: seq<Effect>, a: Attempt): Attempt {
    match a
    case Attempted(it, more, calls, log) => Attempted(it, effects + more, calls, log)
    case Broke(error, more) => Broke(error, effects + more)
  }

  function ForcedRequest(env: Env, request: Request, assistant: seq<Block>, results: seq<Block>,
                         reasonText: string): Request {
    Request(request.system,
            request.messages + [Message(Assistant, assistant), Message(User, results),
                                Message(User, [Text(env.instruction(reasonText))])],
            false)
  }

  function FinalText(env: Env, events: seq<ModelEvent>, reasonText: string): string {
    if ToolBlocks(events) != [] || Blank(TextOf(events)) then env.fallback(reasonText) else TextOf(events)
  }

  /** `_forced_final_answer`: one tool-less call; its text, or the fallback, is the answer. */
  function ForcedAnswer(env: Env, n: nat, request: Request, assistant: seq<Block>, results: seq<Block>,
                        reason: Reason, reasonText: string, log: seq<Seen>): (a: Attempt)
    ensures a.Attempted? ==> a.iteration.forced.Some? && !a.iteration.hadTools
  {
    var forced := ForcedRequest(env, request, assistant, results, reasonText);
    var reply := env.model(n, forced);
    match reply
    case Unavailable(error) => Broke(ModelFailed(error), [Asked(forced, true, reply)])
    case Reply(events) =>
      var text := FinalText(env, events, reasonText);
      var fallbackUsed := ToolBlocks(events) != [] || Blank(TextOf(events));
      Attempted(Iteration(false, text, [], [], [Text(text)], [TextOut(text)], Some(Forced(reason, fallbackUsed)), None),
                [Asked(forced, true, reply)], n + 1, log)
  }

  function PlainIteration(events: seq<ModelEvent>): Iteration {
    Iteration(false, TextOf(events), [], [], [], Forwarded(events), None, None)
  }

  /** Calls are run, malformed ones answered without running, and the guard walks the executed ones. */
  function ToolIteration(env: Env, n: nat, log: seq<Seen>, guard: Option<Limits>, events: seq<ModelEvent>)
      : (Iteration, seq<Seen>) {
    var uses := ToolBlocks(events);
    var valid := Valid(uses);
    var results := MalformedResults(env, uses) + ExecutedResults(env, n, valid);
    var w := if guard.Some? then GuardWalk(guard.value, log, valid, results, |valid|) else Walk(log, results, None);
    (Iteration(true, TextOf(events), valid, w.results, AssistantContent(env, events), Forwarded(events), None, w.event),
     w.log)
  }

  /** `_run_tool_iteration` for an unforced call. */
  function RunIteration(env: Env, n: nat, request: Request, iteration: nat, log: seq<Seen>, guard: Option<Limits>)
      : (a: Attempt)
    ensures a.Attempted? && a.iteration.hadTools ==> iteration < env.maxIterations
  {
    var reply := env.model(n, request);
    var asked := [Asked(request, false, reply)];
    match reply
    case Unavailable(error) => Broke(ModelFailed(error), asked)
    case Reply(events) =>
      var uses := ToolBlocks(events);
      if uses == [] then Attempted(PlainIteration(events), asked, n + 1, log)
      else if iteration >= env.maxIterations then
        if !env.finalAnswer then Broke(ToolLoopLimit, asked)
        else
          var results := NotRunResults(env, uses);
          After(asked + [Queued(iteration, uses, results)],
                ForcedAnswer(env, n + 1, request, AssistantContent(env, events), results, Limit,
                             LimitReason(env.maxIterations), log))
      else if !env.hasExecutor then Broke(NoExecutor, asked)
      else
        var (it, log') := ToolIteration(env, n, log, guard, events);
        Attempted(it, asked + (if it.valid != [] then [Ran(iteration, it.valid)] else []), n + 1, log')
  }

  // ---- what the turn does with an iteration ----

  function Sends(outputs: seq<Output>): (effects: seq<Effect>)
    ensures |effects| == |outputs| && forall i :: 0 <= i < |outputs| ==> effects[i] == Sent(outputs[i])
  {
    seq(|outputs|, i requires 0 <= i < |outputs| => Sent(outputs[i]))
  }

  function ArchivedBlocks(blocks: seq<Block>): (effects: seq<Effect>)
    ensures |effects| == |blocks| && forall i :: 0 <= i < |blocks| ==> effects[i] == Archived(Item(blocks[i]))
  {
    seq(|blocks|, i requires 0 <= i < |blocks| => Archived(Item(blocks[i])))
  }

  function ArchivedText(text: string): seq<Effect> {
    if text == "" then [] else [Archived(Said(Message(Assistant, [Text(text)])))]
  }

  /** The accumulated errors, if any, and the end. */
  function AfterAnswer(errors: seq<string>): seq<Effect> {
    (if errors != [] then [Sent(ErrorsOut(errors))] else []) + [Sent(EndOut)]
  }

  /** Finalize, then stream the answer, the accumulated errors and the end. */
  function Closing(content: seq<Block>, outputs: seq<Output>, errors: seq<string>): seq<Effect> {
    [Finalized(content)] + (Sends(outputs) + AfterAnswer(errors))
  }

  function TextOuts(text: string): seq<Output> {
    if text != "" then [TextOut(text)] else []
  }

  function FinishPlaceholder(errors: seq<string>): seq<Effect> {
    ArchivedText(PLACEHOLDER) + Closing([Text(PLACEHOLDER)], [TextOut(PLACEHOLDER)], errors)
  }

  function FinishForced(it: Iteration, iteration: nat, errors: seq<string>): seq<Effect>
    requires it.forced.Some?
  {
    ArchivedText(it.text) +
    Closing(it.assistant,
            [FinalAnswerOut(iteration, it.forced.value.reason, it.forced.value.fallbackUsed)] + TextOuts(it.text),
            errors)
  }

  function FinishPlain(it: Iteration, errors: seq<string>): seq<Effect> {
    ArchivedText(it.text) + Closing(if it.text != "" then [Text(it.text)] else [], it.forwarded, errors)
  }

  datatype State = State(iteration: nat, request: Request, retryUsed: bool, calls: nat, log: seq<Seen>,
                         errors: seq<string>)

  datatype Step = More(effects: seq<Effect>, next: State) | Ended(effects: seq<Effect>, error: Option<Error>)

  function ArchivedTools(it: Iteration): seq<Effect> {
    ArchivedBlocks(UsesIn(it.assistant)) + ArchivedBlocks(it.results)
  }

  function ToolOutputs(it: Iteration): seq<Output> {
    it.forwarded + [ToolUsesOut(it.valid), ToolResultsOut(it.results)]
  }

  /** The archive entries and the events of an executed iteration. */
  function ToolReport(it: Iteration): seq<Effect> {
    ArchivedText(it.text) + (ArchivedTools(it) + Sends(ToolOutputs(it)))
  }

  /** An executed iteration: its bus pair first. */
  function ToolEffects(it: Iteration, iteration: nat): seq<Effect> {
    [Queued(iteration, UsesIn(it.assistant), it.results)] + ToolReport(it)
  }

  function Extended(request: Request, it: Iteration): Request {
    Request(request.system, request.messages + [Message(Assistant, it.assistant), Message(User, it.results)],
            request.tools)
  }

  predicate GuardStopped(it: Iteration) {
    it.guardEvent.Some? && it.guardEvent.value.stop
  }

  /** The forced call after a guard stop: the executed iteration keeps its results. */
  function StopAnswer(env: Env, s: State, it: Iteration): Attempt {
    var identical := RunLength(s.log, |s.log|);
    ForcedAnswer(env, s.calls, s.request, it.assistant, it.results, Repeat,
                 RepeatReason(|s.log| - identical + 1, identical), s.log)
  }

  /** `s` already counts the attempt. */
  function AfterTools(env: Env, s: State, it: Iteration): Step {
    if GuardStopped(it) then
      var before := ToolEffects(it, s.iteration) + [Sent(GuardOut(s.iteration, it.guardEvent.value))];
      var answer := StopAnswer(env, s, it);
      match answer
      case Broke(error, effects) => Ended(before + effects, Some(error))
      case Attempted(final, effects, _, _) => Ended(before + effects + FinishForced(final, s.iteration, s.errors), None)
    else
      More(ToolEffects(it, s.iteration) +
           (if it.guardEvent.Some? then [Sent(GuardOut(s.iteration, it.guardEvent.value))] else []) +
           [Sent(CompleteOut(s.iteration))],
           State(s.iteration + 1, Extended(s.request, it), s.retryUsed, s.calls, s.log,
                 s.errors + env.busErrors(s.iteration + 2)))
  }

  function Prepend(effects: seq<Effect>, step: Step): (r: Step)
    ensures r.More? == step.More? && (step.More? ==> r.next == step.next) && (step.Ended? ==> r.error == step.error)
    ensures r.effects == effects + step.effects
  {
    match step
    case More(more, next) => More(effects + more, next)
    case Ended(more, error) => Ended(effects + more, error)
  }

  function Settle(env: Env, s: State, it: Iteration): (step: Step)
    ensures step.More? ==> it.hadTools && step.next.iteration == s.iteration + 1
  {
    if it.forced.Some? then Ended(FinishForced(it, s.iteration, s.errors), None)
    else if !it.hadTools then Ended(FinishPlain(it, s.errors), None)
    else AfterTools(env, s, it)
  }

  /** One round of the turn's loop. */
  function Iterate(env: Env, s: State): (step: Step)
    ensures step.More? ==> s.iteration < env.maxIterations && step.next.iteration == s.iteration + 1
  {
    var first := RunIteration(env, s.calls, s.request, s.iteration, s.log, env.guard);
    if first.Broke? then Ended(first.effects, Some(first.error))
    else if !Empty(first.iteration) then
      Prepend(first.effects, Settle(env, s.(calls := first.calls, log := first.log), first.iteration))
    else if s.retryUsed then Ended(first.effects + FinishPlaceholder(s.errors), None)
    else
      var before := first.effects + [Sent(RetryOut(s.iteration))];
      var second := RunIteration(env, first.calls, s.request, s.iteration, first.log, None);
      if second.Broke? then Ended(before + second.effects, Some(second.error))
      else if Empty(second.iteration) then Ended(before + second.effects + FinishPlaceholder(s.errors), None)
      else
        Prepend(before + second.effects,
                Settle(env, s.(calls := second.calls, log := second.log, retryUsed := true), second.iteration))
  }

  /** A turn's effects, and the error it raised if any. */
  datatype Done = Done(effects: seq<Effect>, error: Option<Error>)

  function RunFrom(env: Env, s: State): Done
    decreases env.maxIterations - s.iteration
  {
    match Iterate(env, s)
    case Ended(effects, error) => Done(effects, error)
    case More(effects, next) =>
      var rest := RunFrom(env, next);
      Done(effects + rest.effects, rest.error)
  }

  function Opening(env: Env): seq<Effect> {
    (if env.deferredError.Some? then [Sent(ErrorsOut([env.deferredError.value]))] else []) +
    (if env.userInput != [] then [Archived(Said(Message(User, env.userInput)))] else [])
  }

  function Initial(env: Env): State {
    State(0, env.compiled, false, 0, [], env.busErrors(0) + (if env.userInput != [] then env.busErrors(1) else []))
  }

  function Turn(env: Env): Done {
    var rest := RunFrom(env, Initial(env));
    Done(Opening(env) + rest.effects, rest.error)
  }
}
