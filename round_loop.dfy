/**
  The tool-chaining round loop of `MCPOpenAIClient.process_query` as a
  specification: what one run of the loop returns, which messages it built,
  which progress events it emitted and which outside calls it made, given
  the chat model, the MCP tools and the JSON parser as oracles.
*/
module RoundLoop {
  import opened Wrappers
  import opened McpTypes
  import ToolText

  /** The fixed system instruction that opens every conversation. */
  const SystemPrompt: string :=
    "You can use MCP tools. Keep calling tools until the user request is fully completed. "
    + "Only send a final assistant message when all required tools have been called and "
    + "their results are incorporated. If essential info is missing, ask the user."

  /** The answer returned when the round budget runs out. */
  const Fallback: string := "Sorry, I couldn't complete this in time. Please try again."

  /** The text of the `RuntimeError` raised when no MCP session is bound. */
  const NotInitialized: string := "MCP session is not initialized. Call connect_to_server() first."

  /**
    What one query runs against: the chat model (model name, messages and
    catalog to reply), the JSON parser, the MCP `call_tool`, the catalog and
    whether an `on_step` callback was supplied.
  */
  datatype Env = Env(
    model: string,
    complete: (string, seq<Message>, seq<FunctionEntry>) -> AssistantReply,
    parse: string -> Option<Json>,
    callTool: (string, Json) -> ToolResult,
    tools: seq<FunctionEntry>,
    hasOnStep: bool)

  /** What `process_query` returns or raises. */
  datatype QueryResult = Answered(text: string) | RuntimeError(message: string)

  /** A whole run: the result, the final message list, the events emitted and the outside calls made. */
  datatype Run = Run(result: QueryResult, messages: seq<Message>, events: seq<Event>, calls: seq<ExternalCall>)

  /** One pass of the inner `for tc in tool_calls` loop. */
  datatype Step = Step(message: Message, events: seq<Event>, call: ExternalCall)

  /** All passes of the inner loop of one round. */
  datatype Batch = Batch(messages: seq<Message>, events: seq<Event>, calls: seq<ExternalCall>)

  /** The assistant message the chat model answers `messages` with. */
  function ModelReply(env: Env, messages: seq<Message>): AssistantReply {
    env.complete(env.model, messages, env.tools)
  }

  /** The model-call budget `range(max_rounds)` allows: none for a non-positive `max_rounds`. */
  function Budget(maxRounds: int): nat {
    if maxRounds <= 0 then 0 else maxRounds
  }

  /** `on_step(e)`, which happens only when a callback was supplied. */
  function Notify(env: Env, e: Event): seq<Event> {
    if env.hasOnStep then [e] else []
  }

  /** The `"plan"` event of a round: only for a reply with non-empty content. */
  function PlanEvents(env: Env, roundIdx: nat, reply: AssistantReply): seq<Event> {
    if Truthy(reply.content) then Notify(env, PlanEvent(roundIdx + 1, reply.content.value)) else []
  }

  /** One tool request: parse its arguments, announce, call the tool, flatten, announce, answer. */
  function ToolStep(env: Env, tc: ToolCall): Step {
    var args := ParsedArguments(env.parse, tc);
    var text := ToolText.Flatten(env.callTool(tc.name, args));
    Step(ToolMsg(tc.id, text),
         Notify(env, ToolCallEvent(tc.name, args)) + Notify(env, ToolResultEvent(tc.name, text)),
         CallTool(tc.name, args))
  }

  /** The tool requests of one round, handled one after another in request order. */
  function ToolBatch(env: Env, tcs: seq<ToolCall>): Batch
  {
    if tcs == [] then Batch([], [], [])
    else
      var earlier := ToolBatch(env, tcs[..|tcs| - 1]);
      var step := ToolStep(env, tcs[|tcs| - 1]);
      Batch(earlier.messages + [step.message], earlier.events + step.events, earlier.calls + [step.call])
  }

  /** What one pass of the round loop body leaves: the final answer if it ended the loop. */
  datatype RoundOutcome = RoundOutcome(final: Option<string>, messages: seq<Message>,
                                       events: seq<Event>, calls: seq<ExternalCall>)

  /**
    One round on message list `messages`: ask the model, append its reply,
    then either finish with its text or run every requested tool.
  */
  function OneRound(env: Env, messages: seq<Message>, roundIdx: nat): RoundOutcome {
    var reply := ModelReply(env, messages);
    var afterReply := messages + [AssistantMsg(reply)];
    var plan := PlanEvents(env, roundIdx, reply);
    var tcs := ToolCallsOf(reply);
    if tcs == [] then
      var text := ContentText(reply);
      RoundOutcome(Some(text), afterReply, plan + Notify(env, FinalEvent(text)), [ChatCompletion(messages)])
    else
      var batch := ToolBatch(env, tcs);
      RoundOutcome(None, afterReply + batch.messages, plan + batch.events, [ChatCompletion(messages)] + batch.calls)
  }

  /** A round body: what one pass of the loop body does to a message list in a given round. */
  type RoundBody = (seq<Message>, nat) -> RoundOutcome

  /** The round body of `process_query` on the given oracles. */
  function BodyOf(env: Env): RoundBody {
    (messages: seq<Message>, roundIdx: nat) => OneRound(env, messages, roundIdx)
  }

  /**
    The outer `for round_idx in range(max_rounds)` loop for any round body:
    entered with message list `messages` in round `roundIdx` (counted from
    0) with `remaining` rounds left; when no round finished the run, it ends
    with the fallback answer and `fallbackEvents`.
  */
  function Loop(body: RoundBody, fallbackEvents: seq<Event>, messages: seq<Message>, roundIdx: nat, remaining: nat): Run
    decreases remaining
  {
    if remaining == 0 then
      Run(Answered(Fallback), messages, fallbackEvents, [])
    else
      var round := body(messages, roundIdx);
      if round.final.Some? then
        Run(Answered(round.final.value), round.messages, round.events, round.calls)
      else
        Prefixed(round.events, round.calls, Loop(body, fallbackEvents, round.messages, roundIdx + 1, remaining - 1))
  }

  /** The rounds still to run in `process_query`, from `messages` in round `roundIdx` with `remaining` left. */
  function Rounds(env: Env, messages: seq<Message>, roundIdx: nat, remaining: nat): Run {
    Loop(BodyOf(env), Notify(env, FinalEvent(Fallback)), messages, roundIdx, remaining)
  }

  /** With no round left, the fallback answers on the messages so far, after the fallback event. */
  lemma RoundsExhausted(env: Env, target: Run, messages: seq<Message>, events: seq<Event>, calls: seq<ExternalCall>,
                        roundIdx: nat)
    requires target == Prefixed(events, calls, Rounds(env, messages, roundIdx, 0))
    ensures target == Run(Answered(Fallback), messages, events + Notify(env, FinalEvent(Fallback)), calls)
  {
    assert calls + [] == calls;
  }

  /** A round that answers ends the rounds with its answer and messages, after its events and calls. */
  lemma RoundsAnswered(env: Env, target: Run, messages: seq<Message>, events: seq<Event>, calls: seq<ExternalCall>,
                       roundIdx: nat, remaining: nat, round: RoundOutcome)
    requires target == Prefixed(events, calls, Rounds(env, messages, roundIdx, remaining))
    requires remaining > 0 && round == OneRound(env, messages, roundIdx) && round.final.Some?
    ensures target == Run(Answered(round.final.value), round.messages, events + round.events, calls + round.calls)
  {
    assert BodyOf(env)(messages, roundIdx) == round;
  }

  /** A round that does not answer leaves the remaining rounds to run after its events and calls. */
  lemma RoundsContinue(env: Env, target: Run, messages: seq<Message>, events: seq<Event>, calls: seq<ExternalCall>,
                       roundIdx: nat, remaining: nat, round: RoundOutcome)
    requires target == Prefixed(events, calls, Rounds(env, messages, roundIdx, remaining))
    requires remaining > 0 && round == OneRound(env, messages, roundIdx) && round.final.None?
    ensures target == Prefixed(events + round.events, calls + round.calls,
                               Rounds(env, round.messages, roundIdx + 1, remaining - 1))
  {
    assert BodyOf(env)(messages, roundIdx) == round;
    PrefixedTwice(events, calls, round.events, round.calls, Rounds(env, round.messages, roundIdx + 1, remaining - 1));
  }

  /** The two messages every conversation starts with. */
  function InitialMessages(query: string): seq<Message> {
    [SystemMsg(SystemPrompt), UserMsg(query)]
  }

  /** A query against a bound session: list the tools, then run the rounds. */
  function QuerySpec(env: Env, query: string, maxRounds: int): Run {
    var run := Rounds(env, InitialMessages(query), 0, Budget(maxRounds));
    Run(run.result, run.messages, run.events, [ListTools] + run.calls)
  }

  /** A query is its rounds preceded by the `list_tools` call. */
  lemma QuerySpecStarts(env: Env, query: string, maxRounds: int)
    ensures QuerySpec(env, query, maxRounds)
            == Prefixed([], [ListTools], Rounds(env, InitialMessages(query), 0, Budget(maxRounds)))
  {
    var run := Rounds(env, InitialMessages(query), 0, Budget(maxRounds));
    assert [] + run.events == run.events;
  }

  /** A run whose events and calls are preceded by those already made. */
  function Prefixed(events: seq<Event>, calls: seq<ExternalCall>, run: Run): Run {
    Run(run.result, run.messages, events + run.events, calls + run.calls)
  }

  /** Appending events and calls in two steps is appending them at once. */
  lemma PrefixedTwice(e1: seq<Event>, c1: seq<ExternalCall>, e2: seq<Event>, c2: seq<ExternalCall>, run: Run)
    ensures Prefixed(e1, c1, Prefixed(e2, c2, run)) == Prefixed(e1 + e2, c1 + c2, run)
  {
    assert e1 + (e2 + run.events) == e1 + e2 + run.events;
    assert c1 + (c2 + run.calls) == c1 + c2 + run.calls;
  }
}
