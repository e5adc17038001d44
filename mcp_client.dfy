/**
  `MCPOpenAIClient` of simple-server-setup/client_sse.py: a client object
  holding the chat model and, once connected, an MCP session; its
  `get_mcp_tools` and its tool-chaining `process_query`.
*/
module McpClient {
  import opened Wrappers
  import opened McpTypes
  import ToolCatalog
  import ToolText
  import opened RoundLoop

  /** A bound MCP session, reduced to what the client uses: `list_tools` and `call_tool`. */
  datatype Session = Session(tools: seq<ToolDescriptor>, callTool: (string, Json) -> ToolResult)

  /** One pass of the inner loop over the tool requests of a round. */
  method ExecuteToolCall(env: Env, tc: ToolCall) returns (step: Step)
    ensures step == ToolStep(env, tc)
  {
    var name := tc.name;
    var argsJson := ArgumentText(tc);
    var parsed := env.parse(argsJson);
    var args := if parsed.Some? then parsed.value else EmptyArguments;
    var events: seq<Event> := [];
    if env.hasOnStep {
      events := events + [ToolCallEvent(name, args)];
    }
    var result := env.callTool(name, args);
    var toolText := ToolText.FlattenToolText(result);
    if env.hasOnStep {
      events := events + [ToolResultEvent(name, toolText)];
    }
    step := Step(ToolMsg(tc.id, toolText), events, CallTool(name, args));
  }

  /** The inner `for tc in tool_calls` loop: every request of the round, in request order. */
  method RunToolBatch(env: Env, tcs: seq<ToolCall>) returns (batch: Batch)
    ensures batch == ToolBatch(env, tcs)
  {
    var messages: seq<Message> := [];
    var events: seq<Event> := [];
    var calls: seq<ExternalCall> := [];
    var j := 0;
    while j < |tcs|
      invariant j <= |tcs|
      invariant Batch(messages, events, calls) == ToolBatch(env, tcs[..j])
    {
      assert tcs[..j + 1][..j] == tcs[..j];
      var step := ExecuteToolCall(env, tcs[j]);
      messages := messages + [step.message];
      events := events + step.events;
      calls := calls + [step.call];
      j := j + 1;
    }
    assert tcs[..j] == tcs;
    batch := Batch(messages, events, calls);
  }

  /**
    One pass of the body of `for round_idx in range(max_rounds)`: ask the
    model, append its reply, report the plan, then either finish with the
    reply's text (`final` is set) or run every requested tool.
  */
  method RunRound(env: Env, messages: seq<Message>, roundIdx: nat) returns (round: RoundOutcome)
    ensures round == OneRound(env, messages, roundIdx)
  {
    var reply := ModelReply(env, messages);
    var calls := [ChatCompletion(messages)];
    var updated := messages + [AssistantMsg(reply)];
    var events: seq<Event> := [];
    if env.hasOnStep && Truthy(reply.content) {
      events := events + [PlanEvent(roundIdx + 1, reply.content.value)];
    }
    var tcs := ToolCallsOf(reply);
    if tcs == [] {
      var finalText := ContentText(reply);
      if env.hasOnStep {
        events := events + [FinalEvent(finalText)];
      }
      return RoundOutcome(Some(finalText), updated, events, calls);
    }
    var batch := RunToolBatch(env, tcs);
    round := RoundOutcome(None, updated + batch.messages, events + batch.events, calls + batch.calls);
  }

  /**
    One pass of the outer loop with its bookkeeping: run the round on the
    messages so far and extend the events and calls made so far. `target`
    is the run the whole query must produce; if the round answers, the run
    is complete and equals it, otherwise what is left of it is the
    remaining rounds.
  */
  method AdvanceRound(env: Env, ghost target: Run, messages: seq<Message>, events: seq<Event>, calls: seq<ExternalCall>,
                      roundIdx: nat, remaining: nat)
    returns (answer: Option<string>, messages': seq<Message>, events': seq<Event>, calls': seq<ExternalCall>)
    requires remaining > 0 && target == Prefixed(events, calls, Rounds(env, messages, roundIdx, remaining))
    ensures answer.Some? ==> target == Run(Answered(answer.value), messages', events', calls')
    ensures answer.None? ==> target == Prefixed(events', calls', Rounds(env, messages', roundIdx + 1, remaining - 1))
  {
    var round := RunRound(env, messages, roundIdx);
    if round.final.Some? {
      RoundsAnswered(env, target, messages, events, calls, roundIdx, remaining, round);
    } else {
      RoundsContinue(env, target, messages, events, calls, roundIdx, remaining, round);
    }
    return round.final, round.messages, events + round.events, calls + round.calls;
  }

  /**
    The outer `for round_idx in range(max_rounds)` loop of `process_query`,
    entered with the opening messages, the round budget and the calls made
    before it (the `list_tools` call); it returns at the first round that
    answers, and with the fallback after the last round.
  */
  method RunRounds(env: Env, messages0: seq<Message>, budget: nat, calls0: seq<ExternalCall>) returns (run: Run)
    ensures run == Prefixed([], calls0, Rounds(env, messages0, 0, budget))
  {
    ghost var target := Prefixed([], calls0, Rounds(env, messages0, 0, budget));
    var messages := messages0;
    var events: seq<Event> := [];
    var calls := calls0;
    var roundIdx: nat := 0;
    while roundIdx < budget
      invariant roundIdx <= budget
      invariant target == Prefixed(events, calls, Rounds(env, messages, roundIdx, budget - roundIdx))
    {
      var answer;
      answer, messages, events, calls := AdvanceRound(env, target, messages, events, calls, roundIdx, budget - roundIdx);
      if answer.Some? {
        return Run(Answered(answer.value), messages, events, calls);
      }
      roundIdx := roundIdx + 1;
    }
    RoundsExhausted(env, target, messages, events, calls, roundIdx);
    if env.hasOnStep {
      events := events + [FinalEvent(Fallback)];
    }
    run := Run(Answered(Fallback), messages, events, calls);
  }

  class McpOpenAIClient {
    var session: Option<Session>
    const model: string
    const complete: (string, seq<Message>, seq<FunctionEntry>) -> AssistantReply
    const parseJson: string -> Option<Json>

    constructor (model: string, complete: (string, seq<Message>, seq<FunctionEntry>) -> AssistantReply,
                 parseJson: string -> Option<Json>)
      ensures session.None?
      ensures this.model == model && this.complete == complete && this.parseJson == parseJson
    {
      this.model := model;
      this.complete := complete;
      this.parseJson := parseJson;
      session := None;
    }

    /** The part of `connect_to_server` that binds `self.session`. */
    method BindSession(s: Session)
      modifies this
      ensures session == Some(s)
    {
      session := Some(s);
    }

    /** The oracles a query against session `s` runs with. */
    function EnvOf(s: Session, hasOnStep: bool): Env {
      Env(model, complete, parseJson, s.callTool, ToolCatalog.ToOpenAiTools(s.tools), hasOnStep)
    }

    /** `get_mcp_tools`: raises without a session, else lists the tools and converts them. */
    method GetMcpTools() returns (r: Result<seq<FunctionEntry>, string>, calls: seq<ExternalCall>)
      ensures session.None? ==> r == Failure(NotInitialized) && calls == []
      ensures session.Some? ==> r == Success(ToolCatalog.ToOpenAiTools(session.value.tools)) && calls == [ListTools]
    {
      if session.None? {
        return Failure(NotInitialized), [];
      }
      var listed := session.value.tools;
      calls := [ListTools];
      r := Success(ToolCatalog.ToOpenAiTools(listed));
    }

    /**
      `process_query(query, max_rounds=maxRounds, on_step=...)`; `hasOnStep`
      says whether a callback was supplied, and the run reports the events it
      was handed. As in the source, the budget defaults to six rounds and the
      callback to none.
    */
    method ProcessQuery(query: string, maxRounds: int := 6, hasOnStep: bool := false) returns (run: Run)
      ensures session.None? ==> run == Run(RuntimeError(NotInitialized), [], [], [])
      ensures session.Some? ==> run == QuerySpec(EnvOf(session.value, hasOnStep), query, maxRounds)
    {
      if session.None? {
        return Run(RuntimeError(NotInitialized), [], [], []);
      }
      var s := session.value;
      var listed, calls := GetMcpTools();
      var env := Env(model, complete, parseJson, s.callTool, listed.value, hasOnStep);
      QuerySpecStarts(env, query, maxRounds);
      run := RunRounds(env, InitialMessages(query), Budget(maxRounds), calls);
    }
  }
}
