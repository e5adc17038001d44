/**
  What the round loop of `process_query` guarantees, proved about the
  specification `RoundLoop.QuerySpec` (and so, through `ProcessQuery`'s
  contract, about the method): the budget on model calls, how the loop ends,
  how assistant and tool messages pair up, the order of outside calls and of
  `on_step` events.

  The loop is first read off any round body as the list of its round
  outcomes (`Trace`); what one round of `process_query` does is then proved
  once (`OneRoundShape`) and the two are put together per query.
*/
module RoundProperties {
  import opened Wrappers
  import opened McpTypes
  import ToolText
  import opened RoundLoop

  // ---------------------------------------------------------------------------
  // Reference views of a run, read off its messages

  /** The text a message carries. */
  function MessageText(m: Message): string {
    if m.AssistantMsg? then ContentText(m.reply) else m.content
  }

  /** The text `process_query` returns or raises with. */
  function ResultText(r: QueryResult): string {
    match r
    case Answered(t) => t
    case RuntimeError(m) => m
  }

  /** How many model calls a trace holds. */
  function CompletionCount(calls: seq<ExternalCall>): nat
  {
    if calls == [] then 0
    else CompletionCount(calls[..|calls| - 1]) + (if calls[|calls| - 1].ChatCompletion? then 1 else 0)
  }

  lemma {:induction false} CompletionCountAppend(a: seq<ExternalCall>, b: seq<ExternalCall>)
    ensures CompletionCount(a + b) == CompletionCount(a) + CompletionCount(b)
    decreases |b|
  {
    if b == [] {
      assert a + b == a;
    } else {
      assert (a + b)[..|a + b| - 1] == a + b[..|b| - 1];
      CompletionCountAppend(a, b[..|b| - 1]);
    }
  }

  /** The `call_tool` calls for a round's requests, each with its parsed arguments, in order. */
  function ToolCallTrace(parse: string -> Option<Json>, tcs: seq<ToolCall>): (calls: seq<ExternalCall>)
    ensures |calls| == |tcs|
    ensures forall i :: 0 <= i < |tcs| ==> calls[i] == CallTool(tcs[i].name, ParsedArguments(parse, tcs[i]))
  {
    if tcs == [] then []
    else ToolCallTrace(parse, tcs[..|tcs| - 1]) + [CallTool(tcs[|tcs| - 1].name, ParsedArguments(parse, tcs[|tcs| - 1]))]
  }

  lemma {:induction false} ToolCallTraceHasNoCompletion(parse: string -> Option<Json>, tcs: seq<ToolCall>)
    ensures CompletionCount(ToolCallTrace(parse, tcs)) == 0
  {
    if tcs != [] {
      ToolCallTraceHasNoCompletion(parse, tcs[..|tcs| - 1]);
      assert ToolCallTrace(parse, tcs)[..|tcs| - 1] == ToolCallTrace(parse, tcs[..|tcs| - 1]);
    }
  }

  /**
    The `"tool_call"` and `"tool_result"` events of a round's requests: for
    each request, in order, its call event then its result event.
  */
  function PairEvents(parse: string -> Option<Json>, tcs: seq<ToolCall>, toolMsgs: seq<Message>): (evs: seq<Event>)
    ensures forall i :: 0 <= i < |evs| ==> evs[i].ToolCallEvent? || evs[i].ToolResultEvent?
    decreases |tcs|
  {
    if tcs == [] || toolMsgs == [] then []
    else
      var tc := tcs[|tcs| - 1];
      PairEvents(parse, tcs[..|tcs| - 1], toolMsgs[..|toolMsgs| - 1])
      + [ToolCallEvent(tc.name, ParsedArguments(parse, tc)), ToolResultEvent(tc.name, MessageText(toolMsgs[|toolMsgs| - 1]))]
  }

  /** Request `i`'s call event is at position `2i`, its result event right after it. */
  lemma {:induction false} PairEventsAt(parse: string -> Option<Json>, tcs: seq<ToolCall>, toolMsgs: seq<Message>, i: nat)
    requires |tcs| == |toolMsgs| && i < |tcs|
    ensures |PairEvents(parse, tcs, toolMsgs)| == 2 * |tcs|
    ensures PairEvents(parse, tcs, toolMsgs)[2 * i] == ToolCallEvent(tcs[i].name, ParsedArguments(parse, tcs[i]))
    ensures PairEvents(parse, tcs, toolMsgs)[2 * i + 1] == ToolResultEvent(tcs[i].name, MessageText(toolMsgs[i]))
    decreases |tcs|
  {
    var n := |tcs|;
    if n > 1 {
      PairEventsAt(parse, tcs[..n - 1], toolMsgs[..n - 1], if i < n - 1 then i else 0);
    }
  }

  /**
    A round's tool requests yield one `tool` message each, in request order,
    answering the request's id with the flattened result of calling the tool
    on the parsed arguments; the calls and events follow the same order.
  */
  lemma ToolBatchShape(env: Env, tcs: seq<ToolCall>)
    ensures |ToolBatch(env, tcs).messages| == |tcs|
    ensures forall i :: 0 <= i < |tcs| ==>
      ToolBatch(env, tcs).messages[i]
      == ToolMsg(tcs[i].id, ToolText.Flatten(env.callTool(tcs[i].name, ParsedArguments(env.parse, tcs[i]))))
    ensures ToolBatch(env, tcs).calls == ToolCallTrace(env.parse, tcs)
    ensures ToolBatch(env, tcs).events
            == if env.hasOnStep then PairEvents(env.parse, tcs, ToolBatch(env, tcs).messages) else []
  {
    ToolBatchMessages(env, tcs);
    ToolBatchCalls(env, tcs);
    ToolBatchEvents(env, tcs);
  }

  /** The tool messages of a round, one per request, in request order. */
  lemma {:induction false} ToolBatchMessages(env: Env, tcs: seq<ToolCall>)
    ensures |ToolBatch(env, tcs).messages| == |tcs|
    ensures forall i :: 0 <= i < |tcs| ==>
      ToolBatch(env, tcs).messages[i]
      == ToolMsg(tcs[i].id, ToolText.Flatten(env.callTool(tcs[i].name, ParsedArguments(env.parse, tcs[i]))))
  {
    if tcs != [] {
      var init := tcs[..|tcs| - 1];
      ToolBatchMessages(env, init);
      var b := ToolBatch(env, tcs);
      assert b.messages == ToolBatch(env, init).messages + [ToolStep(env, tcs[|tcs| - 1]).message];
      forall i | 0 <= i < |tcs|
        ensures b.messages[i]
                == ToolMsg(tcs[i].id, ToolText.Flatten(env.callTool(tcs[i].name, ParsedArguments(env.parse, tcs[i]))))
      {
        if i < |tcs| - 1 {
          assert init[i] == tcs[i];
          assert b.messages[i] == ToolBatch(env, init).messages[i];
        }
      }
    }
  }

  /** The `call_tool` calls of a round, in request order. */
  lemma {:induction false} ToolBatchCalls(env: Env, tcs: seq<ToolCall>)
    ensures ToolBatch(env, tcs).calls == ToolCallTrace(env.parse, tcs)
  {
    if tcs != [] {
      ToolBatchCalls(env, tcs[..|tcs| - 1]);
    }
  }

  /** The tool events of a round, a call/result pair per request, in request order. */
  lemma {:induction false} ToolBatchEvents(env: Env, tcs: seq<ToolCall>)
    ensures ToolBatch(env, tcs).events
            == if env.hasOnStep then PairEvents(env.parse, tcs, ToolBatch(env, tcs).messages) else []
  {
    if tcs != [] {
      var init := tcs[..|tcs| - 1];
      var tc := tcs[|tcs| - 1];
      var b := ToolBatch(env, tcs);
      var bi := ToolBatch(env, init);
      var step := ToolStep(env, tc);
      ToolBatchEvents(env, init);
      assert b == Batch(bi.messages + [step.message], bi.events + step.events, bi.calls + [step.call]);
      assert b.messages[..|b.messages| - 1] == bi.messages;
      assert b.messages[|b.messages| - 1] == step.message;
      if env.hasOnStep {
        assert PairEvents(env.parse, tcs, b.messages)
               == PairEvents(env.parse, init, bi.messages)
                  + [ToolCallEvent(tc.name, ParsedArguments(env.parse, tc)), ToolResultEvent(tc.name, MessageText(step.message))];
      }
    }
  }

  // ---------------------------------------------------------------------------
  // The loop for any round body, as the list of its round outcomes

  /** The outcomes of the rounds a run of `Loop` goes through, in order. */
  function Trace(body: RoundBody, messages: seq<Message>, roundIdx: nat, remaining: nat): seq<RoundOutcome>
    decreases remaining
  {
    if remaining == 0 then []
    else
      var round := body(messages, roundIdx);
      if round.final.Some? then [round] else [round] + Trace(body, round.messages, roundIdx + 1, remaining - 1)
  }

  /** The message list round `k` of a trace starts from; for `k == |t|`, the list the run ends with. */
  function StartOf(messages: seq<Message>, t: seq<RoundOutcome>, k: nat): seq<Message> {
    if k == 0 || k > |t| then messages else t[k - 1].messages
  }

  /** Whether the last round of a trace ended the loop with an answer. */
  predicate Finished(t: seq<RoundOutcome>) {
    t != [] && t[|t| - 1].final.Some?
  }

  /** The outside calls of a trace's rounds, in order. */
  function AllCalls(t: seq<RoundOutcome>): seq<ExternalCall> {
    if t == [] then [] else t[0].calls + AllCalls(t[1..])
  }

  /** The events of a trace's rounds, in order. */
  function AllEvents(t: seq<RoundOutcome>): seq<Event> {
    if t == [] then [] else t[0].events + AllEvents(t[1..])
  }

  /**
    A trace is at most `remaining` rounds long and, with rounds left, not
    empty; only its last round may end the loop, and a trace shorter than
    the budget ended it.
  */
  lemma {:induction false} TraceBounds(body: RoundBody, messages: seq<Message>, roundIdx: nat, remaining: nat)
    ensures |Trace(body, messages, roundIdx, remaining)| <= remaining
    ensures remaining > 0 ==> Trace(body, messages, roundIdx, remaining) != []
    ensures forall k :: 0 <= k < |Trace(body, messages, roundIdx, remaining)| - 1 ==>
              Trace(body, messages, roundIdx, remaining)[k].final.None?
    ensures Finished(Trace(body, messages, roundIdx, remaining))
            || |Trace(body, messages, roundIdx, remaining)| == remaining
    decreases remaining
  {
    if remaining > 0 {
      var round := body(messages, roundIdx);
      if round.final.None? {
        var t := Trace(body, messages, roundIdx, remaining);
        var later := Trace(body, round.messages, roundIdx + 1, remaining - 1);
        TraceBounds(body, round.messages, roundIdx + 1, remaining - 1);
        assert t == [round] + later;
        assert forall k :: 0 < k < |t| ==> t[k] == later[k - 1];
        if later != [] {
          assert t[|t| - 1] == later[|later| - 1];
        }
      }
    }
  }

  /** Round `k` of a trace is the body run, in round `roundIdx + k`, on the messages round `k - 1` left. */
  lemma {:induction false} TraceStep(body: RoundBody, messages: seq<Message>, roundIdx: nat, remaining: nat, k: nat)
    requires k < |Trace(body, messages, roundIdx, remaining)|
    ensures Trace(body, messages, roundIdx, remaining)[k]
            == body(StartOf(messages, Trace(body, messages, roundIdx, remaining), k), roundIdx + k)
    decreases remaining
  {
    var round := body(messages, roundIdx);
    var t := Trace(body, messages, roundIdx, remaining);
    if k > 0 {
      var later := Trace(body, round.messages, roundIdx + 1, remaining - 1);
      assert t == [round] + later;
      TraceStep(body, round.messages, roundIdx + 1, remaining - 1, k - 1);
      assert t[k] == later[k - 1];
      assert StartOf(messages, t, k) == StartOf(round.messages, later, k - 1) by {
        if k > 1 {
          assert t[k - 1] == later[k - 2];
        }
      }
    }
  }

  /** Every round of a trace is the body run on the messages the round before left. */
  lemma TraceSteps(body: RoundBody, messages: seq<Message>, roundIdx: nat, remaining: nat)
    ensures forall k :: 0 <= k < |Trace(body, messages, roundIdx, remaining)| ==>
              Trace(body, messages, roundIdx, remaining)[k]
              == body(StartOf(messages, Trace(body, messages, roundIdx, remaining), k), roundIdx + k)
  {
    forall k | 0 <= k < |Trace(body, messages, roundIdx, remaining)| {
      TraceStep(body, messages, roundIdx, remaining, k);
    }
  }

  /**
    A run of `Loop` is its trace put together: it ends with the messages
    the last round left, makes the rounds' calls in order, and either
    answers with the last round's answer after the rounds' events, or, when
    no round answered, with the fallback after the fallback events.
  */
  lemma LoopFollowsTrace(body: RoundBody, fallbackEvents: seq<Event>, messages: seq<Message>,
                         roundIdx: nat, remaining: nat)
    ensures var run := Loop(body, fallbackEvents, messages, roundIdx, remaining);
            var t := Trace(body, messages, roundIdx, remaining);
            && run.messages == StartOf(messages, t, |t|)
            && run.calls == AllCalls(t)
            && (Finished(t) ==> run.result == Answered(t[|t| - 1].final.value) && run.events == AllEvents(t))
            && (!Finished(t) ==> run.result == Answered(Fallback) && run.events == AllEvents(t) + fallbackEvents)
  {
    LoopMessagesCalls(body, fallbackEvents, messages, roundIdx, remaining);
    LoopResult(body, fallbackEvents, messages, roundIdx, remaining);
    LoopEvents(body, fallbackEvents, messages, roundIdx, remaining);
  }

  /** The run ends with the messages the last round left and makes the rounds' calls in order. */
  lemma {:induction false} LoopMessagesCalls(body: RoundBody, fallbackEvents: seq<Event>, messages: seq<Message>,
                                             roundIdx: nat, remaining: nat)
    ensures var t := Trace(body, messages, roundIdx, remaining);
            && Loop(body, fallbackEvents, messages, roundIdx, remaining).messages == StartOf(messages, t, |t|)
            && Loop(body, fallbackEvents, messages, roundIdx, remaining).calls == AllCalls(t)
    decreases remaining
  {
    var t := Trace(body, messages, roundIdx, remaining);
    if remaining > 0 {
      var round := body(messages, roundIdx);
      if round.final.Some? {
        assert t == [round];
        assert AllCalls(t) == round.calls + AllCalls([]);
      } else {
        var later := Trace(body, round.messages, roundIdx + 1, remaining - 1);
        LoopMessagesCalls(body, fallbackEvents, round.messages, roundIdx + 1, remaining - 1);
        assert t == [round] + later;
        assert t[1..] == later;
        if later != [] {
          assert t[|t| - 1] == later[|later| - 1];
        }
      }
    }
  }

  /** A trace that goes on after its first round is that round followed by the later trace, ending as it does. */
  lemma TraceTail(body: RoundBody, messages: seq<Message>, roundIdx: nat, remaining: nat)
    requires remaining > 0 && body(messages, roundIdx).final.None?
    ensures var round := body(messages, roundIdx);
            var t := Trace(body, messages, roundIdx, remaining);
            var later := Trace(body, round.messages, roundIdx + 1, remaining - 1);
            && t == [round] + later && t[0] == round && t[1..] == later
            && Finished(t) == Finished(later)
            && (Finished(later) ==> t[|t| - 1] == later[|later| - 1])
  {
    var round := body(messages, roundIdx);
    var t := Trace(body, messages, roundIdx, remaining);
    var later := Trace(body, round.messages, roundIdx + 1, remaining - 1);
    assert t == [round] + later;
    if later != [] {
      assert t[|t| - 1] == later[|later| - 1];
    }
  }

  /** The run answers with the last round's answer, or with the fallback when no round answered. */
  lemma {:induction false} LoopResult(body: RoundBody, fallbackEvents: seq<Event>, messages: seq<Message>,
                                      roundIdx: nat, remaining: nat)
    ensures var run := Loop(body, fallbackEvents, messages, roundIdx, remaining);
            var t := Trace(body, messages, roundIdx, remaining);
            && (Finished(t) ==> run.result == Answered(t[|t| - 1].final.value))
            && (!Finished(t) ==> run.result == Answered(Fallback))
    decreases remaining
  {
    if remaining > 0 {
      var round := body(messages, roundIdx);
      if round.final.None? {
        TraceTail(body, messages, roundIdx, remaining);
        LoopResult(body, fallbackEvents, round.messages, roundIdx + 1, remaining - 1);
      }
    }
  }

  /** The events a run reports, given its trace: the rounds' events, then the fallback events if no round answered. */
  function TraceEvents(t: seq<RoundOutcome>, fallbackEvents: seq<Event>): seq<Event> {
    if Finished(t) then AllEvents(t) else AllEvents(t) + fallbackEvents
  }

  /** The run reports the rounds' events in order, followed by the fallback events when no round answered. */
  lemma {:induction false} LoopEvents(body: RoundBody, fallbackEvents: seq<Event>, messages: seq<Message>,
                                      roundIdx: nat, remaining: nat)
    ensures Loop(body, fallbackEvents, messages, roundIdx, remaining).events
            == TraceEvents(Trace(body, messages, roundIdx, remaining), fallbackEvents)
    decreases remaining
  {
    var t := Trace(body, messages, roundIdx, remaining);
    if remaining == 0 {
      assert t == [];
    } else if body(messages, roundIdx).final.Some? {
      var round := body(messages, roundIdx);
      assert t == [round];
      assert AllEvents(t) == round.events + AllEvents([]);
    } else {
      var round := body(messages, roundIdx);
      var later := Trace(body, round.messages, roundIdx + 1, remaining - 1);
      var laterRun := Loop(body, fallbackEvents, round.messages, roundIdx + 1, remaining - 1);
      LoopEvents(body, fallbackEvents, round.messages, roundIdx + 1, remaining - 1);
      TraceTail(body, messages, roundIdx, remaining);
      assert Loop(body, fallbackEvents, messages, roundIdx, remaining).events == round.events + laterRun.events;
      assert AllEvents(t) == round.events + AllEvents(later);
      assert TraceEvents(t, fallbackEvents) == round.events + TraceEvents(later, fallbackEvents);
    }
  }

  /** A body that only appends to the message list makes a run whose messages extend the ones it started from. */
  lemma {:induction false} LoopExtends(body: RoundBody, fallbackEvents: seq<Event>, messages: seq<Message>,
                                       roundIdx: nat, remaining: nat)
    requires forall m: seq<Message>, i: nat :: m <= body(m, i).messages
    ensures messages <= Loop(body, fallbackEvents, messages, roundIdx, remaining).messages
    decreases remaining
  {
    if remaining > 0 {
      var round := body(messages, roundIdx);
      if round.final.None? {
        LoopExtends(body, fallbackEvents, round.messages, roundIdx + 1, remaining - 1);
        PrefixTransitive(messages, round.messages, Loop(body, fallbackEvents, round.messages, roundIdx + 1, remaining - 1).messages);
      }
    }
  }

  lemma PrefixTransitive(a: seq<Message>, b: seq<Message>, c: seq<Message>)
    requires a <= b && b <= c
    ensures a <= c
  {
    assert c[..|a|] == b[..|a|];
  }

  /** One model call per round: the calls of a trace hold as many model calls as it has rounds. */
  lemma {:induction false} AllCallsCount(t: seq<RoundOutcome>)
    requires forall k :: 0 <= k < |t| ==> CompletionCount(t[k].calls) == 1
    ensures CompletionCount(AllCalls(t)) == |t|
  {
    if t != [] {
      assert forall k :: 0 <= k < |t[1..]| ==> t[1..][k] == t[k + 1];
      AllCallsCount(t[1..]);
      CompletionCountAppend(t[0].calls, AllCalls(t[1..]));
    }
  }

  /** `evs` has no `"final"` event, or, when `final` is an answer, exactly one, as its last event. */
  predicate FinalLast(evs: seq<Event>, final: Option<string>) {
    && (final.None? ==> forall i :: 0 <= i < |evs| ==> !evs[i].FinalEvent?)
    && (final.Some? ==> |evs| > 0 && evs[|evs| - 1] == FinalEvent(final.value)
                        && forall i :: 0 <= i < |evs| - 1 ==> !evs[i].FinalEvent?)
  }

  lemma FinalLastAppend(a: seq<Event>, b: seq<Event>, final: Option<string>)
    requires FinalLast(a, None) && FinalLast(b, final)
    ensures FinalLast(a + b, final)
  {
    if final.Some? {
      forall i | 0 <= i < |a + b| - 1
        ensures !(a + b)[i].FinalEvent?
      {
        if i >= |a| {
          assert (a + b)[i] == b[i - |a|];
        }
      }
    } else {
      forall i | 0 <= i < |a + b|
        ensures !(a + b)[i].FinalEvent?
      {
        if i >= |a| {
          assert (a + b)[i] == b[i - |a|];
        }
      }
    }
  }

  /** If each round's events end with its own answer's `"final"` event only, so do the trace's. */
  lemma {:induction false} AllEventsFinalLast(t: seq<RoundOutcome>)
    requires forall k :: 0 <= k < |t| ==> FinalLast(t[k].events, t[k].final)
    requires forall k :: 0 <= k < |t| - 1 ==> t[k].final.None?
    ensures FinalLast(AllEvents(t), if Finished(t) then t[|t| - 1].final else None)
  {
    if t != [] {
      var later := t[1..];
      assert forall k :: 0 <= k < |later| ==> later[k] == t[k + 1];
      AllEventsFinalLast(later);
      if later == [] {
        assert AllEvents(t) == t[0].events + [];
      } else {
        assert later[|later| - 1] == t[|t| - 1];
        FinalLastAppend(t[0].events, AllEvents(later), if Finished(t) then t[|t| - 1].final else None);
      }
    }
  }

  /** Rounds that emit nothing make a trace that emits nothing. */
  lemma {:induction false} AllEventsSilent(t: seq<RoundOutcome>)
    requires forall k :: 0 <= k < |t| ==> t[k].events == []
    ensures AllEvents(t) == []
  {
    if t != [] {
      assert forall k :: 0 <= k < |t[1..]| ==> t[1..][k] == t[k + 1];
      AllEventsSilent(t[1..]);
    }
  }

  // ---------------------------------------------------------------------------
  // One round of process_query

  /**
    One round asks the model once, on the messages so far; appends its reply
    and one `tool` message per requested tool; ends the loop with the
    reply's text exactly when no tool was requested; and reports a `"plan"`
    event just when the reply has content, before the round's `"final"`
    event or its tools' events.
  */
  lemma OneRoundShape(env: Env, messages: seq<Message>, roundIdx: nat)
    ensures var round := OneRound(env, messages, roundIdx);
            var reply := ModelReply(env, messages);
            var tcs := ToolCallsOf(reply);
            var batch := ToolBatch(env, tcs);
            && round.messages == messages + [AssistantMsg(reply)] + batch.messages
            && round.calls == [ChatCompletion(messages)] + ToolCallTrace(env.parse, tcs)
            && (round.final.Some? <==> tcs == [])
            && (round.final.Some? ==> round.final.value == ContentText(reply))
            && round.events
               == (if env.hasOnStep && Truthy(reply.content) then [PlanEvent(roundIdx + 1, reply.content.value)] else [])
                  + (if !env.hasOnStep then []
                     else if tcs == [] then [FinalEvent(ContentText(reply))]
                     else PairEvents(env.parse, tcs, batch.messages))
  {
    var reply := ModelReply(env, messages);
    var tcs := ToolCallsOf(reply);
    ToolBatchShape(env, tcs);
    if tcs == [] {
      assert messages + [AssistantMsg(reply)] + [] == messages + [AssistantMsg(reply)];
      assert [ChatCompletion(messages)] + [] == [ChatCompletion(messages)];
    }
  }

  /** What every round of `process_query` keeps, in the form the trace lemmas use. */
  lemma OneRoundKeeps(env: Env, messages: seq<Message>, roundIdx: nat)
    ensures var round := OneRound(env, messages, roundIdx);
            && messages <= round.messages
            && CompletionCount(round.calls) == 1
            && (env.hasOnStep ==> FinalLast(round.events, round.final))
            && (!env.hasOnStep ==> round.events == [])
  {
    OneRoundShape(env, messages, roundIdx);
    OneRoundCalls(env, messages, roundIdx);
    OneRoundEvents(env, messages, roundIdx);
  }

  /** A round's calls are one model call followed by tool calls only. */
  lemma OneRoundCalls(env: Env, messages: seq<Message>, roundIdx: nat)
    ensures CompletionCount(OneRound(env, messages, roundIdx).calls) == 1
  {
    OneRoundShape(env, messages, roundIdx);
    var tcs := ToolCallsOf(ModelReply(env, messages));
    ToolCallTraceHasNoCompletion(env.parse, tcs);
    CompletionCountAppend([ChatCompletion(messages)], ToolCallTrace(env.parse, tcs));
    assert [ChatCompletion(messages)][..0] == [];
  }

  /** A round's events end with its own `"final"` event, if any, and there is no other. */
  lemma OneRoundEvents(env: Env, messages: seq<Message>, roundIdx: nat)
    ensures var round := OneRound(env, messages, roundIdx);
            && (env.hasOnStep ==> FinalLast(round.events, round.final))
            && (!env.hasOnStep ==> round.events == [])
  {
    var reply := ModelReply(env, messages);
    var tcs := ToolCallsOf(reply);
    var plan := PlanEvents(env, roundIdx, reply);
    assert FinalLast(plan, None);
    if tcs == [] {
      var text := ContentText(reply);
      assert OneRound(env, messages, roundIdx).events == plan + Notify(env, FinalEvent(text));
      if env.hasOnStep {
        FinalLastAppend(plan, [FinalEvent(text)], Some(text));
      }
    } else {
      ToolBatchSilentOrTools(env, tcs);
      assert OneRound(env, messages, roundIdx).events == plan + ToolBatch(env, tcs).events;
      FinalLastAppend(plan, ToolBatch(env, tcs).events, None);
    }
  }

  /** The tool events of a round hold no `"final"` event, and none at all without a callback. */
  lemma ToolBatchSilentOrTools(env: Env, tcs: seq<ToolCall>)
    ensures FinalLast(ToolBatch(env, tcs).events, None)
    ensures !env.hasOnStep ==> ToolBatch(env, tcs).events == []
  {
    ToolBatchShape(env, tcs);
  }

  // ---------------------------------------------------------------------------
  // A whole query

  /** The rounds a query goes through. */
  function QueryRounds(env: Env, query: string, maxRounds: int): seq<RoundOutcome> {
    Trace(BodyOf(env), InitialMessages(query), 0, Budget(maxRounds))
  }

  /** The message list round `k` of a query starts from; for the last `k`, the list the query ends with. */
  function RoundStart(env: Env, query: string, maxRounds: int, k: nat): seq<Message> {
    StartOf(InitialMessages(query), QueryRounds(env, query, maxRounds), k)
  }

  /** The model's reply in round `k` of a query. */
  function ReplyAt(env: Env, query: string, maxRounds: int, k: nat): AssistantReply {
    ModelReply(env, RoundStart(env, query, maxRounds, k))
  }

  /** Round `k` of a query is `OneRound` on the messages round `k - 1` left. */
  lemma QueryRoundSteps(env: Env, query: string, maxRounds: int)
    ensures forall k :: 0 <= k < |QueryRounds(env, query, maxRounds)| ==>
              QueryRounds(env, query, maxRounds)[k] == OneRound(env, RoundStart(env, query, maxRounds, k), k)
  {
    TraceSteps(BodyOf(env), InitialMessages(query), 0, Budget(maxRounds));
  }

  /**
    A query runs at most its budget of rounds; the query lists the tools, then
    makes each round's calls in order; it ends with the messages of its last
    round, and with that round's answer and the rounds' events, or, when no
    round answered, with the fallback and its `"final"` event.
  */
  lemma {:induction false} QueryFollowsRounds(env: Env, query: string, maxRounds: int)
    ensures var t := QueryRounds(env, query, maxRounds);
            var run := QuerySpec(env, query, maxRounds);
            && |t| <= Budget(maxRounds)
            && (forall k :: 0 <= k < |t| - 1 ==> t[k].final.None?)
            && (Finished(t) || |t| == Budget(maxRounds))
            && run.messages == RoundStart(env, query, maxRounds, |t|)
            && run.calls == [ListTools] + AllCalls(t)
            && (Finished(t) ==> run.result == Answered(t[|t| - 1].final.value) && run.events == AllEvents(t))
            && (!Finished(t) ==>
                  run.result == Answered(Fallback) && run.events == AllEvents(t) + Notify(env, FinalEvent(Fallback)))
  {
    var body := BodyOf(env);
    var init := InitialMessages(query);
    var budget := Budget(maxRounds);
    TraceBounds(body, init, 0, budget);
    LoopFollowsTrace(body, Notify(env, FinalEvent(Fallback)), init, 0, budget);
  }

  /** Every round of a query keeps what `OneRoundKeeps` states. */
  lemma QueryRoundsKeep(env: Env, query: string, maxRounds: int)
    ensures forall k :: 0 <= k < |QueryRounds(env, query, maxRounds)| ==>
              && CompletionCount(QueryRounds(env, query, maxRounds)[k].calls) == 1
              && (env.hasOnStep ==>
                    FinalLast(QueryRounds(env, query, maxRounds)[k].events, QueryRounds(env, query, maxRounds)[k].final))
              && (!env.hasOnStep ==> QueryRounds(env, query, maxRounds)[k].events == [])
  {
    QueryRoundSteps(env, query, maxRounds);
    forall k | 0 <= k < |QueryRounds(env, query, maxRounds)| {
      OneRoundKeeps(env, RoundStart(env, query, maxRounds, k), k);
    }
  }

  /**
    A query lists the tools first and then calls the model once per round:
    at most `max_rounds` times, and not at all when `max_rounds <= 0`, in
    which case it answers with the fallback on the two opening messages.
  */
  lemma QueryBudget(env: Env, query: string, maxRounds: int)
    ensures |QuerySpec(env, query, maxRounds).calls| > 0 && QuerySpec(env, query, maxRounds).calls[0] == ListTools
    ensures CompletionCount(QuerySpec(env, query, maxRounds).calls) == |QueryRounds(env, query, maxRounds)|
    ensures CompletionCount(QuerySpec(env, query, maxRounds).calls) <= Budget(maxRounds)
    ensures maxRounds <= 0 ==>
              QuerySpec(env, query, maxRounds)
              == Run(Answered(Fallback), InitialMessages(query), Notify(env, FinalEvent(Fallback)), [ListTools])
  {
    var t := QueryRounds(env, query, maxRounds);
    QueryFollowsRounds(env, query, maxRounds);
    QueryRoundsKeep(env, query, maxRounds);
    AllCallsCount(t);
    CompletionCountAppend([ListTools], AllCalls(t));
    assert [ListTools][..0] == [];
  }

  /** When every reply asks for tools, the query spends its whole budget and answers with the fallback. */
  lemma QueryAlwaysTools(env: Env, query: string, maxRounds: int)
    requires forall ms :: ToolCallsOf(ModelReply(env, ms)) != []
    ensures QuerySpec(env, query, maxRounds).result == Answered(Fallback)
    ensures CompletionCount(QuerySpec(env, query, maxRounds).calls) == Budget(maxRounds)
  {
    var t := QueryRounds(env, query, maxRounds);
    QueryFollowsRounds(env, query, maxRounds);
    QueryRoundSteps(env, query, maxRounds);
    QueryBudget(env, query, maxRounds);
    if t != [] {
      var k := |t| - 1;
      OneRoundShape(env, RoundStart(env, query, maxRounds, k), k);
    }
  }

  /**
    The loop ends at the first reply that asks for no tool, with that
    reply's content (or `""`), the reply being the last message; when every
    reply asked for tools, it ends after the whole budget with the fallback.
  */
  lemma QueryEnding(env: Env, query: string, maxRounds: int)
    ensures forall k :: 0 <= k < |QueryRounds(env, query, maxRounds)| - 1 ==>
              ToolCallsOf(ReplyAt(env, query, maxRounds, k)) != []
    ensures Finished(QueryRounds(env, query, maxRounds)) ==>
              var last := ReplyAt(env, query, maxRounds, |QueryRounds(env, query, maxRounds)| - 1);
              var messages := QuerySpec(env, query, maxRounds).messages;
              && ToolCallsOf(last) == []
              && QuerySpec(env, query, maxRounds).result == Answered(ContentText(last))
              && |messages| > 0 && messages[|messages| - 1] == AssistantMsg(last)
    ensures !Finished(QueryRounds(env, query, maxRounds)) ==>
              && QuerySpec(env, query, maxRounds).result == Answered(Fallback)
              && |QueryRounds(env, query, maxRounds)| == Budget(maxRounds)
              && forall k :: 0 <= k < |QueryRounds(env, query, maxRounds)| ==>
                   ToolCallsOf(ReplyAt(env, query, maxRounds, k)) != []
  {
    var t := QueryRounds(env, query, maxRounds);
    QueryFollowsRounds(env, query, maxRounds);
    forall k | 0 <= k < |t|
      ensures t[k].final.Some? <==> ToolCallsOf(ReplyAt(env, query, maxRounds, k)) == []
    {
      QueryRoundEnds(env, query, maxRounds, k);
    }
    if Finished(t) {
      QueryRoundEnds(env, query, maxRounds, |t| - 1);
    }
  }

  /** Round `k` of a query ends the loop exactly when its reply asks for no tool, with that reply last. */
  lemma QueryRoundEnds(env: Env, query: string, maxRounds: int, k: nat)
    requires k < |QueryRounds(env, query, maxRounds)|
    ensures var round := QueryRounds(env, query, maxRounds)[k];
            var reply := ReplyAt(env, query, maxRounds, k);
            && (round.final.Some? <==> ToolCallsOf(reply) == [])
            && (round.final.Some? ==>
                  round.final.value == ContentText(reply)
                  && round.messages == RoundStart(env, query, maxRounds, k) + [AssistantMsg(reply)])
  {
    TraceStep(BodyOf(env), InitialMessages(query), 0, Budget(maxRounds), k);
    var m := RoundStart(env, query, maxRounds, k);
    assert BodyOf(env)(m, k) == OneRound(env, m, k);
    OneRoundEnds(env, m, k);
  }

  /** A round ends the loop exactly when the reply asks for no tool, with the reply's text and the reply last. */
  lemma OneRoundEnds(env: Env, messages: seq<Message>, roundIdx: nat)
    ensures var round := OneRound(env, messages, roundIdx);
            var reply := ModelReply(env, messages);
            && (round.final.Some? <==> ToolCallsOf(reply) == [])
            && (round.final.Some? ==>
                  round.final.value == ContentText(reply) && round.messages == messages + [AssistantMsg(reply)])
  {
  }

  /**
    The messages start as `[system, user(query)]`; round `k` appends the
    model's reply and then one `tool` message per requested tool, in request
    order (`ToolBatchShape` says what each holds); the last round's list is
    the one the query ends with.
  */
  lemma QueryMessages(env: Env, query: string, maxRounds: int)
    ensures InitialMessages(query) <= QuerySpec(env, query, maxRounds).messages
    ensures forall k :: 0 <= k < |QueryRounds(env, query, maxRounds)| ==>
              RoundStart(env, query, maxRounds, k + 1)
              == RoundStart(env, query, maxRounds, k) + [AssistantMsg(ReplyAt(env, query, maxRounds, k))]
                 + ToolBatch(env, ToolCallsOf(ReplyAt(env, query, maxRounds, k))).messages
    ensures QuerySpec(env, query, maxRounds).messages
            == RoundStart(env, query, maxRounds, |QueryRounds(env, query, maxRounds)|)
  {
    var body := BodyOf(env);
    QueryFollowsRounds(env, query, maxRounds);
    QueryRoundSteps(env, query, maxRounds);
    forall m: seq<Message>, i: nat
      ensures m <= body(m, i).messages
    {
      OneRoundKeeps(env, m, i);
    }
    LoopExtends(body, Notify(env, FinalEvent(Fallback)), InitialMessages(query), 0, Budget(maxRounds));
    forall k | 0 <= k < |QueryRounds(env, query, maxRounds)|
      ensures RoundStart(env, query, maxRounds, k + 1)
              == RoundStart(env, query, maxRounds, k) + [AssistantMsg(ReplyAt(env, query, maxRounds, k))]
                 + ToolBatch(env, ToolCallsOf(ReplyAt(env, query, maxRounds, k))).messages
    {
      OneRoundShape(env, RoundStart(env, query, maxRounds, k), k);
    }
  }

  /**
    Without an `on_step` callback nothing is reported; with one, the
    `"final"` event comes exactly once, as the very last event, carrying the
    returned text, whichever way the loop ended.
  */
  lemma QueryFinalOnce(env: Env, query: string, maxRounds: int)
    ensures !env.hasOnStep ==> QuerySpec(env, query, maxRounds).events == []
    ensures env.hasOnStep ==>
              FinalLast(QuerySpec(env, query, maxRounds).events, Some(ResultText(QuerySpec(env, query, maxRounds).result)))
  {
    var t := QueryRounds(env, query, maxRounds);
    QueryFollowsRounds(env, query, maxRounds);
    QueryRoundsKeep(env, query, maxRounds);
    if env.hasOnStep {
      AllEventsFinalLast(t);
      if !Finished(t) {
        FinalLastAppend(AllEvents(t), [FinalEvent(Fallback)], Some(Fallback));
      }
    } else {
      AllEventsSilent(t);
      assert AllEvents(t) + [] == AllEvents(t);
    }
  }
}
