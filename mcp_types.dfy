/**
  The values exchanged by the chat client of simple-server-setup/client_sse.py:
  tool descriptors from the MCP session, function-calling entries sent to the
  chat model, assistant replies, conversation messages, progress events and
  the trace of calls made to the outside world.
*/
module McpTypes {
  import opened Wrappers

  /** Structured data as `json.loads` produces it (numbers are kept integral). */
  datatype Json =
    | JNull
    | JBool(b: bool)
    | JNumber(n: int)
    | JString(s: string)
    | JArray(items: seq<Json>)
    | JObject(members: seq<(string, Json)>)

  /** The empty payload `{}` used when argument text cannot be parsed. */
  const EmptyArguments: Json := JObject([])

  /** An MCP tool as `list_tools` reports it. */
  datatype ToolDescriptor = ToolDescriptor(name: string, description: Option<string>, inputSchema: Json)

  /** The `"function"` part of a function-calling entry. */
  datatype FunctionSpec = FunctionSpec(name: string, description: Option<string>, parameters: Json)

  /** `{"type": kind, "function": func}` as handed to the chat-completion call. */
  datatype FunctionEntry = FunctionEntry(kind: string, func: FunctionSpec)

  /** One tool request in an assistant reply; `arguments` is the raw argument text, possibly missing. */
  datatype ToolCall = ToolCall(id: string, name: string, arguments: Option<string>)

  /** The assistant message of a chat-completion response. */
  datatype AssistantReply = AssistantReply(content: Option<string>, toolCalls: Option<seq<ToolCall>>)

  /** A message of the conversation sent to the model. */
  datatype Message =
    | SystemMsg(content: string)
    | UserMsg(content: string)
    | AssistantMsg(reply: AssistantReply)
    | ToolMsg(toolCallId: string, content: string)

  /** One content item of an MCP tool result; `text` is absent for non-text items. */
  datatype ContentItem = ContentItem(text: Option<string>)

  /** An MCP tool result; `printed` stands for `str(result)`, which the client cannot see into. */
  datatype ToolResult = ToolResult(content: seq<ContentItem>, printed: string)

  /** A progress event handed to the optional `on_step` callback. */
  datatype Event =
    | PlanEvent(round: nat, message: string)
    | ToolCallEvent(name: string, args: Json)
    | ToolResultEvent(name: string, result: string)
    | FinalEvent(content: string)

  /** A call that leaves the client: to the MCP session or to the chat model. */
  datatype ExternalCall =
    | ListTools
    | ChatCompletion(messages: seq<Message>)
    | CallTool(name: string, args: Json)

  /** A text is "truthy" in Python when it is present and non-empty. */
  predicate Truthy(s: Option<string>) {
    s.Some? && s.value != ""
  }

  /** `assistant_message.tool_calls or []`. */
  function ToolCallsOf(reply: AssistantReply): (r: seq<ToolCall>)
    ensures reply.toolCalls.None? ==> r == []
    ensures reply.toolCalls.Some? ==> r == reply.toolCalls.value
  {
    reply.toolCalls.GetOr([])
  }

  /** `assistant_message.content or ""`. */
  function ContentText(reply: AssistantReply): (r: string)
    ensures Truthy(reply.content) ==> r == reply.content.value
    ensures !Truthy(reply.content) ==> r == ""
  {
    reply.content.GetOr("")
  }

  /** `tc.function.arguments or "{}"`: missing or empty argument text reads as `"{}"`. */
  function ArgumentText(tc: ToolCall): (r: string)
    ensures r != ""
    ensures Truthy(tc.arguments) ==> r == tc.arguments.value
    ensures !Truthy(tc.arguments) ==> r == "{}"
  {
    if Truthy(tc.arguments) then tc.arguments.value else "{}"
  }

  /** The payload a tool is called with: the parsed argument text, or `{}` when parsing fails. */
  function ParsedArguments(parse: string -> Option<Json>, tc: ToolCall): (r: Json)
    ensures parse(ArgumentText(tc)).None? ==> r == EmptyArguments
    ensures parse(ArgumentText(tc)).Some? ==> r == parse(ArgumentText(tc)).value
  {
    parse(ArgumentText(tc)).GetOr(EmptyArguments)
  }
}
