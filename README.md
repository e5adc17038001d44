# MCP SAP Basis bot: the tool-chaining client and the SAP response logic

This project models two parts of the `simple-server-setup` directory of the
MCP SAP Basis bot.

The first part is `MCPOpenAIClient` of `client_sse.py`:

- `get_mcp_tools` turns the MCP tool descriptors into function-calling entries for the chat model.
- `process_query` runs the tool-chaining round loop. It starts from a system prompt and the user query. Each round asks the chat model for a reply and appends it. A reply without tool requests ends the loop with its text. Otherwise every requested tool is called in request order, its result is flattened to text, and a `tool` message answers the request. When the round budget runs out, a fixed fallback text is returned. Progress events go to an optional `on_step` callback.

The second part is the SAP side of `sap_rfc_modules.py`:

- `SAPUserHandler.get_user_list`, `find_user` and `is_user_locked`, with its `USR02.UFLAG` decoding.
- The module function `reset_password`: it scans the `BAPI_USER_CHANGE` `RETURN` table, checks the generated password, commits, and closes the connection.

Everything that leaves the process is an oracle:

- The chat model is a function from (model name, messages, tool catalog) to an assistant reply.
- MCP `call_tool` is a function from (name, arguments) to a tool result.
- `json.loads` is a function from text to an optional JSON value.
- `str(result)` is the opaque `printed` field of a tool result.
- The SAP system is an `RfcServer` value. It says whether a logon succeeds, what each RFC call returns or raises, and whether closing raises.

A run of `process_query` returns its answer together with the message list it built, the events it handed to `on_step` and the calls it made to the outside world. A `Connection` records every RFC call and the close in its `log`.

Files:

- `wrappers.dfy`: Option and Result.
- `mcp_types.dfy`: messages, replies, events and the argument fallback.
- `tool_catalog.dfy`: `get_mcp_tools`.
- `tool_text.dfy`: flattening a tool result to text.
- `round_loop.dfy`: the round loop as a specification function.
- `mcp_client.dfy`: the client class and its imperative `process_query`, proved equal to that specification. The outer round loop is the method `RunRounds`, which `ProcessQuery` calls after the session check and the tool listing.
- `round_properties.dfy`: what the loop guarantees.
- `sap_rfc.dfy`: the pure decisions over RFC data.
- `sap_handler.dfy`: the connection, the handler class and `reset_password`.

Notes on what the client code does and does not do, which the model follows:

- The code has no session store, history persistence, compaction, result cache or concurrent tool dispatch. Tools run one after another.
- `process_query` takes no session identifier.
- A missing session raises `RuntimeError`.
- An exception from `call_tool` is not turned into an error-text result. It propagates.
- The `"plan"` event is emitted for any reply with non-empty content, including the final reply, where it comes just before `"final"`.

## Model

| member | source | states |
|---|---|---|
| `McpTypes.ToolCallsOf` | simple-server-setup/client_sse.py:129 | a reply without tool calls yields the empty request list, otherwise its requests |
| `McpTypes.ContentText` | simple-server-setup/client_sse.py:132 | the final text is the reply's content when non-empty, else `""` |
| `McpTypes.ArgumentText` | simple-server-setup/client_sse.py:140 | argument text is never empty: missing or empty text reads as `"{}"`, otherwise it is kept |
| `McpTypes.ParsedArguments` | simple-server-setup/client_sse.py:140-144 | the payload is the parsed argument text, or `{}` when parsing fails |
| `ToolCatalog.ToOpenAiTools` | simple-server-setup/client_sse.py:76-86 | one entry per descriptor, same order, each of kind `"function"` carrying that descriptor's name, description and input schema as parameters |
| `ToolCatalog.CatalogRoundTrip` | simple-server-setup/client_sse.py:76-86 | the descriptors can be read back from the catalog unchanged, in order |
| `ToolCatalog.CatalogOfConcat` | simple-server-setup/client_sse.py:76-86 | the catalog of concatenated tool lists is the concatenation of their catalogs |
| `ToolText.TextPartsExact` | simple-server-setup/client_sse.py:153-157 | the collected parts are exactly the non-empty item texts: every one is collected, nothing else is, and none are collected only when no item has text |
| `ToolText.TextPartsInOrder` | simple-server-setup/client_sse.py:153-157 | the parts follow the item order with every repetition: the parts of two runs of items are those of the first run followed by those of the second |
| `ToolText.TextPartsSingle` | simple-server-setup/client_sse.py:155-157 | one item contributes its text as a part exactly when that text is non-empty |
| `ToolText.JoinLinesEmpty` | simple-server-setup/client_sse.py:158 | joining non-empty parts with newlines is empty only for no parts |
| `ToolText.FlattenFallback` | simple-server-setup/client_sse.py:153-158 | `str(result)` is used exactly when no item has non-empty text; otherwise the text is the newline-join of the parts and is non-empty |
| `ToolText.FlattenToolText` | simple-server-setup/client_sse.py:153-158 | the loop over the content items and the join compute the flattened text |
| `McpClient.ExecuteToolCall` | simple-server-setup/client_sse.py:139-168 | one tool request: parse with fallback, announce, call, flatten, announce, answer with its id |
| `McpClient.RunToolBatch` | simple-server-setup/client_sse.py:138-168 | the inner loop handles every request of the round in request order |
| `McpClient.RunRound` | simple-server-setup/client_sse.py:114-168 | one round: one model call, its reply appended, plan event, then either the final text or the tool batch |
| `McpClient.AdvanceRound` | simple-server-setup/client_sse.py:114-168 | one pass of the outer loop either completes the whole query's run or leaves exactly the remaining rounds of it to run |
| `McpClient.RunRounds` | simple-server-setup/client_sse.py:112-174 | the outer loop, returning at the first answering round and with the fallback after the budget, produces exactly the run the round-loop specification gives |
| `McpClient.McpOpenAIClient.constructor` | simple-server-setup/client_sse.py:29-42 | a new client has no session |
| `McpClient.McpOpenAIClient.BindSession` | simple-server-setup/client_sse.py:57-59 | connecting binds the session |
| `McpClient.McpOpenAIClient.GetMcpTools` | simple-server-setup/client_sse.py:70-86 | without a session it raises before any outside call; with one it lists the tools once and returns their catalog |
| `McpClient.McpOpenAIClient.ProcessQuery` | simple-server-setup/client_sse.py:88-174 | without a session it raises before any model or tool call; otherwise the run is exactly the round-loop specification `QuerySpec`; the budget defaults to 6 rounds and the callback to none, as in the signature |
| `RoundProperties.ToolCallTrace` | simple-server-setup/client_sse.py:150 | one `call_tool` per request, in order, with the request's name and parsed arguments |
| `RoundProperties.PairEvents` | simple-server-setup/client_sse.py:146-161 | a round's tool events are only `"tool_call"` and `"tool_result"` events |
| `RoundProperties.PairEventsAt` | simple-server-setup/client_sse.py:146-161 | request `i`'s `"tool_call"` is at position `2i` and its `"tool_result"` right after it, so each pair precedes the next request's |
| `RoundProperties.ToolBatchShape` | simple-server-setup/client_sse.py:138-168 | one `tool` message per request, in request order, with `tool_call_id` the request's id and the flattened result of calling the tool on the parsed arguments; calls and events follow the same order |
| `RoundProperties.ToolBatchMessages` | simple-server-setup/client_sse.py:164-168 | request `i` of a round is answered by tool message `i`, carrying its id and the flattened tool result |
| `RoundProperties.ToolBatchEvents` | simple-server-setup/client_sse.py:146-161 | with a callback, a round's tool events are each request's `"tool_call"`/`"tool_result"` pair in request order; without one, none |
| `RoundProperties.TraceBounds` | simple-server-setup/client_sse.py:114 | the loop runs at most its budget of rounds, only the last round may end it, and a shorter run ended with an answer |
| `RoundProperties.TraceSteps` | simple-server-setup/client_sse.py:114-123 | each round runs on the message list the previous round left |
| `RoundProperties.LoopFollowsTrace` | simple-server-setup/client_sse.py:114-174 | the loop's result, messages, calls and events are those of its rounds, followed by the fallback and its event when no round answered |
| `RoundProperties.LoopResult` | simple-server-setup/client_sse.py:114-174 | the loop answers with the answering round's text, or the fallback when no round answered |
| `RoundProperties.LoopEvents` | simple-server-setup/client_sse.py:126-174 | the loop reports its rounds' events in order, then the fallback events when no round answered |
| `RoundProperties.LoopExtends` | simple-server-setup/client_sse.py:112-168 | rounds that only append keep the starting messages as a prefix |
| `RoundProperties.OneRoundShape` | simple-server-setup/client_sse.py:114-168 | a round makes one model call on the current messages, appends the reply and one tool message per request, ends the loop iff no tool was requested, and emits `"plan"` iff the reply has content, before `"final"` or the tool events |
| `RoundProperties.OneRoundKeeps` | simple-server-setup/client_sse.py:114-168 | a round extends the messages, makes exactly one model call, and emits `"final"` only as its last event and only when it ends the loop |
| `RoundProperties.OneRoundEnds` | simple-server-setup/client_sse.py:129-135 | a round ends the loop iff the reply asks for no tool, with the reply's text and the reply as last message |
| `RoundProperties.AllCallsCount` | simple-server-setup/client_sse.py:114-121 | rounds with one model call each make as many model calls as there are rounds |
| `RoundProperties.AllEventsFinalLast` | simple-server-setup/client_sse.py:133-134 | rounds whose `"final"` is last make a run whose `"final"` is last and single |
| `RoundProperties.QueryRoundSteps` | simple-server-setup/client_sse.py:112-168 | round `k` of a query is one round on the messages round `k - 1` left |
| `RoundProperties.QueryFollowsRounds` | simple-server-setup/client_sse.py:101-174 | a query lists the tools, then makes each round's calls in order, and ends with the last round's answer or with the fallback |
| `RoundProperties.QueryRoundsKeep` | simple-server-setup/client_sse.py:114-168 | every round of a query makes one model call and keeps the `"final"` discipline |
| `RoundProperties.QueryBudget` | simple-server-setup/client_sse.py:114-174 | the first outside call is `list_tools`; at most `max_rounds` model calls; with `max_rounds <= 0` the fallback is returned with no model call |
| `RoundProperties.QueryAlwaysTools` | simple-server-setup/client_sse.py:114-174 | if every reply asks for tools, the whole budget is spent and the result is exactly the fallback text |
| `RoundProperties.QueryEnding` | simple-server-setup/client_sse.py:129-135 | the first reply without tool calls ends the loop with its content or `""` and is the last message; otherwise every reply asked for tools and the fallback is returned |
| `RoundProperties.QueryRoundEnds` | simple-server-setup/client_sse.py:129-135 | round `k` of a query ends the loop iff its reply asks for no tool, with that reply's text |
| `RoundProperties.QueryMessages` | simple-server-setup/client_sse.py:112-168 | messages start as `[system, user(query)]`; each round appends the reply and then its tool messages in request order |
| `RoundProperties.QueryFinalOnce` | simple-server-setup/client_sse.py:126-174 | without a callback nothing is emitted; with one, `"final"` is emitted exactly once, last, with the returned text, on both exit paths |
| `SapRfc.Records` | simple-server-setup/sap_rfc_modules.py:126-127 | a table iterates as its rows, empty text or structure as nothing, anything else raises |
| `SapRfc.UserList` | simple-server-setup/sap_rfc_modules.py:28-29 | the response's `USERLIST`, or the empty list when absent |
| `SapRfc.MatchUsersExact` | simple-server-setup/sap_rfc_modules.py:95-100 | the filter raises exactly on the first row missing a needed name; otherwise it returns exactly the rows with both names equal, as an order-preserving subsequence, as many as match (repeated rows included) |
| `SapRfc.MatchUsersFails` | simple-server-setup/sap_rfc_modules.py:96-98 | the filter raises iff some row lacks a name it reads, and then with the `KeyError` of the first such row |
| `SapRfc.MatchUsersFinds` | simple-server-setup/sap_rfc_modules.py:96-100 | a successful filter returns exactly the rows with both names equal, as an order-preserving subsequence, as many as match (repeated rows included) |
| `SapRfc.StripShape` | simple-server-setup/sap_rfc_modules.py:77 | `strip()` keeps the middle of the text between whitespace-only ends, with no whitespace at its edges |
| `SapRfc.StripPadding` | simple-server-setup/sap_rfc_modules.py:77 | stripping whitespace around trimmed text gives that text back |
| `SapRfc.DecodeUflag` | simple-server-setup/sap_rfc_modules.py:80-86 | `'128'` is the wrong-logons lock, `'0'` is no lock, and every other value is a global lock, each iff |
| `SapRfc.WhereUserSelects` | simple-server-setup/sap_rfc_modules.py:56 | the option text is `BNAME = '` followed by the user name as given and a closing quote, so the name reads back from between the quotes |
| `SapRfc.LockQuerySelects` | simple-server-setup/sap_rfc_modules.py:53-65 | the read uses `RFC_READ_TABLE` on `USR02`, field `UFLAG`, delimiter `'\|'`, and one option line comparing `BNAME` with the user name as given |
| `SapRfc.LockStatusFirstRow` | simple-server-setup/sap_rfc_modules.py:76-86 | only the first row's `WA`, stripped, is decoded; a missing `WA` reads as a global lock |
| `SapRfc.LockStatusNoRows` | simple-server-setup/sap_rfc_modules.py:70-74 | absent or empty `DATA` means not locked |
| `SapRfc.ScanReturnFirst` | simple-server-setup/sap_rfc_modules.py:126-131 | the scan stops at the first unreadable or error row and reports that row's message; it finds nothing iff every row passes |
| `SapRfc.InterpretChangeCases` | simple-server-setup/sap_rfc_modules.py:126-136 | a password counts as generated iff no row is an error and it is non-empty; an error row rejects with its message; otherwise generation failed; a response without `RETURN` has no rows to scan |
| `SapHandler.UserListOutcome` | simple-server-setup/sap_rfc_modules.py:26-32 | the user list, or the call's exception re-raised with the fetch context |
| `SapHandler.LockOutcome` | simple-server-setup/sap_rfc_modules.py:49-90 | the lock status, or any exception re-raised with the lock context |
| `SapHandler.FindOutcomeCases` | simple-server-setup/sap_rfc_modules.py:92-103 | a failed call surfaces wrapped twice; no `USERLIST` finds nobody; over complete rows the result is exactly the matching users in order, as many as match |
| `SapHandler.SapUserHandler.constructor` | simple-server-setup/sap_rfc_modules.py:8-14 | a handler holds the connection it was built on |
| `SapHandler.SapUserHandler.GetUserList` | simple-server-setup/sap_rfc_modules.py:26-32 | one `BAPI_USER_GETLIST` call is made and its outcome interpreted |
| `SapHandler.SapUserHandler.IsUserLocked` | simple-server-setup/sap_rfc_modules.py:34-90 | one `RFC_READ_TABLE` call is made and its outcome interpreted |
| `SapHandler.SapUserHandler.FindUser` | simple-server-setup/sap_rfc_modules.py:92-103 | one user-list call, then the filter |
| `SapHandler.LogonOf` | simple-server-setup/sap_rfc_modules.py:110-117 | logon parameters exist iff all five keys are configured |
| `SapHandler.AttemptChange` | simple-server-setup/sap_rfc_modules.py:121-156 | the `try` body with its `RETURN` loop returns the outcome and makes exactly the calls of the specification `ChangeAttempt` |
| `SapHandler.ResetPassword` | simple-server-setup/sap_rfc_modules.py:106-166 | the outcome is that of the specification `ResetSpec`; a handler exists iff one was built, and its connection log is the specification's |
| `SapHandler.ResetUnknownSystem` | simple-server-setup/sap_rfc_modules.py:107 | an unknown system raises iff the key is not configured, before anything is connected |
| `SapHandler.ResetCommitsOnlyGenerated` | simple-server-setup/sap_rfc_modules.py:126-148 | the commit is issued iff a handler was built and the change response generated a password |
| `SapHandler.ResetPasswordAfterCommit` | simple-server-setup/sap_rfc_modules.py:148-151 | `(True, pwd)` comes only after change, a successful commit and close, with the non-empty generated password |
| `SapHandler.ResetConnectedRun` | simple-server-setup/sap_rfc_modules.py:108-162 | with a handler built, the run is the change attempt followed by the close |
| `SapHandler.ChangeRejected` | simple-server-setup/sap_rfc_modules.py:126-131 | the first error row of `RETURN` gives `"Error: " + MESSAGE` of that row, after the change call alone, so with no commit |
| `SapHandler.ChangeNoPassword` | simple-server-setup/sap_rfc_modules.py:133-136 | with no error row and no non-empty generated password the result is `"Error: Password generation failed."`, after the change call alone, so with no commit |
| `SapHandler.ResetExceptionsFail` | simple-server-setup/sap_rfc_modules.py:110-156 | a failed logon, a raising change call, an unscannable `RETURN` or a raising commit each yield `False` |
| `SapHandler.ResetIgnoresCloseFailure` | simple-server-setup/sap_rfc_modules.py:158-166 | whether closing raises changes neither the outcome nor the calls |
| `SapHandler.ResetClosesOnce` | simple-server-setup/sap_rfc_modules.py:158-162 | a built handler's connection is closed exactly once, last; without a handler nothing is called |

## Left out

- `connect_to_server` (SSE transport, exit stack, handshake, printing) is not modelled. `BindSession` stands for the assignment of `self.session`.
- Exceptions raised by the chat-completion call, by `list_tools` or `call_tool`, or by the `on_step` callback are not modelled. The oracles are total, and such an exception would propagate out of `process_query`.
- `resp.choices[0]` on a response without choices is not modelled. The oracle returns the assistant message directly.
- The `tool_choice="auto"` argument is constant and is not represented.
- `async`/`await` is modelled as sequential calls. Every `await` in the code is sequential.
- The contents of the event dictionaries are modelled as typed events. The callback itself is reduced to whether one was supplied.
- The model does not reproduce how `SAPUserHandler.__init__` re-raises connection failures with the texts `"Logon failed: …"`, `"Communication error: …"` or `"An error occurred: …"`. A logon is modelled as accepted or not, and a refused logon inside `reset_password` yields `False`.
- Exception texts built with f-strings are modelled as a structured `Fault`: the context text plus the inner fault.
- `is_user_locked` and `find_user` map a non-table value where rows are read to one `NotRecords` fault, not to Python's distinct `TypeError`, `AttributeError` or `KeyError`.
- Table rows are maps from field names to text. Non-text field values are not modelled.
- The commented-out user-unlock step of `reset_password` is not code and is not modelled.
- `SapRfc.WhereUserSelects`: the user name is put between the quotes of the `WHERE` text without escaping a `'` inside it. The model states the text that is sent, not which `USR02` rows SAP selects with it; a name containing a quote can change the condition, and that is not modelled.
- JSON numbers in tool-call arguments are modelled as integers. Fractional numbers that `json.loads` would produce are not represented; arguments are only passed through to the tool.
- `ExecuteToolCall` keeps the callback events and the outside calls as two separate sequences. Their interleaving (announce the call, `call_tool`, then announce the result) is not stated by a contract.
- simple-server-setup/server.py, simple-server-setup/ui_app.py and simple-server-setup/config.py are not part of this model: they hold tool registration stubs, presentation and environment loading. The configuration is a parameter `systems` of `ResetPassword`.
