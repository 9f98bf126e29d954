# Tool-calling orchestration of a chat front-end, in Dafny

This project models the core of a chat front-end that connects a language
model to tool servers reached over the Model Context Protocol (MCP). The core
lives in `main.py`. It keeps, per chat session, a registry of the tools each
MCP connection reported. It turns that registry into function declarations
for the model. It routes each tool call the model makes to the connection
that owns the tool, and it turns every failure into an error payload for the
model. It runs the turn loop: query the model, append its message, answer its
tool calls, query again.

Modules, one per component:

- `Lists` (`lists.dfy`): `flatten`.
- `Registry` (`registry.dfy`): the `mcp_tools` dictionary. It is a sequence of
  entries with distinct connection names, because a Python dictionary keeps
  insertion order. The module holds the pure updates (`Put` for assignment,
  `Remove` for `del`) and the first-match lookup (`Resolve`). The class
  `ToolRegistry` holds the dictionary and updates it in place on connect and
  disconnect.
- `SchemaAdapter` (`schema.dfy`): `format_mcp_tools_for_openai`.
- `Invoker` (`invoker.dfy`): `call_mcp_tool`. `Invoke` is its specification.
  The class `Step` holds the fields of the UI step that the invoker sets.
  `CallMcpTool` is the method with the source's control flow.
- `Gateway` (`gateway.dfy`): the request arguments of `call_gemini`, and its
  two calls to the model endpoint.
- `Messages` (`messages.dfy`): history messages and payloads.
- `Conversation` (`conversation.dfy`): the turn loop (`Rounds`, `Loop`,
  `Turn`) and the class `ChatSession`, whose `OnMessage` appends to the
  history in place.
- `Scenarios` (`scenarios.dfy`): concrete turns and registry histories.
- `Wrappers`, `JsonValues` (`values.dfy`): `Option` and a JSON value type.

External pieces are parameters:

- `json.loads` is the oracle `Env.parse`. It returns `None` on a decode error.
- The live-session table `mcp_sessions` is the set `Env.live` of connection
  names that have a session.
- The remote `call_tool` is the oracle `Env.callTool`. It either returns a
  value or raises with a message.
- The remote value's `str(result)`, its `json.dumps(result, indent=2)` and its
  Python type are fields of `RemoteValue`. The indented form can raise, as it
  does for a dict or list that does not serialise.
- A payload string is tagged with the branch that built it. `ErrorPayload(m)`
  marks `json.dumps({"error": m})` built by an error branch. `Text(s)` marks
  any other string, such as `str(result)`.
- The model endpoint is `Endpoint`. One oracle says whether the streamed call
  runs to its end. The other gives the non-streamed call's message, or `None`
  when it raises. Both receive the same request value, so both calls use
  identical parameters.

Within one turn the history only grows, so no request is sent twice. A
deterministic function of the request can therefore play any sequence of
model answers.

Details of `main.py` that the model keeps:

- Resolution follows the dictionary's insertion order, not the time a
  connection first registered. Reconnecting a connection that is still
  registered keeps its place. A connection that disconnects and reconnects
  moves to the end, so it can lose a shared tool name to a connection that
  came later (`Scenarios.ReconnectMovesToBack`).
- The owner test at main.py:118 is Python truthiness. A connection whose name
  is the empty string is reported as "not found" even when it provides the
  tool. The model keeps this (`Invoker.EmptyConnectionNameNotFound`).
- On success the invoker never sets the step's error flag. The flag keeps the
  value it had.

## Model

| member | source | states |
|---|---|---|
| `Lists.Flatten` | main.py:37-39 | the result's length is the sum of the lengths of the lists |
| `Lists.FlattenAt` | main.py:37-39 | element `j` of list `k` appears at position (total length of lists before `k`) + `j` |
| `Lists.FlattenOrigin` | main.py:37-39 | every element of the result is element `j` of some list `k`, at exactly that position |
| `Registry.Metadata` | main.py:52-60 | one metadata record per listed tool, in order, with name, description and schema copied and the connection recorded as owner |
| `Registry.Lookup` | main.py:82-83 | there is no entry exactly when the name is not a key, the `in` test of the disconnect handler; `PutLookup` and `RemoveLookup` give its value after each update |
| `Registry.Put` | main.py:62-64 | re-registering keeps the number of entries and a new key adds one; `PutLookup`, `PutConnections` and `PutKeyAt` give the entries and their order |
| `Registry.PutLookup` | main.py:62-64 | after connecting, the entry for the connection is the new list whether or not it existed; every other entry is unchanged |
| `Registry.PutConnections` | main.py:62-64 | re-registering keeps the connection's place in iteration order; a new connection goes last |
| `Registry.PutKeyAt` | main.py:62-64 | each position keeps its connection name; the only new position holds the new connection |
| `Registry.PutKeepsUniqueKeys` | main.py:62-64 | connecting keeps connection names distinct |
| `Registry.PutKeepsConsistent` | main.py:52-64 | connecting keeps every stored tool's recorded owner equal to the key it is stored under |
| `Registry.Remove` | main.py:82-86 | deleting never adds entries; `RemoveLookup` and `RemoveAt` give which entries remain and their order |
| `Registry.RemoveLookup` | main.py:82-86 | after disconnecting, the connection has no entry and every other entry is unchanged; an absent name changes nothing |
| `Registry.RemoveAt` | main.py:82-86 | deleting the key at position `k` drops exactly that entry; the other connections keep their entries and their relative order |
| `Registry.RemoveKeepsInvariant` | main.py:82-86 | disconnecting keeps names distinct and ownership consistent, and keeps only entries that were there |
| `Registry.FirstProvider` | main.py:113-116 | the index found is the first entry whose list provides the name; none before it does |
| `Registry.Resolve` | main.py:111-118 | an owner found is a connection whose stored list provides the name; `ResolveNone` and `FirstProviderWins` say when one is found and which |
| `Registry.ResolveNone` | main.py:111-118 | resolution finds no owner exactly when no connection provides the name |
| `Registry.FirstProviderWins` | main.py:111-116 | the earliest connection providing the name is the owner |
| `Registry.EarlierConnectionShadows` | main.py:111-116 | when two connections provide the same name, the later one is never chosen |
| `Registry.SoleProvider` | main.py:111-116 | a name provided by exactly one connection resolves to it |
| `Registry.RemoveOnlyProvider` | main.py:82-86 | after disconnecting `c`, a name only `c` provided resolves to nothing |
| `Registry.PutNewKeepsResolve` | main.py:62-64 | connecting a new connection never changes an existing owner |
| `Registry.RemoveOtherKeepsResolve` | main.py:82-86 | disconnecting another connection keeps the owner |
| `Registry.AllTools` | main.py:166 | the number of tools is the sum over connections; `StoredToolPosition` gives where each stored tool sits |
| `Registry.StoredToolPosition` | main.py:166 | the flattened tool list holds each stored tool after all tools of earlier connections |
| `Registry.ToolRegistry.constructor` | main.py:254 | a new session starts with an empty dictionary |
| `Registry.ToolRegistry.OnConnect` | main.py:42-73 | stores the listed tools under the connection name, or leaves the dictionary unchanged when listing raised; keeps the invariant |
| `Registry.ToolRegistry.OnDisconnect` | main.py:76-86 | removes the connection's entry if present; keeps the invariant |
| `SchemaAdapter.FormatMcpToolsForOpenai` | main.py:160-179 | one declaration of type "function" per stored tool, in flattened order, with name, description and schema copied into name, description and parameters |
| `SchemaAdapter.DeclarationOfStoredTool` | main.py:160-179 | each stored tool of each connection appears as a declaration carrying exactly its name, description and schema, at its flattened position |
| `SchemaAdapter.DeclarationOrigin` | main.py:160-179 | every declaration describes some stored tool |
| `SchemaAdapter.NoDeclarations` | main.py:164-179 | the declaration list is empty exactly when no connection stores a tool |
| `Invoker.Invoke` | main.py:89-157 | the step records the parsed arguments exactly when they parse, and on an error branch shows what the model gets; the lemmas below give each branch |
| `Invoker.InvalidArgumentsReported` | main.py:99-107 | malformed arguments give an error whose message contains the raw argument text, mark the step as failed, and do not depend on registry, sessions or remote calls |
| `Invoker.UnknownToolReported` | main.py:111-123 | a tool no connection provides gives the "not found in any active MCP connection" error |
| `Invoker.EmptyConnectionNameNotFound` | main.py:118-123 | an owner named "" is reported as not found |
| `Invoker.MissingSessionReported` | main.py:125-133 | an owner without a live session gives the "Active MCP session ... not found" error, whatever the remote would do |
| `Invoker.RemoteFailureReported` | main.py:151-157 | an exception from the remote call gives the "Error executing MCP tool" error with its text |
| `Invoker.SuccessReported` | main.py:141-149 | on success the model gets `str(result)` and the step shows indented JSON for dict or list results, `str(result)` otherwise |
| `Invoker.UnserialisableResultReported` | main.py:144-157 | a dict or list result whose indented serialisation raises gets the "Error executing MCP tool" error with that exception's text |
| `Invoker.ErrorFlagMatchesPayload` | main.py:99-157 | the error flag is set exactly on the branches that build the model's string with `json.dumps({"error": ...})` |
| `Invoker.NotFoundAfterDisconnect` | main.py:111-123 | after its only provider disconnects, a tool is reported as not found |
| `Invoker.FindConnection` | main.py:111-116 | the `for`/`break` scan returns the first connection whose list has the name, and finds one exactly when one exists |
| `Invoker.CallMcpTool` | main.py:89-157 | returns what `Invoke` gives the model and sets the step's name, input, output and error flag as `Invoke` says |
| `Gateway.RequestArgs` | main.py:203-210 | tools and `tool_choice = "auto"` appear together, only for a non-empty declaration list, and carry exactly that list |
| `Gateway.Complete` | main.py:212-246 | a reply comes back exactly when the streamed call and then the non-streamed call, both on the same request, succeed |
| `Gateway.StreamFailureSkipsFinal` | main.py:212-241 | when the streamed call fails the non-streamed call is not made: the result is `None` whatever it would answer |
| `Gateway.CompleteSeesOnlyDeclarations` | main.py:196-210 | the answer depends on the registry only through the stored tools in flattened order |
| `Gateway.NoToolsNoToolChoice` | main.py:196-210 | with no stored tools the request has neither tools nor tool choice |
| `Gateway.CallGemini` | main.py:182-246 | builds the declarations and arguments and returns `Complete`; a result means the streamed call succeeded and is the non-streamed call's message for the same request |
| `Conversation.ToolReply` | main.py:286-307 | the message for one call is a tool message carrying that call's id |
| `Conversation.ToolReplies` | main.py:283-307 | one tool message per call; `ToolReplyAt` and `RepliesAnswerCalls` give their order and ids |
| `Conversation.ToolReplyAt` | main.py:283-307 | tool message `i` of a round answers call `i` |
| `Conversation.RepliesAnswerCalls` | main.py:283-309 | each call gets exactly one tool message, in call order, with `tool_call_id` equal to its id |
| `Conversation.UnsupportedCallAnswered` | main.py:296-307 | a call whose type is not "function" gets the "Unsupported tool type" error and is not invoked |
| `Conversation.FunctionCallAnswered` | main.py:286-295 | a function call gets what the invoker returns to the model |
| `Conversation.RunToolCalls` | main.py:283-307 | the `for` loop builds exactly the round's tool messages |
| `Conversation.LoopStep` | main.py:266-310 | one round: a failed query ends the turn unchanged; an answer without calls ends it; otherwise the loop continues on the extended history |
| `Conversation.Rounds` | main.py:264-310 | the loop keeps the history it starts from as a prefix; the lemmas below say what it appends and how it ends |
| `Conversation.Turn` | main.py:258-313 | a turn keeps the old history and the user message as a prefix |
| `Conversation.RoundsAppendExchanges` | main.py:264-310 | the loop only appends, and appends assistant messages each followed by exactly the tool messages answering its calls |
| `Conversation.RoundsDoneIff` | main.py:274-278 | the loop ends successfully exactly when its last appended message is an assistant message without tool calls |
| `Conversation.RoundsFailureAppendsNothing` | main.py:267-272 | after a gateway failure nothing is appended beyond the history the query failed on |
| `Conversation.LoopShape` | main.py:266-310 | the three facts above for `Loop`, the session's loop over the registry, the invoker and the endpoint |
| `Conversation.TurnShape` | main.py:258-313 | a turn keeps the old history, appends the user message, then exchanges; success exactly when the last message is an assistant message without calls |
| `Conversation.FirstQueryFails` | main.py:263-272 | if the first query fails, only the user message is added |
| `Conversation.ChatSession.constructor` | main.py:249-255 | a session starts with the system prompt as its only message and an empty registry |
| `Conversation.ChatSession.OnMessage` | main.py:258-313 | the history afterwards and the outcome are those of `Turn` |
| `Scenarios.PlainAnswer` | main.py:258-313 | "hello" answered by "hi" ends after one query with exactly system, user, assistant |
| `Scenarios.ToolRoundTrip` | main.py:258-313 | a call "c1" whose tool returns 42 gives exactly one tool message with id "c1" and content "42", right after the first assistant message |
| `Scenarios.UnknownToolContinues` | main.py:285-310 | a call to an unknown tool gets the "not found" error and the loop queries again |
| `Scenarios.DuplicateNameFirstWins` | main.py:111-116 | with two connections sharing a tool name the first wins, also after the second disconnects and reconnects |
| `Scenarios.ReconnectMovesToBack` | main.py:62-64 | when the first connection disconnects and reconnects it goes last and loses the shared name |

## Left out

- Environment loading and the `API_KEY`/`BASE_URL` checks (main.py:9-17): process bootstrap.
- Reading `system.md` in `get_system_prompt` (main.py:31-34): file I/O. The prompt text is a parameter of the `ChatSession` constructor.
- All `print` logging, and the Chainlit UI calls: `cl.Message`, `stream_token`, `update`, `ErrorMessage`, and the step decorator's own bookkeeping. The step's fields that the invoker sets are kept as the class `Step`.
- The loop over streamed chunks (main.py:213-229): display only. The model keeps only whether the streamed call ran to its end.
- Async scheduling, and connect or disconnect events during a turn. The registry is read once per turn.
- The structure of JSON beyond a small value type, and JSON floats. Parsing, `json.dumps` and `str` are oracles or constructors, as listed above.
- The request's `temperature` is the real number 0.5. The `stream` flag is which oracle is called.
- `model_dump(exclude_unset=True)`: an assistant message keeps only its text and its tool calls. A missing tool-call list and an empty one are both the empty sequence.
- A turn before `start_chat` has run, when `chat_messages` is missing and the source fails: not modelled.
- Invoker.Env: `callTool` is a function fixed for the whole turn, so two identical calls in one turn get the same outcome. A tool server with changing state, such as the SQLite demonstration server, can answer them differently. The model does not capture state on the server side.
- Invoker.Invoke: a `str(result)` that raises is not modelled. Only the indented serialisation of a dict or list can raise.
- Messages.Payload: the tag records which branch built a string, not what the string holds. A tool whose `str(result)` reads like `{"error": ...}` returns the same characters as an error branch, so `Invoker.ErrorFlagMatchesPayload` speaks about branches and not about the characters the model receives.
- Conversation.ChatSession.OnMessage: the source's `while True` has no bound. The model stops after `maxRounds` queries with the outcome `OutOfRounds`, which the source does not have. Every property of a turn holds for every bound.
- `server/main.py` and `server/sqlite/db_initializer.py`: a demonstration tool server whose behaviour lives in SQLite. They are not part of this model.
