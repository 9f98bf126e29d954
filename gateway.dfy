/**
 * The request side of `call_gemini` (main.py:182-246): the request
 * arguments, the streamed call whose text is only displayed, and the
 * non-streamed call whose message is the turn's result. The model endpoint
 * itself is an oracle.
 */
module Gateway {
  import opened Wrappers
  import opened Registry
  import opened Messages
  import opened SchemaAdapter

  const ModelName: string := "gemini-2.0-flash"
  const Temperature: real := 0.5

  /** `api_args` (main.py:203-210); the `stream` flag is added per call. */
  datatype Request = Request(
    model: string,
    messages: seq<Message>,
    temperature: real,
    tools: Option<seq<Declaration>>,
    toolChoice: Option<string>)

  /** The assistant message of the final response: its text and tool calls. */
  datatype Reply = Reply(content: Option<string>, toolCalls: seq<ToolCall>)

  /**
   * The endpoint: whether the streamed call runs to its end without raising,
   * and what the non-streamed call returns (`None` when it raises).
   */
  datatype Endpoint = Endpoint(streamed: Request -> bool, final: Request -> Option<Reply>)

  /**
   * The request arguments for `messages` and the declarations `decls`: tools
   * and `tool_choice = "auto"` are present together, and only when there is
   * at least one declaration.
   */
  function RequestArgs(messages: seq<Message>, decls: seq<Declaration>): (r: Request)
    ensures r.model == ModelName && r.messages == messages && r.temperature == Temperature
    ensures r.tools.Some? <==> |decls| > 0
    ensures r.tools.Some? <==> r.toolChoice.Some?
    ensures r.tools.Some? ==> r.tools.value == decls && r.toolChoice.value == "auto"
  {
    if |decls| > 0 then Request(ModelName, messages, Temperature, Some(decls), Some("auto"))
    else Request(ModelName, messages, Temperature, None, None)
  }

  /**
   * The result of `call_gemini(history)` with the registry `es`: the final
   * message when both calls succeed, `None` when either fails. Both calls
   * receive the same request, which carries the whole history.
   */
  function Complete(history: seq<Message>, es: seq<Entry>, endpoint: Endpoint): (r: Option<Reply>)
    ensures var request := RequestArgs(history, ToolDeclarations(es));
      r.Some? <==> endpoint.streamed(request) && endpoint.final(request).Some?
  {
    var request := RequestArgs(history, ToolDeclarations(es));
    if endpoint.streamed(request) then endpoint.final(request) else None
  }

  /**
   * When the streamed call fails, the non-streamed call is never made: the
   * result is `None` whatever that call would have answered.
   */
  lemma StreamFailureSkipsFinal(history: seq<Message>, es: seq<Entry>, endpoint: Endpoint)
    requires !endpoint.streamed(RequestArgs(history, ToolDeclarations(es)))
    ensures forall f :: Complete(history, es, endpoint.(final := f)) == None
  {
  }

  /**
   * The answer depends on the registry only through its declarations: two
   * registries storing the same tools in the same order get the same answer.
   */
  lemma CompleteSeesOnlyDeclarations(history: seq<Message>, es: seq<Entry>, es': seq<Entry>, endpoint: Endpoint)
    requires AllTools(es) == AllTools(es')
    ensures Complete(history, es, endpoint) == Complete(history, es', endpoint)
  {
  }

  /** A registry without tools sends a request with neither tools nor tool choice. */
  lemma NoToolsNoToolChoice(history: seq<Message>, es: seq<Entry>)
    requires forall i :: 0 <= i < |es| ==> es[i].tools == []
    ensures RequestArgs(history, ToolDeclarations(es)).tools.None?
    ensures RequestArgs(history, ToolDeclarations(es)).toolChoice.None?
  {
    NoDeclarations(es);
  }

  /** `call_gemini`: builds the declarations and the arguments, then calls the endpoint. */
  method CallGemini(history: seq<Message>, es: seq<Entry>, endpoint: Endpoint) returns (reply: Option<Reply>)
    ensures reply == Complete(history, es, endpoint)
    ensures var request := RequestArgs(history, ToolDeclarations(es));
      reply.Some? ==> endpoint.streamed(request) && reply == endpoint.final(request)
  {
    var decls := FormatMcpToolsForOpenai(es);
    var request := RequestArgs(history, decls);
    var streamedOk := endpoint.streamed(request);
    if !streamedOk {
      return None;
    }
    reply := endpoint.final(request);
  }
}
