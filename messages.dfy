/**
 * The conversation history's messages (the dictionaries stored in
 * `chat_messages`) and the payload strings that tool messages carry.
 */
module Messages {
  import opened Wrappers

  /**
   * A payload string, tagged with the branch that built it. `ErrorPayload(m)`
   * marks the string `json.dumps({"error": m})` built by an error branch;
   * `Text(s)` marks a string built any other way, such as `str(result)`. The
   * tag is not visible in the string itself: a tool whose `str(result)` reads
   * like a serialised error yields the same characters as an error payload.
   */
  datatype Payload = Text(text: string) | ErrorPayload(message: string)

  /** One element of an assistant message's `tool_calls`. */
  datatype ToolCall = ToolCall(id: string, kind: string, name: string, arguments: string)

  /**
   * A history entry. An assistant message keeps its optional text and its
   * tool calls verbatim; a missing tool-call list is the empty sequence.
   */
  datatype Message =
    | System(content: string)
    | User(content: string)
    | Assistant(text: Option<string>, toolCalls: seq<ToolCall>)
    | Tool(toolCallId: string, result: Payload)
}
