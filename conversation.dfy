/**
 * The conversation session and the turn loop `on_message`
 * (main.py:249-313): append the user message, then query the model, append
 * its message, and either stop (no tool calls) or append one tool message per
 * call, in call order, and query again.
 */
module Conversation {
  import opened Wrappers
  import opened Registry
  import opened Messages
  import opened Invoker
  import opened Gateway

  /**
   * How a turn ended: a final answer, a gateway failure, or the bound on the
   * number of model queries (the source's `while True` has none).
   */
  datatype Outcome = Done | GatewayFailed | OutOfRounds

  function UnsupportedMessage(kind: string): string
  {
    "Unsupported tool type: " + kind
  }

  /** The tool message answering one call (main.py:286-307). */
  function ToolReply(call: ToolCall, es: seq<Entry>, env: Env): (r: Message)
    ensures r.Tool? && r.toolCallId == call.id
  {
    if call.kind == "function" then Tool(call.id, Invoke(call.name, call.arguments, es, env).content)
    else Tool(call.id, ErrorPayload(UnsupportedMessage(call.kind)))
  }

  /** `tool_messages_for_llm` as the `for` loop builds it, one append per call. */
  function ToolReplies(calls: seq<ToolCall>, es: seq<Entry>, env: Env): (r: seq<Message>)
    ensures |r| == |calls|
  {
    if calls == [] then []
    else ToolReplies(calls[..|calls| - 1], es, env) + [ToolReply(calls[|calls| - 1], es, env)]
  }

  /** `msgs` answer `calls`: one tool message per call, in call order, keyed by its id. */
  predicate Answers(calls: seq<ToolCall>, msgs: seq<Message>)
  {
    |msgs| == |calls| &&
    forall i :: 0 <= i < |calls| ==> msgs[i].Tool? && msgs[i].toolCallId == calls[i].id
  }

  /**
   * The messages a turn appends after the user message: a series of
   * assistant messages, each followed by exactly the tool messages answering
   * its calls; an assistant message without calls can only come last.
   */
  predicate Exchanges(seg: seq<Message>)
    decreases |seg|
  {
    seg == [] ||
    (seg[0].Assistant? &&
     var n := |seg[0].toolCalls|;
     if n == 0 then |seg| == 1
     else 1 + n <= |seg| && Answers(seg[0].toolCalls, seg[1..1 + n]) && Exchanges(seg[1 + n..]))
  }

  /**
   * The loop of main.py:266-310 from history `h`, with at most `rounds` model
   * queries, for a model that answers a history with `respond` and a round
   * whose calls are answered with `answer`.
   */
  function Rounds(h: seq<Message>, respond: seq<Message> -> Option<Reply>,
                  answer: seq<ToolCall> -> seq<Message>, rounds: nat): (r: (seq<Message>, Outcome))
    ensures |h| <= |r.0| && r.0[..|h|] == h
    decreases rounds
  {
    if rounds == 0 then (h, OutOfRounds)
    else match respond(h)
      case None => (h, GatewayFailed)
      case Some(reply) =>
        var h1 := h + [Assistant(reply.content, reply.toolCalls)];
        if reply.toolCalls == [] then (h1, Done)
        else Rounds(h1 + answer(reply.toolCalls), respond, answer, rounds - 1)
  }

  /** The model's answer to a history: `call_gemini` with the registry `es`. */
  function Responder(es: seq<Entry>, endpoint: Endpoint): seq<Message> -> Option<Reply>
  {
    h => Complete(h, es, endpoint)
  }

  /** The tool messages for a round's calls, each call invoked against `es`. */
  function Answerer(es: seq<Entry>, env: Env): seq<ToolCall> -> seq<Message>
  {
    calls => ToolReplies(calls, es, env)
  }

  /** The turn loop with the registry `es`, the tool environment `env` and the model `endpoint`. */
  function Loop(h: seq<Message>, es: seq<Entry>, env: Env, endpoint: Endpoint, rounds: nat): (seq<Message>, Outcome)
  {
    Rounds(h, Responder(es, endpoint), Answerer(es, env), rounds)
  }

  /** One turn for user text `text` on history `h`. */
  function Turn(h: seq<Message>, text: string, es: seq<Entry>, env: Env, endpoint: Endpoint, rounds: nat): (r: (seq<Message>, Outcome))
    ensures |h| + 1 <= |r.0| && r.0[..|h| + 1] == h + [User(text)]
  {
    Loop(h + [User(text)], es, env, endpoint, rounds)
  }

  // ---------------------------------------------------------------------
  // Properties of a turn
  // ---------------------------------------------------------------------

  /** Message `i` of a round's tool messages is the answer to call `i`. */
  lemma {:induction false} ToolReplyAt(calls: seq<ToolCall>, es: seq<Entry>, env: Env, i: nat)
    requires i < |calls|
    ensures ToolReplies(calls, es, env)[i] == ToolReply(calls[i], es, env)
    decreases |calls|
  {
    if i < |calls| - 1 {
      ToolReplyAt(calls[..|calls| - 1], es, env, i);
    }
  }

  /** Each call gets exactly one tool message, in call order, keyed by the call's id. */
  lemma RepliesAnswerCalls(calls: seq<ToolCall>, es: seq<Entry>, env: Env)
    ensures Answers(calls, ToolReplies(calls, es, env))
  {
    forall i | 0 <= i < |calls|
      ensures ToolReplies(calls, es, env)[i].Tool? && ToolReplies(calls, es, env)[i].toolCallId == calls[i].id
    {
      ToolReplyAt(calls, es, env, i);
    }
  }

  /** A call of a type other than "function" is answered with the error and not invoked. */
  lemma UnsupportedCallAnswered(calls: seq<ToolCall>, es: seq<Entry>, env: Env, i: nat)
    requires i < |calls| && calls[i].kind != "function"
    ensures ToolReplies(calls, es, env)[i] == Tool(calls[i].id, ErrorPayload(UnsupportedMessage(calls[i].kind)))
  {
    ToolReplyAt(calls, es, env, i);
  }

  /** A function call is answered with what the invoker returns to the model. */
  lemma FunctionCallAnswered(calls: seq<ToolCall>, es: seq<Entry>, env: Env, i: nat)
    requires i < |calls| && calls[i].kind == "function"
    ensures ToolReplies(calls, es, env)[i] == Tool(calls[i].id, Invoke(calls[i].name, calls[i].arguments, es, env).content)
  {
    ToolReplyAt(calls, es, env, i);
  }

  /** An assistant message with calls, its answers and further exchanges form exchanges. */
  lemma ExchangesCons(m: Message, replies: seq<Message>, rest: seq<Message>)
    requires m.Assistant? && m.toolCalls != [] && Answers(m.toolCalls, replies) && Exchanges(rest)
    ensures Exchanges([m] + replies + rest)
  {
    var seg := [m] + replies + rest;
    var n := |m.toolCalls|;
    assert seg[1..1 + n] == replies;
    assert seg[1 + n..] == rest;
  }

  /** One unfolding of the loop, by how the model answers `h`. */
  lemma LoopStep(h: seq<Message>, es: seq<Entry>, env: Env, endpoint: Endpoint, rounds: nat)
    requires rounds > 0
    ensures Complete(h, es, endpoint).None? ==> Loop(h, es, env, endpoint, rounds) == (h, GatewayFailed)
    ensures Complete(h, es, endpoint).Some? && Complete(h, es, endpoint).value.toolCalls == [] ==>
              var reply := Complete(h, es, endpoint).value;
              Loop(h, es, env, endpoint, rounds) == (h + [Assistant(reply.content, [])], Done)
    ensures Complete(h, es, endpoint).Some? && Complete(h, es, endpoint).value.toolCalls != [] ==>
              var reply := Complete(h, es, endpoint).value;
              Loop(h, es, env, endpoint, rounds) ==
              Loop(h + [Assistant(reply.content, reply.toolCalls)] + ToolReplies(reply.toolCalls, es, env),
                   es, env, endpoint, rounds - 1)
  {
  }

  /** Every round's calls are answered one tool message per call, in order. */
  ghost predicate AnswersEveryRound(answer: seq<ToolCall> -> seq<Message>)
  {
    forall calls :: Answers(calls, answer(calls))
  }

  /** The invoker-backed answerer answers every round. */
  lemma AnswererAnswers(es: seq<Entry>, env: Env)
    ensures AnswersEveryRound(Answerer(es, env))
  {
    forall calls ensures Answers(calls, Answerer(es, env)(calls)) {
      RepliesAnswerCalls(calls, es, env);
    }
  }

  /** The loop only appends to the history, and what it appends is a series of exchanges. */
  lemma {:induction false} RoundsAppendExchanges(h: seq<Message>, respond: seq<Message> -> Option<Reply>,
                                                 answer: seq<ToolCall> -> seq<Message>, rounds: nat)
    requires AnswersEveryRound(answer)
    ensures |h| <= |Rounds(h, respond, answer, rounds).0|
    ensures Rounds(h, respond, answer, rounds).0[..|h|] == h
    ensures Exchanges(Rounds(h, respond, answer, rounds).0[|h|..])
    decreases rounds
  {
    var h' := Rounds(h, respond, answer, rounds).0;
    if rounds == 0 || respond(h).None? {
      assert h'[|h|..] == [];
    } else {
      var reply := respond(h).value;
      var a := Assistant(reply.content, reply.toolCalls);
      if reply.toolCalls == [] {
        assert h'[|h|..] == [a];
      } else {
        var replies := answer(reply.toolCalls);
        var h2 := h + [a] + replies;
        RoundsAppendExchanges(h2, respond, answer, rounds - 1);
        var rest := h'[|h2|..];
        ExchangesCons(a, replies, rest);
        assert h'[|h|..] == [a] + replies + rest;
      }
    }
  }

  /**
   * The loop ends with `Done` exactly when it appended something and the last
   * message is an assistant message without tool calls.
   */
  lemma {:induction false} RoundsDoneIff(h: seq<Message>, respond: seq<Message> -> Option<Reply>,
                                         answer: seq<ToolCall> -> seq<Message>, rounds: nat)
    requires AnswersEveryRound(answer)
    ensures var (h', o) := Rounds(h, respond, answer, rounds);
      o == Done <==> |h'| > |h| && h'[|h'| - 1].Assistant? && h'[|h'| - 1].toolCalls == []
    decreases rounds
  {
    if rounds > 0 && respond(h).Some? && respond(h).value.toolCalls != [] {
      var reply := respond(h).value;
      var replies := answer(reply.toolCalls);
      var h2 := h + [Assistant(reply.content, reply.toolCalls)] + replies;
      RoundsDoneIff(h2, respond, answer, rounds - 1);
      RoundsAppendExchanges(h2, respond, answer, rounds - 1);
      var h' := Rounds(h2, respond, answer, rounds - 1).0;
      if |h'| == |h2| {
        assert h'[|h'| - 1] == replies[|replies| - 1];
      }
    }
  }

  /**
   * A gateway failure ends the loop on the history the model failed to
   * answer: nothing is appended after the failing query.
   */
  lemma {:induction false} RoundsFailureAppendsNothing(h: seq<Message>, respond: seq<Message> -> Option<Reply>,
                                                       answer: seq<ToolCall> -> seq<Message>, rounds: nat)
    ensures Rounds(h, respond, answer, rounds).1 == GatewayFailed ==>
              respond(Rounds(h, respond, answer, rounds).0).None?
    decreases rounds
  {
    if rounds > 0 && respond(h).Some? && respond(h).value.toolCalls != [] {
      var reply := respond(h).value;
      RoundsFailureAppendsNothing(h + [Assistant(reply.content, reply.toolCalls)] + answer(reply.toolCalls),
                                  respond, answer, rounds - 1);
    }
  }

  /** The same three facts for the turn loop of the session. */
  lemma LoopShape(h: seq<Message>, es: seq<Entry>, env: Env, endpoint: Endpoint, rounds: nat)
    ensures var (h', o) := Loop(h, es, env, endpoint, rounds);
      |h| <= |h'| && h'[..|h|] == h && Exchanges(h'[|h|..])
    ensures var (h', o) := Loop(h, es, env, endpoint, rounds);
      o == Done <==> |h'| > |h| && h'[|h'| - 1].Assistant? && h'[|h'| - 1].toolCalls == []
    ensures var (h', o) := Loop(h, es, env, endpoint, rounds);
      o == GatewayFailed ==> Complete(h', es, endpoint).None?
  {
    AnswererAnswers(es, env);
    RoundsAppendExchanges(h, Responder(es, endpoint), Answerer(es, env), rounds);
    RoundsDoneIff(h, Responder(es, endpoint), Answerer(es, env), rounds);
    RoundsFailureAppendsNothing(h, Responder(es, endpoint), Answerer(es, env), rounds);
  }

  /**
   * A turn keeps the old history, appends the user message and then a series
   * of exchanges, and ends with `Done` exactly when its last message is an
   * assistant message without tool calls.
   */
  lemma TurnShape(h: seq<Message>, text: string, es: seq<Entry>, env: Env, endpoint: Endpoint, rounds: nat)
    ensures var (h', o) := Turn(h, text, es, env, endpoint, rounds);
      |h| + 1 <= |h'| && h'[..|h| + 1] == h + [User(text)] && Exchanges(h'[|h| + 1..])
    ensures var (h', o) := Turn(h, text, es, env, endpoint, rounds);
      o == Done <==> h'[|h'| - 1].Assistant? && h'[|h'| - 1].toolCalls == []
  {
    LoopShape(h + [User(text)], es, env, endpoint, rounds);
  }

  /** When the first query fails, the turn leaves only the user message behind. */
  lemma FirstQueryFails(h: seq<Message>, text: string, es: seq<Entry>, env: Env, endpoint: Endpoint, rounds: nat)
    requires rounds > 0 && Complete(h + [User(text)], es, endpoint).None?
    ensures Turn(h, text, es, env, endpoint, rounds) == (h + [User(text)], GatewayFailed)
  {
  }

  // ---------------------------------------------------------------------
  // The session, updated in place
  // ---------------------------------------------------------------------

  /**
   * The `for` loop of main.py:283-307: one tool message per call, in call
   * order, invoking the tool for a "function" call through a fresh step.
   */
  method RunToolCalls(calls: seq<ToolCall>, es: seq<Entry>, env: Env) returns (toolMessages: seq<Message>)
    ensures toolMessages == ToolReplies(calls, es, env)
  {
    toolMessages := [];
    for i := 0 to |calls|
      invariant toolMessages == ToolReplies(calls[..i], es, env)
    {
      var call := calls[i];
      var content: Payload;
      if call.kind == "function" {
        var step := new Step();
        content := CallMcpTool(step, call, es, env);
      } else {
        content := ErrorPayload(UnsupportedMessage(call.kind));
      }
      assert calls[..i + 1][..i] == calls[..i];
      toolMessages := toolMessages + [Tool(call.id, content)];
    }
    assert calls[..|calls|] == calls;
  }

  /** The per-session state of `cl.user_session`: the history and the tool registry. */
  class ChatSession {
    var chatMessages: seq<Message>
    const tools: ToolRegistry

    /** `start_chat` (main.py:249-255), given the text of the system prompt. */
    constructor (systemPrompt: string)
      ensures chatMessages == [System(systemPrompt)]
      ensures fresh(tools) && tools.Valid() && tools.entries == []
    {
      chatMessages := [System(systemPrompt)];
      tools := new ToolRegistry();
    }

    /**
     * `on_message` (main.py:258-313) for user text `text`, with at most
     * `maxRounds` model queries: the history afterwards, and the outcome, are
     * those of `Turn`.
     */
    method OnMessage(text: string, env: Env, endpoint: Endpoint, maxRounds: nat) returns (outcome: Outcome)
      modifies this
      ensures (chatMessages, outcome) == Turn(old(chatMessages), text, tools.entries, env, endpoint, maxRounds)
    {
      var es := tools.entries;
      ghost var target := Turn(chatMessages, text, es, env, endpoint, maxRounds);
      chatMessages := chatMessages + [User(text)];
      var rounds := maxRounds;
      while rounds > 0
        invariant Loop(chatMessages, es, env, endpoint, rounds) == target
        decreases rounds
      {
        LoopStep(chatMessages, es, env, endpoint, rounds);
        var reply := CallGemini(chatMessages, es, endpoint);
        if reply.None? {
          return GatewayFailed;
        }
        var message := reply.value;
        chatMessages := chatMessages + [Assistant(message.content, message.toolCalls)];
        if message.toolCalls == [] {
          return Done;
        }
        var toolMessages := RunToolCalls(message.toolCalls, es, env);
        chatMessages := chatMessages + toolMessages;
        rounds := rounds - 1;
      }
      outcome := OutOfRounds;
    }
  }
}
