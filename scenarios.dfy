/**
 * Concrete turns and registry histories: a plain answer, a successful tool
 * round trip, an unknown tool, and a tool name exposed by two connections.
 */
module Scenarios {
  import opened Wrappers
  import opened JsonValues
  import opened Registry
  import opened Messages
  import opened Invoker
  import opened Gateway
  import opened Conversation

  /** A model that always answers "hi" without tool calls. */
  function SaysHi(): Endpoint
  {
    Endpoint(r => true, r => Some(Reply(Some("hi"), [])))
  }

  /** A user says "hello", the model answers "hi": one query, three messages. */
  lemma PlainAnswer(prompt: string, es: seq<Entry>, env: Env, rounds: nat)
    requires rounds > 0
    ensures Turn([System(prompt)], "hello", es, env, SaysHi(), rounds) ==
              ([System(prompt), User("hello"), Assistant(Some("hi"), [])], Done)
  {
    var h := [System(prompt), User("hello")];
    assert [System(prompt)] + [User("hello")] == h;
    assert Complete(h, es, SaysHi()) == Some(Reply(Some("hi"), []));
    LoopStep(h, es, env, SaysHi(), rounds);
    assert h + [Assistant(Some("hi"), [])] == [System(prompt), User("hello"), Assistant(Some("hi"), [])];
  }

  const LookupCall := ToolCall("c1", "function", "lookup", "{\"x\":1}")

  /** A model that first calls `lookup` and, once it has the result, answers. */
  function AsksThenAnswers(): Endpoint
  {
    Endpoint(r => true,
             (r: Request) => if |r.messages| == 2 then Some(Reply(None, [LookupCall]))
                  else Some(Reply(Some("the answer is 42"), [])))
  }

  /** One connection "db" provides `lookup`, which returns 42. */
  function LookupRegistry(): seq<Entry>
  {
    [Entry("db", [ToolMeta("lookup", None, Null, "db")])]
  }

  function LookupEnv(): Env
  {
    Env(s => Some(Object([("x", Number(1))])), {"db"},
        (c, n, a) => Returned(RemoteValue(OtherKind, "42", Dumped("42"))))
  }

  /**
   * The tool round trip: the single tool message carries id "c1" and content
   * "42", right after the first assistant message, and the turn ends on the
   * second answer.
   */
  lemma ToolRoundTrip(prompt: string, question: string)
    ensures Turn([System(prompt)], question, LookupRegistry(), LookupEnv(), AsksThenAnswers(), 2) ==
              ([System(prompt), User(question), Assistant(None, [LookupCall]),
                Tool("c1", Text("42")), Assistant(Some("the answer is 42"), [])], Done)
  {
    var es, env, endpoint := LookupRegistry(), LookupEnv(), AsksThenAnswers();
    var h1 := [System(prompt), User(question)];
    assert [System(prompt)] + [User(question)] == h1;
    assert Complete(h1, es, endpoint) == Some(Reply(None, [LookupCall]));
    LoopStep(h1, es, env, endpoint, 2);
    assert Provides(es[0].tools, "lookup") by { assert es[0].tools[0] in es[0].tools; }
    FirstProviderWins(es, "lookup", 0);
    assert ToolReplies([LookupCall], es, env) == [Tool("c1", Text("42"))];
    var h2 := h1 + [Assistant(None, [LookupCall])] + [Tool("c1", Text("42"))];
    assert Complete(h2, es, endpoint) == Some(Reply(Some("the answer is 42"), []));
    LoopStep(h2, es, env, endpoint, 1);
    assert h2 + [Assistant(Some("the answer is 42"), [])] ==
           [System(prompt), User(question), Assistant(None, [LookupCall]),
            Tool("c1", Text("42")), Assistant(Some("the answer is 42"), [])];
  }

  const MissingCall := ToolCall("c2", "function", "missing", "{}")

  /** A model that first calls a tool nobody provides and then answers. */
  function AsksForMissing(): Endpoint
  {
    Endpoint(r => true,
             (r: Request) => if |r.messages| == 2 then Some(Reply(None, [MissingCall]))
                  else Some(Reply(Some("sorry"), [])))
  }

  /**
   * An unknown tool: its tool message is the "not found" error, and the loop
   * queries the model again instead of stopping.
   */
  lemma UnknownToolContinues(prompt: string, question: string, env: Env)
    requires env.parse("{}").Some?
    ensures Turn([System(prompt)], question, LookupRegistry(), env, AsksForMissing(), 2) ==
              ([System(prompt), User(question), Assistant(None, [MissingCall]),
                Tool("c2", ErrorPayload(NotFoundMessage("missing"))), Assistant(Some("sorry"), [])], Done)
  {
    var es, endpoint := LookupRegistry(), AsksForMissing();
    var h1 := [System(prompt), User(question)];
    assert [System(prompt)] + [User(question)] == h1;
    assert Complete(h1, es, endpoint) == Some(Reply(None, [MissingCall]));
    LoopStep(h1, es, env, endpoint, 2);
    assert !Provides(es[0].tools, "missing");
    UnknownToolReported("missing", "{}", es, env);
    assert ToolReplies([MissingCall], es, env) == [Tool("c2", ErrorPayload(NotFoundMessage("missing")))];
    var h2 := h1 + [Assistant(None, [MissingCall])] + [Tool("c2", ErrorPayload(NotFoundMessage("missing")))];
    assert Complete(h2, es, endpoint) == Some(Reply(Some("sorry"), []));
    LoopStep(h2, es, env, endpoint, 1);
    assert h2 + [Assistant(Some("sorry"), [])] ==
           [System(prompt), User(question), Assistant(None, [MissingCall]),
            Tool("c2", ErrorPayload(NotFoundMessage("missing"))), Assistant(Some("sorry"), [])];
  }

  /** Connecting `a` and then `b` to an empty registry. */
  lemma TwoConnections(a: string, b: string, ta: seq<ToolMeta>, tb: seq<ToolMeta>) returns (es: seq<Entry>)
    requires a != b
    ensures es == Put(Put([], a, ta), b, tb) == [Entry(a, ta), Entry(b, tb)]
  {
    es := Put(Put([], a, ta), b, tb);
    assert Put([], a, ta) == [Entry(a, ta)];
    assert [Entry(a, ta)][1..] == [];
  }

  /**
   * Two connections `a` then `b` both provide `name`: `a` wins, and still
   * wins after `b` disconnects and reconnects, because a reconnecting
   * connection goes to the end of the iteration order.
   */
  lemma DuplicateNameFirstWins(a: string, b: string, ta: seq<ToolMeta>, tb: seq<ToolMeta>, name: string)
    requires a != b && Provides(ta, name) && Provides(tb, name)
    ensures Resolve(Put(Put([], a, ta), b, tb), name) == Some(a)
    ensures Resolve(Put(Remove(Put(Put([], a, ta), b, tb), b), b, tb), name) == Some(a)
  {
    var es := TwoConnections(a, b, ta, tb);
    FirstProviderWins(es, name, 0);
    var es' := Remove(es, b);
    assert es[1..] == [Entry(b, tb)] && es[1..][1..] == [];
    assert Remove(es[1..], b) == [];
    assert es' == [Entry(a, ta)];
    assert es'[1..] == [];
    assert Put(es', b, tb) == es;
    FirstProviderWins(Put(es', b, tb), name, 0);
  }

  /**
   * The converse hazard: when the first connection `a` disconnects and
   * reconnects, it moves behind `b`, and `b` now wins the shared name.
   */
  lemma ReconnectMovesToBack(a: string, b: string, ta: seq<ToolMeta>, tb: seq<ToolMeta>, name: string)
    requires a != b && Provides(ta, name) && Provides(tb, name)
    ensures Resolve(Put(Remove(Put(Put([], a, ta), b, tb), a), a, ta), name) == Some(b)
  {
    var es := TwoConnections(a, b, ta, tb);
    var es' := Remove(es, a);
    assert es[1..] == [Entry(b, tb)] && es[1..][1..] == [];
    assert Remove(es[1..], a) == [Entry(b, tb)] + Remove(es[1..][1..], a);
    assert es' == [Entry(b, tb)];
    assert es'[1..] == [];
    assert Put(es', a, ta) == [Entry(b, tb), Entry(a, ta)];
    FirstProviderWins(Put(es', a, ta), name, 0);
  }
}
