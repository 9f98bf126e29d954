/**
 * The tool invoker `call_mcp_tool` (main.py:89-157): parse the arguments,
 * find the owning connection, find its live session, forward the call and
 * turn every failure into an error payload that goes back to the model.
 */
module Invoker {
  import opened Wrappers
  import opened JsonValues
  import opened Registry
  import opened Messages

  /** The Python type of a remote result, as far as `isinstance` looks at it. */
  datatype PyKind = Dict | List | OtherKind

  /** What `json.dumps(result, indent=2)` did: produced text, or raised with this text. */
  datatype Dumped = Dumped(text: string) | DumpRaised(reason: string)

  /**
   * A value returned by `call_tool`: its kind, `str(result)` and
   * `json.dumps(result, indent=2)`, which can raise for a dict or list that
   * does not serialise.
   */
  datatype RemoteValue = RemoteValue(kind: PyKind, str: string, indented: Dumped)

  /** What `call_tool` did: returned a value or raised an exception with this text. */
  datatype CallOutcome = Returned(value: RemoteValue) | Raised(reason: string)

  /**
   * What the invoker consults besides the registry: `json.loads` (`None` on a
   * decode error), the connections that have a live entry in
   * `mcp_sessions`, and the remote `call_tool` of a connection's session.
   */
  datatype Env = Env(
    parse: string -> Option<Json>,
    live: set<string>,
    callTool: (string, string, Json) -> CallOutcome)

  /**
   * One invocation's effect: the string returned to the model, the step's
   * output, whether the step is marked as an error, and the parsed input
   * the step records.
   */
  datatype Invocation = Invocation(content: Payload, display: Payload, isError: bool, input: Option<Json>)

  function InvalidArgumentsMessage(name: string, arguments: string): string
  {
    "Error: Invalid JSON arguments received for tool " + name + ": " + arguments
  }

  function NotFoundMessage(name: string): string
  {
    "Tool '" + name + "' not found in any active MCP connection."
  }

  function NoSessionMessage(connection: string): string
  {
    "Active MCP session for connection '" + connection + "' not found."
  }

  function ExecutionErrorMessage(name: string, reason: string): string
  {
    "Error executing MCP tool '" + name + "': " + reason
  }

  /** An error result: the same error payload for the model and for the step. */
  function Failure(message: string, input: Option<Json>): Invocation
  {
    Invocation(ErrorPayload(message), ErrorPayload(message), true, input)
  }

  /** A dict or list result, which the step shows as indented JSON. */
  predicate Structured(v: RemoteValue)
  {
    v.kind == Dict || v.kind == List
  }

  /**
   * The invocation of tool `name` with argument text `arguments`. The owner
   * test is Python truthiness: a connection named "" counts as not found.
   * The step records the parsed arguments whenever they parse, and on an
   * error branch it shows what the model gets.
   */
  function Invoke(name: string, arguments: string, es: seq<Entry>, env: Env): (r: Invocation)
    ensures r.input == env.parse(arguments)
    ensures r.isError ==> r.display == r.content
  {
    match env.parse(arguments)
    case None => Failure(InvalidArgumentsMessage(name, arguments), None)
    case Some(input) =>
      var owner := Resolve(es, name);
      if owner.None? || owner.value == "" then Failure(NotFoundMessage(name), Some(input))
      else if owner.value !in env.live then Failure(NoSessionMessage(owner.value), Some(input))
      else match env.callTool(owner.value, name, input)
        case Raised(reason) => Failure(ExecutionErrorMessage(name, reason), Some(input))
        case Returned(v) =>
          if !Structured(v) then Invocation(Text(v.str), Text(v.str), false, Some(input))
          else match v.indented
            case DumpRaised(reason) => Failure(ExecutionErrorMessage(name, reason), Some(input))
            case Dumped(text) => Invocation(Text(v.str), Text(text), false, Some(input))
  }

  /** `t` occurs in `s` starting at position `i`. */
  predicate OccursAt(s: string, t: string, i: nat)
  {
    i + |t| <= |s| && s[i..i + |t|] == t
  }

  /** `t` occurs in `s` as a contiguous piece. */
  predicate Contains(s: string, t: string)
  {
    exists i: nat | i <= |s| :: OccursAt(s, t, i)
  }

  // ---------------------------------------------------------------------
  // Properties of the invoker
  // ---------------------------------------------------------------------

  /**
   * Malformed arguments give an error whose message contains the raw
   * argument text, and the result is the same whatever the registry, the
   * live sessions and the remote tools are: nothing is resolved or called.
   */
  lemma InvalidArgumentsReported(name: string, arguments: string, es: seq<Entry>, env: Env,
                                 es': seq<Entry>, env': Env)
    requires env.parse(arguments).None? && env'.parse(arguments).None?
    ensures var r := Invoke(name, arguments, es, env);
      r.isError && r.content.ErrorPayload? && r.display == r.content && r.input.None? &&
      Contains(r.content.message, arguments)
    ensures Invoke(name, arguments, es', env') == Invoke(name, arguments, es, env)
  {
    var m := InvalidArgumentsMessage(name, arguments);
    var i := |m| - |arguments|;
    assert OccursAt(m, arguments, i);
  }

  /** A tool no connection provides is reported as not found. */
  lemma UnknownToolReported(name: string, arguments: string, es: seq<Entry>, env: Env)
    requires env.parse(arguments).Some?
    requires forall i :: 0 <= i < |es| ==> !Provides(es[i].tools, name)
    ensures Invoke(name, arguments, es, env) == Failure(NotFoundMessage(name), env.parse(arguments))
  {
    ResolveNone(es, name);
  }

  /** As written, an owner whose connection name is "" is reported as not found. */
  lemma EmptyConnectionNameNotFound(name: string, arguments: string, es: seq<Entry>, env: Env)
    requires env.parse(arguments).Some? && Resolve(es, name) == Some("")
    ensures Invoke(name, arguments, es, env) == Failure(NotFoundMessage(name), env.parse(arguments))
  {
  }

  /** An owner without a live session is reported without calling anything. */
  lemma MissingSessionReported(name: string, arguments: string, es: seq<Entry>, env: Env, c: string)
    requires env.parse(arguments).Some? && Resolve(es, name) == Some(c) && c != ""
    requires c !in env.live
    ensures Invoke(name, arguments, es, env) == Failure(NoSessionMessage(c), env.parse(arguments))
    ensures forall f :: Invoke(name, arguments, es, env.(callTool := f)) == Invoke(name, arguments, es, env)
  {
  }

  /** An exception from the remote call becomes an error payload naming the tool and the reason. */
  lemma RemoteFailureReported(name: string, arguments: string, es: seq<Entry>, env: Env, c: string)
    requires env.parse(arguments).Some? && Resolve(es, name) == Some(c) && c != "" && c in env.live
    requires env.callTool(c, name, env.parse(arguments).value).Raised?
    ensures Invoke(name, arguments, es, env) ==
      Failure(ExecutionErrorMessage(name, env.callTool(c, name, env.parse(arguments).value).reason),
              env.parse(arguments))
  {
  }

  /**
   * On success the model gets `str(result)` and the step shows indented JSON
   * for a dict or list and `str(result)` otherwise; the call goes to the
   * resolved owner with the parsed arguments.
   */
  lemma SuccessReported(name: string, arguments: string, es: seq<Entry>, env: Env, c: string)
    requires env.parse(arguments).Some? && Resolve(es, name) == Some(c) && c != "" && c in env.live
    requires env.callTool(c, name, env.parse(arguments).value).Returned?
    requires var v := env.callTool(c, name, env.parse(arguments).value).value;
      v.kind in {Dict, List} ==> v.indented.Dumped?
    ensures var v := env.callTool(c, name, env.parse(arguments).value).value;
      var r := Invoke(name, arguments, es, env);
      !r.isError && r.content == Text(v.str) &&
      r.display == Text(if v.kind in {Dict, List} then v.indented.text else v.str)
  {
  }

  /**
   * A dict or list result whose indented serialisation raises is reported
   * like a failed call, since that serialisation runs inside the same `try`.
   */
  lemma UnserialisableResultReported(name: string, arguments: string, es: seq<Entry>, env: Env, c: string)
    requires env.parse(arguments).Some? && Resolve(es, name) == Some(c) && c != "" && c in env.live
    requires env.callTool(c, name, env.parse(arguments).value).Returned?
    requires var v := env.callTool(c, name, env.parse(arguments).value).value;
      v.kind in {Dict, List} && v.indented.DumpRaised?
    ensures var v := env.callTool(c, name, env.parse(arguments).value).value;
      Invoke(name, arguments, es, env) == Failure(ExecutionErrorMessage(name, v.indented.reason), env.parse(arguments))
  {
  }

  /**
   * The step is marked as an error exactly on the branches that build the
   * model's string with `json.dumps({"error": ...})`, the ones tagged
   * `ErrorPayload`; every other branch returns `str(result)`.
   */
  lemma ErrorFlagMatchesPayload(name: string, arguments: string, es: seq<Entry>, env: Env)
    ensures var r := Invoke(name, arguments, es, env);
      r.isError <==> r.content.ErrorPayload?
  {
  }

  /**
   * After `on_mcp_disconnect(c)`, a tool that only `c` provided is not found,
   * whatever sessions are live.
   */
  lemma NotFoundAfterDisconnect(name: string, arguments: string, es: seq<Entry>, env: Env, c: string)
    requires env.parse(arguments).Some?
    requires forall i :: 0 <= i < |es| && Provides(es[i].tools, name) ==> es[i].connection == c
    ensures Invoke(name, arguments, Remove(es, c), env) == Failure(NotFoundMessage(name), env.parse(arguments))
  {
    RemoveOnlyProvider(es, c, name);
  }

  // ---------------------------------------------------------------------
  // The invoker as the source runs it
  // ---------------------------------------------------------------------

  /** The fields of the UI step (`cl.context.current_step`) the invoker sets. */
  class Step {
    var name: string
    var input: Option<Json>
    var output: Option<Payload>
    var isError: bool

    constructor ()
      ensures name == "" && input.None? && output.None? && !isError
    {
      name, input, output, isError := "", None, None, false;
    }
  }

  /** The `for`/`break` scan of main.py:111-116 over the connections in order. */
  method FindConnection(es: seq<Entry>, name: string) returns (owner: Option<string>)
    ensures owner == Resolve(es, name)
    ensures owner.Some? <==> exists i :: 0 <= i < |es| && Provides(es[i].tools, name)
  {
    owner := None;
    var i := 0;
    while i < |es|
      invariant 0 <= i <= |es|
      invariant forall j :: 0 <= j < i ==> !Provides(es[j].tools, name)
    {
      if exists t :: t in es[i].tools && t.name == name {
        owner := Some(es[i].connection);
        FirstProviderWins(es, name, i);
        return;
      }
      i := i + 1;
    }
    ResolveNone(es, name);
  }

  /**
   * `call_mcp_tool`: returns what goes back to the model and records, on the
   * step, the tool name, the parsed input, the output and the error flag
   * (left as it was on success).
   */
  method CallMcpTool(step: Step, call: ToolCall, es: seq<Entry>, env: Env) returns (content: Payload)
    modifies step
    ensures var r := Invoke(call.name, call.arguments, es, env);
      content == r.content && step.name == call.name && step.output == Some(r.display) &&
      step.isError == (old(step.isError) || r.isError) &&
      step.input == (if r.input.Some? then r.input else old(step.input))
  {
    step.name := call.name;
    var parsed := env.parse(call.arguments);
    if parsed.None? {
      var message := InvalidArgumentsMessage(call.name, call.arguments);
      step.output := Some(ErrorPayload(message));
      step.isError := true;
      return ErrorPayload(message);
    }
    var input := parsed.value;
    step.input := Some(input);

    var owner := FindConnection(es, call.name);
    if owner.None? || owner.value == "" {
      var message := NotFoundMessage(call.name);
      step.output := Some(ErrorPayload(message));
      step.isError := true;
      return ErrorPayload(message);
    }
    var connection := owner.value;

    if connection !in env.live {
      var message := NoSessionMessage(connection);
      step.output := Some(ErrorPayload(message));
      step.isError := true;
      return ErrorPayload(message);
    }

    match env.callTool(connection, call.name, input)
    case Returned(v) =>
      if v.kind == Dict || v.kind == List {
        match v.indented
        case Dumped(text) =>
          step.output := Some(Text(text));
          content := Text(v.str);
        case DumpRaised(reason) =>
          var message := ExecutionErrorMessage(call.name, reason);
          step.output := Some(ErrorPayload(message));
          step.isError := true;
          content := ErrorPayload(message);
      } else {
        step.output := Some(Text(v.str));
        content := Text(v.str);
      }
    case Raised(reason) =>
      var message := ExecutionErrorMessage(call.name, reason);
      step.output := Some(ErrorPayload(message));
      step.isError := true;
      content := ErrorPayload(message);
  }
}
