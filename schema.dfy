/** `format_mcp_tools_for_openai` (main.py:160-179). */
module SchemaAdapter {
  import opened Wrappers
  import opened JsonValues
  import opened Registry
  import Lists

  /** The `"function"` member of a declaration. */
  datatype FunctionDecl = FunctionDecl(name: string, description: Option<string>, parameters: Json)

  /** `{"type": kind, "function": fn}`. */
  datatype Declaration = Declaration(kind: string, fn: FunctionDecl)

  /** The declaration built for one stored tool. */
  function Declare(t: ToolMeta): Declaration
  {
    Declaration("function", FunctionDecl(t.name, t.description, t.inputSchema))
  }

  /** The declarations for every stored tool, in flattened order. */
  function ToolDeclarations(es: seq<Entry>): seq<Declaration>
  {
    var all := AllTools(es);
    seq(|all|, i requires 0 <= i < |all| => Declare(all[i]))
  }

  /**
   * The append loop of `format_mcp_tools_for_openai`: one declaration of type
   * `"function"` per stored tool, in flattened order, with name, description
   * and schema copied unchanged.
   */
  method FormatMcpToolsForOpenai(es: seq<Entry>) returns (decls: seq<Declaration>)
    ensures |decls| == |AllTools(es)|
    ensures forall i :: 0 <= i < |decls| ==>
              decls[i].kind == "function" &&
              decls[i].fn.name == AllTools(es)[i].name &&
              decls[i].fn.description == AllTools(es)[i].description &&
              decls[i].fn.parameters == AllTools(es)[i].inputSchema
    ensures decls == ToolDeclarations(es)
  {
    var all := Lists.Flatten(Values(es));
    decls := [];
    for i := 0 to |all|
      invariant decls == seq(i, k requires 0 <= k < i => Declare(all[k]))
    {
      decls := decls + [Declare(all[i])];
    }
  }

  /**
   * Round trip from the registry to the model: tool `j` of connection `k`
   * appears, after the tools of every earlier connection, as a declaration
   * carrying exactly its name, description and schema.
   */
  lemma DeclarationOfStoredTool(es: seq<Entry>, k: nat, j: nat)
    requires k < |es| && j < |es[k].tools|
    ensures var d := ToolDeclarations(es); var n := Lists.TotalLength(Values(es)[..k]) + j;
      n < |d| && d[n].kind == "function" &&
      d[n].fn == FunctionDecl(es[k].tools[j].name, es[k].tools[j].description, es[k].tools[j].inputSchema)
  {
    StoredToolPosition(es, k, j);
  }

  /** Every declaration describes some stored tool of some connection. */
  lemma DeclarationOrigin(es: seq<Entry>, i: nat)
    requires i < |ToolDeclarations(es)|
    ensures exists k: nat, j: nat ::
              k < |es| && j < |es[k].tools| && ToolDeclarations(es)[i] == Declare(es[k].tools[j])
  {
    Lists.FlattenOrigin(Values(es), i);
    var k: nat, j: nat :| k < |Values(es)| && j < |Values(es)[k]| &&
      i == Lists.TotalLength(Values(es)[..k]) + j && AllTools(es)[i] == Values(es)[k][j];
    assert ToolDeclarations(es)[i] == Declare(es[k].tools[j]);
  }

  /** There are no declarations exactly when no connection stores a tool. */
  lemma {:induction false} NoDeclarations(es: seq<Entry>)
    ensures ToolDeclarations(es) == [] <==> forall i :: 0 <= i < |es| ==> es[i].tools == []
  {
    if es != [] {
      NoDeclarations(es[1..]);
      assert Values(es)[1..] == Values(es[1..]);
      forall i | 0 < i < |es| ensures es[i].tools == es[1..][i - 1].tools { }
    }
  }
}
