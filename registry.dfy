/**
 * The tool registry: the session's `mcp_tools` dictionary, from connection name
 * to the ordered list of tool metadata that connection reported
 * (main.py:42-86), and the first-match lookup of a tool's owner
 * (main.py:111-116).
 *
 * A Python dictionary iterates in insertion order; assigning to an existing key
 * keeps that key's position and assigning to a new key appends it, while `del`
 * drops the key. The dictionary is therefore modelled as a sequence of entries
 * whose connection names are pairwise distinct.
 */
module Registry {
  import opened Wrappers
  import opened JsonValues
  import Lists

  /** One element of `session.list_tools().tools`. */
  datatype ListedTool = ListedTool(name: string, description: Option<string>, inputSchema: Json)

  /** The metadata dictionary stored per tool (main.py:52-60). */
  datatype ToolMeta = ToolMeta(name: string, description: Option<string>, inputSchema: Json, connection: string)

  /** One key of `mcp_tools` with its value. */
  datatype Entry = Entry(connection: string, tools: seq<ToolMeta>)

  /** Builds the metadata list of `on_mcp_connect` from the listed tools. */
  function Metadata(connection: string, listed: seq<ListedTool>): (r: seq<ToolMeta>)
    ensures |r| == |listed|
    ensures forall i :: 0 <= i < |r| ==>
              r[i].name == listed[i].name && r[i].description == listed[i].description &&
              r[i].inputSchema == listed[i].inputSchema
    ensures OwnedBy(r, connection)
  {
    seq(|listed|, i requires 0 <= i < |listed| =>
      ToolMeta(listed[i].name, listed[i].description, listed[i].inputSchema, connection))
  }

  /** Every tool in `tools` records `connection` as its owner. */
  predicate OwnedBy(tools: seq<ToolMeta>, connection: string)
  {
    forall t :: t in tools ==> t.connection == connection
  }

  /** The keys of the dictionary, in iteration order. */
  function Connections(es: seq<Entry>): (r: seq<string>)
    ensures |r| == |es|
    ensures forall i :: 0 <= i < |es| ==> r[i] == es[i].connection
  {
    if es == [] then [] else [es[0].connection] + Connections(es[1..])
  }

  /** The values of the dictionary, in iteration order (`mcp_tools.values()`). */
  function Values(es: seq<Entry>): (r: seq<seq<ToolMeta>>)
    ensures |r| == |es|
    ensures forall i :: 0 <= i < |es| ==> r[i] == es[i].tools
  {
    if es == [] then [] else [es[0].tools] + Values(es[1..])
  }

  /** No connection name occurs twice: each is a dictionary key. */
  predicate UniqueKeys(es: seq<Entry>)
  {
    forall i, j :: 0 <= i < j < |es| ==> es[i].connection != es[j].connection
  }

  /** Every stored tool records the connection under which it is stored. */
  predicate Consistent(es: seq<Entry>)
  {
    forall i :: 0 <= i < |es| ==> OwnedBy(es[i].tools, es[i].connection)
  }

  /** `mcp_tools.get(c)`. */
  function Lookup(es: seq<Entry>, c: string): (r: Option<seq<ToolMeta>>)
    ensures r.None? <==> c !in Connections(es)
  {
    if es == [] then None
    else if es[0].connection == c then Some(es[0].tools)
    else Lookup(es[1..], c)
  }

  /** `mcp_tools[c] = tools`: replace in place if `c` is a key, else append. */
  function Put(es: seq<Entry>, c: string, tools: seq<ToolMeta>): (r: seq<Entry>)
    ensures |r| == if c in Connections(es) then |es| else |es| + 1
  {
    if es == [] then [Entry(c, tools)]
    else if es[0].connection == c then [Entry(c, tools)] + es[1..]
    else [es[0]] + Put(es[1..], c, tools)
  }

  /** `del mcp_tools[c]` when `c` is a key, and nothing otherwise. */
  function Remove(es: seq<Entry>, c: string): (r: seq<Entry>)
    ensures |r| <= |es|
  {
    if es == [] then []
    else if es[0].connection == c then Remove(es[1..], c)
    else [es[0]] + Remove(es[1..], c)
  }

  /** `any(tool_meta["name"] == name for tool_meta in tools)`. */
  predicate Provides(tools: seq<ToolMeta>, name: string)
  {
    exists t :: t in tools && t.name == name
  }

  /** Index of the first entry whose list provides `name`; `|es|` when none does. */
  function FirstProvider(es: seq<Entry>, name: string): (k: nat)
    ensures k <= |es|
    ensures forall j :: 0 <= j < k ==> !Provides(es[j].tools, name)
    ensures k < |es| ==> Provides(es[k].tools, name)
  {
    if es == [] then 0
    else if Provides(es[0].tools, name) then 0
    else 1 + FirstProvider(es[1..], name)
  }

  /** Some entry stored under `c` provides `name`. */
  predicate ProvidedBy(es: seq<Entry>, c: string, name: string)
  {
    exists i :: 0 <= i < |es| && es[i].connection == c && Provides(es[i].tools, name)
  }

  /** The owning connection the scan of main.py:113-116 settles on, if any. */
  function Resolve(es: seq<Entry>, name: string): (r: Option<string>)
    ensures r.Some? ==> ProvidedBy(es, r.value, name)
  {
    var k := FirstProvider(es, name);
    if k < |es| then Some(es[k].connection) else None
  }

  /** All stored tools, connection order kept (`flatten(list(mcp_tools.values()))`). */
  function AllTools(es: seq<Entry>): (r: seq<ToolMeta>)
    ensures |r| == Lists.TotalLength(Values(es))
  {
    Lists.Flatten(Values(es))
  }

  // ---------------------------------------------------------------------
  // Properties of the dictionary updates
  // ---------------------------------------------------------------------

  /**
   * After `mcp_tools[c] = tools` the entry for `c` is `tools`, whether or not
   * `c` was a key before, and every other connection's entry is unchanged.
   */
  lemma {:induction false} PutLookup(es: seq<Entry>, c: string, tools: seq<ToolMeta>, d: string)
    ensures Lookup(Put(es, c, tools), d) == if d == c then Some(tools) else Lookup(es, d)
  {
    if es != [] && es[0].connection != c {
      PutLookup(es[1..], c, tools, d);
    }
  }

  /**
   * Replacing keeps the key's position in iteration order; a new key goes last.
   */
  lemma {:induction false} PutConnections(es: seq<Entry>, c: string, tools: seq<ToolMeta>)
    ensures c in Connections(es) ==> Connections(Put(es, c, tools)) == Connections(es)
    ensures c !in Connections(es) ==> Connections(Put(es, c, tools)) == Connections(es) + [c]
  {
    if es != [] {
      PutConnections(es[1..], c, tools);
      if es[0].connection != c {
        assert Connections(Put(es, c, tools)) == [es[0].connection] + Connections(Put(es[1..], c, tools));
      }
    }
  }

  /**
   * After `del mcp_tools[c]` there is no entry for `c`; every other entry is
   * unchanged; and if `c` was not a key nothing changed at all.
   */
  lemma {:induction false} RemoveLookup(es: seq<Entry>, c: string, d: string)
    ensures Lookup(Remove(es, c), d) == if d == c then None else Lookup(es, d)
    ensures c !in Connections(es) ==> Remove(es, c) == es
  {
    if es != [] {
      RemoveLookup(es[1..], c, d);
      if es[0].connection != c {
        assert Remove(es, c) == [es[0]] + Remove(es[1..], c);
      }
    }
  }

  /** Position `i` of the updated dictionary holds the same key as before, or `c` when appended. */
  lemma {:induction false} PutKeyAt(es: seq<Entry>, c: string, tools: seq<ToolMeta>, i: nat)
    requires i < |Put(es, c, tools)|
    ensures Put(es, c, tools)[i].connection == if i < |es| then es[i].connection else c
  {
    if es != [] && es[0].connection != c && i > 0 {
      PutKeyAt(es[1..], c, tools, i - 1);
    }
  }

  /** Connecting keeps connection names distinct. */
  lemma PutKeepsUniqueKeys(es: seq<Entry>, c: string, tools: seq<ToolMeta>)
    requires UniqueKeys(es)
    ensures UniqueKeys(Put(es, c, tools))
  {
    var r := Put(es, c, tools);
    forall i, j | 0 <= i < j < |r| ensures r[i].connection != r[j].connection {
      PutKeyAt(es, c, tools, i);
      PutKeyAt(es, c, tools, j);
      if j == |es| {
        assert Connections(es)[i] == es[i].connection;
      }
    }
  }

  /** Connecting keeps every stored tool owned by the key it is stored under. */
  lemma {:induction false} PutKeepsConsistent(es: seq<Entry>, c: string, tools: seq<ToolMeta>)
    requires Consistent(es) && OwnedBy(tools, c)
    ensures Consistent(Put(es, c, tools))
  {
    var r := Put(es, c, tools);
    if es == [] {
    } else if es[0].connection == c {
      forall i | 0 <= i < |r| ensures OwnedBy(r[i].tools, r[i].connection) {
        if i > 0 { assert r[i] == es[i]; }
      }
    } else {
      var rest := Put(es[1..], c, tools);
      PutKeepsConsistent(es[1..], c, tools);
      assert r == [es[0]] + rest;
      forall i | 0 <= i < |r| ensures OwnedBy(r[i].tools, r[i].connection) {
        if i > 0 { assert r[i] == rest[i - 1]; }
      }
    }
  }

  /**
   * `del mcp_tools[c]` for the key at position `k` drops exactly that entry:
   * the other connections keep their entries and their relative order.
   */
  lemma {:induction false} RemoveAt(es: seq<Entry>, c: string, k: nat)
    requires UniqueKeys(es) && k < |es| && es[k].connection == c
    ensures Remove(es, c) == es[..k] + es[k + 1..]
  {
    var rest := es[1..];
    assert UniqueKeys(rest) by {
      forall i, j | 0 <= i < j < |rest| ensures rest[i].connection != rest[j].connection {
        assert rest[i] == es[i + 1] && rest[j] == es[j + 1];
      }
    }
    if k == 0 {
      assert Remove(es, c) == Remove(rest, c);
      assert c !in Connections(rest) by {
        forall i | 0 <= i < |rest| ensures Connections(rest)[i] != c {
          assert rest[i] == es[i + 1];
        }
      }
      RemoveLookup(rest, c, c);
      assert es[..0] + es[1..] == rest;
    } else {
      assert es[0].connection != c;
      assert Remove(es, c) == [es[0]] + Remove(rest, c);
      RemoveAt(rest, c, k - 1);
      assert rest[..k - 1] == es[1..k];
      assert rest[k..] == es[k + 1..];
      assert es[..k] == [es[0]] + es[1..k];
    }
  }

  /** Removing an entry keeps the dictionary invariant and keeps only entries that were there. */
  lemma {:induction false} RemoveKeepsInvariant(es: seq<Entry>, c: string)
    requires UniqueKeys(es) && Consistent(es)
    ensures UniqueKeys(Remove(es, c)) && Consistent(Remove(es, c))
    ensures forall e :: e in Remove(es, c) ==> e in es
  {
    if es != [] {
      RemoveKeepsInvariant(es[1..], c);
      var rest := Remove(es[1..], c);
      if es[0].connection != c {
        var r := Remove(es, c);
        assert r == [es[0]] + rest;
        forall i, j | 0 <= i < j < |r| ensures r[i].connection != r[j].connection {
          if i == 0 {
            assert r[j] in es[1..];
          }
        }
      }
    }
  }

  // ---------------------------------------------------------------------
  // Properties of resolution
  // ---------------------------------------------------------------------

  /** Resolution finds nothing exactly when no connection provides the name. */
  lemma ResolveNone(es: seq<Entry>, name: string)
    ensures Resolve(es, name).None? <==> forall i :: 0 <= i < |es| ==> !Provides(es[i].tools, name)
  {
  }

  /**
   * The earliest provider wins: when entry `i` provides `name` and no earlier
   * one does, resolution answers `es[i].connection`, so a later connection
   * exposing the same name is never chosen.
   */
  lemma FirstProviderWins(es: seq<Entry>, name: string, i: nat)
    requires i < |es| && Provides(es[i].tools, name)
    requires forall j :: 0 <= j < i ==> !Provides(es[j].tools, name)
    ensures Resolve(es, name) == Some(es[i].connection)
  {
    var k := FirstProvider(es, name);
    if k < i {
    } else if i < k {
    }
  }

  /** With distinct keys, a later connection providing the same name never wins. */
  lemma EarlierConnectionShadows(es: seq<Entry>, name: string, i: nat, j: nat)
    requires UniqueKeys(es)
    requires i < j < |es| && Provides(es[i].tools, name) && Provides(es[j].tools, name)
    ensures Resolve(es, name) != Some(es[j].connection)
  {
  }

  /** A name that only one connection provides resolves to that connection. */
  lemma SoleProvider(es: seq<Entry>, name: string, i: nat)
    requires i < |es| && Provides(es[i].tools, name)
    requires forall j :: 0 <= j < |es| && j != i ==> !Provides(es[j].tools, name)
    ensures Resolve(es, name) == Some(es[i].connection)
  {
    FirstProviderWins(es, name, i);
  }

  /** After disconnecting `c`, a name that only `c` provided is not found. */
  lemma {:induction false} RemoveOnlyProvider(es: seq<Entry>, c: string, name: string)
    requires forall i :: 0 <= i < |es| && Provides(es[i].tools, name) ==> es[i].connection == c
    ensures Resolve(Remove(es, c), name) == None
  {
    if es != [] {
      RemoveOnlyProvider(es[1..], c, name);
      if es[0].connection != c {
        assert Remove(es, c) == [es[0]] + Remove(es[1..], c);
      }
    }
  }

  /** Connecting a brand-new connection never changes an existing resolution. */
  lemma {:induction false} PutNewKeepsResolve(es: seq<Entry>, c: string, tools: seq<ToolMeta>, name: string)
    requires c !in Connections(es) && Resolve(es, name).Some?
    ensures Resolve(Put(es, c, tools), name) == Resolve(es, name)
  {
    var r := Put(es, c, tools);
    assert Connections(es)[0] == es[0].connection;
    assert r == [es[0]] + Put(es[1..], c, tools);
    if Provides(es[0].tools, name) {
      assert FirstProvider(r, name) == 0;
    } else {
      assert FirstProvider(es, name) == 1 + FirstProvider(es[1..], name);
      assert Connections(es[1..]) == Connections(es)[1..];
      PutNewKeepsResolve(es[1..], c, tools, name);
      assert r[1..] == Put(es[1..], c, tools);
      assert FirstProvider(r, name) == 1 + FirstProvider(r[1..], name);
    }
  }

  /** Disconnecting a connection other than the resolved owner keeps the owner. */
  lemma {:induction false} RemoveOtherKeepsResolve(es: seq<Entry>, c: string, name: string)
    requires Resolve(es, name).Some? && Resolve(es, name) != Some(c)
    ensures Resolve(Remove(es, c), name) == Resolve(es, name)
  {
    if es[0].connection == c {
      RemoveOtherKeepsResolve(es[1..], c, name);
    } else if !Provides(es[0].tools, name) {
      RemoveOtherKeepsResolve(es[1..], c, name);
      assert Remove(es, c) == [es[0]] + Remove(es[1..], c);
    } else {
      assert Remove(es, c) == [es[0]] + Remove(es[1..], c);
    }
  }

  /**
   * The flattened tool list holds tool `j` of connection `k` right after the
   * tools of all earlier connections, and nothing else.
   */
  lemma StoredToolPosition(es: seq<Entry>, k: nat, j: nat)
    requires k < |es| && j < |es[k].tools|
    ensures Lists.TotalLength(Values(es)[..k]) + j < |AllTools(es)|
    ensures AllTools(es)[Lists.TotalLength(Values(es)[..k]) + j] == es[k].tools[j]
  {
    Lists.FlattenAt(Values(es), k, j);
  }

  // ---------------------------------------------------------------------
  // The dictionary as the session holds it, updated in place
  // ---------------------------------------------------------------------

  class ToolRegistry {
    /** The dictionary's entries in iteration order. */
    var entries: seq<Entry>

    ghost predicate Valid()
      reads this
    {
      UniqueKeys(entries) && Consistent(entries)
    }

    /** `cl.user_session.set("mcp_tools", {})` at chat start (main.py:254). */
    constructor ()
      ensures Valid() && entries == []
    {
      entries := [];
    }

    /**
     * `on_mcp_connect` (main.py:42-73): `listed` is the result of
     * `session.list_tools()`, `None` when that call raised, in which case the
     * dictionary is left as it was.
     */
    method OnConnect(connection: string, listed: Option<seq<ListedTool>>)
      requires Valid()
      modifies this
      ensures Valid()
      ensures listed.None? ==> entries == old(entries)
      ensures listed.Some? ==> entries == Put(old(entries), connection, Metadata(connection, listed.value))
    {
      if listed.Some? {
        var metadata := Metadata(connection, listed.value);
        PutKeepsUniqueKeys(entries, connection, metadata);
        PutKeepsConsistent(entries, connection, metadata);
        entries := Put(entries, connection, metadata);
      }
    }

    /** `on_mcp_disconnect` (main.py:76-86). */
    method OnDisconnect(name: string)
      requires Valid()
      modifies this
      ensures Valid()
      ensures entries == Remove(old(entries), name)
    {
      if Lookup(entries, name).Some? {
        RemoveKeepsInvariant(entries, name);
        entries := Remove(entries, name);
      } else {
        RemoveLookup(entries, name, name);
      }
    }
  }
}
