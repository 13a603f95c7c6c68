/**
 * Tool registry construction: how one MCP client turns its server's tool
 * listing into the name-to-entry map the agent offers to the model
 * (crypto_trading_agent.py, `MCPClient.get_available_tools`).
 */
module Registry {
  import opened Wrappers
  import opened PyDict
  import opened JsonValues
  import opened Text

  /** One tool as the server lists it; a missing attribute is None. */
  datatype ListedTool = ListedTool(name: string, description: Option<string>, parameters: Option<Json>)

  /** The OpenAI function-calling schema `{type, function: {name, description, parameters}}`. */
  datatype FunctionSpec = FunctionSpec(name: string, description: string, parameters: Json)
  datatype Schema = Schema(kind: string, fn: FunctionSpec)

  /**
   * A registry entry `{name, schema, callable}`. The callable is the closure
   * `call_tool(name)` of the client that listed the tool, so it is determined by
   * that client's server name and the tool's own name.
   */
  datatype ToolEntry = ToolEntry(name: string, schema: Schema, server: string)

  type Registry = Dict<string, ToolEntry>

  /** What asking the session for its tools gave: a timeout, an exception, or the listing. */
  datatype ListOutcome = ListTimedOut | ListRaised(message: string) | Listed(tools: seq<ListedTool>)

  /** The compatibility alias: every `-` replaced by `_`. */
  function Alias(name: string): (r: string)
    ensures |r| == |name|
    ensures forall i :: 0 <= i < |name| ==> r[i] == if name[i] == '-' then '_' else name[i]
    ensures '-' !in r
    ensures r == name <==> '-' !in name
  {
    var r := ReplaceChar(name, '-', '_');
    assert '-' in name ==> r != name by {
      if '-' in name {
        var i :| 0 <= i < |name| && name[i] == '-';
        assert r[i] == '_';
      }
    }
    r
  }

  /** The entry built for a listed tool, with "" and {} standing in for a missing description and parameters. */
  function EntryFor(t: ListedTool, server: string): ToolEntry {
    ToolEntry(t.name, Schema("function", FunctionSpec(t.name, t.description.GetOr(""), t.parameters.GetOr(JObj([])))), server)
  }

  /** Whether registering `t` writes key `k`: its own name or its alias. */
  predicate Hits(t: ListedTool, k: string) {
    k == t.name || k == Alias(t.name)
  }

  /** An entry is well-formed under key `k`: it is stored under its own name or that name's alias, with a matching schema. */
  predicate Canonical(k: string, e: ToolEntry) {
    && (e.name == k || Alias(e.name) == k)
    && e.schema.kind == "function"
    && e.schema.fn.name == e.name
  }

  ghost predicate Consistent(d: Registry) {
    forall k :: Get(d, k).Some? ==> Canonical(k, Get(d, k).value)
  }

  /** One iteration of the listing loop: store the entry under the name, then under the alias if it differs. */
  function Register(d: Registry, t: ListedTool, server: string): (r: Registry)
    ensures forall k :: Get(r, k) == if Hits(t, k) then Some(EntryFor(t, server)) else Get(d, k)
    ensures Keys(r) == Keys(d) + (if t.name in Keys(d) then [] else [t.name])
      + (if Alias(t.name) != t.name && Alias(t.name) !in Keys(d) then [Alias(t.name)] else [])
  {
    var e := EntryFor(t, server);
    var d1 := Set(d, t.name, e);
    var a := Alias(t.name);
    var keys1 := Keys(d) + (if t.name in Keys(d) then [] else [t.name]);
    assert Keys(d1) == keys1;
    if a != t.name then
      assert a in keys1 <==> a in Keys(d);
      Set(d1, a, e)
    else d1
  }

  /** The whole listing loop, over the tools in order. */
  function RegisterAll(d: Registry, ts: seq<ListedTool>, server: string): Registry {
    if ts == [] then d else Register(RegisterAll(d, ts[..|ts| - 1], server), ts[|ts| - 1], server)
  }

  lemma RegisterAllStep(d: Registry, ts: seq<ListedTool>, i: nat, server: string)
    requires i < |ts|
    ensures RegisterAll(d, ts[..i + 1], server) == Register(RegisterAll(d, ts[..i], server), ts[i], server)
  {
    assert ts[..i + 1][..i] == ts[..i];
  }

  /** The last listed tool that writes key `k`, if any: the one whose entry `k` ends up holding. */
  function LastHit(ts: seq<ListedTool>, k: string): (r: Option<ListedTool>)
    ensures r.Some? ==> r.value in ts && Hits(r.value, k)
    ensures r.None? ==> forall t :: t in ts ==> !Hits(t, k)
    ensures r.Some? ==> exists i :: 0 <= i < |ts| && ts[i] == r.value && forall j :: i < j < |ts| ==> !Hits(ts[j], k)
  {
    if ts == [] then None
    else if Hits(ts[|ts| - 1], k) then Some(ts[|ts| - 1])
    else
      var init := ts[..|ts| - 1];
      var r := LastHit(init, k);
      assert forall t :: t in ts ==> t in init || t == ts[|ts| - 1];
      if r.Some? then
        var i :| 0 <= i < |init| && init[i] == r.value && forall j :: i < j < |init| ==> !Hits(init[j], k);
        LaterToolsMiss(ts, init, k, i);
        r
      else r
  }

  /** Lifts "no later tool writes `k`" from all but the last tool to all tools. */
  lemma LaterToolsMiss(ts: seq<ListedTool>, init: seq<ListedTool>, k: string, i: nat)
    requires 0 < |ts| && init == ts[..|ts| - 1] && i < |init|
    requires !Hits(ts[|init|], k)
    requires forall j :: i < j < |init| ==> !Hits(init[j], k)
    ensures ts[i] == init[i]
    ensures forall j :: i < j < |ts| ==> !Hits(ts[j], k)
  {
    forall j | i < j < |ts|
      ensures !Hits(ts[j], k)
    {
      if j < |init| {
        assert ts[j] == init[j];
      }
    }
  }

  /**
   * After registering a listing, each key holds the entry of the last listed
   * tool whose name or alias is that key (plain dict assignment, so later
   * writes win), and keys no listed tool writes keep their earlier value.
   */
  lemma {:induction false} RegisterAllGet(d: Registry, ts: seq<ListedTool>, server: string, k: string)
    ensures Get(RegisterAll(d, ts, server), k) ==
      match LastHit(ts, k)
      case Some(t) => Some(EntryFor(t, server))
      case None => Get(d, k)
  {
    if ts != [] {
      RegisterAllGet(d, ts[..|ts| - 1], server, k);
    }
  }

  /** Two listed tools with the same name: the later one's entry is the one kept. */
  lemma LaterToolOverwrites(a: ListedTool, b: ListedTool, server: string)
    requires a.name == b.name
    ensures Get(RegisterAll([], [a, b], server), a.name) == Some(EntryFor(b, server))
  {
    RegisterAllGet([], [a, b], server, a.name);
    assert Hits(b, a.name);
  }

  /** Every listed name and alias ends up a key, and every key is an old key or one of those. */
  lemma {:induction false} RegisterAllKeys(d: Registry, ts: seq<ListedTool>, server: string, k: string)
    ensures k in Keys(RegisterAll(d, ts, server)) <==> k in Keys(d) || exists t :: t in ts && Hits(t, k)
  {
    RegisterAllGet(d, ts, server, k);
  }

  /** Registration never moves or drops a key that was already there. */
  lemma {:induction false} RegisterAllKeepsOrder(d: Registry, ts: seq<ListedTool>, server: string)
    ensures Keys(d) <= Keys(RegisterAll(d, ts, server))
  {
    if ts != [] {
      RegisterAllKeepsOrder(d, ts[..|ts| - 1], server);
    }
  }

  /** Registration keeps each key unique. */
  lemma {:induction false} RegisterAllUnique(d: Registry, ts: seq<ListedTool>, server: string)
    requires Unique(d)
    ensures Unique(RegisterAll(d, ts, server))
  {
    if ts != [] {
      var d0 := RegisterAll(d, ts[..|ts| - 1], server);
      RegisterAllUnique(d, ts[..|ts| - 1], server);
      var t := ts[|ts| - 1];
      SetUnique(d0, t.name, EntryFor(t, server));
      SetUnique(Set(d0, t.name, EntryFor(t, server)), Alias(t.name), EntryFor(t, server));
    }
  }

  /** Every key of a registry built from a consistent one resolves to an entry for that name or its alias. */
  lemma {:induction false} RegisterAllConsistent(d: Registry, ts: seq<ListedTool>, server: string)
    requires Consistent(d)
    ensures Consistent(RegisterAll(d, ts, server))
  {
    forall k | Get(RegisterAll(d, ts, server), k).Some?
      ensures Canonical(k, Get(RegisterAll(d, ts, server), k).value)
    {
      RegisterAllGet(d, ts, server, k);
    }
  }

  /** A key with a hyphen can only be a canonical name, never an alias. */
  lemma HyphenatedKeyIsCanonical(d: Registry, k: string)
    requires Consistent(d) && '-' in k && Get(d, k).Some?
    ensures Get(d, k).value.name == k
  {
  }

  /**
   * `MCPClient`: one connection to an MCP server. `session` records whether
   * `connect` has set the session; `tools` is the dictionary the client fills
   * and hands out.
   */
  class McpClient {
    const serverName: string
    var session: bool
    var tools: Registry

    constructor (serverName: string)
      ensures this.serverName == serverName && !session && tools == []
    {
      this.serverName := serverName;
      session := false;
      tools := [];
    }

    /** After `connect` the session is set, whether or not initialisation timed out. */
    method Connect()
      modifies this`session
      ensures session
    {
      session := true;
    }

    /**
     * `get_available_tools`: without a session it raises; a timeout or an
     * exception while listing gives an empty map and leaves `tools` alone;
     * otherwise every listed tool is registered into `tools`, which is returned.
     */
    method GetAvailableTools(listing: ListOutcome) returns (r: Result<Registry, string>)
      modifies this`tools
      ensures !old(session) ==> r == Failure("Not connected to " + serverName + " MCP server") && tools == old(tools)
      ensures old(session) && !listing.Listed? ==> r == Success([]) && tools == old(tools)
      ensures old(session) && listing.Listed? ==>
        tools == RegisterAll(old(tools), listing.tools, serverName) && r == Success(tools)
      ensures Consistent(old(tools)) ==> Consistent(tools)
    {
      if !session {
        return Failure("Not connected to " + serverName + " MCP server");
      }
      match listing
      case ListTimedOut =>
        return Success([]);
      case ListRaised(_) =>
        return Success([]);
      case Listed(ts) =>
        for i := 0 to |ts|
          invariant tools == RegisterAll(old(tools), ts[..i], serverName)
        {
          var t := ts[i];
          ghost var before := tools;
          var entry := EntryFor(t, serverName);
          tools := Set(tools, t.name, entry);
          var alt := Alias(t.name);
          if alt != t.name {
            tools := Set(tools, alt, entry);
          }
          assert tools == Register(before, t, serverName);
          RegisterAllStep(old(tools), ts, i, serverName);
        }
        assert ts[..|ts|] == ts;
        if Consistent(old(tools)) {
          RegisterAllConsistent(old(tools), ts, serverName);
        }
        return Success(tools);
    }
  }
}
