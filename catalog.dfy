/** Tool catalog aggregation and name-to-server routing, as the three clients
    (AzureClient, AwsClient, MultiMCPClient) compute it in `list_all_tools`, and
    the dispatch of `call_tool` through the routing table. Pure definitions;
    the stateful methods that follow them are in module Pool. */
module Catalog {
  import opened Wrappers
  import opened Json
  import opened Mcp

  /** The two provider-shaped descriptor formats. */
  datatype Format =
    | FunctionFormat  // {"type": "function", "function": {...}} (chat-completions style)
    | ToolSpecFormat  // {"toolSpec": {...}} (converse style)

  function DescriptionValue(d: Option<string>): Json {
    if d.None? then JNull else JString(d.value)
  }

  /** The descriptor `list_all_tools` emits for one tool. */
  function Describe(f: Format, t: Tool): Json {
    match f
    case FunctionFormat =>
      JObject([("type", JString("function")),
               ("function", JObject([("name", JString(t.name)),
                                     ("description", DescriptionValue(t.description)),
                                     ("parameters", t.inputSchema)]))])
    case ToolSpecFormat =>
      JObject([("toolSpec", JObject([("name", JString(t.name)),
                                     ("description", DescriptionValue(t.description)),
                                     ("inputSchema", JObject([("json", t.inputSchema)]))]))])
  }

  /** Reads a descriptor the way a provider does: the name, the description and
      the schema under the keys of the format. */
  function ReadDescriptor(f: Format, d: Json): Option<Tool> {
    var body := if f.FunctionFormat? then Get(d, "function") else Get(d, "toolSpec");
    var tagged := f.ToolSpecFormat? || Get(d, "type") == Some(JString("function"));
    if !tagged || body.None? then None
    else
      var name := Get(body.value, "name");
      var description := Get(body.value, "description");
      var schema := if f.FunctionFormat? then Get(body.value, "parameters")
                    else if Get(body.value, "inputSchema").Some? then Get(Get(body.value, "inputSchema").value, "json")
                    else None;
      if name.None? || !name.value.JString? || description.None? || schema.None? then None
      else if description.value.JNull? then Some(Tool(name.value.s, None, schema.value))
      else if description.value.JString? then Some(Tool(name.value.s, Some(description.value.s), schema.value))
      else None
  }

  /** A descriptor carries its tool's name and description unchanged and its
      schema under `parameters` or `inputSchema.json`. */
  lemma DescriptorRoundTrip(f: Format, t: Tool)
    ensures ReadDescriptor(f, Describe(f, t)) == Some(t)
  {
    var d := Describe(f, t);
    match f
    case FunctionFormat =>
      var body := d.fields[1].1;
      LookupFirst(d.fields, "type", 0);
      LookupFirst(d.fields, "function", 1);
      LookupFirst(body.fields, "name", 0);
      LookupFirst(body.fields, "description", 1);
      LookupFirst(body.fields, "parameters", 2);
    case ToolSpecFormat =>
      var body := d.fields[0].1;
      var schema := body.fields[2].1;
      LookupFirst(d.fields, "toolSpec", 0);
      LookupFirst(body.fields, "name", 0);
      LookupFirst(body.fields, "description", 1);
      LookupFirst(body.fields, "inputSchema", 2);
      LookupFirst(schema.fields, "json", 0);
  }

  /** The sessions a client holds: keys in registration order and the session of each. */
  ghost predicate Covers(keys: seq<string>, sessions: map<string, Session>) {
    forall k :: k in keys ==> k in sessions
  }

  /** The (server, tool) pairs the servers advertise, in server order, then tool order. */
  function Advertised(keys: seq<string>, sessions: map<string, Session>): seq<(string, Tool)>
    requires Covers(keys, sessions)
  {
    if keys == [] then []
    else
      var k := keys[|keys| - 1];
      Advertised(keys[..|keys| - 1], sessions) + seq(|sessions[k].tools|, i requires 0 <= i < |sessions[k].tools| => (k, sessions[k].tools[i]))
  }

  /** The descriptors of a list of tools, in order (inner loop of `list_all_tools`). */
  function DescribeAll(f: Format, tools: seq<Tool>): seq<Json> {
    if tools == [] then [] else DescribeAll(f, tools[..|tools| - 1]) + [Describe(f, tools[|tools| - 1])]
  }

  /** The catalog `list_all_tools` returns (outer loop). */
  function CatalogOf(f: Format, keys: seq<string>, sessions: map<string, Session>): seq<Json>
    requires Covers(keys, sessions)
  {
    if keys == [] then []
    else CatalogOf(f, keys[..|keys| - 1], sessions) + DescribeAll(f, sessions[keys[|keys| - 1]].tools)
  }

  /** The routing table after the inner loop has recorded `tools` for `server`. */
  function RecordTools(m: map<string, string>, server: string, tools: seq<Tool>): map<string, string> {
    if tools == [] then m else RecordTools(m, server, tools[..|tools| - 1])[tools[|tools| - 1].name := server]
  }

  /** The routing table after `list_all_tools`, starting from the table `m`. */
  function Routes(m: map<string, string>, keys: seq<string>, sessions: map<string, Session>): map<string, string>
    requires Covers(keys, sessions)
  {
    if keys == [] then m
    else
      var k := keys[|keys| - 1];
      RecordTools(Routes(m, keys[..|keys| - 1], sessions), k, sessions[k].tools)
  }

  predicate Lists(tools: seq<Tool>, name: string) {
    exists i :: 0 <= i < |tools| && tools[i].name == name
  }

  /** The last server, in registration order, that lists a tool called `name`;
      None when no registered server lists it. */
  function Owner(keys: seq<string>, sessions: map<string, Session>, name: string): (r: Option<string>)
    requires Covers(keys, sessions)
    ensures r.Some? ==> r.value in keys && Lists(sessions[r.value].tools, name)
    ensures r.None? <==> forall k :: k in keys ==> !Lists(sessions[k].tools, name)
    ensures r.Some? ==> exists i :: 0 <= i < |keys| && keys[i] == r.value
                          && forall j :: i < j < |keys| ==> !Lists(sessions[keys[j]].tools, name)
    decreases |keys|
  {
    if keys == [] then None
    else if Lists(sessions[keys[|keys| - 1]].tools, name) then Some(keys[|keys| - 1])
    else Owner(keys[..|keys| - 1], sessions, name)
  }

  /** `call_tool`: look the server up in the routing table, its session in the
      sessions, and call the tool there; a miss at either step is the
      AttributeError of calling `call_tool` on None. */
  function Dispatch(mapping: map<string, string>, sessions: map<string, Session>, name: string,
                    args: Json, invoke: Invoker): Result<CallToolResult, string>
  {
    if name in mapping && mapping[name] in sessions then invoke(sessions[mapping[name]], name, args)
    else Failure(NoAttribute("call_tool"))
  }

  // ---------------------------------------------------------------------------
  // Properties of the catalog

  /** One descriptor per (server, tool) pair, in server order then tool order,
      duplicates kept; each descriptor reads back as its tool. */
  lemma CatalogMatchesAdvertised(f: Format, keys: seq<string>, sessions: map<string, Session>)
    requires Covers(keys, sessions)
    ensures |CatalogOf(f, keys, sessions)| == |Advertised(keys, sessions)|
    ensures forall i :: 0 <= i < |Advertised(keys, sessions)| ==>
      CatalogOf(f, keys, sessions)[i] == Describe(f, Advertised(keys, sessions)[i].1)
    ensures forall i :: 0 <= i < |Advertised(keys, sessions)| ==>
      ReadDescriptor(f, CatalogOf(f, keys, sessions)[i]) == Some(Advertised(keys, sessions)[i].1)
  {
    CatalogDescribes(f, keys, sessions);
    forall i | 0 <= i < |Advertised(keys, sessions)|
      ensures ReadDescriptor(f, CatalogOf(f, keys, sessions)[i]) == Some(Advertised(keys, sessions)[i].1)
    {
      DescriptorRoundTrip(f, Advertised(keys, sessions)[i].1);
    }
  }

  lemma {:induction false} CatalogDescribes(f: Format, keys: seq<string>, sessions: map<string, Session>)
    requires Covers(keys, sessions)
    ensures |CatalogOf(f, keys, sessions)| == |Advertised(keys, sessions)|
    ensures forall i :: 0 <= i < |Advertised(keys, sessions)| ==>
      CatalogOf(f, keys, sessions)[i] == Describe(f, Advertised(keys, sessions)[i].1)
    decreases |keys|
  {
    if keys != [] {
      var init := keys[..|keys| - 1];
      var k := keys[|keys| - 1];
      var tools := sessions[k].tools;
      CatalogDescribes(f, init, sessions);
      DescribeAllAt(f, tools);
      var pre := Advertised(init, sessions);
      var own := seq(|tools|, i requires 0 <= i < |tools| => (k, tools[i]));
      var cat := CatalogOf(f, keys, sessions);
      var adv := Advertised(keys, sessions);
      assert cat == CatalogOf(f, init, sessions) + DescribeAll(f, tools);
      assert adv == pre + own;
      forall i | 0 <= i < |adv| ensures cat[i] == Describe(f, adv[i].1) {
        if i >= |pre| {
          assert adv[i] == own[i - |pre|];
          assert cat[i] == DescribeAll(f, tools)[i - |pre|];
        } else {
          assert adv[i] == pre[i];
          assert cat[i] == CatalogOf(f, init, sessions)[i];
        }
      }
    }
  }

  /** One more tool of a server: its descriptor is appended and its name routed. */
  lemma ToolStep(f: Format, m: map<string, string>, server: string, tools: seq<Tool>, j: nat)
    requires j < |tools|
    ensures DescribeAll(f, tools[..j + 1]) == DescribeAll(f, tools[..j]) + [Describe(f, tools[j])]
    ensures RecordTools(m, server, tools[..j + 1]) == RecordTools(m, server, tools[..j])[tools[j].name := server]
  {
    assert tools[..j + 1][..j] == tools[..j];
  }

  /** One more server: its tools' descriptors are appended and their names routed. */
  lemma ServerStep(f: Format, m: map<string, string>, keys: seq<string>, sessions: map<string, Session>, i: nat)
    requires i < |keys| && Covers(keys, sessions)
    ensures Covers(keys[..i], sessions) && Covers(keys[..i + 1], sessions)
    ensures CatalogOf(f, keys[..i + 1], sessions) == CatalogOf(f, keys[..i], sessions) + DescribeAll(f, sessions[keys[i]].tools)
    ensures Routes(m, keys[..i + 1], sessions) == RecordTools(Routes(m, keys[..i], sessions), keys[i], sessions[keys[i]].tools)
  {
    assert keys[..i + 1][..i] == keys[..i];
  }

  lemma {:induction false} DescribeAllAt(f: Format, tools: seq<Tool>)
    ensures |DescribeAll(f, tools)| == |tools|
    ensures forall i :: 0 <= i < |tools| ==> DescribeAll(f, tools)[i] == Describe(f, tools[i])
  {
    if tools != [] {
      DescribeAllAt(f, tools[..|tools| - 1]);
    }
  }

  // ---------------------------------------------------------------------------
  // Properties of the routing table

  /** After the inner loop, a listed name routes to this server; others keep their entry. */
  lemma {:induction false} RecordToolsAt(m: map<string, string>, server: string, tools: seq<Tool>, name: string)
    ensures Lists(tools, name) ==> name in RecordTools(m, server, tools) && RecordTools(m, server, tools)[name] == server
    ensures !Lists(tools, name) ==> (name in RecordTools(m, server, tools) <==> name in m)
    ensures !Lists(tools, name) && name in m ==> RecordTools(m, server, tools)[name] == m[name]
  {
    if tools != [] {
      var init := tools[..|tools| - 1];
      RecordToolsAt(m, server, init, name);
      if Lists(init, name) {
        var i :| 0 <= i < |init| && init[i].name == name;
        assert tools[i].name == name;
      }
      if Lists(tools, name) && tools[|tools| - 1].name != name {
        var i :| 0 <= i < |tools| && tools[i].name == name;
        assert init[i].name == name;
      }
    }
  }

  /** Last writer wins: after `list_all_tools` a name routes to the last server that
      lists it; a name no server lists keeps whatever route it had before. */
  lemma {:induction false} RoutesLastWriter(m: map<string, string>, keys: seq<string>, sessions: map<string, Session>, name: string)
    requires Covers(keys, sessions)
    ensures name in Routes(m, keys, sessions) <==> name in m || Owner(keys, sessions, name).Some?
    ensures Owner(keys, sessions, name).Some? ==> Routes(m, keys, sessions)[name] == Owner(keys, sessions, name).value
    ensures Owner(keys, sessions, name).None? && name in m ==> Routes(m, keys, sessions)[name] == m[name]
  {
    if keys != [] {
      var k := keys[|keys| - 1];
      RoutesLastWriter(m, keys[..|keys| - 1], sessions, name);
      RecordToolsAt(Routes(m, keys[..|keys| - 1], sessions), k, sessions[k].tools, name);
    }
  }

  /** Rebuilding the routing table from the same sessions changes nothing. */
  lemma RoutesIdempotent(m: map<string, string>, keys: seq<string>, sessions: map<string, Session>)
    requires Covers(keys, sessions)
    ensures Routes(Routes(m, keys, sessions), keys, sessions) == Routes(m, keys, sessions)
  {
    var once := Routes(m, keys, sessions);
    var twice := Routes(once, keys, sessions);
    forall name | true
      ensures name in twice <==> name in once
      ensures name in once ==> twice[name] == once[name]
    {
      RoutesLastWriter(m, keys, sessions, name);
      RoutesLastWriter(once, keys, sessions, name);
    }
  }

  /** Every route leads to a registered server or is a route from before. */
  lemma RoutesTargets(m: map<string, string>, keys: seq<string>, sessions: map<string, Session>, name: string)
    requires Covers(keys, sessions)
    requires name in Routes(m, keys, sessions)
    ensures Routes(m, keys, sessions)[name] in keys || (name in m && Routes(m, keys, sessions)[name] == m[name])
  {
    RoutesLastWriter(m, keys, sessions, name);
  }

  // ---------------------------------------------------------------------------
  // Properties of dispatch

  /** A name missing from the routing table fails with the same error whatever the
      sessions would answer: no session is called. */
  lemma UnmappedNeverCalls(mapping: map<string, string>, sessions: map<string, Session>, name: string,
                           args: Json, invoke: Invoker, other: Invoker)
    requires name !in mapping
    ensures Dispatch(mapping, sessions, name, args, invoke) == Failure(NoAttribute("call_tool"))
    ensures Dispatch(mapping, sessions, name, args, invoke) == Dispatch(mapping, sessions, name, args, other)
  {
  }

  /** After `list_all_tools`, calling a listed tool calls the last server that lists
      it, with the same name and arguments. */
  lemma DispatchAfterListing(m: map<string, string>, keys: seq<string>, sessions: map<string, Session>,
                             name: string, args: Json, invoke: Invoker)
    requires Covers(keys, sessions)
    requires Owner(keys, sessions, name).Some?
    ensures Dispatch(Routes(m, keys, sessions), sessions, name, args, invoke)
         == invoke(sessions[Owner(keys, sessions, name).value], name, args)
  {
    RoutesLastWriter(m, keys, sessions, name);
  }
}
