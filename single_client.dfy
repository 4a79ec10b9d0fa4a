/** `MCPClient` of client/mcp_client.py: one stdio server launched as a Python
    script, its tools described in the converse `toolSpec` shape, and calls
    passed straight to its session. */
module SingleClient {
  import opened Wrappers
  import opened Json
  import opened Mcp
  import opened Catalog

  /** How `connect_to_server` launches the script at `scriptPath`. */
  function ScriptParams(scriptPath: string): (p: StdioParams)
    ensures p.command == "python" && p.args == [scriptPath] && p.env.None?
  {
    StdioParams("python", [scriptPath], None)
  }

  /** The body of the `for tool in tools` loop of `get_available_tools`:
      one `toolSpec` entry per listed tool, in the listed order. */
  function ToolSpecs(tools: seq<Tool>): (specs: seq<Json>)
    ensures |specs| == |tools|
    ensures forall i :: 0 <= i < |tools| ==> ReadDescriptor(ToolSpecFormat, specs[i]) == Some(tools[i])
  {
    DescribeAllAt(ToolSpecFormat, tools);
    DescribeAllRead(tools);
    DescribeAll(ToolSpecFormat, tools)
  }

  lemma DescribeAllRead(tools: seq<Tool>)
    ensures |DescribeAll(ToolSpecFormat, tools)| == |tools|
    ensures forall i :: 0 <= i < |tools| ==> ReadDescriptor(ToolSpecFormat, DescribeAll(ToolSpecFormat, tools)[i]) == Some(tools[i])
  {
    DescribeAllAt(ToolSpecFormat, tools);
    forall i | 0 <= i < |tools|
      ensures ReadDescriptor(ToolSpecFormat, DescribeAll(ToolSpecFormat, tools)[i]) == Some(tools[i])
    {
      DescriptorRoundTrip(ToolSpecFormat, tools[i]);
    }
  }

  /** Each entry nests the tool under `toolSpec` with its name, its description
      and its schema under `inputSchema.json`, and nothing else. */
  lemma ToolSpecShape(tools: seq<Tool>, i: nat)
    requires i < |tools|
    ensures ToolSpecs(tools)[i]
         == JObject([("toolSpec", JObject([("name", JString(tools[i].name)),
                                           ("description", DescriptionValue(tools[i].description)),
                                           ("inputSchema", JObject([("json", tools[i].inputSchema)]))]))])
  {
    DescribeAllAt(ToolSpecFormat, tools);
  }

  /** The list the single-server client builds is the catalog the multi-server
      clients build for a registry holding that server alone. */
  lemma ToolSpecsAsCatalog(name: string, s: Session)
    ensures CatalogOf(ToolSpecFormat, [name], map[name := s]) == ToolSpecs(s.tools)
  {
    CatalogMatchesAdvertised(ToolSpecFormat, [name], map[name := s]);
    var cat := CatalogOf(ToolSpecFormat, [name], map[name := s]);
    var adv := Advertised([name], map[name := s]);
    assert Advertised([name][..0], map[name := s]) == [];
    assert |adv| == |s.tools|;
    DescribeAllAt(ToolSpecFormat, s.tools);
    forall i | 0 <= i < |cat| ensures cat[i] == ToolSpecs(s.tools)[i] {
      assert adv[i].1 == s.tools[i];
    }
  }

  /** `session.initialize()` on a freshly opened session: None, or the text of
      the exception it raised. */
  type Initializer = Session -> Option<string>

  class McpClient {
    /** The path of the server script. */
    const command: string
    var session: Option<Session>

    constructor (command: string)
      ensures this.command == command && session.None?
    {
      this.command := command;
      session := None;
    }

    /** `connect_to_server`: launch `python <command>` and open a session on its
        transport, which is stored before `initialize` runs; a failed launch
        leaves the session as it was, and a failed `initialize` reports its
        error but leaves the new, uninitialised session in place. */
    method ConnectToServer(open: Launcher, initialize: Initializer) returns (err: Option<string>)
      modifies this`session
      ensures open(ScriptParams(command)).Success? ==>
        && session == Some(Session(command, ScriptParams(command), open(ScriptParams(command)).value))
        && err == initialize(session.value)
      ensures open(ScriptParams(command)).Failure? ==>
        err == Some(open(ScriptParams(command)).error) && session == old(session)
    {
      var params := ScriptParams(command);
      match open(params)
      case Success(tools) =>
        session := Some(Session(command, params, tools));
        err := initialize(session.value);
      case Failure(e) =>
        err := Some(e);
    }

    /** `get_available_tools`: the tool list of the session, described; without
        a session the attribute lookup on None fails. */
    function AvailableTools(): (r: Result<seq<Json>, string>)
      reads this
      ensures session.None? ==> r == Failure(NoAttribute("list_tools"))
      ensures session.Some? ==> r.Success? && |r.value| == |session.value.tools|
      ensures session.Some? ==> forall i :: 0 <= i < |r.value| ==>
        ReadDescriptor(ToolSpecFormat, r.value[i]) == Some(session.value.tools[i])
    {
      if session.None? then Failure(NoAttribute("list_tools")) else Success(ToolSpecs(session.value.tools))
    }

    /** `execute_tool`: the session's own answer to the same name and arguments. */
    method ExecuteTool(toolName: string, arguments: Json, invoke: Invoker) returns (result: Result<CallToolResult, string>)
      ensures session.None? ==> result == Failure(NoAttribute("call_tool"))
      ensures session.Some? ==> result == invoke(session.value, toolName, arguments)
    {
      if session.None? {
        return Failure(NoAttribute("call_tool"));
      }
      result := invoke(session.value, toolName, arguments);
    }
  }
}
