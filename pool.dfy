/** The connection registry that AzureClient, AwsClient and MultiMCPClient each
    carry as the same code: the `clients` dict filled by `connect_all` /
    `connect_to_server`, the `tool_mapping` dict filled by `list_all_tools`, and
    `call_tool`. MultiMCPClient is exactly this class; the two provider clients
    own one (module Azure, module Aws). */
module Pool {
  import opened Wrappers
  import opened Json
  import opened Mcp
  import opened Dicts
  import opened Catalog
  import opened ServerConfigs

  /** The text of the KeyError that `config["command"]` raises. */
  const MissingCommand: string := "'command'"

  /** `StdioServerParameters(command=config["command"], args=config.get("args", []),
      env=config.get("env", None))`. */
  function LaunchParams(entry: ConfigEntry): StdioParams
    requires entry.command.Some?
  {
    StdioParams(entry.command.value, entry.args.GetOr([]), entry.env)
  }

  /** Opening the session for one configuration entry. */
  function Open(name: string, entry: ConfigEntry, launch: Launcher): Result<Session, string> {
    if entry.command.None? then Failure(MissingCommand)
    else match launch(LaunchParams(entry))
      case Failure(e) => Failure(e)
      case Success(tools) => Success(Session(name, LaunchParams(entry), tools))
  }

  /** The clients dict and the error, if any, after connecting the entries `keys`
      in order: the first failure stops the loop, earlier sessions stay. */
  function Registered(clients: Dict<Session>, keys: seq<string>, entries: map<string, ConfigEntry>,
                      launch: Launcher): (Dict<Session>, Option<string>)
    requires forall k :: k in keys ==> k in entries
    requires clients.Valid()
    decreases |keys|
  {
    if keys == [] then (clients, None)
    else match Open(keys[0], entries[keys[0]], launch)
      case Failure(e) => (clients, Some(e))
      case Success(s) => Registered(clients.Put(keys[0], s), keys[1..], entries, launch)
  }

  /** The position of the first entry that fails to open, or the number of entries. */
  function FirstFailure(keys: seq<string>, entries: map<string, ConfigEntry>, launch: Launcher): (n: nat)
    requires forall k :: k in keys ==> k in entries
    ensures n <= |keys|
    ensures forall i :: 0 <= i < n ==> Open(keys[i], entries[keys[i]], launch).Success?
    ensures n < |keys| ==> Open(keys[n], entries[keys[n]], launch).Failure?
  {
    if keys == [] || Open(keys[0], entries[keys[0]], launch).Failure? then 0
    else 1 + FirstFailure(keys[1..], entries, launch)
  }

  class ServerPool {
    const serverConfigs: Dict<ConfigEntry>
    var clients: Dict<Session>
    var toolMapping: map<string, string>

    /** Routes lead only to registered servers. */
    ghost predicate Valid()
      reads this
    {
      && serverConfigs.Valid()
      && clients.Valid()
      && (forall name :: name in toolMapping ==> toolMapping[name] in clients.entries)
    }

    constructor (configs: Dict<ConfigEntry>)
      requires configs.Valid()
      ensures Valid()
      ensures serverConfigs == configs && clients == Empty() && toolMapping == map[]
    {
      serverConfigs := configs;
      clients := Empty();
      toolMapping := map[];
    }

    /** `connect_all`: one initialized session per configuration entry, registered
        under its key in configuration order, until an entry fails. */
    method ConnectAll(launch: Launcher) returns (err: Option<string>)
      requires Valid()
      modifies this`clients
      ensures Valid()
      ensures (clients, err) == Registered(old(clients), serverConfigs.keys, serverConfigs.entries, launch)
    {
      var keys := serverConfigs.keys;
      var i := 0;
      while i < |keys|
        invariant 0 <= i <= |keys|
        invariant Valid()
        invariant Registered(old(clients), keys, serverConfigs.entries, launch)
               == Registered(clients, keys[i..], serverConfigs.entries, launch)
      {
        var serverName := keys[i];
        var config := serverConfigs.entries[serverName];
        assert keys[i..][1..] == keys[i + 1..];
        if config.command.None? {
          return Some(MissingCommand);
        }
        var params := StdioParams(config.command.value, config.args.GetOr([]), config.env);
        var launched := launch(params);
        if launched.Failure? {
          return Some(launched.error);
        }
        clients := clients.Put(serverName, Session(serverName, params, launched.value));
        i := i + 1;
      }
      err := None;
    }

    /** `list_all_tools`: the catalog of every (server, tool) pair in the given
        format, recording each tool's server in the routing table on the way. */
    method ListAllTools(format: Format) returns (aggregated: seq<Json>)
      requires Valid()
      modifies this`toolMapping
      ensures Valid()
      ensures aggregated == CatalogOf(format, clients.keys, clients.entries)
      ensures toolMapping == Routes(old(toolMapping), clients.keys, clients.entries)
    {
      var keys := clients.keys;
      aggregated := [];
      var i := 0;
      while i < |keys|
        invariant 0 <= i <= |keys|
        invariant Valid()
        invariant aggregated == CatalogOf(format, keys[..i], clients.entries)
        invariant toolMapping == Routes(old(toolMapping), keys[..i], clients.entries)
      {
        var serverName := keys[i];
        ServerStep(format, old(toolMapping), keys, clients.entries, i);
        aggregated := ListServerTools(format, serverName, aggregated);
        i := i + 1;
      }
      assert keys[..i] == keys;
    }

    /** The inner loop of `list_all_tools` for one server: each of its tools is
        described after `aggregated` and routed to the server. */
    method ListServerTools(format: Format, serverName: string, aggregated: seq<Json>) returns (extended: seq<Json>)
      requires Valid() && serverName in clients.entries
      modifies this`toolMapping
      ensures Valid()
      ensures extended == aggregated + DescribeAll(format, clients.entries[serverName].tools)
      ensures toolMapping == RecordTools(old(toolMapping), serverName, clients.entries[serverName].tools)
    {
      var tools := clients.entries[serverName].tools;
      extended := aggregated;
      assert tools[..0] == [];
      var j := 0;
      while j < |tools|
        invariant 0 <= j <= |tools|
        invariant Valid()
        invariant extended == aggregated + DescribeAll(format, tools[..j])
        invariant toolMapping == RecordTools(old(toolMapping), serverName, tools[..j])
      {
        var tool := tools[j];
        ToolStep(format, old(toolMapping), serverName, tools, j);
        toolMapping := toolMapping[tool.name := serverName];
        extended := extended + [Describe(format, tool)];
        j := j + 1;
      }
      assert tools[..j] == tools;
    }

    /** `call_tool`: the session of the mapped server is called with the same name
        and arguments; an unmapped name fails without calling any session. */
    method CallTool(toolName: string, arguments: Json, invoke: Invoker) returns (result: Result<CallToolResult, string>)
      ensures result == Dispatch(toolMapping, clients.entries, toolName, arguments, invoke)
    {
      var serverId := if toolName in toolMapping then Some(toolMapping[toolName]) else None;
      var session := if serverId.Some? && serverId.value in clients.entries then Some(clients.entries[serverId.value]) else None;
      if session.None? {
        result := Failure(NoAttribute("call_tool"));
      } else {
        result := invoke(session.value, toolName, arguments);
      }
    }
  }

  // ---------------------------------------------------------------------------
  // Properties of connecting

  /** Connecting stops at the first entry that fails: the error is reported
      exactly when some entry fails, and it is that entry's error. */
  lemma {:induction false} ConnectError(clients: Dict<Session>, keys: seq<string>, entries: map<string, ConfigEntry>, launch: Launcher)
    requires forall k :: k in keys ==> k in entries
    requires clients.Valid()
    ensures var n := FirstFailure(keys, entries, launch);
      && (Registered(clients, keys, entries, launch).1.None? <==> n == |keys|)
      && (n < |keys| ==> Registered(clients, keys, entries, launch).1 == Some(Open(keys[n], entries[keys[n]], launch).error))
    decreases |keys|
  {
    if keys != [] && Open(keys[0], entries[keys[0]], launch).Success? {
      var next := ConnectFirst(clients, keys, entries, launch);
      ConnectError(next, keys[1..], entries, launch);
    }
  }

  /** The sessions are registered under their keys in configuration order, after
      those already registered, up to the first entry that fails. */
  lemma {:induction false} ConnectInOrder(clients: Dict<Session>, keys: seq<string>, entries: map<string, ConfigEntry>, launch: Launcher)
    requires forall k :: k in keys ==> k in entries
    requires forall i, j :: 0 <= i < j < |keys| ==> keys[i] != keys[j]
    requires clients.Valid()
    requires forall k :: k in keys ==> k !in clients.entries
    ensures Registered(clients, keys, entries, launch).0.keys == clients.keys + keys[..FirstFailure(keys, entries, launch)]
    decreases |keys|
  {
    if keys != [] && Open(keys[0], entries[keys[0]], launch).Success? {
      var next := ConnectFirst(clients, keys, entries, launch);
      TailFresh(clients.entries, next.entries, keys);
      ConnectInOrder(next, keys[1..], entries, launch);
      PrefixSplit(clients.keys, keys, FirstFailure(keys[1..], entries, launch));
    } else if keys != [] {
      assert keys[..0] == [];
    }
  }

  /** After registering the first of some distinct fresh keys, the others are
      still distinct and fresh. */
  lemma TailFresh(before: map<string, Session>, after: map<string, Session>, keys: seq<string>)
    requires keys != [] && after.Keys == before.Keys + {keys[0]}
    requires forall i, j :: 0 <= i < j < |keys| ==> keys[i] != keys[j]
    requires forall k :: k in keys ==> k !in before
    ensures forall i, j :: 0 <= i < j < |keys[1..]| ==> keys[1..][i] != keys[1..][j]
    ensures forall k :: k in keys[1..] ==> k !in after
  {
    forall k | k in keys[1..] ensures k !in after {
      var i :| 0 <= i < |keys[1..]| && keys[1..][i] == k;
      assert keys[i + 1] == k;
    }
  }

  lemma PrefixSplit(registered: seq<string>, keys: seq<string>, m: nat)
    requires m < |keys|
    ensures registered + [keys[0]] + keys[1..][..m] == registered + keys[..m + 1]
  {
    assert keys[..m + 1] == [keys[0]] + keys[1..][..m];
  }

  /** Connecting a first entry that opens: its session is registered and the rest
      of the entries are connected after it. */
  lemma ConnectFirst(clients: Dict<Session>, keys: seq<string>, entries: map<string, ConfigEntry>, launch: Launcher)
    returns (next: Dict<Session>)
    requires forall k :: k in keys ==> k in entries
    requires clients.Valid()
    requires keys != [] && Open(keys[0], entries[keys[0]], launch).Success?
    ensures next == clients.Put(keys[0], Open(keys[0], entries[keys[0]], launch).value) && next.Valid()
    ensures forall k :: k in keys[1..] ==> k in entries
    ensures Registered(clients, keys, entries, launch) == Registered(next, keys[1..], entries, launch)
    ensures FirstFailure(keys, entries, launch) == 1 + FirstFailure(keys[1..], entries, launch)
  {
    next := clients.Put(keys[0], Open(keys[0], entries[keys[0]], launch).value);
  }

  /** Each session registered was opened from its own entry; sessions already
      registered under other names are kept. */
  lemma {:induction false} ConnectSessions(clients: Dict<Session>, keys: seq<string>, entries: map<string, ConfigEntry>, launch: Launcher)
    requires forall k :: k in keys ==> k in entries
    requires forall i, j :: 0 <= i < j < |keys| ==> keys[i] != keys[j]
    requires clients.Valid()
    ensures var after := Registered(clients, keys, entries, launch).0;
      && (forall i :: 0 <= i < FirstFailure(keys, entries, launch) ==>
            keys[i] in after.entries && Open(keys[i], entries[keys[i]], launch) == Success(after.entries[keys[i]]))
      && (forall k :: k in clients.entries && k !in keys ==> k in after.entries && after.entries[k] == clients.entries[k])
    decreases |keys|
  {
    if keys != [] && Open(keys[0], entries[keys[0]], launch).Success? {
      var next := ConnectFirst(clients, keys, entries, launch);
      ConnectSessions(next, keys[1..], entries, launch);
      var after := Registered(next, keys[1..], entries, launch).0;
      forall i | 0 <= i < FirstFailure(keys, entries, launch)
        ensures keys[i] in after.entries && Open(keys[i], entries[keys[i]], launch) == Success(after.entries[keys[i]])
      {
        if i > 0 {
          assert keys[i] == keys[1..][i - 1];
        }
      }
    }
  }

  /** An entry without `command` (an sse entry, say) stops connecting with the
      KeyError, and every entry before it stays registered. */
  lemma MissingCommandStops(keys: seq<string>, entries: map<string, ConfigEntry>, launch: Launcher, j: nat)
    requires forall k :: k in keys ==> k in entries
    requires forall a, b :: 0 <= a < b < |keys| ==> keys[a] != keys[b]
    requires j < |keys| && entries[keys[j]].command.None?
    requires forall i :: 0 <= i < j ==> Open(keys[i], entries[keys[i]], launch).Success?
    ensures Registered(Empty(), keys, entries, launch).1 == Some(MissingCommand)
    ensures Registered(Empty(), keys, entries, launch).0.keys == keys[..j]
  {
    FirstFailureIs(keys, entries, launch, j);
    ConnectError(Empty(), keys, entries, launch);
    ConnectInOrder(Empty(), keys, entries, launch);
  }

  lemma {:induction false} FirstFailureIs(keys: seq<string>, entries: map<string, ConfigEntry>, launch: Launcher, j: nat)
    requires forall k :: k in keys ==> k in entries
    requires j < |keys| && Open(keys[j], entries[keys[j]], launch).Failure?
    requires forall i :: 0 <= i < j ==> Open(keys[i], entries[keys[i]], launch).Success?
    ensures FirstFailure(keys, entries, launch) == j
  {
    if j > 0 {
      FirstFailureIs(keys[1..], entries, launch, j - 1);
    }
  }

  /** Connecting the output of `create_server_config`: stdio entries launch with
      exactly the normalised command, args and env; sse entries cannot be opened. */
  lemma OpenNormalized(name: string, c: ServerConfig, launch: Launcher)
    ensures c.Sse? ==> Open(name, AsEntry(c), launch) == Failure(MissingCommand)
    ensures c.Stdio? && launch(StdioParams(c.command, c.args, c.env)).Success? ==>
      Open(name, AsEntry(c), launch) == Success(Session(name, StdioParams(c.command, c.args, c.env),
                                                       launch(StdioParams(c.command, c.args, c.env)).value))
  {
  }
}
