/** The `mcpServers` section of `mcp_config.json` and its normalisation by
    `create_server_config`, which azure_app.py and sample_app.py define identically. */
module ServerConfigs {
  import opened Wrappers
  import opened Dicts

  /** One raw entry of `mcpServers`; `None` means the key is absent. */
  datatype ConfigEntry = ConfigEntry(
    command: Option<string>,
    args: Option<seq<string>>,
    env: Option<map<string, string>>,
    url: Option<string>)

  /** The decoded configuration file; `mcpServers` is `None` when the key is absent. */
  datatype McpConfig = McpConfig(mcpServers: Option<Dict<ConfigEntry>>)

  /** A normalised entry: stdio with its defaults filled in, or sse. */
  datatype ServerConfig =
    | Stdio(command: string, args: seq<string>, env: Option<map<string, string>>)
    | Sse(url: string)

  /** The normalised form of one entry, or None when the entry is dropped. */
  function Normalize(entry: ConfigEntry): Option<ServerConfig> {
    if entry.command.Some? then Some(Stdio(entry.command.value, entry.args.GetOr([]), entry.env))
    else if entry.url.Some? then Some(Sse(entry.url.value))
    else None
  }

  /** The normalised entry read back as a raw dict, the way the clients index it
      (`config["command"]`, `config.get("args", [])`, `config.get("env", None)`). */
  function AsEntry(c: ServerConfig): ConfigEntry {
    match c
    case Stdio(command, args, env) => ConfigEntry(Some(command), Some(args), env, None)
    case Sse(url) => ConfigEntry(None, None, None, Some(url))
  }

  /** The normalised dict handed to a client constructor, which reads each entry
      back as a raw dict: same keys in the same order. */
  function AsEntries(d: Dict<ServerConfig>): (r: Dict<ConfigEntry>)
    ensures d.Valid() ==> r.Valid()
    ensures r.keys == d.keys && r.entries.Keys == d.entries.Keys
    ensures forall k :: k in d.entries ==> r.entries[k] == AsEntry(d.entries[k])
  {
    Dict(d.keys, map k | k in d.entries :: AsEntry(d.entries[k]))
  }

  /** The keys of `keys` whose entry normalises, in their original order. */
  function NormalisingKeys(keys: seq<string>, entries: map<string, ConfigEntry>): (r: seq<string>)
    requires forall k :: k in keys ==> k in entries
    ensures forall k :: k in r <==> k in keys && Normalize(entries[k]).Some?
    ensures |r| <= |keys|
    decreases |keys|
  {
    if keys == [] then []
    else
      var k := keys[|keys| - 1];
      NormalisingKeys(keys[..|keys| - 1], entries) + (if Normalize(entries[k]).Some? then [k] else [])
  }

  /** The loop of `create_server_config` over the first entries of `mcpServers`. */
  function Collect(keys: seq<string>, entries: map<string, ConfigEntry>): (r: Dict<ServerConfig>)
    requires forall k :: k in keys ==> k in entries
    requires forall i, j :: 0 <= i < j < |keys| ==> keys[i] != keys[j]
    ensures r.Valid()
    ensures forall k :: k in r.entries <==> k in keys && Normalize(entries[k]).Some?
    ensures forall k :: k in r.entries ==> Some(r.entries[k]) == Normalize(entries[k])
    ensures forall k :: k in r.keys ==> k in keys
    ensures r.keys == NormalisingKeys(keys, entries)
    decreases |keys|
  {
    if keys == [] then Empty()
    else
      var init := keys[..|keys| - 1];
      var k := keys[|keys| - 1];
      var acc := Collect(init, entries);
      assert k !in init;
      match Normalize(entries[k])
      case Some(c) => acc.Put(k, c)
      case None => acc
  }

  /** `create_server_config`: a missing or falsy file, or one without `mcpServers`,
      gives an empty dict; otherwise each entry is normalised or dropped. */
  function CreateServerConfig(config: Option<McpConfig>): (r: Dict<ServerConfig>)
    requires config.Some? && config.value.mcpServers.Some? ==> config.value.mcpServers.value.Valid()
    ensures r.Valid()
    ensures (config.None? || config.value.mcpServers.None?) ==> r.keys == []
    ensures config.Some? && config.value.mcpServers.Some? ==>
      var servers := config.value.mcpServers.value;
      && (forall k :: k in r.entries <==> k in servers.entries && Normalize(servers.entries[k]).Some?)
      && (forall k :: k in r.entries ==> Some(r.entries[k]) == Normalize(servers.entries[k]))
      && r.keys == NormalisingKeys(servers.keys, servers.entries)
  {
    if config.Some? && config.value.mcpServers.Some? then
      var servers := config.value.mcpServers.value;
      Collect(servers.keys, servers.entries)
    else Empty()
  }

  /** An entry with `command` is stdio, whatever else it holds; args default to
      `[]` and env to None. */
  lemma CommandMeansStdio(entry: ConfigEntry)
    requires entry.command.Some?
    ensures Normalize(entry) == Some(Stdio(entry.command.value, entry.args.GetOr([]), entry.env))
  {
  }

  /** An entry with `url` and no `command` is sse and keeps nothing but the url. */
  lemma UrlOnlyMeansSse(entry: ConfigEntry)
    requires entry.command.None? && entry.url.Some?
    ensures Normalize(entry) == Some(Sse(entry.url.value))
  {
  }

  /** Normalising is idempotent: a normalised entry read back as a raw entry
      normalises to itself, and it is stdio exactly when it has a command. */
  lemma NormalizeIdempotent(c: ServerConfig)
    ensures Normalize(AsEntry(c)) == Some(c)
    ensures AsEntry(c).command.Some? <==> c.Stdio?
  {
  }
}
