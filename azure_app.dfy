/** azure_app.py: the Streamlit front end of the Azure orchestrator. It folds
    the event stream into the text it shows, and keeps the conversation, the
    client, its tools and the `connected` flag in the session state. */
module AzureApp {
  import opened Wrappers
  import opened Json
  import opened Mcp
  import opened Dicts
  import opened ServerConfigs
  import opened Catalog
  import opened Pool
  import opened Events
  import opened Azure
  import opened ChatLog

  /** What one event adds to `full_response`: the content of a text event not
      marked final, nothing otherwise. */
  function Shows(e: Event): string {
    if e.Text? && !e.final then e.content else ""
  }

  /** `"".join(full_response)` after the stream `events`. */
  function DisplayedText(events: seq<Event>): string {
    if events == [] then "" else DisplayedText(events[..|events| - 1]) + Shows(events[|events| - 1])
  }

  /** The text the loop receives with tool calls still enabled: the content of
      each response up to and including the first one without tool calls. */
  function Shown(script: seq<ChatResponse>): string
    decreases |script|
  {
    if script == [] then ""
    else
      var head := if HasText(script[0].content) then script[0].content.value else "";
      head + (if script[0].toolCalls == [] then "" else Shown(script[1..]))
  }

  /** The `async for chunk in ...` loop of `process_response_stream`. */
  method CollectText(events: seq<Event>) returns (text: string)
    ensures text == DisplayedText(events)
  {
    text := "";
    var i := 0;
    while i < |events|
      invariant 0 <= i <= |events|
      invariant text == DisplayedText(events[..i])
    {
      assert events[..i + 1][..i] == events[..i];
      var chunk := events[i];
      if chunk.Text? && !chunk.final {
        text := text + chunk.content;
      }
      i := i + 1;
    }
    assert events[..i] == events;
  }

  lemma {:induction false} DisplayedConcat(a: seq<Event>, b: seq<Event>)
    ensures DisplayedText(a + b) == DisplayedText(a) + DisplayedText(b)
    decreases |b|
  {
    if b == [] {
      assert a + b == a;
    } else {
      var init := b[..|b| - 1];
      var last := b[|b| - 1];
      var ab := a + b;
      assert ab[..|ab| - 1] == a + init;
      assert ab[|ab| - 1] == last;
      DisplayedConcat(a, init);
      calc {
        DisplayedText(ab);
        DisplayedText(a + init) + Shows(last);
        (DisplayedText(a) + DisplayedText(init)) + Shows(last);
        { ConcatAssoc(DisplayedText(a), DisplayedText(init), Shows(last)); }
        DisplayedText(a) + (DisplayedText(init) + Shows(last));
      }
    }
  }

  /** Tool calls, tool results and errors add nothing to the displayed text. */
  lemma {:induction false} RoundHidden(calls: seq<ToolCallRequest>, t: Tooling)
    ensures DisplayedText(RoundEvents(calls, t)) == ""
    decreases |calls|
  {
    if calls != [] {
      var init := calls[..|calls| - 1];
      var last := calls[|calls| - 1];
      RoundHidden(init, t);
      var ce := CallEvents(last, Attempt(t, last));
      DisplayedConcat(RoundEvents(init, t), ce);
      DisplayedConcat([ce[0]], [ce[1]]);
      assert ce == [ce[0]] + [ce[1]];
      assert DisplayedText([ce[0]]) == DisplayedText([]) + Shows(ce[0]);
      assert DisplayedText([ce[1]]) == DisplayedText([]) + Shows(ce[1]);
    }
  }

  lemma TextShown(content: Option<string>)
    ensures DisplayedText(TextEvents(content, false)) == (if HasText(content) then content.value else "")
    ensures DisplayedText(TextEvents(content, true)) == ""
  {
    if HasText(content) {
      assert DisplayedText([Text(content.value, false)]) == DisplayedText([]) + content.value;
      assert DisplayedText([Text(content.value, true)]) == DisplayedText([]) + "";
    }
  }

  /** The answer to the final request (sent with tools disabled) is never shown. */
  lemma FinalAnswerHidden(model: string, rest: seq<ChatResponse>, messages: seq<ChatMessage>, tools: seq<Json>)
    ensures DisplayedText(Finish(model, rest, messages, tools).events) == ""
  {
    if rest != [] {
      TextShown(rest[0].content);
      DisplayedConcat(TextEvents(rest[0].content, true), [Done]);
      assert DisplayedText([Done]) == DisplayedText([]) + "";
    }
  }

  /** The displayed text of a query is the content of the responses the loop
      received, in order, up to the first response without tool calls. */
  lemma {:induction false} LoopDisplayed(model: string, script: seq<ChatResponse>, messages: seq<ChatMessage>,
                                         tools: seq<Json>, t: Tooling)
    ensures DisplayedText(Loop(model, script, messages, tools, t).events) == Shown(script)
    decreases |script|
  {
    if script != [] {
      var r := script[0];
      if r.toolCalls == [] {
        LoopLastRound(model, script, messages, tools, t);
        FinalAnswerHidden(model, script[1..], messages, tools);
        TextThen(r.content, [], Finish(model, script[1..], messages, tools).events);
      } else {
        var next := messages + RoundMessages(r.content, r.toolCalls, t);
        LoopToolRound(model, script, messages, tools, t);
        LoopDisplayed(model, script[1..], next, tools, t);
        RoundHidden(r.toolCalls, t);
        TextThen(r.content, RoundEvents(r.toolCalls, t), Loop(model, script[1..], next, tools, t).events);
      }
    }
  }

  /** A response's text, then hidden events, then the rest of the stream. */
  lemma TextThen(content: Option<string>, hidden: seq<Event>, rest: seq<Event>)
    requires DisplayedText(hidden) == ""
    ensures DisplayedText(TextEvents(content, false) + hidden + rest)
         == (if HasText(content) then content.value else "") + DisplayedText(rest)
  {
    TextShown(content);
    DisplayedConcat(TextEvents(content, false) + hidden, rest);
    DisplayedConcat(TextEvents(content, false), hidden);
    assert DisplayedText(TextEvents(content, false)) + "" == DisplayedText(TextEvents(content, false));
  }

  lemma QueryDisplayed(model: string, query: string, script: seq<ChatResponse>, tools: seq<Json>, t: Tooling)
    ensures DisplayedText(QueryRun(model, query, script, tools, t).events) == Shown(script)
  {
    LoopDisplayed(model, script, InitialMessages(query), tools, t);
  }

  /** The run `process_query_stream(prompt)` yields on `client` as it stands
      before the query re-lists the tools. */
  function Answer(client: AzureClient, prompt: string, script: seq<ChatResponse>, parse: Parser, invoke: Invoker): ChatRun
    reads client, client.pool
    requires client.pool.Valid()
  {
    var pool := client.pool;
    var mapping := Routes(pool.toolMapping, pool.clients.keys, pool.clients.entries);
    QueryRun(client.deployment, prompt, script, CatalogOf(FunctionFormat, pool.clients.keys, pool.clients.entries),
             Tooling(mapping, pool.clients.entries, parse, invoke))
  }

  /** The assistant entry a query leaves: the displayed text of a run that ran
      to `done`, or the error text of the exception that cut it short. */
  function Reply(run: ChatRun, providerError: string): string {
    if run.complete then DisplayedText(run.events) else ErrorReply(providerError)
  }

  /** `process_response_stream(client, prompt)`: run the query and fold its
      events; a provider that fails before `done` raises `providerError`. */
  method ProcessResponseStream(client: AzureClient, prompt: string, script: seq<ChatResponse>,
                               parse: Parser, invoke: Invoker, providerError: string)
    returns (reply: Result<string, string>)
    requires client.Valid()
    modifies client.pool`toolMapping
    ensures client.Valid()
    ensures client.pool.toolMapping == Routes(old(client.pool.toolMapping), client.pool.clients.keys, client.pool.clients.entries)
    ensures old(Answer(client, prompt, script, parse, invoke)).complete ==>
      reply == Success(DisplayedText(old(Answer(client, prompt, script, parse, invoke)).events))
    ensures !old(Answer(client, prompt, script, parse, invoke)).complete ==> reply == Failure(providerError)
  {
    var run := client.ProcessQueryStream(prompt, script, parse, invoke);
    if !run.complete {
      return Failure(providerError);
    }
    var text := CollectText(run.events);
    reply := Success(text);
  }

  /** `connect_servers(server_config)`: a new client connected to every server
      and its tool list; the first failure is raised. */
  method ConnectServers(config: Dict<ServerConfig>, deployment: string, launch: Launcher)
    returns (client: AzureClient, tools: Result<seq<Json>, string>)
    requires config.Valid()
    ensures fresh(client) && fresh(client.pool) && client.Valid()
    ensures var (registered, err) := Registered(Empty(), config.keys, AsEntries(config).entries, launch);
      && client.deployment == deployment
      && client.pool.clients == registered
      && (err.Some? ==> tools == Failure(err.value) && client.pool.toolMapping == map[])
      && (err.None? ==> && tools == Success(CatalogOf(FunctionFormat, registered.keys, registered.entries))
                        && client.pool.toolMapping == Routes(map[], registered.keys, registered.entries))
  {
    client := new AzureClient(AsEntries(config), deployment);
    var err := client.pool.ConnectAll(launch);
    if err.Some? {
      return client, Failure(err.value);
    }
    var listed := client.pool.ListAllTools(FunctionFormat);
    tools := Success(listed);
  }

  /** The session state of the app. */
  class AzureAppState {
    var messages: seq<ChatEntry>
    var client: AzureClient?
    var tools: Option<seq<Json>>
    var connected: bool

    ghost predicate Valid()
      reads this, client, if client != null then {client.pool} else {}
    {
      client != null ==> client.Valid()
    }

    constructor ()
      ensures Valid()
      ensures messages == [] && client == null && tools.None? && !connected
    {
      messages := [];
      client := null;
      tools := None;
      connected := false;
    }

    /** The automatic connection at the top of `setup_sidebar`: tried only while
        there is neither a client nor a connection; success stores the client,
        its tools and `connected` together, failure stores nothing. */
    method AutoConnect(config: Dict<ServerConfig>, deployment: string, launch: Launcher)
      requires config.Valid() && Valid()
      modifies this
      ensures Valid()
      ensures messages == old(messages)
      ensures (old(connected) || old(client) != null) ==>
        client == old(client) && tools == old(tools) && connected == old(connected)
      ensures !old(connected) && old(client) == null ==>
        var (registered, err) := Registered(Empty(), config.keys, AsEntries(config).entries, launch);
        && (err.Some? ==> client == null && tools == old(tools) && !connected)
        && (err.None? ==> && client != null && fresh(client) && client.pool.clients == registered
                          && client.pool.toolMapping == Routes(map[], registered.keys, registered.entries)
                          && tools == Some(CatalogOf(FunctionFormat, registered.keys, registered.entries))
                          && connected)
    {
      if !connected && client == null {
        var c, listed := ConnectServers(config, deployment, launch);
        ghost var registered := Registered(Empty(), config.keys, AsEntries(config).entries, launch);
        assert c.pool.clients == registered.0 && (listed.Success? <==> registered.1.None?);
        if listed.Success? {
          client := c;
          tools := Some(listed.value);
          connected := true;
        }
      }
    }

    /** The "서버 재연결" button: drop the current client, then connect afresh;
        a failure leaves no client and `connected` false. */
    method Reconnect(config: Dict<ServerConfig>, deployment: string, launch: Launcher)
      requires config.Valid() && Valid()
      modifies this
      ensures Valid()
      ensures messages == old(messages)
      ensures var (registered, err) := Registered(Empty(), config.keys, AsEntries(config).entries, launch);
        && (err.Some? ==> client == null && tools == old(tools) && !connected)
        && (err.None? ==> && client != null && fresh(client) && client.pool.clients == registered
                          && client.pool.toolMapping == Routes(map[], registered.keys, registered.entries)
                          && tools == Some(CatalogOf(FunctionFormat, registered.keys, registered.entries))
                          && connected)
    {
      if client != null {
        client := null;
        connected := false;
      }
      var c, listed := ConnectServers(config, deployment, launch);
      ghost var registered := Registered(Empty(), config.keys, AsEntries(config).entries, launch);
      assert c.pool.clients == registered.0 && (listed.Success? <==> registered.1.None?);
      if listed.Success? {
        client := c;
        tools := Some(listed.value);
        connected := true;
      } else {
        connected := false;
      }
    }

    /** The "대화 초기화" button. */
    method ClearConversation()
      modifies this`messages
      ensures messages == [] && Alternating(messages)
    {
      messages := [];
      ExchangeAlternates([], "", "");
    }

    /** A prompt typed into the chat input (the end of `main`). Without a client
        or a connection nothing is recorded; otherwise the user entry and then
        one assistant entry are appended, and a failed query drops `connected`. */
    method SubmitPrompt(prompt: string, script: seq<ChatResponse>, parse: Parser, invoke: Invoker, providerError: string)
      requires Valid()
      modifies this, if client != null then {client.pool} else {}
      ensures Valid() && client == old(client) && tools == old(tools)
      ensures (old(client) == null || !old(connected)) ==>
        messages == old(messages) && connected == old(connected)
      ensures old(client) != null && old(connected) ==>
        var run := old(Answer(client, prompt, script, parse, invoke));
        && messages == old(messages) + [UserEntry(prompt), AssistantEntry(Reply(run, providerError))]
        && connected == run.complete
      ensures old(client) != null ==>
        && client.pool.clients == old(client.pool.clients)
        && client.pool.toolMapping == (if old(connected)
                                       then Routes(old(client.pool.toolMapping), client.pool.clients.keys, client.pool.clients.entries)
                                       else old(client.pool.toolMapping))
      ensures Alternating(old(messages)) ==> Alternating(messages)
    {
      if client == null || !connected {
        return;
      }
      var before := messages;
      messages := messages + [UserEntry(prompt)];
      var reply := ProcessResponseStream(client, prompt, script, parse, invoke, providerError);
      var answer: string;
      match reply {
        case Success(fullContent) =>
          answer := fullContent;
        case Failure(e) =>
          answer := ErrorReply(e);
          connected := false;
      }
      messages := messages + [AssistantEntry(answer)];
      assert messages == before + [UserEntry(prompt), AssistantEntry(answer)];
      ExchangeAlternates(before, prompt, answer);
    }
  }
}
