/** AzureClient: the chat-completions orchestrator. The provider is a finite
    script of responses (request i is answered by script[i]); `eval` of the
    tool-call arguments is a parser oracle; tool calls go through the shared
    registry of module Pool. */
module Azure {
  import opened Wrappers
  import opened Json
  import opened Mcp
  import opened Dicts
  import opened Catalog
  import opened Events
  import opened Pool
  import opened ServerConfigs

  /** One element of `choice.message.tool_calls`. */
  datatype ToolCallRequest = ToolCallRequest(id: string, name: string, arguments: string)

  /** `response.choices[0].message`; `content` may be None, `tool_calls` None or empty. */
  datatype ChatResponse = ChatResponse(content: Option<string>, toolCalls: seq<ToolCallRequest>)

  /** The message dicts appended to `messages`. An assistant message carries the
      calls as `[{"id", "type": "function", "function": {"name", "arguments"}}]`. */
  datatype ChatMessage =
    | SystemMessage(text: string)
    | UserMessage(text: string)
    | AssistantMessage(content: Option<string>, toolCalls: seq<ToolCallRequest>)
    | ToolMessage(text: string, toolCallId: string)

  /** The keyword arguments of `chat.completions.create`; `responseFormat` None
      means the key is absent. */
  datatype Request = Request(
    model: string,
    messages: seq<ChatMessage>,
    tools: seq<Json>,
    toolChoice: string,
    maxTokens: int,
    temperature: real,
    responseFormat: Option<Json>)

  /** A run of the chat-completions loop. */
  type ChatRun = Run<Request>

  /** `eval(tool_args)`: the evaluated arguments, or the text of what it raised. */
  type Parser = string -> Result<Json, string>

  const SystemPrompt: string :=
    "당신은 사용자의 요청을 분석하고 적절한 도구를 선택하여 실행하는 에이전트입니다.\n"
    + "사용 가능한 도구들의 정보가 제공될 것입니다. 각 도구의 기능을 이해하고 사용자의 요청에 가장 적합한 도구를 선택하여 사용해주세요.\n"
    + "도구를 사용하기 전에는 사용자가 요청한 내용을 요약하고, 어떤 도구를 왜 사용할지 먼저 사용자에게 설명해줘야 합니다.\n"
    + "도구 실행 결과를 바탕으로 사용자의 요청에 대한 최종 답변을 자연어로 제공해주세요."

  /** `{"type": "text"}`, the response format of the final request. */
  const TextFormat: Json := JObject([("type", JString("text"))])

  /** `_send_request`: the request parameters; `response_format` only when truthy. */
  function SendRequest(model: string, messages: seq<ChatMessage>, tools: seq<Json>,
                       nameonly toolChoice: string := "auto",
                       nameonly responseFormat: Json := JNull,
                       nameonly maxTokens: int := 1000,
                       nameonly temperature: real := 0.2): Request
  {
    Request(model, messages, tools, toolChoice, maxTokens, temperature,
            if Truthy(responseFormat) then Some(responseFormat) else None)
  }

  /** The request that asks for the final answer, with tool use switched off. */
  function FinalRequest(model: string, messages: seq<ChatMessage>, tools: seq<Json>): Request {
    SendRequest(model, messages, tools, toolChoice := "none", responseFormat := TextFormat,
                maxTokens := 4096, temperature := 1.0)
  }

  /** `if choice.message.content:` */
  predicate HasText(content: Option<string>) {
    content.Some? && content.value != ""
  }

  function TextEvents(content: Option<string>, final: bool): seq<Event> {
    if HasText(content) then [Text(content.value, final)] else []
  }

  /** What the loop needs to run a tool call: the routing table and sessions
      after `list_all_tools`, the argument parser and the sessions' answers. */
  datatype Tooling = Tooling(mapping: map<string, string>, sessions: map<string, Session>,
                             parse: Parser, invoke: Invoker)

  /** The body of the `try`: evaluate the arguments, call the tool, take its text. */
  function Attempt(t: Tooling, call: ToolCallRequest): Result<string, string> {
    match t.parse(call.arguments)
    case Failure(e) => Failure(e)
    case Success(args) =>
      match Dispatch(t.mapping, t.sessions, call.name, args, t.invoke)
      case Failure(e) => Failure(e)
      case Success(r) => Success(ResultText(r))
  }

  /** The events of one tool call: the call, then its result or its error. */
  function CallEvents(call: ToolCallRequest, outcome: Result<string, string>): seq<Event> {
    [ToolCall(call.name, JString(call.arguments))]
    + if outcome.Success? then [ToolResult(call.name, outcome.value)] else [Error(ErrorText(outcome.error))]
  }

  /** The messages one tool call appends: on success the assistant message holding
      only that call and the tool message; on failure the tool message alone. */
  function CallMessages(content: Option<string>, call: ToolCallRequest, outcome: Result<string, string>): seq<ChatMessage> {
    if outcome.Success? then [AssistantMessage(content, [call]), ToolMessage(outcome.value, call.id)]
    else [ToolMessage(ErrorText(outcome.error), call.id)]
  }

  function RoundEvents(calls: seq<ToolCallRequest>, t: Tooling): seq<Event> {
    if calls == [] then []
    else RoundEvents(calls[..|calls| - 1], t) + CallEvents(calls[|calls| - 1], Attempt(t, calls[|calls| - 1]))
  }

  function RoundMessages(content: Option<string>, calls: seq<ToolCallRequest>, t: Tooling): seq<ChatMessage> {
    if calls == [] then []
    else RoundMessages(content, calls[..|calls| - 1], t) + CallMessages(content, calls[|calls| - 1], Attempt(t, calls[|calls| - 1]))
  }

  /** One more call of a round: its events and messages follow those of the earlier calls. */
  lemma RoundStep(content: Option<string>, calls: seq<ToolCallRequest>, j: nat, t: Tooling)
    requires j < |calls|
    ensures RoundEvents(calls[..j + 1], t) == RoundEvents(calls[..j], t) + CallEvents(calls[j], Attempt(t, calls[j]))
    ensures RoundMessages(content, calls[..j + 1], t)
         == RoundMessages(content, calls[..j], t) + CallMessages(content, calls[j], Attempt(t, calls[j]))
  {
    assert calls[..j + 1][..j] == calls[..j];
  }

  /** The final request and the end of the stream, once a response without tool
      calls arrived; `rest` holds the responses still to come. */
  function Finish(model: string, rest: seq<ChatResponse>, messages: seq<ChatMessage>, tools: seq<Json>): ChatRun {
    if rest == [] then Run([], [FinalRequest(model, messages, tools)], false)
    else Run(TextEvents(rest[0].content, true) + [Done], [FinalRequest(model, messages, tools)], true)
  }

  /** The `while True` loop and the final request, from the history `messages`
      with the responses `script` still to come. */
  function Loop(model: string, script: seq<ChatResponse>, messages: seq<ChatMessage>, tools: seq<Json>, t: Tooling): ChatRun
    decreases |script|
  {
    if script == [] then Run([], [SendRequest(model, messages, tools)], false)
    else
      var response := script[0];
      var request := SendRequest(model, messages, tools);
      var text := TextEvents(response.content, false);
      var rest :=
        if response.toolCalls == [] then Finish(model, script[1..], messages, tools)
        else Loop(model, script[1..], messages + RoundMessages(response.content, response.toolCalls, t), tools, t);
      Run(text + (if response.toolCalls == [] then [] else RoundEvents(response.toolCalls, t)) + rest.events,
          [request] + rest.requests, rest.complete)
  }

  /** The history a query starts from. */
  function InitialMessages(query: string): seq<ChatMessage> {
    [SystemMessage(SystemPrompt), UserMessage(query)]
  }

  /** `process_query_stream(query)` against the scripted provider. */
  function QueryRun(model: string, query: string, script: seq<ChatResponse>, tools: seq<Json>, t: Tooling): ChatRun {
    Loop(model, script, InitialMessages(query), tools, t)
  }

  /** One turn of the loop on a response that asks for tools. */
  lemma LoopToolRound(model: string, script: seq<ChatResponse>, messages: seq<ChatMessage>, tools: seq<Json>, t: Tooling)
    requires script != [] && script[0].toolCalls != []
    ensures Loop(model, script, messages, tools, t)
         == Run(TextEvents(script[0].content, false) + RoundEvents(script[0].toolCalls, t)
                  + Loop(model, script[1..], messages + RoundMessages(script[0].content, script[0].toolCalls, t), tools, t).events,
                [SendRequest(model, messages, tools)]
                  + Loop(model, script[1..], messages + RoundMessages(script[0].content, script[0].toolCalls, t), tools, t).requests,
                Loop(model, script[1..], messages + RoundMessages(script[0].content, script[0].toolCalls, t), tools, t).complete)
  {
  }

  /** The turn on a response without tool calls: the loop ends and Finish follows. */
  lemma LoopLastRound(model: string, script: seq<ChatResponse>, messages: seq<ChatMessage>, tools: seq<Json>, t: Tooling)
    requires script != [] && script[0].toolCalls == []
    ensures Loop(model, script, messages, tools, t)
         == Run(TextEvents(script[0].content, false) + Finish(model, script[1..], messages, tools).events,
                [SendRequest(model, messages, tools)] + Finish(model, script[1..], messages, tools).requests,
                Finish(model, script[1..], messages, tools).complete)
  {
    assert TextEvents(script[0].content, false) + [] == TextEvents(script[0].content, false);
  }

  lemma StartLoop(model: string, query: string, script: seq<ChatResponse>, tools: seq<Json>, t: Tooling)
    ensures QueryRun(model, query, script, tools, t)
         == Prepend([], [], Loop(model, script[0..], [SystemMessage(SystemPrompt)] + [UserMessage(query)], tools, t))
  {
    assert script[0..] == script;
    assert [SystemMessage(SystemPrompt)] + [UserMessage(query)] == InitialMessages(query);
    var r := QueryRun(model, query, script, tools, t);
    assert [] + r.events == r.events && [] + r.requests == r.requests;
  }

  /** The loop invariant across a response that asks for tools. */
  lemma ToolRoundStep(model: string, script: seq<ChatResponse>, i: nat, messages: seq<ChatMessage>, tools: seq<Json>,
                      t: Tooling, events: seq<Event>, requests: seq<Request>, whole: ChatRun)
    requires i < |script| && script[i].toolCalls != []
    requires whole == Prepend(events, requests, Loop(model, script[i..], messages, tools, t))
    ensures whole == Prepend(events + TextEvents(script[i].content, false) + RoundEvents(script[i].toolCalls, t),
                             requests + [SendRequest(model, messages, tools)],
                             Loop(model, script[i + 1..], messages + RoundMessages(script[i].content, script[i].toolCalls, t), tools, t))
  {
    var r := script[i];
    assert script[i..][1..] == script[i + 1..];
    LoopToolRound(model, script[i..], messages, tools, t);
    var rest := Loop(model, script[i + 1..], messages + RoundMessages(r.content, r.toolCalls, t), tools, t);
    var more := TextEvents(r.content, false) + RoundEvents(r.toolCalls, t);
    PrependStep(events, requests, more, SendRequest(model, messages, tools), rest);
    ConcatAssoc(events, TextEvents(r.content, false), RoundEvents(r.toolCalls, t));
  }

  /** The loop invariant across a response without tool calls: Finish follows. */
  lemma LastRoundStep(model: string, script: seq<ChatResponse>, i: nat, messages: seq<ChatMessage>, tools: seq<Json>,
                      t: Tooling, events: seq<Event>, requests: seq<Request>, whole: ChatRun)
    requires i < |script| && script[i].toolCalls == []
    requires whole == Prepend(events, requests, Loop(model, script[i..], messages, tools, t))
    ensures whole == Prepend(events + TextEvents(script[i].content, false),
                             requests + [SendRequest(model, messages, tools)],
                             Finish(model, script[i + 1..], messages, tools))
  {
    assert script[i..][1..] == script[i + 1..];
    LoopLastRound(model, script[i..], messages, tools, t);
    PrependStep(events, requests, TextEvents(script[i].content, false), SendRequest(model, messages, tools),
                Finish(model, script[i + 1..], messages, tools));
  }

  /** What is left once the loop is over: the final request, then nothing if
      the provider has no answer left, otherwise the final text and `done`. */
  lemma FinishStep(model: string, rest: seq<ChatResponse>, messages: seq<ChatMessage>, tools: seq<Json>,
                   events: seq<Event>, requests: seq<Request>, whole: ChatRun)
    requires whole == Prepend(events, requests, Finish(model, rest, messages, tools))
    ensures rest == [] ==> whole == Run(events, requests + [FinalRequest(model, messages, tools)], false)
    ensures rest != [] ==> whole == Run(events + TextEvents(rest[0].content, true) + [Done],
                                        requests + [FinalRequest(model, messages, tools)], true)
  {
    if rest == [] {
      assert events + [] == events;
    } else {
      ConcatAssoc(events, TextEvents(rest[0].content, true), [Done]);
    }
  }

  class AzureClient {
    const deployment: string
    const pool: ServerPool

    ghost predicate Valid()
      reads this, pool
    {
      pool.Valid()
    }

    constructor (serversConfig: Dict<ConfigEntry>, deployment: string)
      requires serversConfig.Valid()
      ensures Valid() && fresh(pool)
      ensures this.deployment == deployment && pool.serverConfigs == serversConfig
      ensures pool.clients == Empty() && pool.toolMapping == map[]
    {
      this.deployment := deployment;
      pool := new ServerPool(serversConfig);
    }

    /** The `for tool_call in choice.message.tool_calls` loop: the events it yields
        and the history after it, as RoundEvents and RoundMessages describe them. */
    method ExecuteToolCalls(content: Option<string>, calls: seq<ToolCallRequest>, history: seq<ChatMessage>,
                            parse: Parser, invoke: Invoker)
      returns (events: seq<Event>, messages: seq<ChatMessage>)
      ensures events == RoundEvents(calls, Tooling(pool.toolMapping, pool.clients.entries, parse, invoke))
      ensures messages == history + RoundMessages(content, calls, Tooling(pool.toolMapping, pool.clients.entries, parse, invoke))
    {
      ghost var t := Tooling(pool.toolMapping, pool.clients.entries, parse, invoke);
      events := [];
      messages := history;
      var j := 0;
      while j < |calls|
        invariant 0 <= j <= |calls|
        invariant events == RoundEvents(calls[..j], t)
        invariant messages == history + RoundMessages(content, calls[..j], t)
      {
        var callEvents, callMessages := ExecuteToolCall(content, calls[j], parse, invoke);
        RoundStep(content, calls, j, t);
        events := events + callEvents;
        assert events == RoundEvents(calls[..j + 1], t);
        messages := messages + callMessages;
        assert messages == history + (RoundMessages(content, calls[..j], t) + callMessages);
        j := j + 1;
      }
      assert calls[..j] == calls;
    }

    /** The body of that loop for one call: the call event, then the tool is
        called with the parsed arguments; its text is reported and recorded, or
        the error is. */
    method ExecuteToolCall(content: Option<string>, toolCall: ToolCallRequest, parse: Parser, invoke: Invoker)
      returns (events: seq<Event>, messages: seq<ChatMessage>)
      ensures events == CallEvents(toolCall, Attempt(Tooling(pool.toolMapping, pool.clients.entries, parse, invoke), toolCall))
      ensures messages == CallMessages(content, toolCall, Attempt(Tooling(pool.toolMapping, pool.clients.entries, parse, invoke), toolCall))
    {
      events := [ToolCall(toolCall.name, JString(toolCall.arguments))];
      var parsed := parse(toolCall.arguments);
      var outcome: Result<CallToolResult, string>;
      if parsed.Failure? {
        outcome := Failure(parsed.error);
      } else {
        outcome := pool.CallTool(toolCall.name, parsed.value, invoke);
      }
      if outcome.Success? {
        var resultText := ResultText(outcome.value);
        events := events + [ToolResult(toolCall.name, resultText)];
        messages := [AssistantMessage(content, [toolCall]), ToolMessage(resultText, toolCall.id)];
      } else {
        var errorMsg := ErrorText(outcome.error);
        events := events + [Error(errorMsg)];
        messages := [ToolMessage(errorMsg, toolCall.id)];
      }
    }

    /** `process_query_stream`: lists the tools (updating the routing table), then
        runs the loop; the run is the one QueryRun describes. */
    method ProcessQueryStream(query: string, script: seq<ChatResponse>, parse: Parser, invoke: Invoker) returns (run: ChatRun)
      requires Valid()
      modifies pool`toolMapping
      ensures Valid()
      ensures pool.toolMapping == Routes(old(pool.toolMapping), pool.clients.keys, pool.clients.entries)
      ensures run == QueryRun(deployment, query, script,
                              CatalogOf(FunctionFormat, pool.clients.keys, pool.clients.entries),
                              Tooling(pool.toolMapping, pool.clients.entries, parse, invoke))
    {
      var messages := [UserMessage(query)];
      var tools := pool.ListAllTools(FunctionFormat);
      messages := [SystemMessage(SystemPrompt)] + messages;
      assert messages == InitialMessages(query);
      run := RunLoop(messages, tools, script, parse, invoke);
    }

    /** The `while True` loop of `process_query_stream` and the final request,
        from the history `messages` and the listed `tools`. */
    method RunLoop(messages: seq<ChatMessage>, tools: seq<Json>, script: seq<ChatResponse>, parse: Parser, invoke: Invoker)
      returns (run: ChatRun)
      requires Valid()
      ensures run == Loop(deployment, script, messages, tools, Tooling(pool.toolMapping, pool.clients.entries, parse, invoke))
    {
      ghost var t := Tooling(pool.toolMapping, pool.clients.entries, parse, invoke);
      ghost var whole := Loop(deployment, script, messages, tools, t);
      var history := messages;
      var events: seq<Event> := [];
      var requests: seq<Request> := [];
      var i := 0;
      assert script[0..] == script;
      assert whole == Prepend(events, requests, whole);
      while true
        invariant 0 <= i <= |script|
        invariant whole == Prepend(events, requests, Loop(deployment, script[i..], history, tools, t))
        decreases |script| - i
      {
        if i == |script| {
          // the provider raises on this request: the stream is cut off here
          assert script[i..] == [] && events + [] == events;
          requests := requests + [SendRequest(deployment, history, tools)];
          run := Run(events, requests, false);
          return;
        }
        var choice := script[i];
        ghost var e0, h0 := events, history;
        if choice.toolCalls == [] {
          LastRoundStep(deployment, script, i, history, tools, t, events, requests, whole);
        } else {
          ToolRoundStep(deployment, script, i, history, tools, t, events, requests, whole);
        }
        requests := requests + [SendRequest(deployment, history, tools)];
        i := i + 1;
        if HasText(choice.content) {
          events := events + [Text(choice.content.value, false)];
        }
        assert events == e0 + TextEvents(choice.content, false);
        if choice.toolCalls == [] {
          break;
        }
        var roundEvents, newMessages := ExecuteToolCalls(choice.content, choice.toolCalls, history, parse, invoke);
        events := events + roundEvents;
        history := newMessages;
        assert events == e0 + TextEvents(choice.content, false) + RoundEvents(choice.toolCalls, t);
        assert history == h0 + RoundMessages(choice.content, choice.toolCalls, t);
      }
      FinishStep(deployment, script[i..], history, tools, events, requests, whole);
      requests := requests + [FinalRequest(deployment, history, tools)];
      if i == |script| {
        // the provider raises on the final request
        run := Run(events, requests, false);
        return;
      }
      var finalChoice := script[i];
      if HasText(finalChoice.content) {
        events := events + [Text(finalChoice.content.value, true)];
      }
      events := events + [Done];
      run := Run(events, requests, true);
    }
  }
}
