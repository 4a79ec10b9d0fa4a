/** AwsClient: the Bedrock Converse orchestrator. The provider is a finite script
    of responses (request i is answered by script[i]); tool calls go through the
    shared registry of module Pool.

    Within one round every assistant message appended to the history refers to
    the same content list, which keeps growing while the round goes on; the
    model keeps that list on the heap (class BlockList) and a request carries
    the history as it reads when the request is sent (Snapshot). */
module Aws {
  import opened Wrappers
  import opened Json
  import opened Mcp
  import opened Catalog
  import opened Events
  import opened Pool

  /** One content block of a Converse message. Blocks of other kinds are neither
      streamed nor kept. */
  datatype Block =
    | TextBlock(text: string)                                    // {"text": ...}
    | ToolUseBlock(toolUseId: string, name: string, input: Json) // {"toolUse": {...}}
    | ToolResultBlock(toolUseId: string, result: string)         // {"toolResult": {"toolUseId", "content": [{"text"}]}}
    | OtherBlock

  /** `response['output']['message']['content']` and `response['stopReason']`. */
  datatype ConverseResponse = ConverseResponse(content: seq<Block>, stopReason: string)

  datatype Role = User | Assistant

  /** A message as the provider receives it. */
  datatype Message = Message(role: Role, content: seq<Block>)

  /** The keyword arguments of `converse`: model, messages, system prompt, tools. */
  datatype ConverseRequest = ConverseRequest(modelId: string, messages: seq<Message>, system: string, tools: seq<Json>)

  type ConverseRun = Run<ConverseRequest>

  const ModelId: string := "us.anthropic.claude-3-7-sonnet-20250219-v1:0"

  const SystemPrompt: string :=
    "당신은 사용자의 요청을 분석하고 적절한 도구를 선택하여 실행하는 에이전트입니다.\n"
    + "사용 가능한 도구들의 정보가 제공될 것입니다. 각 도구의 기능을 이해하고 사용자의 요청에 가장 적합한 도구를 선택하여 사용해주세요.\n"
    + "도구 실행 결과를 바탕으로 사용자의 요청에 대한 최종 답변을 자연어로 제공해주세요."

  /** The `converse` call both sends: fixed model, system prompt and tool list. */
  function Converse(messages: seq<Message>, tools: seq<Json>): ConverseRequest {
    ConverseRequest(ModelId, messages, SystemPrompt, tools)
  }

  /** The history a query starts from: the query as one text block. */
  function InitialMessages(query: string): seq<Message> {
    [Message(User, [TextBlock(query)])]
  }

  /** What the loop needs to run a tool: the routing table and sessions after
      `list_all_tools`, and the sessions' answers. */
  datatype Tooling = Tooling(mapping: map<string, string>, sessions: map<string, Session>, invoke: Invoker)

  /** The body of the `try`: call the tool and take the text of its result. */
  function Attempt(t: Tooling, name: string, input: Json): Result<string, string> {
    match Dispatch(t.mapping, t.sessions, name, input, t.invoke)
    case Failure(e) => Failure(e)
    case Success(r) => Success(ResultText(r))
  }

  /** The events one block yields. */
  function BlockEvents(b: Block, t: Tooling): seq<Event> {
    match b
    case TextBlock(x) => [Text(x, false)]
    case ToolUseBlock(_, name, input) =>
      [ToolCall(name, input)]
      + (match Attempt(t, name, input)
         case Success(r) => [ToolResult(name, r)]
         case Failure(e) => [Error(ErrorText(e))])
    case _ => []
  }

  /** The events of the `for content in ...` loop over one response. */
  function RoundEvents(blocks: seq<Block>, t: Tooling): seq<Event> {
    if blocks == [] then []
    else RoundEvents(blocks[..|blocks| - 1], t) + BlockEvents(blocks[|blocks| - 1], t)
  }

  /** `assistant_message_content` after the loop: text blocks and the tool-use
      blocks whose call succeeded, in order. */
  function Kept(blocks: seq<Block>, t: Tooling): seq<Block> {
    if blocks == [] then []
    else
      var b := blocks[|blocks| - 1];
      Kept(blocks[..|blocks| - 1], t)
      + (if b.TextBlock? || (b.ToolUseBlock? && Attempt(t, b.name, b.input).Success?) then [b] else [])
  }

  /** The tool result block answering a tool-use block. */
  function ResultBlock(id: string, outcome: Result<string, string>): Block {
    ToolResultBlock(id, if outcome.Success? then outcome.value else ErrorText(outcome.error))
  }

  /** The messages a round appends, as the next request sees them: per tool-use
      block an assistant message holding the round's whole content list `kept`,
      then the user message with the result or the error. */
  function RoundMessages(blocks: seq<Block>, t: Tooling, kept: seq<Block>): seq<Message> {
    if blocks == [] then []
    else
      var b := blocks[|blocks| - 1];
      RoundMessages(blocks[..|blocks| - 1], t, kept)
      + (if b.ToolUseBlock?
         then [Message(Assistant, kept), Message(User, [ResultBlock(b.toolUseId, Attempt(t, b.name, b.input))])]
         else [])
  }

  /** `has_tool_use` after the loop. */
  predicate HasToolUse(blocks: seq<Block>) {
    exists i :: 0 <= i < |blocks| && blocks[i].ToolUseBlock?
  }

  /** The text blocks of a response, streamed with the given `final` flag. */
  function TextsOf(blocks: seq<Block>, final: bool): seq<Event> {
    if blocks == [] then []
    else TextsOf(blocks[..|blocks| - 1], final)
         + (if blocks[|blocks| - 1].TextBlock? then [Text(blocks[|blocks| - 1].text, final)] else [])
  }

  /** Whether the loop goes on after a response: it used a tool and stopped for it. */
  predicate Continues(r: ConverseResponse) {
    HasToolUse(r.content) && r.stopReason == "tool_use"
  }

  /** The loop from the moment `script[0]` arrived, as the answer to a request
      sent with history `messages`. A response that continues the loop is
      followed by the next request; the text blocks of its answer are streamed as
      final, and that answer is then processed by the loop like any other. When
      no answer is left, the provider raised on that request. */
  function Turn(script: seq<ConverseResponse>, messages: seq<Message>, tools: seq<Json>, t: Tooling): ConverseRun
    requires script != []
    decreases |script|
  {
    var r := script[0];
    var round := RoundEvents(r.content, t);
    if !Continues(r) then Run(round + [Done], [], true)
    else
      var next := messages + RoundMessages(r.content, t, Kept(r.content, t));
      if |script| == 1 then Run(round, [Converse(next, tools)], false)
      else
        var rest := Turn(script[1..], next, tools, t);
        Run(round + TextsOf(script[1].content, true) + rest.events, [Converse(next, tools)] + rest.requests, rest.complete)
  }

  /** A response that does not continue the loop ends the stream. */
  lemma TurnStops(script: seq<ConverseResponse>, messages: seq<Message>, tools: seq<Json>, t: Tooling)
    requires script != [] && !Continues(script[0])
    ensures Turn(script, messages, tools, t) == Run(RoundEvents(script[0].content, t) + [Done], [], true)
  {
  }

  /** A response that continues the loop when no answer is left cuts the stream
      off after the follow-up request, the one the provider raised on. */
  lemma TurnCut(script: seq<ConverseResponse>, messages: seq<Message>, tools: seq<Json>, t: Tooling)
    requires |script| == 1 && Continues(script[0])
    ensures Turn(script, messages, tools, t)
         == Run(RoundEvents(script[0].content, t),
                [Converse(messages + RoundMessages(script[0].content, t, Kept(script[0].content, t)), tools)], false)
  {
  }

  lemma TurnContinues(script: seq<ConverseResponse>, messages: seq<Message>, tools: seq<Json>, t: Tooling,
                      next: seq<Message>)
    requires |script| > 1 && Continues(script[0])
    requires next == messages + RoundMessages(script[0].content, t, Kept(script[0].content, t))
    ensures Turn(script, messages, tools, t)
         == Run(RoundEvents(script[0].content, t) + TextsOf(script[1].content, true) + Turn(script[1..], next, tools, t).events,
                [Converse(next, tools)] + Turn(script[1..], next, tools, t).requests,
                Turn(script[1..], next, tools, t).complete)
  {
  }

  /** `process_query_stream(query)` against the scripted provider; with no answer
      at all, the provider raised on the first request. */
  function QueryRun(query: string, script: seq<ConverseResponse>, tools: seq<Json>, t: Tooling): ConverseRun {
    if script == [] then Run([], [Converse(InitialMessages(query), tools)], false)
    else Prepend([], [Converse(InitialMessages(query), tools)], Turn(script, InitialMessages(query), tools, t))
  }

  /** The content list every assistant message of one round refers to. */
  class BlockList {
    var blocks: seq<Block>

    constructor ()
      ensures blocks == []
    {
      blocks := [];
    }

    method Append(b: Block)
      modifies this
      ensures blocks == old(blocks) + [b]
    {
      blocks := blocks + [b];
    }
  }

  /** An entry of the `messages` list: a message of its own, or an assistant
      message whose content is a shared list. */
  datatype Entry = Fixed(message: Message) | Shared(list: BlockList)

  function SharedLists(h: seq<Entry>): set<BlockList> {
    set i | 0 <= i < |h| && h[i].Shared? :: h[i].list
  }

  /** The history as it reads now. */
  function Snapshot(h: seq<Entry>): (r: seq<Message>)
    reads SharedLists(h)
    ensures |r| == |h|
  {
    if h == [] then []
    else
      assert SharedLists(h[..|h| - 1]) <= SharedLists(h) by {
        forall l | l in SharedLists(h[..|h| - 1]) ensures l in SharedLists(h) {
          var i :| 0 <= i < |h| - 1 && h[..|h| - 1][i].Shared? && h[..|h| - 1][i].list == l;
          assert h[i].list == l;
        }
      }
      var e := h[|h| - 1];
      Snapshot(h[..|h| - 1]) + [if e.Shared? then Message(Assistant, e.list.blocks) else e.message]
  }

  /** The entries a round appends, referring to the round's list. */
  function RoundEntries(blocks: seq<Block>, t: Tooling, list: BlockList): seq<Entry> {
    if blocks == [] then []
    else
      var b := blocks[|blocks| - 1];
      RoundEntries(blocks[..|blocks| - 1], t, list)
      + (if b.ToolUseBlock?
         then [Shared(list), Fixed(Message(User, [ResultBlock(b.toolUseId, Attempt(t, b.name, b.input))]))]
         else [])
  }

  /** One more block of a response: what the earlier blocks yielded, kept and
      appended, followed by what this block does. */
  lemma ContentStep(blocks: seq<Block>, k: nat, t: Tooling, list: BlockList)
    requires k < |blocks|
    ensures RoundEvents(blocks[..k + 1], t) == RoundEvents(blocks[..k], t) + BlockEvents(blocks[k], t)
    ensures Kept(blocks[..k + 1], t) == Kept(blocks[..k], t)
      + (if blocks[k].TextBlock? || (blocks[k].ToolUseBlock? && Attempt(t, blocks[k].name, blocks[k].input).Success?)
         then [blocks[k]] else [])
    ensures RoundEntries(blocks[..k + 1], t, list) == RoundEntries(blocks[..k], t, list)
      + (if blocks[k].ToolUseBlock?
         then [Shared(list), Fixed(Message(User, [ResultBlock(blocks[k].toolUseId, Attempt(t, blocks[k].name, blocks[k].input))]))]
         else [])
    ensures HasToolUse(blocks[..k + 1]) <==> HasToolUse(blocks[..k]) || blocks[k].ToolUseBlock?
  {
    var prefix := blocks[..k + 1];
    assert prefix[..k] == blocks[..k];
    assert prefix[k] == blocks[k];
    if HasToolUse(prefix) && !blocks[k].ToolUseBlock? {
      var j :| 0 <= j < k + 1 && prefix[j].ToolUseBlock?;
      assert blocks[..k][j] == prefix[j];
    }
    if HasToolUse(blocks[..k]) {
      var j :| 0 <= j < k && blocks[..k][j].ToolUseBlock?;
      assert prefix[j] == blocks[..k][j];
    }
  }

  lemma {:induction false} RoundEntriesLists(blocks: seq<Block>, t: Tooling, list: BlockList)
    ensures SharedLists(RoundEntries(blocks, t, list)) <= {list}
    decreases |blocks|
  {
    if blocks != [] {
      var init := RoundEntries(blocks[..|blocks| - 1], t, list);
      RoundEntriesLists(blocks[..|blocks| - 1], t, list);
      var h := RoundEntries(blocks, t, list);
      forall l | l in SharedLists(h) ensures l == list {
        var i :| 0 <= i < |h| && h[i].Shared? && h[i].list == l;
        if i < |init| {
          assert init[i] == h[i];
          assert l in SharedLists(init);
        }
      }
    }
  }

  lemma {:induction false} SnapshotConcat(a: seq<Entry>, b: seq<Entry>)
    ensures SharedLists(a + b) == SharedLists(a) + SharedLists(b)
    ensures Snapshot(a + b) == Snapshot(a) + Snapshot(b)
    decreases |b|
  {
    var ab := a + b;
    forall l | l in SharedLists(ab) ensures l in SharedLists(a) + SharedLists(b) {
      var i :| 0 <= i < |ab| && ab[i].Shared? && ab[i].list == l;
      if i < |a| { assert a[i] == ab[i]; } else { assert b[i - |a|] == ab[i]; }
    }
    forall l | l in SharedLists(a) + SharedLists(b) ensures l in SharedLists(ab) {
      if l in SharedLists(a) {
        var i :| 0 <= i < |a| && a[i].Shared? && a[i].list == l;
        assert ab[i] == a[i];
      } else {
        var i :| 0 <= i < |b| && b[i].Shared? && b[i].list == l;
        assert ab[|a| + i] == b[i];
      }
    }
    if b != [] {
      assert ab[..|ab| - 1] == a + b[..|b| - 1];
      SnapshotConcat(a, b[..|b| - 1]);
    } else {
      assert ab == a;
    }
  }

  /** The entries of a round read as the round's messages with the list's
      current contents in every assistant message. */
  lemma {:induction false} SnapshotRound(blocks: seq<Block>, t: Tooling, list: BlockList)
    ensures Snapshot(RoundEntries(blocks, t, list)) == RoundMessages(blocks, t, list.blocks)
    decreases |blocks|
  {
    if blocks != [] {
      var b := blocks[|blocks| - 1];
      var init := RoundEntries(blocks[..|blocks| - 1], t, list);
      SnapshotRound(blocks[..|blocks| - 1], t, list);
      if b.ToolUseBlock? {
        var more := [Shared(list), Fixed(Message(User, [ResultBlock(b.toolUseId, Attempt(t, b.name, b.input))]))];
        SnapshotConcat(init, more);
        assert more[..1] == [Shared(list)];
        assert Snapshot(more) == [Message(Assistant, list.blocks), Message(User, [ResultBlock(b.toolUseId, Attempt(t, b.name, b.input))])];
      } else {
        assert RoundEntries(blocks, t, list) == init;
      }
    }
  }

  class AwsClient {
    const pool: ServerPool

    ghost predicate Valid()
      reads this, pool
    {
      pool.Valid()
    }

    constructor (serversConfig: Dicts.Dict<ServerConfigs.ConfigEntry>)
      requires serversConfig.Valid()
      ensures Valid() && fresh(pool)
      ensures pool.serverConfigs == serversConfig
      ensures pool.clients == Dicts.Empty() && pool.toolMapping == map[]
    {
      pool := new ServerPool(serversConfig);
    }

    /** The `for content in response[...]` loop of one round: streams the blocks,
        runs the tools, fills `shared` with the kept blocks and appends one pair of
        entries per tool-use block, both referring to `shared`. */
    method ProcessContent(blocks: seq<Block>, shared: BlockList, history: seq<Entry>, invoke: Invoker)
      returns (events: seq<Event>, entries: seq<Entry>, hasToolUse: bool)
      requires shared.blocks == []
      modifies shared
      ensures events == RoundEvents(blocks, Tooling(pool.toolMapping, pool.clients.entries, invoke))
      ensures shared.blocks == Kept(blocks, Tooling(pool.toolMapping, pool.clients.entries, invoke))
      ensures entries == history + RoundEntries(blocks, Tooling(pool.toolMapping, pool.clients.entries, invoke), shared)
      ensures hasToolUse == HasToolUse(blocks)
    {
      ghost var t := Tooling(pool.toolMapping, pool.clients.entries, invoke);
      events := [];
      entries := history;
      hasToolUse := false;
      var k := 0;
      while k < |blocks|
        invariant 0 <= k <= |blocks|
        invariant events == RoundEvents(blocks[..k], t)
        invariant shared.blocks == Kept(blocks[..k], t)
        invariant entries == history + RoundEntries(blocks[..k], t, shared)
        invariant hasToolUse == HasToolUse(blocks[..k])
      {
        ContentStep(blocks, k, t, shared);
        ghost var earlier := RoundEntries(blocks[..k], t, shared);
        var blockEvents, blockEntries, isToolUse := ProcessBlock(blocks[k], shared, invoke);
        assert t == Tooling(pool.toolMapping, pool.clients.entries, invoke);
        events := events + blockEvents;
        entries := entries + blockEntries;
        assert entries == history + (earlier + blockEntries);
        if isToolUse {
          hasToolUse := true;
        }
        k := k + 1;
      }
      assert blocks[..k] == blocks;
    }

    /** The body of that loop for one block: a text block is streamed and kept;
        a tool-use block is announced and its tool called, the block is kept when
        the call succeeds, and the pair of entries (the shared list, then the
        result or the error) is appended either way. */
    method ProcessBlock(content: Block, shared: BlockList, invoke: Invoker)
      returns (events: seq<Event>, entries: seq<Entry>, isToolUse: bool)
      modifies shared
      ensures events == BlockEvents(content, Tooling(pool.toolMapping, pool.clients.entries, invoke))
      ensures shared.blocks == old(shared.blocks)
        + (if content.TextBlock?
              || (content.ToolUseBlock? && Attempt(Tooling(pool.toolMapping, pool.clients.entries, invoke), content.name, content.input).Success?)
           then [content] else [])
      ensures entries == if content.ToolUseBlock?
        then [Shared(shared), Fixed(Message(User, [ResultBlock(content.toolUseId,
                Attempt(Tooling(pool.toolMapping, pool.clients.entries, invoke), content.name, content.input))]))]
        else []
      ensures isToolUse == content.ToolUseBlock?
    {
      events, entries, isToolUse := [], [], false;
      if content.TextBlock? {
        events := events + [Text(content.text, false)];
        shared.Append(content);
      } else if content.ToolUseBlock? {
        isToolUse := true;
        events := events + [ToolCall(content.name, content.input)];
        var result := pool.CallTool(content.name, content.input, invoke);
        if result.Success? {
          var resultText := ResultText(result.value);
          events := events + [ToolResult(content.name, resultText)];
          shared.Append(content);
          entries := entries + [Shared(shared),
                                Fixed(Message(User, [ToolResultBlock(content.toolUseId, resultText)]))];
        } else {
          var errorMsg := ErrorText(result.error);
          events := events + [Error(errorMsg)];
          entries := entries + [Shared(shared),
                                Fixed(Message(User, [ToolResultBlock(content.toolUseId, errorMsg)]))];
        }
      }
    }

    /** One pass of the `while True` body up to the stop test: a fresh content
        list for the round, then the blocks of `response`. The history read now
        is the old one followed by the round's messages, every assistant message
        among them holding the round's final content list. */
    method ProcessResponse(response: ConverseResponse, history: seq<Entry>, invoke: Invoker)
      returns (events: seq<Event>, entries: seq<Entry>, hasToolUse: bool)
      ensures events == RoundEvents(response.content, Tooling(pool.toolMapping, pool.clients.entries, invoke))
      ensures Snapshot(entries) == Snapshot(history)
              + RoundMessages(response.content, Tooling(pool.toolMapping, pool.clients.entries, invoke),
                              Kept(response.content, Tooling(pool.toolMapping, pool.clients.entries, invoke)))
      ensures hasToolUse == HasToolUse(response.content)
      ensures Snapshot(history) == old(Snapshot(history))
    {
      ghost var t := Tooling(pool.toolMapping, pool.clients.entries, invoke);
      var shared := new BlockList();
      assert shared !in SharedLists(history);
      events, entries, hasToolUse := ProcessContent(response.content, shared, history, invoke);
      SnapshotConcat(history, RoundEntries(response.content, t, shared));
      SnapshotRound(response.content, t, shared);
    }

    /** The `for content in ...` loop after the follow-up request: its text blocks,
        streamed as final. */
    static method FinalTexts(blocks: seq<Block>) returns (events: seq<Event>)
      ensures events == TextsOf(blocks, true)
    {
      events := [];
      var k := 0;
      while k < |blocks|
        invariant 0 <= k <= |blocks|
        invariant events == TextsOf(blocks[..k], true)
      {
        assert blocks[..k + 1][..k] == blocks[..k];
        if blocks[k].TextBlock? {
          events := events + [Text(blocks[k].text, true)];
        }
        k := k + 1;
      }
      assert blocks[..k] == blocks;
    }

    /** `process_query_stream`: lists the tools (updating the routing table), then
        runs the loop; the run is the one QueryRun describes. */
    method ProcessQueryStream(query: string, script: seq<ConverseResponse>, invoke: Invoker) returns (run: ConverseRun)
      requires Valid()
      modifies pool`toolMapping
      ensures Valid()
      ensures pool.toolMapping == Routes(old(pool.toolMapping), pool.clients.keys, pool.clients.entries)
      ensures run == QueryRun(query, script, CatalogOf(ToolSpecFormat, pool.clients.keys, pool.clients.entries),
                              Tooling(pool.toolMapping, pool.clients.entries, invoke))
    {
      var messages: seq<Entry> := [Fixed(Message(User, [TextBlock(query)]))];
      var tools := pool.ListAllTools(ToolSpecFormat);
      ghost var t := Tooling(pool.toolMapping, pool.clients.entries, invoke);
      ghost var whole := QueryRun(query, script, tools, t);
      assert Snapshot(messages) == InitialMessages(query);
      if script == [] {
        // the provider raises on the first request
        run := Run([], [Converse(Snapshot(messages), tools)], false);
        return;
      }
      var requests := [Converse(Snapshot(messages), tools)];
      var events: seq<Event> := [];
      var response := script[0];
      var i := 1;
      assert script[i - 1..] == script;
      while true
        invariant 1 <= i <= |script| && response == script[i - 1]
        invariant pool.Valid() && pool.toolMapping == t.mapping && pool.clients.entries == t.sessions
        invariant whole == Prepend(events, requests, Turn(script[i - 1..], Snapshot(messages), tools, t))
        decreases |script| - i
      {
        ghost var before := Snapshot(messages);
        ghost var startEvents, startRequests := events, requests;
        var roundEvents, entries, hasToolUse := ProcessResponse(response, messages, invoke);
        assert Snapshot(messages) == before;
        ghost var next := before + RoundMessages(response.content, t, Kept(response.content, t));
        assert Snapshot(entries) == next;
        events := events + roundEvents;
        messages := entries;
        if !hasToolUse || response.stopReason != "tool_use" {
          assert script[i - 1..][0] == response;
          TurnStops(script[i - 1..], before, tools, t);
          ConcatAssoc(startEvents, roundEvents, [Done]);
          assert requests + [] == requests;
          assert whole == Run(events + [Done], requests, true);
          break;
        }
        if i == |script| {
          // the provider raises on the follow-up request
          assert script[i - 1..] == [response];
          TurnCut(script[i - 1..], before, tools, t);
          requests := requests + [Converse(Snapshot(messages), tools)];
          run := Run(events, requests, false);
          return;
        }
        requests := requests + [Converse(Snapshot(messages), tools)];
        response := script[i];
        i := i + 1;
        label BeforeTexts:
        var texts := FinalTexts(response.content);
        assert unchanged@BeforeTexts(SharedLists(messages));
        assert Snapshot(messages) == next;
        events := events + texts;
        ghost var rest := Turn(script[i - 1..], next, tools, t);
        assert script[i - 2..][1..] == script[i - 1..] && script[i - 2..][1] == response;
        TurnContinues(script[i - 2..], before, tools, t, next);
        ConcatAssoc(startEvents, roundEvents, texts);
        PrependStep(startEvents, startRequests, roundEvents + texts, Converse(next, tools), rest);
      }
      events := events + [Done];
      run := Run(events, requests, true);
    }
  }
}
