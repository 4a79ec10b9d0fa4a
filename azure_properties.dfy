/** What every run of the Azure loop promises: the event stream is well formed,
    the history only grows, the loop requests and the final request carry their
    fixed options, the loop stops at the first answer without tool calls, and
    every assistant message is answered by the tool message for its call. The
    converse fails: a failed call leaves a tool message that no assistant
    message calls for. */
module AzureProperties {
  import opened Wrappers
  import opened Json
  import opened Events
  import opened Azure

  /** A round yields, for call k, the call at position 2k and its answer at 2k+1. */
  lemma {:induction false} RoundEventsAt(calls: seq<ToolCallRequest>, t: Tooling)
    ensures |RoundEvents(calls, t)| == 2 * |calls|
    ensures forall k :: 0 <= k < |calls| ==>
      && RoundEvents(calls, t)[2 * k] == ToolCall(calls[k].name, JString(calls[k].arguments))
      && RoundEvents(calls, t)[2 * k + 1]
         == (if Attempt(t, calls[k]).Success? then ToolResult(calls[k].name, Attempt(t, calls[k]).value)
             else Error(ErrorText(Attempt(t, calls[k]).error)))
    decreases |calls|
  {
    if calls != [] {
      var init := calls[..|calls| - 1];
      RoundEventsAt(init, t);
      forall k | 0 <= k < |init| ensures init[k] == calls[k] { }
    }
  }

  /** The events of a round are paired and hold no `done`. */
  lemma {:induction false} RoundPaired(calls: seq<ToolCallRequest>, t: Tooling)
    ensures Paired(RoundEvents(calls, t)) && Open(RoundEvents(calls, t))
    decreases |calls|
  {
    if calls != [] {
      var last := calls[|calls| - 1];
      var tail := CallEvents(last, Attempt(t, last));
      RoundPaired(calls[..|calls| - 1], t);
      CallPaired(tail[0], tail[1]);
      assert tail == [tail[0], tail[1]];
      PairedConcat(RoundEvents(calls[..|calls| - 1], t), tail);
      OpenConcat(RoundEvents(calls[..|calls| - 1], t), tail);
    }
  }

  /** The tail after the loop: paired, and ending with `done` exactly when complete. */
  lemma FinishWellFormed(model: string, rest: seq<ChatResponse>, messages: seq<ChatMessage>, tools: seq<Json>)
    ensures Paired(Finish(model, rest, messages, tools).events)
    ensures EndsOnce(Finish(model, rest, messages, tools).events, Finish(model, rest, messages, tools).complete)
    ensures |Finish(model, rest, messages, tools).events| <= 2
    ensures forall i :: 0 <= i < |Finish(model, rest, messages, tools).events| ==>
      Finish(model, rest, messages, tools).events[i].Done?
      || (Finish(model, rest, messages, tools).events[i].Text? && Finish(model, rest, messages, tools).events[i].final)
  {
    if rest != [] {
      var text := TextEvents(rest[0].content, true);
      TextOnly(text);
      assert PairedAt([Done], 0);
      PairedConcat(text, [Done]);
      assert EndsOnce([Done], true);
      EndsOnceAfterOpen(text, [Done], true);
    }
  }

  /** Every run of the loop yields a paired stream that ends with `done` once when
      it is complete and holds no `done` when the script ran out. */
  lemma {:induction false} LoopWellFormed(model: string, script: seq<ChatResponse>, messages: seq<ChatMessage>,
                                         tools: seq<Json>, t: Tooling)
    ensures Paired(Loop(model, script, messages, tools, t).events)
    ensures EndsOnce(Loop(model, script, messages, tools, t).events, Loop(model, script, messages, tools, t).complete)
    decreases |script|
  {
    if script != [] {
      var response := script[0];
      var text := TextEvents(response.content, false);
      TextOnly(text);
      if response.toolCalls == [] {
        var fin := Finish(model, script[1..], messages, tools);
        FinishWellFormed(model, script[1..], messages, tools);
        assert text + [] == text;
        PairedConcat(text, fin.events);
        EndsOnceAfterOpen(text, fin.events, fin.complete);
      } else {
        var round := RoundEvents(response.toolCalls, t);
        var rest := Loop(model, script[1..], messages + RoundMessages(response.content, response.toolCalls, t), tools, t);
        RoundPaired(response.toolCalls, t);
        LoopWellFormed(model, script[1..], messages + RoundMessages(response.content, response.toolCalls, t), tools, t);
        PairedConcat(text, round);
        PairedConcat(text + round, rest.events);
        OpenConcat(text, round);
        EndsOnceAfterOpen(text + round, rest.events, rest.complete);
      }
    }
  }

  /** `process_query_stream` pairs every tool call with one answer and ends with
      one `done` exactly when the provider answered the final request. */
  lemma QueryWellFormed(model: string, query: string, script: seq<ChatResponse>, tools: seq<Json>, t: Tooling)
    ensures Paired(QueryRun(model, query, script, tools, t).events)
    ensures EndsOnce(QueryRun(model, query, script, tools, t).events, QueryRun(model, query, script, tools, t).complete)
  {
    LoopWellFormed(model, script, InitialMessages(query), tools, t);
  }

  /** The position of the first response that asks for no tool, or |script|. */
  function FirstPlain(script: seq<ChatResponse>): (n: nat)
    ensures n <= |script|
    ensures forall k :: 0 <= k < n ==> script[k].toolCalls != []
    ensures n < |script| ==> script[n].toolCalls == []
    decreases |script|
  {
    if script == [] || script[0].toolCalls == [] then 0
    else
      var n := FirstPlain(script[1..]);
      assert forall k :: 1 <= k < n + 1 ==> script[k] == script[1..][k - 1];
      n + 1
  }

  /** The loop stops at the first answer without tool calls: the run is complete
      exactly when a response follows that one, and then it sent one request per
      response up to it plus the final request; a cut-off run used every response
      and sent one more request, the one the provider raised on. */
  lemma {:induction false} LoopStops(model: string, script: seq<ChatResponse>, messages: seq<ChatMessage>,
                                    tools: seq<Json>, t: Tooling)
    ensures Loop(model, script, messages, tools, t).complete <==> FirstPlain(script) + 1 < |script|
    ensures Loop(model, script, messages, tools, t).complete ==>
              |Loop(model, script, messages, tools, t).requests| == FirstPlain(script) + 2
    ensures !Loop(model, script, messages, tools, t).complete ==>
              |Loop(model, script, messages, tools, t).requests| == |script| + 1
    decreases |script|
  {
    if script != [] && script[0].toolCalls != [] {
      LoopStops(model, script[1..], messages + RoundMessages(script[0].content, script[0].toolCalls, t), tools, t);
    }
  }

  /** The options of a loop request: the `_send_request` defaults. */
  predicate LoopOptions(r: Request, model: string, tools: seq<Json>) {
    && r.model == model && r.tools == tools
    && r.toolChoice == "auto" && r.maxTokens == 1000 && r.temperature == 0.2 && r.responseFormat.None?
  }

  /** The options of the final request: no tools, a text response, 4096 tokens, temperature 1. */
  predicate FinalOptions(r: Request, model: string, tools: seq<Json>) {
    && r.model == model && r.tools == tools
    && r.toolChoice == "none" && r.maxTokens == 4096 && r.temperature == 1.0 && r.responseFormat == Some(TextFormat)
  }

  /** Every request but the last uses the loop options. When `final` holds the
      last one is the final request, carrying the same history as the loop
      request before it; otherwise it is a loop request too. */
  ghost predicate OptionRules(reqs: seq<Request>, final: bool, model: string, tools: seq<Json>) {
    && |reqs| >= 1
    && (forall k :: 0 <= k < |reqs| - 1 ==> LoopOptions(reqs[k], model, tools))
    && (final ==> && |reqs| >= 2
                  && FinalOptions(reqs[|reqs| - 1], model, tools)
                  && reqs[|reqs| - 1].messages == reqs[|reqs| - 2].messages)
    && (!final ==> LoopOptions(reqs[|reqs| - 1], model, tools))
  }

  /** The requests of the loop follow the option rules, the last one being the
      final request exactly when some response asked for no tool, whether or not
      the provider answered it. */
  lemma {:induction false} LoopRequestOptions(model: string, script: seq<ChatResponse>, messages: seq<ChatMessage>,
                                             tools: seq<Json>, t: Tooling)
    ensures OptionRules(Loop(model, script, messages, tools, t).requests, FirstPlain(script) < |script|, model, tools)
    decreases |script|
  {
    if script != [] && script[0].toolCalls != [] {
      var next := messages + RoundMessages(script[0].content, script[0].toolCalls, t);
      var rest := Loop(model, script[1..], next, tools, t);
      LoopRequestOptions(model, script[1..], next, tools, t);
      LoopToolRound(model, script, messages, tools, t);
      assert FirstPlain(script) < |script| <==> FirstPlain(script[1..]) < |script[1..]|;
      OptionsCons(model, tools, SendRequest(model, messages, tools), rest.requests, FirstPlain(script) < |script|);
    } else if script != [] {
      LoopLastRound(model, script, messages, tools, t);
      var r := Loop(model, script, messages, tools, t);
      assert r.requests == [SendRequest(model, messages, tools), FinalRequest(model, messages, tools)];
    } else {
      assert Loop(model, script, messages, tools, t).requests == [SendRequest(model, messages, tools)];
    }
  }

  /** A loop request in front of requests that follow the option rules. */
  lemma OptionsCons(model: string, tools: seq<Json>, first: Request, rest: seq<Request>, final: bool)
    requires LoopOptions(first, model, tools) && OptionRules(rest, final, model, tools)
    ensures OptionRules([first] + rest, final, model, tools)
  {
    var r := [first] + rest;
    forall k | 0 < k < |r| ensures r[k] == rest[k - 1] { }
  }

  /** Every request's history extends `messages`. */
  ghost predicate AllExtend(messages: seq<ChatMessage>, reqs: seq<Request>) {
    forall k :: 0 <= k < |reqs| ==> messages <= reqs[k].messages
  }

  /** Each request's history extends the history of the request before it. */
  ghost predicate Growing(reqs: seq<Request>) {
    forall k :: 0 < k < |reqs| ==> reqs[k - 1].messages <= reqs[k].messages
  }

  /** The history only grows: each request's messages extend the starting history
      and the messages of the request before it. */
  lemma {:induction false} LoopHistoryGrows(model: string, script: seq<ChatResponse>, messages: seq<ChatMessage>,
                                           tools: seq<Json>, t: Tooling)
    ensures AllExtend(messages, Loop(model, script, messages, tools, t).requests)
    ensures Growing(Loop(model, script, messages, tools, t).requests)
    decreases |script|
  {
    if script != [] && script[0].toolCalls != [] {
      var next := messages + RoundMessages(script[0].content, script[0].toolCalls, t);
      LoopToolRound(model, script, messages, tools, t);
      LoopHistoryGrows(model, script[1..], next, tools, t);
      GrowCons(messages, next, SendRequest(model, messages, tools), Loop(model, script[1..], next, tools, t).requests);
    } else if script != [] {
      LoopLastRound(model, script, messages, tools, t);
      var fin := Finish(model, script[1..], messages, tools).requests;
      assert fin == [FinalRequest(model, messages, tools)];
      GrowCons(messages, messages, SendRequest(model, messages, tools), fin);
    } else {
      assert Loop(model, script, messages, tools, t).requests == [SendRequest(model, messages, tools)];
    }
  }

  /** A request carrying `messages` in front of requests whose histories extend
      `next`, itself an extension of `messages`. */
  lemma GrowCons(messages: seq<ChatMessage>, next: seq<ChatMessage>, first: Request, rest: seq<Request>)
    requires first.messages == messages && messages <= next
    requires AllExtend(next, rest) && Growing(rest)
    ensures AllExtend(messages, [first] + rest) && Growing([first] + rest)
  {
    var r := [first] + rest;
    forall k | 0 <= k < |r| ensures messages <= r[k].messages {
      if k > 0 {
        assert r[k] == rest[k - 1];
        PrefixTrans(messages, next, rest[k - 1].messages);
      }
    }
    forall k | 0 < k < |r| ensures r[k - 1].messages <= r[k].messages {
      assert r[k] == rest[k - 1];
      if k == 1 {
        PrefixTrans(messages, next, rest[0].messages);
      } else {
        assert r[k - 1] == rest[k - 2];
      }
    }
  }

  /** Every request of a query starts with the system prompt and then the query. */
  lemma QueryHistoryStarts(model: string, query: string, script: seq<ChatResponse>, tools: seq<Json>, t: Tooling)
    ensures var r := QueryRun(model, query, script, tools, t).requests;
      forall k :: 0 <= k < |r| ==>
        |r[k].messages| >= 2 && r[k].messages[0] == SystemMessage(SystemPrompt) && r[k].messages[1] == UserMessage(query)
  {
    LoopHistoryGrows(model, script, InitialMessages(query), tools, t);
    var r := QueryRun(model, query, script, tools, t).requests;
    assert r == Loop(model, script, InitialMessages(query), tools, t).requests;
    forall k | 0 <= k < |r|
      ensures |r[k].messages| >= 2
      ensures r[k].messages[0] == SystemMessage(SystemPrompt)
      ensures r[k].messages[1] == UserMessage(query)
    {
      assert InitialMessages(query) <= r[k].messages;
    }
  }

  /** Each assistant message carries exactly one call, and the next message is the
      tool message answering that call. */
  ghost predicate AssistantAnswered(msgs: seq<ChatMessage>) {
    forall i :: 0 <= i < |msgs| && msgs[i].AssistantMessage? ==>
      && |msgs[i].toolCalls| == 1
      && i + 1 < |msgs| && msgs[i + 1].ToolMessage?
      && msgs[i + 1].toolCallId == msgs[i].toolCalls[0].id
  }

  lemma AnsweredConcat(a: seq<ChatMessage>, b: seq<ChatMessage>)
    requires AssistantAnswered(a) && AssistantAnswered(b)
    ensures AssistantAnswered(a + b)
  {
    var ab := a + b;
    forall i | 0 <= i < |ab| && ab[i].AssistantMessage?
      ensures |ab[i].toolCalls| == 1 && i + 1 < |ab| && ab[i + 1].ToolMessage? && ab[i + 1].toolCallId == ab[i].toolCalls[0].id
    {
      if i < |a| {
        assert a[i].AssistantMessage?;
        assert ab[i + 1] == a[i + 1];
      } else {
        assert b[i - |a|].AssistantMessage?;
        assert ab[i + 1] == b[i - |a| + 1];
      }
    }
  }

  /** The ids of the tool messages, in order. */
  function ToolIds(msgs: seq<ChatMessage>): seq<string> {
    if msgs == [] then []
    else ToolIds(msgs[..|msgs| - 1])
         + (if msgs[|msgs| - 1].ToolMessage? then [msgs[|msgs| - 1].toolCallId] else [])
  }

  function CallIds(calls: seq<ToolCallRequest>): seq<string> {
    if calls == [] then [] else CallIds(calls[..|calls| - 1]) + [calls[|calls| - 1].id]
  }

  lemma {:induction false} ToolIdsConcat(a: seq<ChatMessage>, b: seq<ChatMessage>)
    ensures ToolIds(a + b) == ToolIds(a) + ToolIds(b)
    decreases |b|
  {
    if b == [] {
      assert a + b == a;
    } else {
      assert (a + b)[..|a + b| - 1] == a + b[..|b| - 1];
      ToolIdsConcat(a, b[..|b| - 1]);
    }
  }

  /** A round appends one tool message per call, with the calls' ids in order,
      and every assistant message it appends is answered by the next message. */
  lemma {:induction false} RoundMessagesAnswer(content: Option<string>, calls: seq<ToolCallRequest>, t: Tooling)
    ensures ToolIds(RoundMessages(content, calls, t)) == CallIds(calls)
    ensures AssistantAnswered(RoundMessages(content, calls, t))
    decreases |calls|
  {
    if calls != [] {
      var last := calls[|calls| - 1];
      var init := RoundMessages(content, calls[..|calls| - 1], t);
      var tail := CallMessages(content, last, Attempt(t, last));
      assert RoundMessages(content, calls, t) == init + tail;
      assert CallIds(calls) == CallIds(calls[..|calls| - 1]) + [last.id];
      RoundMessagesAnswer(content, calls[..|calls| - 1], t);
      CallMessagesAnswer(content, last, Attempt(t, last));
      ToolIdsConcat(init, tail);
      AnsweredConcat(init, tail);
    }
  }

  /** One call appends exactly one tool message, answering that call, and the
      assistant message it may append is answered by it. */
  lemma CallMessagesAnswer(content: Option<string>, call: ToolCallRequest, outcome: Result<string, string>)
    ensures ToolIds(CallMessages(content, call, outcome)) == [call.id]
    ensures AssistantAnswered(CallMessages(content, call, outcome))
  {
    var msgs := CallMessages(content, call, outcome);
    if outcome.Success? {
      assert msgs[..1] == [AssistantMessage(content, [call])];
      assert msgs[..0] == [];
      assert ToolIds(msgs[..1]) == [];
    } else {
      assert msgs[..0] == [];
    }
  }

  /** Every assistant message a round appends holds one call of the round, alone,
      and that call succeeded. */
  lemma {:induction false} RoundAssistants(content: Option<string>, calls: seq<ToolCallRequest>, t: Tooling)
    ensures forall m :: 0 <= m < |RoundMessages(content, calls, t)| && RoundMessages(content, calls, t)[m].AssistantMessage? ==>
      exists i :: 0 <= i < |calls| && RoundMessages(content, calls, t)[m] == AssistantMessage(content, [calls[i]])
                  && Attempt(t, calls[i]).Success?
    decreases |calls|
  {
    if calls != [] {
      var n := |calls| - 1;
      var init := RoundMessages(content, calls[..n], t);
      var tail := CallMessages(content, calls[n], Attempt(t, calls[n]));
      var msgs := RoundMessages(content, calls, t);
      assert msgs == init + tail;
      RoundAssistants(content, calls[..n], t);
      forall m | 0 <= m < |msgs| && msgs[m].AssistantMessage?
        ensures exists i :: 0 <= i < |calls| && msgs[m] == AssistantMessage(content, [calls[i]]) && Attempt(t, calls[i]).Success?
      {
        if m < |init| {
          assert msgs[m] == init[m];
          var i :| 0 <= i < n && init[m] == AssistantMessage(content, [calls[..n][i]]) && Attempt(t, calls[..n][i]).Success?;
          assert calls[..n][i] == calls[i];
        } else {
          assert msgs[m] == tail[m - |init|];
          assert Attempt(t, calls[n]).Success? && msgs[m] == AssistantMessage(content, [calls[n]]);
        }
      }
    }
  }

  lemma {:induction false} CallIdsAt(calls: seq<ToolCallRequest>)
    ensures |CallIds(calls)| == |calls|
    ensures forall i :: 0 <= i < |calls| ==> CallIds(calls)[i] == calls[i].id
    decreases |calls|
  {
    if calls != [] {
      CallIdsAt(calls[..|calls| - 1]);
    }
  }

  /** A failed call leaves an orphan tool message: when the round's call ids are
      distinct, the round appends a tool message carrying the failed call's id,
      but no assistant message of the round carries a call with that id. */
  lemma FailedCallOrphan(content: Option<string>, calls: seq<ToolCallRequest>, t: Tooling, k: nat)
    requires k < |calls| && Attempt(t, calls[k]).Failure?
    requires forall i, j :: 0 <= i < j < |calls| ==> calls[i].id != calls[j].id
    ensures calls[k].id in ToolIds(RoundMessages(content, calls, t))
    ensures forall m, c ::
      (0 <= m < |RoundMessages(content, calls, t)| && RoundMessages(content, calls, t)[m].AssistantMessage?
       && c in RoundMessages(content, calls, t)[m].toolCalls) ==> c.id != calls[k].id
  {
    var msgs := RoundMessages(content, calls, t);
    RoundMessagesAnswer(content, calls, t);
    CallIdsAt(calls);
    assert CallIds(calls)[k] == calls[k].id;
    RoundAssistants(content, calls, t);
    forall m, c | 0 <= m < |msgs| && msgs[m].AssistantMessage? && c in msgs[m].toolCalls
      ensures c.id != calls[k].id
    {
      var i :| 0 <= i < |calls| && msgs[m] == AssistantMessage(content, [calls[i]]) && Attempt(t, calls[i]).Success?;
      assert c == calls[i] && i != k;
    }
  }

  /** The stream and the history report a call alike: the `tool_result` event
      carries the text of the tool message, and the `error` event the text of
      the tool message that records the failure. */
  lemma CallReportMatchesHistory(content: Option<string>, call: ToolCallRequest, t: Tooling)
    ensures Attempt(t, call).Success? ==>
      CallEvents(call, Attempt(t, call))[1] == ToolResult(call.name, CallMessages(content, call, Attempt(t, call))[1].text)
    ensures Attempt(t, call).Failure? ==>
      CallEvents(call, Attempt(t, call))[1] == Error(CallMessages(content, call, Attempt(t, call))[0].text)
  {
  }

  /** Every request carries a history whose assistant messages are answered. */
  ghost predicate AllAnswered(reqs: seq<Request>) {
    forall k :: 0 <= k < |reqs| ==> AssistantAnswered(reqs[k].messages)
  }

  lemma AllAnsweredCons(r: Request, rest: seq<Request>)
    requires AssistantAnswered(r.messages) && AllAnswered(rest)
    ensures AllAnswered([r] + rest)
  {
    forall k | 0 <= k < |[r] + rest| ensures AssistantAnswered(([r] + rest)[k].messages) {
      if k > 0 {
        assert ([r] + rest)[k] == rest[k - 1];
      }
    }
  }

  /** Starting from a history whose assistant messages are answered, every request
      the loop sends carries such a history. */
  lemma {:induction false} LoopHistoryAnswered(model: string, script: seq<ChatResponse>, messages: seq<ChatMessage>,
                                              tools: seq<Json>, t: Tooling)
    requires AssistantAnswered(messages)
    ensures AllAnswered(Loop(model, script, messages, tools, t).requests)
    decreases |script|
  {
    if script != [] && script[0].toolCalls != [] {
      var round := RoundMessages(script[0].content, script[0].toolCalls, t);
      RoundMessagesAnswer(script[0].content, script[0].toolCalls, t);
      AnsweredConcat(messages, round);
      LoopHistoryAnswered(model, script[1..], messages + round, tools, t);
      LoopToolRound(model, script, messages, tools, t);
      AllAnsweredCons(SendRequest(model, messages, tools), Loop(model, script[1..], messages + round, tools, t).requests);
    } else if script != [] {
      LoopLastRound(model, script, messages, tools, t);
      var fin := Finish(model, script[1..], messages, tools).requests;
      assert fin == [FinalRequest(model, messages, tools)];
      AllAnsweredCons(SendRequest(model, messages, tools), fin);
    } else {
      assert Loop(model, script, messages, tools, t).requests == [SendRequest(model, messages, tools)];
    }
  }

  /** Every request of a query carries a history in which each assistant message
      is answered by the tool message for its call. */
  lemma QueryHistoryAnswered(model: string, query: string, script: seq<ChatResponse>, tools: seq<Json>, t: Tooling)
    ensures AllAnswered(QueryRun(model, query, script, tools, t).requests)
  {
    assert AssistantAnswered(InitialMessages(query));
    LoopHistoryAnswered(model, script, InitialMessages(query), tools, t);
  }
}
