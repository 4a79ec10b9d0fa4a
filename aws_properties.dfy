/** What every run of the Bedrock loop promises: the event stream is well formed,
    the loop stops at the first response that does not continue it, the history
    only grows, the content list shared by a round's assistant messages holds
    exactly its text blocks and successful tool uses, and each tool result
    answers its tool use. */
module AwsProperties {
  import opened Wrappers
  import opened Json
  import opened Events
  import opened Aws

  lemma {:induction false} TextsOfText(blocks: seq<Block>, final: bool)
    ensures forall i :: 0 <= i < |TextsOf(blocks, final)| ==> TextsOf(blocks, final)[i].Text?
    decreases |blocks|
  {
    if blocks != [] {
      TextsOfText(blocks[..|blocks| - 1], final);
    }
  }

  /** The events of one response's blocks are paired and hold no `done`. */
  lemma {:induction false} RoundPaired(blocks: seq<Block>, t: Tooling)
    ensures Paired(RoundEvents(blocks, t)) && Open(RoundEvents(blocks, t))
    decreases |blocks|
  {
    if blocks != [] {
      var init := RoundEvents(blocks[..|blocks| - 1], t);
      var tail := BlockEvents(blocks[|blocks| - 1], t);
      RoundPaired(blocks[..|blocks| - 1], t);
      if blocks[|blocks| - 1].ToolUseBlock? {
        CallPaired(tail[0], tail[1]);
        assert tail == [tail[0], tail[1]];
      } else {
        TextOnly(tail);
      }
      PairedConcat(init, tail);
      OpenConcat(init, tail);
    }
  }

  /** Every turn yields a paired stream that ends with `done` once when it is
      complete and holds no `done` when the script ran out. */
  lemma {:induction false} TurnWellFormed(script: seq<ConverseResponse>, messages: seq<Message>, tools: seq<Json>, t: Tooling)
    requires script != []
    ensures Paired(Turn(script, messages, tools, t).events)
    ensures EndsOnce(Turn(script, messages, tools, t).events, Turn(script, messages, tools, t).complete)
    decreases |script|
  {
    var round := RoundEvents(script[0].content, t);
    RoundPaired(script[0].content, t);
    if !Continues(script[0]) {
      assert PairedAt([Done], 0);
      PairedConcat(round, [Done]);
      assert EndsOnce([Done], true);
      EndsOnceAfterOpen(round, [Done], true);
    } else if |script| == 1 {
      assert EndsOnce(round, false);
    } else {
      var next := messages + RoundMessages(script[0].content, t, Kept(script[0].content, t));
      var rest := Turn(script[1..], next, tools, t);
      var texts := TextsOf(script[1].content, true);
      TextsOfText(script[1].content, true);
      TextOnly(texts);
      TurnWellFormed(script[1..], next, tools, t);
      PairedConcat(round, texts);
      PairedConcat(round + texts, rest.events);
      OpenConcat(round, texts);
      EndsOnceAfterOpen(round + texts, rest.events, rest.complete);
    }
  }

  /** `process_query_stream` pairs every tool call with one answer and ends with
      one `done` exactly when the loop stopped by itself. */
  lemma QueryWellFormed(query: string, script: seq<ConverseResponse>, tools: seq<Json>, t: Tooling)
    ensures Paired(QueryRun(query, script, tools, t).events)
    ensures EndsOnce(QueryRun(query, script, tools, t).events, QueryRun(query, script, tools, t).complete)
  {
    if script != [] {
      var r := Turn(script, InitialMessages(query), tools, t);
      TurnWellFormed(script, InitialMessages(query), tools, t);
      assert [] + r.events == r.events;
    }
  }

  /** The position of the first response that does not continue the loop, or |script|. */
  function FirstStop(script: seq<ConverseResponse>): (n: nat)
    ensures n <= |script|
    ensures forall k :: 0 <= k < n ==> Continues(script[k])
    ensures n < |script| ==> !Continues(script[n])
    decreases |script|
  {
    if script == [] || !Continues(script[0]) then 0
    else
      var n := FirstStop(script[1..]);
      assert forall k :: 1 <= k < n + 1 ==> script[k] == script[1..][k - 1];
      n + 1
  }

  /** The loop stops at the first response without a tool use or whose stop reason
      is not `tool_use`: the run is complete exactly when that response exists,
      and then one request was sent per response up to it; a cut-off run used
      every response and sent one request more, the one the provider raised on. */
  lemma {:induction false} TurnStopsAt(script: seq<ConverseResponse>, messages: seq<Message>, tools: seq<Json>, t: Tooling)
    requires script != []
    ensures Turn(script, messages, tools, t).complete <==> FirstStop(script) < |script|
    ensures Turn(script, messages, tools, t).complete ==> |Turn(script, messages, tools, t).requests| == FirstStop(script)
    ensures !Turn(script, messages, tools, t).complete ==> |Turn(script, messages, tools, t).requests| == |script|
    decreases |script|
  {
    if Continues(script[0]) && |script| > 1 {
      var next := messages + RoundMessages(script[0].content, t, Kept(script[0].content, t));
      TurnStopsAt(script[1..], next, tools, t);
    }
  }

  /** For a query: complete exactly when some response stops the loop; the
      requests are the first one plus one per continuing response, and a cut-off
      query sent one request per response and the one the provider raised on. */
  lemma QueryStops(query: string, script: seq<ConverseResponse>, tools: seq<Json>, t: Tooling)
    ensures QueryRun(query, script, tools, t).complete <==> FirstStop(script) < |script|
    ensures QueryRun(query, script, tools, t).complete ==> |QueryRun(query, script, tools, t).requests| == FirstStop(script) + 1
    ensures !QueryRun(query, script, tools, t).complete ==> |QueryRun(query, script, tools, t).requests| == |script| + 1
  {
    if script != [] {
      TurnStopsAt(script, InitialMessages(query), tools, t);
    }
  }

  /** The text blocks of the answer to a follow-up request are streamed twice:
      first as final right after the request, then again, not final, when the loop
      processes that answer. */
  lemma FollowUpTextTwice(script: seq<ConverseResponse>, messages: seq<Message>, tools: seq<Json>, t: Tooling)
    requires |script| == 2 && Continues(script[0])
    requires forall i :: 0 <= i < |script[1].content| ==> script[1].content[i].TextBlock?
    ensures Turn(script, messages, tools, t).events
         == RoundEvents(script[0].content, t) + TextsOf(script[1].content, true)
            + TextsOf(script[1].content, false) + [Done]
  {
    RoundOfTexts(script[1].content, t);
    assert !Continues(script[1]);
    var next := messages + RoundMessages(script[0].content, t, Kept(script[0].content, t));
    assert script[1..] == [script[1]];
    assert Turn(script[1..], next, tools, t).events == RoundEvents(script[1].content, t) + [Done];
    ConcatAssoc(RoundEvents(script[0].content, t) + TextsOf(script[1].content, true), TextsOf(script[1].content, false), [Done]);
  }

  /** The text events a response yields, in order, are its text blocks, not final:
      tool uses yield no text, whatever their outcome. */
  lemma {:induction false} RoundTexts(blocks: seq<Block>, t: Tooling)
    ensures TextEventsIn(RoundEvents(blocks, t)) == TextsOf(blocks, false)
    decreases |blocks|
  {
    if blocks != [] {
      var b := blocks[|blocks| - 1];
      var tail := BlockEvents(b, t);
      RoundTexts(blocks[..|blocks| - 1], t);
      TextEventsConcat(RoundEvents(blocks[..|blocks| - 1], t), tail);
      if b.ToolUseBlock? {
        assert tail[..1][..0] == [] && tail[..1] == [tail[0]] && tail[..|tail| - 1] == tail[..1];
        assert TextEventsIn(tail[..1]) == [];
      } else if b.TextBlock? {
        assert tail[..0] == [];
      }
    }
  }

  /** A turn's events start with the events of the response it began with. */
  lemma TurnStartsWithRound(script: seq<ConverseResponse>, messages: seq<Message>, tools: seq<Json>, t: Tooling)
    requires script != []
    ensures RoundEvents(script[0].content, t) <= Turn(script, messages, tools, t).events
  {
    var round := RoundEvents(script[0].content, t);
    if !Continues(script[0]) {
      TurnStops(script, messages, tools, t);
      PrefixOfConcat(round, [Done]);
    } else if |script| == 1 {
      TurnCut(script, messages, tools, t);
    } else {
      var next := messages + RoundMessages(script[0].content, t, Kept(script[0].content, t));
      var texts := TextsOf(script[1].content, true);
      var rest := Turn(script[1..], next, tools, t).events;
      TurnContinues(script, messages, tools, t, next);
      ConcatAssoc(round, texts, rest);
      PrefixOfConcat(round, texts + rest);
    }
  }

  /** After any continuing response that gets an answer, that answer's text
      blocks are streamed as final and then, when the loop processes the answer,
      streamed again among its round's events, not final. */
  lemma FollowUpEchoed(script: seq<ConverseResponse>, messages: seq<Message>, tools: seq<Json>, t: Tooling)
    requires |script| >= 2 && Continues(script[0])
    ensures RoundEvents(script[0].content, t) + TextsOf(script[1].content, true) + RoundEvents(script[1].content, t)
            <= Turn(script, messages, tools, t).events
    ensures TextEventsIn(RoundEvents(script[1].content, t)) == TextsOf(script[1].content, false)
  {
    var next := messages + RoundMessages(script[0].content, t, Kept(script[0].content, t));
    var head := RoundEvents(script[0].content, t) + TextsOf(script[1].content, true);
    var rest := Turn(script[1..], next, tools, t).events;
    TurnContinues(script, messages, tools, t, next);
    assert Turn(script, messages, tools, t).events == head + rest;
    assert script[1..][0] == script[1];
    var round := RoundEvents(script[1].content, t);
    TurnStartsWithRound(script[1..], next, tools, t);
    PrefixExtend(head, round, rest);
    RoundTexts(script[1].content, t);
  }

  lemma PrefixOfConcat<T>(a: seq<T>, b: seq<T>)
    ensures a <= a + b
  {
    assert (a + b)[..|a|] == a;
  }

  lemma PrefixExtend<T>(head: seq<T>, a: seq<T>, b: seq<T>)
    requires a <= b
    ensures head + a <= head + b
  {
    assert (head + b)[..|head + a|] == head + b[..|a|];
  }

  /** A response of text blocks alone yields its texts, not final, and no tool use. */
  lemma {:induction false} RoundOfTexts(blocks: seq<Block>, t: Tooling)
    requires forall i :: 0 <= i < |blocks| ==> blocks[i].TextBlock?
    ensures RoundEvents(blocks, t) == TextsOf(blocks, false)
    ensures !HasToolUse(blocks)
    decreases |blocks|
  {
    if blocks != [] {
      RoundOfTexts(blocks[..|blocks| - 1], t);
    }
  }

  /** Whether the loop appends a block to the round's content list. */
  predicate Keeps(b: Block, t: Tooling) {
    b.TextBlock? || (b.ToolUseBlock? && Attempt(t, b.name, b.input).Success?)
  }

  /** The positions of the response's blocks that the content list keeps. */
  function KeptIndices(blocks: seq<Block>, t: Tooling): seq<nat> {
    if blocks == [] then []
    else KeptIndices(blocks[..|blocks| - 1], t) + (if Keeps(blocks[|blocks| - 1], t) then [|blocks| - 1] else [])
  }

  /** The content list is the response's kept blocks in their order, each once:
      entry j is the block at position idx[j], the positions strictly increase,
      and they are exactly the positions of the blocks the loop keeps. */
  lemma {:induction false} KeptOrder(blocks: seq<Block>, t: Tooling)
    ensures |KeptIndices(blocks, t)| == |Kept(blocks, t)|
    ensures forall j :: 0 <= j < |KeptIndices(blocks, t)| ==>
      KeptIndices(blocks, t)[j] < |blocks| && Kept(blocks, t)[j] == blocks[KeptIndices(blocks, t)[j]]
    ensures forall j1, j2 :: 0 <= j1 < j2 < |KeptIndices(blocks, t)| ==> KeptIndices(blocks, t)[j1] < KeptIndices(blocks, t)[j2]
    ensures forall i :: 0 <= i < |blocks| ==> (i in KeptIndices(blocks, t) <==> Keeps(blocks[i], t))
    decreases |blocks|
  {
    if blocks != [] {
      var n := |blocks| - 1;
      var init := blocks[..n];
      KeptOrder(init, t);
      var more := if Keeps(blocks[n], t) then [n] else [];
      var kmore := if Keeps(blocks[n], t) then [blocks[n]] else [];
      KeptIndexStep(init, blocks, KeptIndices(init, t), more, Kept(init, t), kmore, t);
    }
  }

  lemma KeptIndexStep(init: seq<Block>, blocks: seq<Block>, prev: seq<nat>, more: seq<nat>,
                      kept: seq<Block>, kmore: seq<Block>, t: Tooling)
    requires blocks != [] && init == blocks[..|blocks| - 1]
    requires more == (if Keeps(blocks[|blocks| - 1], t) then [|blocks| - 1] else [])
    requires kmore == (if Keeps(blocks[|blocks| - 1], t) then [blocks[|blocks| - 1]] else [])
    requires |prev| == |kept|
    requires forall j :: 0 <= j < |prev| ==> prev[j] < |init| && kept[j] == init[prev[j]]
    requires forall j1, j2 :: 0 <= j1 < j2 < |prev| ==> prev[j1] < prev[j2]
    requires forall i :: 0 <= i < |init| ==> (i in prev <==> Keeps(init[i], t))
    ensures |prev + more| == |kept + kmore|
    ensures forall j :: 0 <= j < |prev + more| ==> (prev + more)[j] < |blocks| && (kept + kmore)[j] == blocks[(prev + more)[j]]
    ensures forall j1, j2 :: 0 <= j1 < j2 < |prev + more| ==> (prev + more)[j1] < (prev + more)[j2]
    ensures forall i :: 0 <= i < |blocks| ==> (i in prev + more <==> Keeps(blocks[i], t))
  {
    var n := |blocks| - 1;
    var idx := prev + more;
    forall j | 0 <= j < |idx| ensures idx[j] < |blocks| && (kept + kmore)[j] == blocks[idx[j]] {
      if j < |prev| {
        assert idx[j] == prev[j] && (kept + kmore)[j] == kept[j];
        assert init[prev[j]] == blocks[prev[j]];
      }
    }
    forall i | 0 <= i < |blocks| ensures (i in idx <==> Keeps(blocks[i], t)) {
      if i < n {
        assert init[i] == blocks[i];
        assert i in idx <==> i in prev;
      } else {
        assert n !in prev;
      }
    }
  }

  /** The content list of a round: every kept block is a text block or a tool use
      whose call succeeded, and every such block of the response is kept, in the
      response's order and once per position (KeptOrder). */
  lemma {:induction false} KeptBlocks(blocks: seq<Block>, t: Tooling)
    ensures forall b :: b in Kept(blocks, t) ==>
      b in blocks && (b.TextBlock? || (b.ToolUseBlock? && Attempt(t, b.name, b.input).Success?))
    ensures forall i :: 0 <= i < |blocks| ==>
      ((blocks[i].TextBlock? || (blocks[i].ToolUseBlock? && Attempt(t, blocks[i].name, blocks[i].input).Success?))
       ==> blocks[i] in Kept(blocks, t))
    ensures |KeptIndices(blocks, t)| == |Kept(blocks, t)|
    ensures forall j :: 0 <= j < |KeptIndices(blocks, t)| ==>
      KeptIndices(blocks, t)[j] < |blocks| && Kept(blocks, t)[j] == blocks[KeptIndices(blocks, t)[j]]
    ensures forall j1, j2 :: 0 <= j1 < j2 < |KeptIndices(blocks, t)| ==> KeptIndices(blocks, t)[j1] < KeptIndices(blocks, t)[j2]
    ensures forall i :: 0 <= i < |blocks| ==> (i in KeptIndices(blocks, t) <==> Keeps(blocks[i], t))
    decreases |blocks|
  {
    KeptOrder(blocks, t);
    if blocks != [] {
      var init := blocks[..|blocks| - 1];
      KeptBlocks(init, t);
      forall b | b in Kept(init, t) ensures b in blocks {
        var j :| 0 <= j < |init| && init[j] == b;
        assert blocks[j] == b;
      }
      forall i | 0 <= i < |init| ensures blocks[i] == init[i] { }
    }
  }

  /** Messages alternate assistant, user, starting with an assistant message; every
      assistant message holds `kept`, and every user message holds one tool result. */
  ghost predicate RoundShaped(msgs: seq<Message>, kept: seq<Block>) {
    forall i :: 0 <= i < |msgs| ==>
      && (msgs[i].role == Assistant <==> i % 2 == 0)
      && (msgs[i].role == Assistant ==> msgs[i].content == kept)
      && (msgs[i].role == User ==> |msgs[i].content| == 1 && msgs[i].content[0].ToolResultBlock?)
  }

  lemma ShapedAppend(a: seq<Message>, b: seq<Message>, kept: seq<Block>, pairs: nat)
    requires |a| == 2 * pairs && RoundShaped(a, kept) && RoundShaped(b, kept)
    ensures RoundShaped(a + b, kept)
  {
    forall i | 0 <= i < |a + b|
      ensures ((a + b)[i].role == Assistant <==> i % 2 == 0)
      ensures (a + b)[i].role == Assistant ==> (a + b)[i].content == kept
      ensures (a + b)[i].role == User ==> |(a + b)[i].content| == 1 && (a + b)[i].content[0].ToolResultBlock?
    {
      if i < |a| {
        assert (a + b)[i] == a[i];
      } else {
        assert (a + b)[i] == b[i - |a|];
        assert i == (i - |a|) + 2 * pairs;
      }
    }
  }

  lemma PairShaped(kept: seq<Block>, id: string, outcome: Result<string, string>)
    ensures RoundShaped([Message(Assistant, kept), Message(User, [ResultBlock(id, outcome)])], kept)
  {
    var pair := [Message(Assistant, kept), Message(User, [ResultBlock(id, outcome)])];
    assert 0 % 2 == 0 && 1 % 2 == 1;
    forall i | 0 <= i < 2 ensures pair[i] == if i == 0 then Message(Assistant, kept) else Message(User, [ResultBlock(id, outcome)]) { }
  }

  /** A round appends two messages per tool-use block; every assistant message among
      them holds the same content list, and every user message answers a tool use. */
  lemma {:induction false} RoundMessagesShape(blocks: seq<Block>, t: Tooling, kept: seq<Block>)
    ensures forall i :: 0 <= i < |RoundMessages(blocks, t, kept)| ==>
      (RoundMessages(blocks, t, kept)[i].role == Assistant <==> i % 2 == 0)
    ensures forall i :: 0 <= i < |RoundMessages(blocks, t, kept)| && RoundMessages(blocks, t, kept)[i].role == Assistant ==>
      RoundMessages(blocks, t, kept)[i].content == kept
    ensures forall i :: 0 <= i < |RoundMessages(blocks, t, kept)| && RoundMessages(blocks, t, kept)[i].role == User ==>
      |RoundMessages(blocks, t, kept)[i].content| == 1 && RoundMessages(blocks, t, kept)[i].content[0].ToolResultBlock?
  {
    RoundShapedInduct(blocks, t, kept);
  }

  lemma {:induction false} RoundShapedInduct(blocks: seq<Block>, t: Tooling, kept: seq<Block>)
    ensures RoundShaped(RoundMessages(blocks, t, kept), kept)
    decreases |blocks|
  {
    if blocks != [] {
      var b := blocks[|blocks| - 1];
      var init := RoundMessages(blocks[..|blocks| - 1], t, kept);
      var tail := if b.ToolUseBlock?
        then [Message(Assistant, kept), Message(User, [ResultBlock(b.toolUseId, Attempt(t, b.name, b.input))])]
        else [];
      assert RoundMessages(blocks, t, kept) == init + tail;
      RoundShapedInduct(blocks[..|blocks| - 1], t, kept);
      RoundMessagesEven(blocks[..|blocks| - 1], t, kept);
      if b.ToolUseBlock? {
        PairShaped(kept, b.toolUseId, Attempt(t, b.name, b.input));
      }
      ShapedAppend(init, tail, kept, |ToolUseIds(blocks[..|blocks| - 1])|);
    }
  }

  /** Two messages per tool use, successful or not. */
  lemma {:induction false} RoundMessagesEven(blocks: seq<Block>, t: Tooling, kept: seq<Block>)
    ensures |RoundMessages(blocks, t, kept)| == 2 * |ToolUseIds(blocks)|
    decreases |blocks|
  {
    if blocks != [] {
      RoundMessagesEven(blocks[..|blocks| - 1], t, kept);
    }
  }

  /** The ids of the tool uses of a response, in order. */
  function ToolUseIds(blocks: seq<Block>): seq<string> {
    if blocks == [] then []
    else ToolUseIds(blocks[..|blocks| - 1])
         + (if blocks[|blocks| - 1].ToolUseBlock? then [blocks[|blocks| - 1].toolUseId] else [])
  }

  /** The ids the tool result blocks of some messages answer, in order. */
  function ResultIds(msgs: seq<Message>): seq<string> {
    if msgs == [] then []
    else
      var m := msgs[|msgs| - 1];
      ResultIds(msgs[..|msgs| - 1])
      + (if m.role == User && |m.content| == 1 && m.content[0].ToolResultBlock? then [m.content[0].toolUseId] else [])
  }

  lemma {:induction false} ResultIdsConcat(a: seq<Message>, b: seq<Message>)
    ensures ResultIds(a + b) == ResultIds(a) + ResultIds(b)
    decreases |b|
  {
    if b == [] {
      assert a + b == a;
    } else {
      assert (a + b)[..|a + b| - 1] == a + b[..|b| - 1];
      ResultIdsConcat(a, b[..|b| - 1]);
    }
  }

  /** A round answers the tool uses of the response one by one, in order,
      whether the call succeeded or failed. */
  lemma {:induction false} RoundAnswersEveryToolUse(blocks: seq<Block>, t: Tooling, kept: seq<Block>)
    ensures ResultIds(RoundMessages(blocks, t, kept)) == ToolUseIds(blocks)
    decreases |blocks|
  {
    if blocks != [] {
      var b := blocks[|blocks| - 1];
      var init := RoundMessages(blocks[..|blocks| - 1], t, kept);
      RoundAnswersEveryToolUse(blocks[..|blocks| - 1], t, kept);
      if b.ToolUseBlock? {
        var more := [Message(Assistant, kept), Message(User, [ResultBlock(b.toolUseId, Attempt(t, b.name, b.input))])];
        assert RoundMessages(blocks, t, kept) == init + more;
        assert ToolUseIds(blocks) == ToolUseIds(blocks[..|blocks| - 1]) + [b.toolUseId];
        ResultIdsConcat(init, more);
        PairAnswers(kept, b.toolUseId, Attempt(t, b.name, b.input));
      } else {
        assert RoundMessages(blocks, t, kept) == init + [] == init;
        assert ToolUseIds(blocks) == ToolUseIds(blocks[..|blocks| - 1]) + [] == ToolUseIds(blocks[..|blocks| - 1]);
      }
    }
  }

  lemma PairAnswers(kept: seq<Block>, id: string, outcome: Result<string, string>)
    ensures ResultIds([Message(Assistant, kept), Message(User, [ResultBlock(id, outcome)])]) == [id]
  {
    var pair := [Message(Assistant, kept), Message(User, [ResultBlock(id, outcome)])];
    assert pair[..1] == [Message(Assistant, kept)];
    assert pair[..1][..0] == [];
    assert ResultIds(pair[..1]) == ResultIds([]) + [] == [];
    assert ResultIds(pair) == ResultIds(pair[..1]) + [id];
  }

  /** The stream and the history report a tool use alike: the `tool_result` or
      `error` event carries the text of the tool result block that answers it. */
  lemma BlockReportMatchesHistory(b: Block, t: Tooling)
    requires b.ToolUseBlock?
    ensures BlockEvents(b, t)[1]
         == if Attempt(t, b.name, b.input).Success? then ToolResult(b.name, ResultBlock(b.toolUseId, Attempt(t, b.name, b.input)).result)
            else Error(ResultBlock(b.toolUseId, Attempt(t, b.name, b.input)).result)
  {
  }

  lemma {:induction false} ToolUseIdsHas(blocks: seq<Block>, k: nat)
    requires k < |blocks| && blocks[k].ToolUseBlock?
    ensures blocks[k].toolUseId in ToolUseIds(blocks)
    decreases |blocks|
  {
    if k < |blocks| - 1 {
      ToolUseIdsHas(blocks[..|blocks| - 1], k);
    }
  }

  /** A failed tool use leaves an orphan tool result: when the response's tool-use
      ids are distinct, the round answers the failed tool use's id, but no tool
      use in the shared content list carries that id. */
  lemma FailedToolUseOrphan(blocks: seq<Block>, t: Tooling, k: nat)
    requires k < |blocks| && blocks[k].ToolUseBlock? && Attempt(t, blocks[k].name, blocks[k].input).Failure?
    requires forall i, j :: 0 <= i < j < |blocks| && blocks[i].ToolUseBlock? && blocks[j].ToolUseBlock? ==>
      blocks[i].toolUseId != blocks[j].toolUseId
    ensures blocks[k].toolUseId in ResultIds(RoundMessages(blocks, t, Kept(blocks, t)))
    ensures forall b :: b in Kept(blocks, t) && b.ToolUseBlock? ==> b.toolUseId != blocks[k].toolUseId
  {
    RoundAnswersEveryToolUse(blocks, t, Kept(blocks, t));
    ToolUseIdsHas(blocks, k);
    KeptOrder(blocks, t);
    var idx := KeptIndices(blocks, t);
    forall b | b in Kept(blocks, t) && b.ToolUseBlock? ensures b.toolUseId != blocks[k].toolUseId {
      var j :| 0 <= j < |Kept(blocks, t)| && Kept(blocks, t)[j] == b;
      var i := idx[j];
      assert b == blocks[i] && i in idx;
      assert Keeps(blocks[i], t) && !Keeps(blocks[k], t);
    }
  }

  /** The history only grows: every request of a turn extends the history the
      turn started from, and the one before it. */
  ghost predicate AllExtend(messages: seq<Message>, reqs: seq<ConverseRequest>) {
    forall k :: 0 <= k < |reqs| ==> messages <= reqs[k].messages
  }

  ghost predicate Growing(reqs: seq<ConverseRequest>) {
    forall k :: 0 < k < |reqs| ==> reqs[k - 1].messages <= reqs[k].messages
  }

  lemma {:induction false} TurnHistoryGrows(script: seq<ConverseResponse>, messages: seq<Message>, tools: seq<Json>, t: Tooling)
    requires script != []
    ensures AllExtend(messages, Turn(script, messages, tools, t).requests)
    ensures Growing(Turn(script, messages, tools, t).requests)
    ensures forall k :: 0 <= k < |Turn(script, messages, tools, t).requests| ==>
      Turn(script, messages, tools, t).requests[k] == Converse(Turn(script, messages, tools, t).requests[k].messages, tools)
    decreases |script|
  {
    if Continues(script[0]) {
      var next := messages + RoundMessages(script[0].content, t, Kept(script[0].content, t));
      if |script| > 1 {
        TurnContinues(script, messages, tools, t, next);
        TurnHistoryGrows(script[1..], next, tools, t);
        GrowCons(messages, next, tools, Turn(script[1..], next, tools, t).requests);
      } else {
        TurnCut(script, messages, tools, t);
        GrowCons(messages, next, tools, []);
        assert [Converse(next, tools)] + [] == [Converse(next, tools)];
      }
    }
  }

  /** The request carrying `next`, an extension of `messages`, in front of requests
      whose histories extend `next` and grow. */
  lemma GrowCons(messages: seq<Message>, next: seq<Message>, tools: seq<Json>, rest: seq<ConverseRequest>)
    requires messages <= next && AllExtend(next, rest) && Growing(rest)
    requires forall k :: 0 <= k < |rest| ==> rest[k] == Converse(rest[k].messages, tools)
    ensures AllExtend(messages, [Converse(next, tools)] + rest)
    ensures Growing([Converse(next, tools)] + rest)
    ensures forall k :: 0 <= k < |[Converse(next, tools)] + rest| ==>
      ([Converse(next, tools)] + rest)[k] == Converse(([Converse(next, tools)] + rest)[k].messages, tools)
  {
    var r := [Converse(next, tools)] + rest;
    forall k | 0 <= k < |r| ensures messages <= r[k].messages && r[k] == Converse(r[k].messages, tools) {
      if k > 0 {
        assert r[k] == rest[k - 1];
        PrefixTrans(messages, next, rest[k - 1].messages);
      }
    }
    forall k | 0 < k < |r| ensures r[k - 1].messages <= r[k].messages {
      assert r[k] == rest[k - 1];
      if k > 1 {
        assert r[k - 1] == rest[k - 2];
      }
    }
  }

  /** Every request of a query carries the model, the system prompt and the tool
      list, and a history that starts with the query and extends the history of
      the request before it. */
  lemma QueryHistory(query: string, script: seq<ConverseResponse>, tools: seq<Json>, t: Tooling)
    ensures var r := QueryRun(query, script, tools, t).requests;
      forall k :: 0 <= k < |r| ==>
        && r[k].modelId == ModelId && r[k].system == SystemPrompt && r[k].tools == tools
        && |r[k].messages| >= 1 && r[k].messages[0] == Message(User, [TextBlock(query)])
    ensures Growing(QueryRun(query, script, tools, t).requests)
  {
    if script == [] {
      assert QueryRun(query, script, tools, t).requests == [Converse(InitialMessages(query), tools)];
    } else {
      var init := InitialMessages(query);
      var rest := Turn(script, init, tools, t).requests;
      TurnHistoryGrows(script, init, tools, t);
      var r := QueryRun(query, script, tools, t).requests;
      assert r == [Converse(init, tools)] + rest;
      forall k | 0 <= k < |r|
        ensures r[k].modelId == ModelId && r[k].system == SystemPrompt && r[k].tools == tools
        ensures |r[k].messages| >= 1 && r[k].messages[0] == Message(User, [TextBlock(query)])
      {
        if k > 0 {
          assert r[k] == rest[k - 1];
          assert init <= rest[k - 1].messages;
        }
      }
      forall k | 0 < k < |r| ensures r[k - 1].messages <= r[k].messages {
        assert r[k] == rest[k - 1];
        if k == 1 {
          assert init <= rest[0].messages;
        } else {
          assert r[k - 1] == rest[k - 2];
        }
      }
    }
  }
}
