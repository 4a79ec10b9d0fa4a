/** `handleSendMessage` of web-client/src/App.tsx: a prompt is posted to the
    backend and the streamed chunks are folded into one growing assistant
    message at the end of the conversation. */
module WebClient {

  /** `Message` of web-client/src/types/index.ts. */
  datatype MessageType = UserType | AssistantType
  datatype Message = Message(kind: MessageType, content: string)

  /** One decoded chunk of the response body, as `JSON.parse` and the `type`
      tests see it; `Unparsable` is a chunk `JSON.parse` rejects. */
  datatype Chunk =
    | ToolStart(tool: string)
    | ToolResultChunk(result: string)
    | AssistantChunk(content: string)
    | OtherChunk
    | Unparsable

  /** What the reader delivers: its chunks in order, and whether the exchange
      ends by throwing (an HTTP error status or an unreadable body before any
      chunk, or a failing read after the chunks). */
  datatype Stream = Stream(chunks: seq<Chunk>, broken: bool)

  const Apology: string := "죄송합니다. 요청을 처리하는 중에 오류가 발생했습니다."

  /** The characters `String.prototype.trim` removes: the ECMAScript white space
      and line terminators. */
  predicate IsWhitespace(c: char) {
    || c == ' ' || c == '\t' || c == '\n' || c == '\r' || c == '\U{000B}' || c == '\U{000C}'
    || c == '\U{00A0}' || c == '\U{1680}' || ('\U{2000}' <= c <= '\U{200A}')
    || c == '\U{2028}' || c == '\U{2029}' || c == '\U{202F}' || c == '\U{205F}'
    || c == '\U{3000}' || c == '\U{FEFF}'
  }

  /** `!content.trim()`. */
  predicate IsBlank(content: string) {
    forall i :: 0 <= i < |content| ==> IsWhitespace(content[i])
  }

  /** The labels the chunk handler writes before a tool name and a tool result. */
  const ToolHeading: string := "\n실행 도구: "
  const ResultHeading: string := "도구실행결과: "

  /** What one chunk appends to `currentMessage`. */
  function Delta(c: Chunk): string {
    match c
    case ToolStart(tool) => ToolHeading + tool + "\n"
    case ToolResultChunk(result) => ResultHeading + result + "\n"
    case AssistantChunk(content) => content
    case _ => ""
  }

  /** `currentMessage` after `chunks`. */
  function Accumulated(chunks: seq<Chunk>): string {
    if chunks == [] then "" else Accumulated(chunks[..|chunks| - 1]) + Delta(chunks[|chunks| - 1])
  }

  /** How many chunks parsed (each one triggers a `setMessages` update). */
  function Parsed(chunks: seq<Chunk>): nat {
    if chunks == [] then 0 else Parsed(chunks[..|chunks| - 1]) + (if chunks[|chunks| - 1].Unparsable? then 0 else 1)
  }

  predicate EndsWithAssistant(msgs: seq<Message>) {
    |msgs| > 0 && msgs[|msgs| - 1].kind == AssistantType
  }

  /** The `setMessages` updater after a parsed chunk: the last message, when it
      is an assistant message, takes `text` as its content; otherwise an
      assistant message holding `text` is appended. */
  function Upsert(msgs: seq<Message>, text: string): seq<Message> {
    if EndsWithAssistant(msgs) then msgs[..|msgs| - 1] + [Message(AssistantType, text)]
    else msgs + [Message(AssistantType, text)]
  }

  /** The messages after the chunks of the read loop, one update per parsed chunk. */
  function Fold(msgs: seq<Message>, chunks: seq<Chunk>): seq<Message> {
    if chunks == [] then msgs
    else if chunks[|chunks| - 1].Unparsable? then Fold(msgs, chunks[..|chunks| - 1])
    else Upsert(Fold(msgs, chunks[..|chunks| - 1]), Accumulated(chunks))
  }

  /** The conversation after a send that passed the guard. */
  function Outcome(msgs: seq<Message>, content: string, stream: Stream): seq<Message> {
    var folded := Fold(msgs + [Message(UserType, content)], stream.chunks);
    if stream.broken then folded + [Message(AssistantType, Apology)] else folded
  }

  /** An update keeps every earlier message, and either replaces the trailing
      assistant message (same length) or appends one. */
  lemma UpsertShape(msgs: seq<Message>, text: string)
    ensures EndsWithAssistant(msgs) ==>
      && |Upsert(msgs, text)| == |msgs|
      && Upsert(msgs, text)[..|msgs| - 1] == msgs[..|msgs| - 1]
    ensures !EndsWithAssistant(msgs) ==> |Upsert(msgs, text)| == |msgs| + 1 && Upsert(msgs, text)[..|msgs|] == msgs
    ensures EndsWithAssistant(Upsert(msgs, text)) && Upsert(msgs, text)[|Upsert(msgs, text)| - 1].content == text
  {
    var r := Upsert(msgs, text);
    if EndsWithAssistant(msgs) {
      assert r[..|msgs| - 1] == msgs[..|msgs| - 1];
    } else {
      assert r[..|msgs|] == msgs;
    }
  }

  /** A second update overrides the first. */
  lemma UpsertTwice(msgs: seq<Message>, a: string, b: string)
    ensures Upsert(Upsert(msgs, a), b) == Upsert(msgs, b)
  {
    var once := Upsert(msgs, a);
    assert EndsWithAssistant(once);
    if EndsWithAssistant(msgs) {
      assert once[..|once| - 1] == msgs[..|msgs| - 1];
    } else {
      assert once[..|once| - 1] == msgs;
    }
  }

  /** However many chunks arrive, the conversation ends up updated once with
      the whole accumulated text, or untouched when no chunk parsed. */
  lemma {:induction false} FoldCollapses(msgs: seq<Message>, chunks: seq<Chunk>)
    ensures Parsed(chunks) == 0 ==> Fold(msgs, chunks) == msgs
    ensures Parsed(chunks) > 0 ==> Fold(msgs, chunks) == Upsert(msgs, Accumulated(chunks))
    decreases |chunks|
  {
    if chunks != [] {
      var init := chunks[..|chunks| - 1];
      var last := chunks[|chunks| - 1];
      FoldCollapses(msgs, init);
      if last.Unparsable? {
        assert Accumulated(chunks) == Accumulated(init) + "" == Accumulated(init);
        assert Parsed(chunks) == Parsed(init);
      } else if Parsed(init) > 0 {
        UpsertTwice(msgs, Accumulated(init), Accumulated(chunks));
      }
    }
  }

  /** `currentMessage` only grows: the text after a prefix of the chunks is a
      prefix of the text after all of them. */
  lemma {:induction false} AccumulatedGrows(chunks: seq<Chunk>, i: nat)
    requires i <= |chunks|
    ensures Accumulated(chunks[..i]) <= Accumulated(chunks)
    decreases |chunks| - i
  {
    if i < |chunks| {
      var init := chunks[..|chunks| - 1];
      assert chunks[..i] == init[..i];
      AccumulatedGrows(init, i);
      assert chunks[..|chunks|] == chunks;
    } else {
      assert chunks[..i] == chunks;
    }
  }

  /** What the conversation looks like after a send that passed the guard: the
      prompt, then one assistant message with everything the chunks added if
      any chunk parsed, then the apology if the exchange threw. */
  lemma SendShape(msgs: seq<Message>, content: string, stream: Stream)
    ensures Outcome(msgs, content, stream)
         == msgs + [Message(UserType, content)]
            + (if Parsed(stream.chunks) > 0 then [Message(AssistantType, Accumulated(stream.chunks))] else [])
            + (if stream.broken then [Message(AssistantType, Apology)] else [])
  {
    var base := msgs + [Message(UserType, content)];
    FoldCollapses(base, stream.chunks);
    assert !EndsWithAssistant(base);
  }

  /** A chunk that does not parse changes nothing. */
  lemma UnparsableIgnored(msgs: seq<Message>, chunks: seq<Chunk>)
    ensures Accumulated(chunks + [Unparsable]) == Accumulated(chunks)
    ensures Fold(msgs, chunks + [Unparsable]) == Fold(msgs, chunks)
  {
    assert (chunks + [Unparsable])[..|chunks|] == chunks;
  }

  /** One more chunk: its delta is appended, and a parsed chunk triggers one update. */
  lemma FoldStep(msgs: seq<Message>, chunks: seq<Chunk>, i: nat)
    requires i < |chunks|
    ensures Accumulated(chunks[..i + 1]) == Accumulated(chunks[..i]) + Delta(chunks[i])
    ensures Fold(msgs, chunks[..i + 1])
         == if chunks[i].Unparsable? then Fold(msgs, chunks[..i])
            else Upsert(Fold(msgs, chunks[..i]), Accumulated(chunks[..i + 1]))
  {
    assert chunks[..i + 1][..i] == chunks[..i];
  }

  /** The body of the read loop for one chunk: a chunk that parses adds its text to
      `currentMessage` and then updates the conversation; one that does not is skipped. */
  method HandleChunk(chunk: Chunk, currentMessage: string, messages: seq<Message>)
    returns (text: string, msgs: seq<Message>)
    ensures text == currentMessage + Delta(chunk)
    ensures msgs == if chunk.Unparsable? then messages else Upsert(messages, text)
  {
    text, msgs := currentMessage, messages;
    if !chunk.Unparsable? {
      match chunk {
        case ToolStart(tool) =>
          text := text + (ToolHeading + tool + "\n");
        case ToolResultChunk(result) =>
          text := text + (ResultHeading + result + "\n");
        case AssistantChunk(content) =>
          text := text + content;
        case OtherChunk =>
      }
      if |msgs| > 0 && msgs[|msgs| - 1].kind == AssistantType {
        msgs := msgs[..|msgs| - 1] + [Message(AssistantType, text)];
      } else {
        msgs := msgs + [Message(AssistantType, text)];
      }
    } else {
      assert text == currentMessage + "";
    }
  }

  /** The component state: the conversation and the `isProcessing` flag. */
  class ChatApp {
    var messages: seq<Message>
    var isProcessing: bool

    constructor ()
      ensures messages == [] && !isProcessing
    {
      messages := [];
      isProcessing := false;
    }

    /** `handleSendMessage(content)` against the delivered `stream`. */
    method HandleSendMessage(content: string, stream: Stream)
      modifies this
      ensures IsBlank(content) || old(isProcessing) ==>
        messages == old(messages) && isProcessing == old(isProcessing)
      ensures !IsBlank(content) && !old(isProcessing) ==>
        messages == Outcome(old(messages), content, stream) && !isProcessing
    {
      if IsBlank(content) || isProcessing {
        return;
      }
      isProcessing := true;
      messages := messages + [Message(UserType, content)];
      ghost var base := messages;
      var chunks := stream.chunks;
      var currentMessage := "";
      var i := 0;
      while i < |chunks|
        invariant 0 <= i <= |chunks|
        invariant currentMessage == Accumulated(chunks[..i])
        invariant messages == Fold(base, chunks[..i])
      {
        FoldStep(base, chunks, i);
        currentMessage, messages := HandleChunk(chunks[i], currentMessage, messages);
        i := i + 1;
      }
      assert chunks[..i] == chunks;
      if stream.broken {
        messages := messages + [Message(AssistantType, Apology)];
      }
      isProcessing := false;
    }
  }
}
