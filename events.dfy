/** The event stream both orchestrators yield from `process_query_stream`, and
    the two shape properties every stream has: each tool call is answered by
    exactly one result or error right after it, and `done` comes once, last. */
module Events {
  import opened Json

  datatype Event =
    | Text(content: string, final: bool)       // {"type": "text", "content", "final"}
    | ToolCall(name: string, args: Json)       // {"type": "tool_call", "name", "args"}
    | ToolResult(name: string, result: string) // {"type": "tool_result", "name", "result"}
    | Error(message: string)                   // {"type": "error", "message"}
    | Done                                     // {"type": "done"}

  predicate Answers(e: Event) {
    e.ToolResult? || e.Error?
  }

  /** The message both orchestrators report for a failed tool call. */
  function ErrorText(e: string): string {
    "도구 실행 중 오류: " + e
  }

  /** Every tool call is immediately followed by a result or an error, and every
      result or error immediately follows a tool call; so each call gets exactly one. */
  ghost predicate Paired(ev: seq<Event>) {
    forall i :: 0 <= i < |ev| ==> PairedAt(ev, i)
  }

  ghost predicate PairedAt(ev: seq<Event>, i: nat)
    requires i < |ev|
  {
    && (ev[i].ToolCall? ==> i + 1 < |ev| && Answers(ev[i + 1]))
    && (Answers(ev[i]) ==> 0 < i && ev[i - 1].ToolCall?)
  }

  /** A complete stream ends with `done`, and `done` occurs nowhere else;
      a cut-off stream holds no `done` at all. */
  ghost predicate EndsOnce(ev: seq<Event>, complete: bool) {
    && (complete ==> |ev| > 0 && ev[|ev| - 1].Done?)
    && (forall i :: 0 <= i < |ev| && ev[i].Done? ==> complete && i == |ev| - 1)
  }

  /** Streams without `done`. */
  ghost predicate Open(ev: seq<Event>) {
    forall i :: 0 <= i < |ev| ==> !ev[i].Done?
  }

  /** Paired streams concatenate into a paired stream: no call is left dangling at
      the end of the first, and no answer starts the second. */
  lemma PairedConcat(a: seq<Event>, b: seq<Event>)
    requires Paired(a) && Paired(b)
    ensures Paired(a + b)
  {
    var ab := a + b;
    forall i | 0 <= i < |ab| ensures PairedAt(ab, i) {
      if i < |a| {
        assert PairedAt(a, i);
      } else {
        assert PairedAt(b, i - |a|);
      }
    }
  }

  /** A tool call answered by one result or error is a paired stream. */
  lemma CallPaired(call: Event, answer: Event)
    requires call.ToolCall? && Answers(answer)
    ensures Paired([call, answer])
  {
    assert PairedAt([call, answer], 0) && PairedAt([call, answer], 1);
  }

  lemma OpenConcat(a: seq<Event>, b: seq<Event>)
    requires Open(a) && Open(b)
    ensures Open(a + b)
  {
    forall i | 0 <= i < |a + b| ensures !(a + b)[i].Done? {
      if i >= |a| { assert (a + b)[i] == b[i - |a|]; }
    }
  }

  /** An open stream followed by a tail that ends once ends once. */
  lemma EndsOnceAfterOpen(a: seq<Event>, b: seq<Event>, complete: bool)
    requires Open(a) && EndsOnce(b, complete)
    ensures EndsOnce(a + b, complete)
  {
    var ab := a + b;
    if complete {
      assert ab[|ab| - 1] == b[|b| - 1];
    }
    forall i | 0 <= i < |ab| && ab[i].Done? ensures complete && i == |ab| - 1 {
      if i >= |a| { assert ab[i] == b[i - |a|]; }
    }
  }

  /** The text events of a stream, in order. */
  function TextEventsIn(ev: seq<Event>): seq<Event> {
    if ev == [] then []
    else TextEventsIn(ev[..|ev| - 1]) + (if ev[|ev| - 1].Text? then [ev[|ev| - 1]] else [])
  }

  lemma {:induction false} TextEventsConcat(a: seq<Event>, b: seq<Event>)
    ensures TextEventsIn(a + b) == TextEventsIn(a) + TextEventsIn(b)
    decreases |b|
  {
    if b == [] {
      assert a + b == a;
    } else {
      assert (a + b)[..|a + b| - 1] == a + b[..|b| - 1];
      TextEventsConcat(a, b[..|b| - 1]);
    }
  }

  /** Streams of text alone are paired and hold no `done`. */
  lemma TextOnly(ev: seq<Event>)
    requires forall i :: 0 <= i < |ev| ==> ev[i].Text?
    ensures Paired(ev) && Open(ev)
  {
    forall i | 0 <= i < |ev| ensures PairedAt(ev, i) {
      assert ev[i].Text?;
    }
  }

  lemma PrefixTrans<T>(a: seq<T>, b: seq<T>, c: seq<T>)
    requires a <= b && b <= c
    ensures a <= c
  {
    assert c[..|a|] == b[..|a|];
  }

  /** What one query produced: the events yielded, the requests sent (request i
      answered by the response at position i of the provider's script; when the
      script runs out, the last request is the one the provider raised on), and
      whether the stream reached `done` before the script ran out. */
  datatype Run<R> = Run(events: seq<Event>, requests: seq<R>, complete: bool)

  /** The run whose events and requests start with those already produced. */
  function Prepend<R>(events: seq<Event>, requests: seq<R>, rest: Run<R>): Run<R> {
    Run(events + rest.events, requests + rest.requests, rest.complete)
  }

  lemma ConcatAssoc<T>(a: seq<T>, b: seq<T>, c: seq<T>)
    ensures a + b + c == a + (b + c)
  {
  }

  lemma PrependStep<R>(events: seq<Event>, requests: seq<R>, more: seq<Event>, request: R, rest: Run<R>)
    ensures Prepend(events, requests, Run(more + rest.events, [request] + rest.requests, rest.complete))
         == Prepend(events + more, requests + [request], rest)
  {
    assert events + (more + rest.events) == (events + more) + rest.events;
    assert requests + ([request] + rest.requests) == (requests + [request]) + rest.requests;
  }
}
