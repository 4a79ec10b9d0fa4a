/** The conversation the two Streamlit apps keep in `st.session_state.messages`:
    a list of `{"role", "content"}` dicts. */
module ChatLog {

  datatype ChatEntry = ChatEntry(role: string, content: string)

  function UserEntry(prompt: string): ChatEntry {
    ChatEntry("user", prompt)
  }

  function AssistantEntry(content: string): ChatEntry {
    ChatEntry("assistant", content)
  }

  /** `f"오류 발생: {str(e)}"`, the assistant entry recorded for a failed query. */
  function ErrorReply(e: string): string {
    "오류 발생: " + e
  }

  /** A conversation made of exchanges: user entries at even positions, assistant
      entries at odd ones, and every user entry answered. */
  predicate Alternating(log: seq<ChatEntry>) {
    && |log| % 2 == 0
    && forall i :: 0 <= i < |log| ==> log[i].role == (if i % 2 == 0 then "user" else "assistant")
  }

  /** Appending one prompt and its answer keeps a conversation alternating, and
      the empty conversation alternates. */
  lemma ExchangeAlternates(log: seq<ChatEntry>, prompt: string, answer: string)
    ensures Alternating([])
    ensures Alternating(log) ==> Alternating(log + [UserEntry(prompt), AssistantEntry(answer)])
  {
    var next := log + [UserEntry(prompt), AssistantEntry(answer)];
    if Alternating(log) {
      forall i | 0 <= i < |next|
        ensures next[i].role == (if i % 2 == 0 then "user" else "assistant")
      {
        if i >= |log| {
          assert i == |log| || i == |log| + 1;
        }
      }
    }
  }
}
