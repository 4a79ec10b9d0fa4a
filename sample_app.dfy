/** sample_app.py: the Streamlit front end of the generic client. The client it
    drives (`client.MCPClient` with `connect_to_server`, `list_all_tools` and
    `process_query`) is not part of this model, so its answers arrive as inputs. */
module SampleApp {
  import opened Wrappers
  import opened Json
  import opened ChatLog

  /** The session state: the conversation, whether a client is stored and the
      tools it listed. */
  class SampleAppState {
    var messages: seq<ChatEntry>
    var hasClient: bool
    var tools: Option<seq<Json>>

    constructor ()
      ensures messages == [] && !hasClient && tools.None?
    {
      messages := [];
      hasClient := false;
      tools := None;
    }

    /** The "서버 연결" button: `connection` is the tool list of a freshly
        connected client or the text of the exception that stopped it. Success
        stores the client and its tools; failure stores nothing. */
    method ConnectButton(connection: Result<seq<Json>, string>)
      modifies this`hasClient, this`tools
      ensures connection.Success? ==> hasClient && tools == Some(connection.value)
      ensures connection.Failure? ==> hasClient == old(hasClient) && tools == old(tools)
    {
      if connection.Success? {
        hasClient := true;
        tools := Some(connection.value);
      }
    }

    /** A prompt typed into the chat input: without a client nothing is recorded;
        otherwise the user entry, then the answer of `process_query` or the error
        text of its exception. A failure does not drop the client. */
    method SubmitPrompt(prompt: string, answer: Result<string, string>)
      modifies this`messages
      ensures !hasClient ==> messages == old(messages)
      ensures hasClient && answer.Success? ==>
        messages == old(messages) + [UserEntry(prompt), AssistantEntry(answer.value)]
      ensures hasClient && answer.Failure? ==>
        messages == old(messages) + [UserEntry(prompt), AssistantEntry(ErrorReply(answer.error))]
      ensures Alternating(old(messages)) ==> Alternating(messages)
    {
      if !hasClient {
        return;
      }
      var before := messages;
      messages := messages + [UserEntry(prompt)];
      var reply := if answer.Success? then answer.value else ErrorReply(answer.error);
      messages := messages + [AssistantEntry(reply)];
      assert messages == before + [UserEntry(prompt), AssistantEntry(reply)];
      ExchangeAlternates(before, prompt, reply);
    }
  }
}
