# mcp-client core, modelled in Dafny

The system connects a chat model to a set of Model Context Protocol (MCP) tool
servers and mediates the tool calls between them. This project models its
sequential core. It verifies the following parts:

- **Server registry and router.** `AzureClient`, `AwsClient` and `MultiMCPClient` share one copy of it. It opens one stdio session per configured server, in configuration order. It builds one tool descriptor per (server, tool) pair, in the Azure chat-completions shape or the Bedrock `toolSpec` shape. It records `tool_mapping[name] = server`, where the last writer wins and entries are never removed. Tool calls are routed through that map. It is modelled once, as `Pool.ServerPool` over the pure specifications in `Catalog`.
- **Single-server client.** `MCPClient` in client/mcp_client.py: launch parameters, tool specs and a pass-through call (`SingleClient`).
- **Azure loop.** The chat-completions tool loop, `AzureClient.process_query_stream` (`Azure`, `AzureProperties`).
- **Bedrock loop.** The converse tool loop, `AwsClient.process_query_stream` (`Aws`, `AwsProperties`). It includes the one block list that every assistant message of a round shares.
- **Configuration normalisation.** `create_server_config`, defined identically in both Streamlit apps (`ServerConfigs`).
- **Streamlit session state.** The event-to-text fold and the session state of azure_app.py (`AzureApp`), and the chat rules of sample_app.py (`SampleApp`, `ChatLog`).
- **Web client.** The chunk fold of the React client's `handleSendMessage` (`WebClient`).
- **Example tool.** The `top_song` tool (`Song`).

Remote parties are inputs:

- **Model provider.** A finite script of responses; request *i* is answered by `script[i]`. A run whose script runs out is `complete == false` and carries no `done`. That is what happens when the provider call raises. The request it raised on was still sent, so it is the last request of the run.
- **Tool server launch.** An oracle `Launcher` that gives the tool list or the text of the exception. The single-server client also takes an `Initializer` oracle for `session.initialize()`, which it calls after storing the session.
- **Tool call.** An oracle `Invoker` that gives a `CallToolResult` or the exception text.
- **`eval` of tool arguments.** A parser oracle (`Azure.Parser`).

Events are the stream items `text`/`tool_call`/`tool_result`/`error`/`done` (`Events.Event`). A `Run` holds the events, the requests sent (the one the provider raised on included) and whether `done` was reached.

## Model

| member | source | states |
|---|---|---|
| ServerConfigs.CreateServerConfig | azure_app.py:19-40 | A missing config, or one without `mcpServers`, gives an empty dict. Otherwise the keys are exactly the entries that normalise, each mapped to its normalised form, and the key order is `NormalisingKeys` of the `mcpServers` order: the normalising keys in their original order. sample_app.py:23-44 defines the same function identically. |
| ServerConfigs.Collect | azure_app.py:24-38 | The loop over `mcpServers`: the kept keys are exactly those whose entry normalises, in insertion order (`NormalisingKeys`). Each holds its normalised entry, and there are no duplicate keys. |
| ServerConfigs.CommandMeansStdio | azure_app.py:26-32 | An entry with `command` is stdio whatever else it holds. Args default to `[]` and env to None. |
| ServerConfigs.UrlOnlyMeansSse | azure_app.py:34-38 | An entry with `url` and no `command` becomes sse with the url and nothing else. |
| ServerConfigs.NormalizeIdempotent | sample_app.py:28-42 | A normalised entry read back as a raw dict normalises to itself. It has `command` exactly when it is stdio. |
| ServerConfigs.AsEntries | azure_app.py:62-71 | The dict a client is constructed from keeps the keys and their order, and holds each entry read back as a raw dict. |
| Mcp.ResultText | azure_client.py:166 | A result's text is the first content item's text when that item has one; otherwise it is `str(result)`. |
| Catalog.DescriptorRoundTrip | azure_client.py:62-69 | Reading back a `{"type":"function","function":{...}}` or `{"toolSpec":{...}}` descriptor gives the tool's name, description and schema unchanged. |
| Catalog.CatalogMatchesAdvertised | mcp_client.py:33-48 | The catalog has one entry per advertised (server, tool) pair, in server then tool order, with duplicates kept. Entry *i* describes pair *i*. The Azure copy (azure_client.py:56-70) builds the same catalog in the function shape. |
| Catalog.DescribeAllAt | aws_client.py:49-59 | The inner loop's descriptors: one per tool, in order. |
| Catalog.RecordToolsAt | mcp_client.py:37-38 | After one server's tools, every name it lists maps to it. Other names keep their previous mapping or stay absent. |
| Catalog.Owner | mcp_client.py:35-38 | The owner of a name is a registered server that lists it, and no server registered after it lists the name. There is no owner exactly when no registered server lists the name. |
| Catalog.RoutesLastWriter | mcp_client.py:35-38 | After listing, a name is mapped exactly when it was mapped before or some server lists it. A listed name maps to its last advertising server; an unlisted name keeps its old server. The copy at azure_client.py:58-61 follows the same rule. |
| Catalog.RoutesIdempotent | mcp_client.py:33-48 | Listing twice without a connection change leaves the same routing table. |
| Catalog.RoutesTargets | mcp_client.py:35-38 | Every route leads to a registered server, or is a route that was already there. |
| Catalog.UnmappedNeverCalls | mcp_client.py:50-54 | An unmapped name fails with the AttributeError on None, and the result does not depend on the session oracle. The same holds for the copy at aws_client.py:63-67. |
| Catalog.DispatchAfterListing | mcp_client.py:50-54 | After listing, a call with a listed name reaches the session of its last advertising server, with the same name and arguments. |
| Pool.ServerPool.constructor | mcp_client.py:7-11 | A new pool has the given configs, no clients and an empty routing table. |
| Pool.ServerPool.ConnectAll | mcp_client.py:20-31 | Sessions are registered per configuration entry, in order, until the first failure. The new registry and the error are those of `Registered`. The copies at azure_client.py:38-53 and aws_client.py:27-42 run the same loop. |
| Pool.ServerPool.ListAllTools | mcp_client.py:33-48 | Returns `CatalogOf` the registry. The routing table becomes `Routes` of the old table, and the registry invariant is kept. The copies at azure_client.py:56-70 (function format) and aws_client.py:45-60 (toolSpec format) differ only in the format. |
| Pool.ServerPool.ListServerTools | mcp_client.py:36-47 | The inner loop for one server appends `DescribeAll` of its tools, routes each tool name to it with `RecordTools`, and keeps the registry invariant. |
| Pool.ServerPool.CallTool | mcp_client.py:50-54 | The result is `Dispatch` through the current routing table. The copies at azure_client.py:73-77 and aws_client.py:63-67 do the same. |
| Pool.FirstFailure | mcp_client.py:21-31 | The index of the first entry that cannot be opened (or the entry count). Every entry before it opens; the entry at it fails. |
| Pool.ConnectError | mcp_client.py:21-31 | The connect error is absent exactly when every entry opened. Otherwise it is the failure of the first entry that did not open. |
| Pool.ConnectInOrder | mcp_client.py:21-31 | The registry's keys are the old keys plus the configured keys up to the first failure, in configuration order. |
| Pool.ConnectSessions | mcp_client.py:21-31 | Each registered key holds the session opened for its own entry. Servers registered earlier and not reconfigured stay registered. |
| Pool.MissingCommandStops | azure_client.py:41-46 | An entry without `command` (such as an sse entry) raises at that entry. The servers before it stay registered. |
| Pool.FirstFailureIs | mcp_client.py:21-31 | The first failing entry is the one where connecting stops. |
| Pool.OpenNormalized | azure_client.py:41-46 | A normalised sse entry fails for the missing command. A stdio entry is launched with its own command, args and env. |
| SingleClient.ScriptParams | client/mcp_client.py:21-27 | The launch uses command `"python"`, args exactly `[script_path]` and no env. |
| SingleClient.ToolSpecs | client/mcp_client.py:38-52 | One toolSpec per listed tool, in order. Each reads back as that tool. |
| SingleClient.DescribeAllRead | client/mcp_client.py:41-50 | Each appended spec reads back as the tool it was built from. |
| SingleClient.ToolSpecShape | client/mcp_client.py:42-49 | Each entry copies name and description and nests the schema as `inputSchema.json`. |
| SingleClient.ToolSpecsAsCatalog | client/mcp_client.py:35-52 | The single-server spec list equals the multi-server catalog of a registry holding that server alone. |
| SingleClient.McpClient.constructor | client/mcp_client.py:8-11 | A new client has the script path and no session. |
| SingleClient.McpClient.ConnectToServer | client/mcp_client.py:20-33 | A successful launch stores the session of `python <path>` before `initialize` runs. The result is `initialize`'s error or None, and a failed `initialize` leaves the new, uninitialised session stored. A failed launch reports its error and leaves the session as it was. |
| SingleClient.McpClient.AvailableTools | client/mcp_client.py:35-52 | Without a session it fails with the AttributeError on None. Otherwise it returns one spec per session tool, in order, each reading back as that tool. |
| SingleClient.McpClient.ExecuteTool | client/mcp_client.py:54-56 | The session's own answer to the same name and arguments, or the AttributeError without a session. |
| Song.TopSong | server/song.py:13-21 | A known genre gives its table entry. Any other genre gives `"No top song found for genre: " + genre`. |
| Song.KnownGenres | server/song.py:13-20 | The table knows exactly pop, rock, jazz, classical, hiphop and kpop. |
| Song.GenresLowerCase | server/song.py:13-20 | Every genre the table knows is spelt with the letters `a` to `z` only. |
| Song.CapitalisedIsUnknown | server/song.py:21 | Lookup is exact, with no case folding: any genre holding an upper-case letter is unknown and gets the fallback answer. |
| Song.SongsShort | server/song.py:13-20 | Every listed song is shorter than the fallback prefix. |
| Song.AnswerTellsGenre | server/song.py:21 | The answer is a listed song exactly when the genre is known. A fallback answer gives the genre back after its prefix. |
| Song.SongsDistinct | server/song.py:13-20 | Different known genres have different songs. |
| Azure.LoopToolRound | azure_client.py:135-201 | A response with tool calls yields its text, then the round's events, then the rest of the loop, which starts from the history extended by the round's messages. |
| Azure.LoopLastRound | azure_client.py:135-221 | A response without tool calls yields its text, then the final request's events. |
| Azure.StartLoop | azure_client.py:119-135 | A query starts the loop from `[system, user(query)]`. |
| Azure.AzureClient.constructor | azure_client.py:14-28 | A new client has an empty registry and routing table over the given configs. |
| Azure.AzureClient.ExecuteToolCalls | azure_client.py:153-201 | The events and the extended history of one round are exactly `RoundEvents`/`RoundMessages` of the calls. |
| Azure.AzureClient.ExecuteToolCall | azure_client.py:154-201 | One call yields `CallEvents` and appends `CallMessages` for the outcome `Attempt` gives: the call event, then the result with an assistant and a tool message, or the error with a tool message alone. |
| Azure.AzureClient.ProcessQueryStream | azure_client.py:117-221 | The run equals `QueryRun` over the freshly listed function catalog. The routing table is updated by the listing. |
| Azure.AzureClient.RunLoop | azure_client.py:135-221 | The `while True` loop and the final request, from a given history, produce exactly the run `Loop` describes. |
| AzureProperties.RoundEventsAt | azure_client.py:153-196 | Call *k* yields `tool_call` at position 2k. Position 2k+1 holds its `tool_result` on success or its `error` on failure, parse failures included. |
| AzureProperties.RoundPaired | azure_client.py:153-201 | Every `tool_call` is followed by exactly one result or error, and a round holds no `done`. |
| AzureProperties.FinishWellFormed | azure_client.py:204-221 | The final step yields at most two events: a final text and `done`. `done` comes once, last, exactly when complete, and every other event is a text marked final. |
| AzureProperties.LoopWellFormed | azure_client.py:135-221 | Every loop run is paired. `done` occurs exactly once, last, exactly when the run is complete. |
| AzureProperties.QueryWellFormed | azure_client.py:117-221 | The same for a whole query. |
| AzureProperties.FirstPlain | azure_client.py:149-150 | The index of the first response without tool calls. |
| AzureProperties.LoopStops | azure_client.py:135-221 | A run completes exactly when a response follows the first plain response. A complete run sends that many loop requests plus one final request. An incomplete run sends one request per response, plus the request the provider raised on. |
| AzureProperties.LoopRequestOptions | azure_client.py:79-115 | Every request but the last uses tool_choice `"auto"`, max_tokens 1000, temperature 0.2 and no response_format. The last request is the final request exactly when some response asked for no tool, answered or not. It uses `"none"`, a text response_format, 4096 and 1.0, and carries the history of the loop request before it. Otherwise the last request is a loop request too. |
| AzureProperties.LoopHistoryGrows | azure_client.py:135-201 | Each request's history extends the starting history and the history of the request before it. |
| AzureProperties.QueryHistoryStarts | azure_client.py:119-133 | Every request's history starts with the system prompt and then the user's query. |
| AzureProperties.AnsweredConcat | azure_client.py:176-192 | Histories whose assistant messages are each followed by their tool message stay so when joined. |
| AzureProperties.RoundMessagesAnswer | azure_client.py:176-201 | A round appends exactly one tool message per call, carrying the call ids in order. Each appended assistant message holds one call and is followed by its tool message. |
| AzureProperties.LoopHistoryAnswered | azure_client.py:135-201 | Every request the loop sends has each assistant message answered by the following tool message. |
| AzureProperties.QueryHistoryAnswered | azure_client.py:117-201 | The same for every request of a query. |
| AzureProperties.RoundAssistants | azure_client.py:176-201 | Every assistant message a round appends holds one call of the round, alone, and that call succeeded. |
| AzureProperties.FailedCallOrphan | azure_client.py:194-201 | When a call fails and the round's call ids are distinct, the round appends a tool message with that call's id, but no assistant message of the round carries a call with that id. |
| AzureProperties.CallReportMatchesHistory | azure_client.py:163-201 | The `tool_result` event carries the text of the tool message for the call. The `error` event carries the text of the tool message that records the failure. |
| Aws.TurnStops | aws_client.py:98-187 | A response without a toolUse, or whose stopReason is not `tool_use`, yields its round's events and then `done`. |
| Aws.TurnCut | aws_client.py:166-178 | A continuing response with no next response ends the run incomplete. The follow-up request it raised on is recorded, with the history extended by the round. |
| Aws.TurnContinues | aws_client.py:98-184 | A continuing response yields its round's events and then the next response's texts as final. The next request carries the history extended by the round. |
| Aws.BlockList.constructor | aws_client.py:100 | A fresh block list is empty. |
| Aws.BlockList.Append | aws_client.py:107 | Appending adds one block at the end. |
| Aws.RoundEntriesLists | aws_client.py:126-153 | Every assistant entry of a round refers to that round's one shared list. |
| Aws.SnapshotConcat | aws_client.py:129-153 | The content sent for a joined history is the content of each part. |
| Aws.SnapshotRound | aws_client.py:100-164 | At send time, every assistant message of the round holds the shared list's final contents. |
| Aws.AwsClient.constructor | aws_client.py:10-17 | A new client has an empty registry and routing table over the given configs. |
| Aws.AwsClient.ProcessContent | aws_client.py:99-164 | The block loop yields `RoundEvents` and leaves `Kept` in the shared list. It appends `RoundEntries` and reports whether any toolUse was seen. |
| Aws.AwsClient.ProcessBlock | aws_client.py:104-164 | A text block is streamed and kept. A toolUse block yields its call, then its result or error. The block is kept only when the call succeeds, and the assistant/user pair is appended either way. Other blocks do nothing. |
| Aws.AwsClient.ProcessResponse | aws_client.py:98-164 | Processing one response extends the history, as sent, by `RoundMessages` over the kept blocks. Earlier messages are unchanged. |
| Aws.AwsClient.FinalTexts | aws_client.py:181-184 | The follow-up texts are streamed as final text events. |
| Aws.AwsClient.ProcessQueryStream | aws_client.py:70-187 | The run equals `QueryRun` over the freshly listed toolSpec catalog. The routing table is updated by the listing. |
| AwsProperties.TextsOfText | aws_client.py:181-184 | The follow-up step yields only text events. |
| AwsProperties.RoundPaired | aws_client.py:103-164 | Every `tool_call` is followed by exactly one result or error, and a round holds no `done`. |
| AwsProperties.TurnWellFormed | aws_client.py:98-187 | Every run is paired. `done` occurs exactly once, last, exactly when the run is complete. |
| AwsProperties.QueryWellFormed | aws_client.py:70-187 | The same for a whole query. |
| AwsProperties.FirstStop | aws_client.py:166-168 | The index of the first response that ends the loop. |
| AwsProperties.TurnStopsAt | aws_client.py:98-187 | The loop completes exactly when some response ends it, and then one follow-up request was sent per continuing response. A cut-off loop sent one follow-up request per response, the last one being the request the provider raised on. |
| AwsProperties.QueryStops | aws_client.py:88-187 | A query completes exactly when some response ends it, after that many requests plus the first. Otherwise it sent one request per response plus the one the provider raised on. |
| AwsProperties.RoundTexts | aws_client.py:103-164 | The text events of a response's round are, in order, its text blocks marked not final. Tool uses yield no text. |
| AwsProperties.TurnStartsWithRound | aws_client.py:98-164 | A turn's events start with the events of the response it began with. |
| AwsProperties.FollowUpEchoed | aws_client.py:103-184 | After any continuing response that gets an answer, the events go on with that answer's text blocks as final, then that answer's round, whose text events are the same texts marked not final. |
| AwsProperties.FollowUpTextTwice | aws_client.py:103-184 | The two-response instance with an all-text answer: the events are exactly the first round, the answer's texts as final, the same texts as non-final, then `done`. |
| AwsProperties.RoundOfTexts | aws_client.py:103-107 | A response of text blocks yields exactly its texts as non-final, and has no toolUse. |
| AwsProperties.KeptBlocks | aws_client.py:100-153 | The shared list holds exactly the text blocks and the successful toolUse blocks, in the response's order and once per position. Failed toolUse blocks are absent. |
| AwsProperties.KeptOrder | aws_client.py:100-153 | Entry *j* of the shared list is the block at position `idx[j]` of the response. The positions strictly increase and are exactly the positions of text blocks and successful toolUse blocks. |
| AwsProperties.FailedToolUseOrphan | aws_client.py:108-164 | When a toolUse fails and the response's toolUse ids are distinct, the round still answers its id with a toolResult, but no toolUse in the shared list carries that id. |
| AwsProperties.BlockReportMatchesHistory | aws_client.py:117-164 | The `tool_result` or `error` event of a toolUse carries the text of the toolResult block that answers it. |
| AwsProperties.RoundMessagesShape | aws_client.py:129-164 | Messages alternate assistant, user. Every assistant message holds the shared list, and every user message holds exactly one toolResult. |
| AwsProperties.RoundMessagesEven | aws_client.py:129-164 | Every toolUse, successful or not, appends exactly two messages, so a round appends twice as many messages as it has toolUse blocks. |
| AwsProperties.RoundAnswersEveryToolUse | aws_client.py:129-164 | The toolResult ids of a round are exactly its toolUse ids, in order. |
| AwsProperties.TurnHistoryGrows | aws_client.py:98-178 | Each request extends the starting history and the request before it. Each carries the fixed model, system prompt and tools. |
| AwsProperties.QueryHistory | aws_client.py:72-95 | Every request has the model id, system prompt and tools. Its history starts with the user's `[{"text": query}]`, and the histories only grow. |
| AzureApp.CollectText | azure_app.py:75-107 | The loop's text is `DisplayedText` of the events. |
| AzureApp.DisplayedConcat | azure_app.py:75-107 | The displayed text distributes over concatenation of event streams. |
| AzureApp.RoundHidden | azure_app.py:85-104 | Tool calls, results and errors add nothing to the displayed text. |
| AzureApp.TextShown | azure_app.py:79-83 | A non-final text shows its content; a final text shows nothing. |
| AzureApp.FinalAnswerHidden | azure_app.py:79-83 | The answer to the final request never appears in the displayed text. |
| AzureApp.LoopDisplayed | azure_app.py:74-107 | The displayed text is the response contents received up to the first response without tool calls, in order. |
| AzureApp.QueryDisplayed | azure_app.py:74-107 | The same for a whole query. |
| AzureApp.ProcessResponseStream | azure_app.py:74-107 | A completed query gives its displayed text. A query cut short raises the provider's error. |
| AzureApp.ConnectServers | azure_app.py:62-71 | A new client holds the registry the config connects to. On success the tools are the function catalog and the routing table is `Routes` over the registry from an empty table. On failure the tools are the first connect error and the table stays empty. |
| AzureApp.AzureAppState.constructor | azure_app.py:47-55 | The session starts with no client, no tools, no connection and an empty conversation. |
| AzureApp.AzureAppState.AutoConnect | azure_app.py:116-128 | It tries only without a client and a connection. Success stores client, tools and `connected=True` together, and the stored client's routing table is `Routes` from empty over its registry. Failure stores nothing. |
| AzureApp.AzureAppState.Reconnect | azure_app.py:141-158 | It drops the current client and connects afresh. Success stores client, tools and `connected=True`, and the new client's routing table is `Routes` from empty over its registry. Failure leaves no client and `connected=False`. |
| AzureApp.AzureAppState.ClearConversation | azure_app.py:165-167 | The conversation becomes empty. |
| AzureApp.AzureAppState.SubmitPrompt | azure_app.py:181-205 | Without a client or connection nothing changes. Otherwise one user entry and one assistant entry are appended (the displayed text or `"오류 발생: " + error`), and a failed query clears `connected`. The client's registry is unchanged; a query re-lists the tools, so the routing table becomes `Routes` of the old table. |
| ChatLog.ExchangeAlternates | sample_app.py:126-147 | Appending a prompt and its answer keeps user and assistant entries alternating. |
| SampleApp.SampleAppState.constructor | sample_app.py:52-54 | No client and no tools at first, and an empty conversation. |
| SampleApp.SampleAppState.ConnectButton | sample_app.py:79-104 | A successful connect stores the client and its tools; a failure stores nothing. |
| SampleApp.SampleAppState.SubmitPrompt | sample_app.py:119-147 | Without a client nothing is appended. Otherwise the user entry, then the answer or `"오류 발생: " + error`, are appended, and the conversation keeps alternating. |
| WebClient.UpsertShape | web-client/src/App.tsx:74-87 | With an assistant message last, its content becomes the text and the length is unchanged. Otherwise one assistant message is appended. Earlier messages are kept. |
| WebClient.UpsertTwice | web-client/src/App.tsx:74-87 | A second update overrides the first. |
| WebClient.FoldCollapses | web-client/src/App.tsx:53-91 | The read loop leaves the conversation untouched when no chunk parsed. Otherwise it updates it once with the whole accumulated text. |
| WebClient.AccumulatedGrows | web-client/src/App.tsx:51-71 | `currentMessage` only grows by suffix. |
| WebClient.SendShape | web-client/src/App.tsx:27-104 | A send appends the prompt, then one assistant message with all chunk text if any chunk parsed, then the apology if the exchange threw. |
| WebClient.UnparsableIgnored | web-client/src/App.tsx:59-90 | A chunk that fails to parse changes neither `currentMessage` nor the messages. |
| WebClient.ChatApp.constructor | web-client/src/App.tsx:24-25 | An empty conversation, not processing. |
| WebClient.ChatApp.HandleSendMessage | web-client/src/App.tsx:27-104 | Blank content, or a send while processing, changes nothing. Otherwise the conversation becomes `Outcome` and `isProcessing` is false on exit. |
| WebClient.HandleChunk | web-client/src/App.tsx:58-90 | A chunk that parses adds `Delta` to `currentMessage`, then the conversation is `Upsert`ed with the new text. A chunk that does not parse changes neither. |

## Behaviour that follows the code

In these places the model follows the code as written:

- **Provider failure.** A failing provider call raises out of the generator. No `error` event and no `done` is produced (`complete == false`).
- **Stale routes.** Routes are never cleared.
- **Duplicate tools.** The catalog keeps duplicates.
- **sse entries.** They reach the clients and fail there for the missing `command`.
- **Dropped entries.** Entries with neither `command` nor `url` are dropped without a warning.
- **Azure text events.** A query that needs no tool yields the first response's text as non-final, then the final request's text as final.
- **Bedrock text events.** The Bedrock loop streams follow-up texts twice, once as final and once as non-final: `AwsProperties.FollowUpEchoed`.
- **Orphan tool results.** A failed tool call appends a tool message (Azure) or a toolResult (Bedrock) whose id no call in the appended history carries. On Azure no assistant message is appended for the failed call. On Bedrock the failed toolUse block is left out of the shared content list. `AzureProperties.FailedCallOrphan` and `AwsProperties.FailedToolUseOrphan` state this.
- **Uninitialised session.** The single-server client stores its session before `initialize` runs, so a failed `initialize` leaves that session in place (`SingleClient.McpClient.ConnectToServer`).

## Left out

- **MCP transport and lifecycle:** `stdio_client`, `ClientSession`, `AsyncExitStack`, `close_all` and `cleanup`, and the result of `initialize`. These are a foreign library and process I/O. A session is its server name, launch parameters and tool list, and launching and calling are oracles. The pool clients fold `initialize` into the launch oracle; the single-server client has a separate `initialize` oracle. The model takes `list_tools()` to return, at every query, the list the session was launched with, and never to fail. In the code that call is made again at each query (azure_client.py:126, aws_client.py:81); an exception there would reach the user as "오류 발생: …" and set `connected` to false in azure_app. The model does not capture that failure.
- **SingleClient.McpClient.AvailableTools:** a session whose `initialize` failed is read like any other session, from the tool list the launch gave. What the protocol library does with requests on an uninitialised session is not modelled.
- **LLM SDK calls** (`chat.completions.create`, `converse`): replaced by a scripted sequence of responses. A provider exception is a script that runs out.
- **`eval(tool_args)`:** an abstract parser oracle whose failure takes the error path.
- **async/await and async generators:** everything is sequential, and the stream is a `seq` of events. Cancellation is not modelled.
- **Floating-point temperatures:** carried as `real` constants.
- **Rendering and file I/O:** Streamlit calls and their messages, React layout, ChatInterface.tsx, and `fetch`/`getReader`/`TextDecoder`. `load_mcp_config` file reading is replaced by the decoded configuration given as a value.
- **JSON null values:** the model does not distinguish a configuration key that is present with a JSON null from an absent key.
- **client/main.py:** a one-shot demo script made of remote calls. It is not part of this model.
- **The `client` package imported by sample_app.py:** not part of this model. Its connect outcome and its query answer arrive as inputs.
- **AzureApp.AzureAppState.Reconnect:** does not model `close_all` of the previous client.
- **AzureApp.AzureAppState.AutoConnect:** does not model `close_all` of the previous client either.
- **AzureApp.ProcessResponseStream:** does not model the streaming display side effects or the partial text already shown before an exception.
- **WebClient:** React state batching and the `isProcessing` value captured by the handler's closure are not modelled.
- **WebClient chunk fields:** a missing `data.tool`, `result` or `content` field becomes the string "undefined" in JavaScript; the model does not capture this.
- **WebClient chunk boundaries:** each read is assumed to carry exactly one JSON chunk.
- **WebClient aliasing:** the in-place assignment to `lastMessage.content` is modelled as replacing the last message. Its aliasing with the previous state array is not captured.
- **WebClient.IsBlank:** uses the ECMAScript white-space and line-terminator characters that `trim` removes.
- **server/song.py:** the FastMCP registration and `mcp.run` are not modelled.
