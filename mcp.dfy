/** The slice of the Model Context Protocol client library that the orchestrators
    see: tool descriptions, stdio launch parameters, sessions and tool results.
    A session is abstracted to the server it talks to and the tools it lists;
    launching a server and invoking a tool are oracles supplied by the caller. */
module Mcp {
  import opened Wrappers
  import opened Json

  /** One entry of `list_tools().tools`; the description is optional in the protocol. */
  datatype Tool = Tool(name: string, description: Option<string>, inputSchema: Json)

  /** `StdioServerParameters(command, args, env)`. */
  datatype StdioParams = StdioParams(command: string, args: seq<string>, env: Option<map<string, string>>)

  /** An initialized `ClientSession`: the name it was opened for, how its process
      was launched and the tools that server lists. */
  datatype Session = Session(server: string, params: StdioParams, tools: seq<Tool>)

  datatype ContentItem =
    | TextContent(text: string)
    | ImageContent(data: string, mimeType: string)
    | EmbeddedResource(uri: string)

  /** `CallToolResult`: its content list and `str(result)`. */
  datatype CallToolResult = CallToolResult(content: seq<ContentItem>, repr: string)

  /** Launching a stdio server and opening a session on it: the tools it will
      list, or the text of the exception raised. The pool clients fold
      `initialize` into it; the single-server client keeps `initialize` apart,
      because it stores the session before initializing it. */
  type Launcher = StdioParams -> Result<seq<Tool>, string>

  /** `session.call_tool(name, arguments=args)`: a result, or the exception text. */
  type Invoker = (Session, string, Json) -> Result<CallToolResult, string>

  /** The text of the AttributeError raised by calling `attr` on None. */
  function NoAttribute(attr: string): string {
    "'NoneType' object has no attribute '" + attr + "'"
  }

  /** `result.content[0].text if result.content and hasattr(result.content[0], 'text')
      else str(result)`: the text both orchestrators report for a tool result. */
  function ResultText(r: CallToolResult): (t: string)
    ensures |r.content| > 0 && r.content[0].TextContent? ==> t == r.content[0].text
    ensures (|r.content| == 0 || !r.content[0].TextContent?) ==> t == r.repr
  {
    if |r.content| > 0 && r.content[0].TextContent? then r.content[0].text else r.repr
  }
}
