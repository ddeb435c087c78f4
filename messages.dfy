/**
 * The values exchanged between the answer generator, the language model and
 * the tool manager: content blocks, model responses, conversation turns,
 * request parameters, and the outcomes of the two external collaborators.
 */
module Messages {

  datatype Option<+T> = None | Some(value: T)

  /** Keyword arguments of a tool call; each argument value is kept as its JSON text. */
  type Args = map<string, string>

  /** A block of a model turn: plain text, or a request to run a named tool. */
  datatype Block =
    | Text(text: string)
    | ToolUse(id: string, name: string, input: Args)

  /** The stop reason with which the model asks for its tool calls to be run. */
  const ToolUseStop: string := "tool_use"

  /** A model response: why it stopped, and its content blocks in emission order. */
  datatype Response = Response(stopReason: string, content: seq<Block>)

  /** A `tool_result` entry, answering the `tool_use` block whose id it carries. */
  datatype ToolResult = ToolResult(toolUseId: string, content: string)

  /** The content of a turn: the user's query, a model turn verbatim, or tool results. */
  datatype Content =
    | Plain(text: string)
    | Blocks(blocks: seq<Block>)
    | Results(results: seq<ToolResult>)

  datatype Role = User | Assistant

  datatype Message = Message(role: Role, content: Content)

  /** A tool definition offered to the model; the generator passes it through untouched. */
  datatype ToolDef = ToolDef(name: string, description: string)

  /** The `tool_choice` parameter; the generator only ever sends `{"type": "auto"}`. */
  datatype ToolChoice = Auto

  /** The generator's fixed sampling parameters (`base_params`). */
  datatype Params = Params(model: string, temperature: int, maxTokens: nat)

  /**
   * The keyword arguments of one model call. `tools` and `toolChoice` are None
   * when the key is absent from the call.
   */
  datatype Request = Request(
    params: Params,
    system: string,
    messages: seq<Message>,
    tools: Option<seq<ToolDef>>,
    toolChoice: Option<ToolChoice>)

  /** What one model call did: return a response, or raise with a message. */
  datatype CallOutcome = Returned(response: Response) | Failed(message: string)

  /** What one `execute_tool` call did: return a string, or raise with a message. */
  datatype ToolOutcome = Value(result: string) | Raised(message: string)

  /** One `execute_tool(name, **input)` call as the tool manager sees it. */
  datatype ToolCall = ToolCall(name: string, input: Args)

  /** The exceptions that can leave `generate_response`. */
  datatype Exception =
    | Transport(message: string)  // the first model call raised
    | IndexError                  // `content[0]` of an empty content list
    | AttributeError              // `.text` of a `tool_use` block

  /** The outcome of answer generation: the returned string, or the exception raised. */
  datatype Reply = Answer(text: string) | Error(error: Exception)

  /** What the caller sees of a generation: the reply, every request sent, every tool call made. */
  datatype Run = Run(reply: Reply, requests: seq<Request>, toolCalls: seq<ToolCall>)
}
