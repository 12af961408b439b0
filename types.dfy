/** The shapes shared by the router, the tools and the AI adapter (pkg/types). */
module Types {
  import opened Encoding

  /** One turn of a conversation; roles are "system", "user", "assistant" or "tool". */
  datatype Message = Message(role: string, content: string)

  /** The function an AI reply asks for, with its still-encoded arguments. */
  datatype FunctionCall = FunctionCall(name: string, arguments: Raw)

  /**
   * A tool invocation requested by the AI. `kind` is the Go field `Type` ("function");
   * `result` stays `Nil` until the registry executes the call.
   */
  datatype ToolCall = ToolCall(id: string, kind: string, func: FunctionCall, result: Raw)

  /** The description of a callable tool: its name, purpose and JSON-schema parameters. */
  datatype FunctionDef = FunctionDef(name: string, description: string, parameters: Json)

  /** `kind` is the Go field `Type` ("function"). */
  datatype ToolDefinition = ToolDefinition(kind: string, func: FunctionDef)

  /** An inbound request; `authorization` is the only field of its metadata. */
  datatype ChatRequest = ChatRequest(userInput: string, caller: string, sessionId: string, authorization: string)

  /**
   * What an AI call returns: the assistant's text, the tool calls it requests and
   * whether the backend reported the reply as done.
   */
  datatype ChatResponse = ChatResponse(message: string, toolCalls: seq<ToolCall>, finished: bool)
}
