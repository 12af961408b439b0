/**
 * The Ollama adapter's conversions: the chat request built from the services' messages
 * and tool definitions, and the services' ChatResponse built from Ollama's reply. The
 * call itself (a goroutine, channels and a timeout around the HTTP request) is not part
 * of this model.
 */
module Ollama {
  import opened Wrappers
  import opened Encoding
  import opened Format
  import opened Types

  /** api.Message as the adapter fills it. */
  datatype ApiMessage = ApiMessage(role: string, content: string)

  /** api.Tool: what a tool definition becomes when it is offered to the model. */
  datatype ApiTool = ApiTool(kind: string, name: string, description: string, parameters: Json)

  /** api.ChatRequest; `tools` is None when the request offers no tools (a nil slice). */
  datatype ApiChatRequest = ApiChatRequest(model: string, messages: seq<ApiMessage>, tools: Option<seq<ApiTool>>, stream: bool)

  /**
   * A tool call in Ollama's reply. `arguments` stands for the text the adapter prints the
   * call's argument map as.
   */
  datatype ApiToolCall = ApiToolCall(name: string, arguments: Raw)

  /** api.ChatResponse: the reply's text and tool calls, and whether the model is done. */
  datatype ApiChatResponse = ApiChatResponse(content: string, toolCalls: seq<ApiToolCall>, done: bool)

  /** A tool definition re-read as an api.Tool: the same type, name, description and schema. */
  function ToApiTool(d: ToolDefinition): (t: ApiTool)
    ensures t.kind == d.kind && t.name == d.func.name && t.description == d.func.description
    ensures t.parameters == d.func.parameters
  {
    ApiTool(d.kind, d.func.name, d.func.description, d.func.parameters)
  }

  /**
   * The request of Chat: each message copied by index, and the tools only when there
   * are any, again copied by index. Streaming is off.
   */
  method BuildChatRequest(model: string, messages: seq<Message>, tools: seq<ToolDefinition>) returns (req: ApiChatRequest)
    ensures req.model == model && !req.stream
    ensures |req.messages| == |messages|
    ensures forall i :: 0 <= i < |messages| ==>
              req.messages[i].role == messages[i].role && req.messages[i].content == messages[i].content
    ensures req.tools.Some? <==> |tools| > 0
    ensures req.tools.Some? ==>
              |req.tools.value| == |tools| && forall i :: 0 <= i < |tools| ==> req.tools.value[i] == ToApiTool(tools[i])
  {
    var ms := new ApiMessage[|messages|](_ => ApiMessage("", ""));
    for i := 0 to |messages|
      invariant forall j :: 0 <= j < i ==> ms[j] == ApiMessage(messages[j].role, messages[j].content)
    {
      ms[i] := ApiMessage(messages[i].role, messages[i].content);
    }
    var apiMessages := ms[..];
    var apiTools: Option<seq<ApiTool>> := None;
    if |tools| > 0 {
      var ts := new ApiTool[|tools|](_ => ApiTool("", "", "", JNull));
      for i := 0 to |tools|
        invariant forall j :: 0 <= j < i ==> ts[j] == ToApiTool(tools[j])
      {
        ts[i] := ToApiTool(tools[i]);
      }
      apiTools := Some(ts[..]);
    }
    req := ApiChatRequest(model, apiMessages, apiTools, false);
  }

  /** The identifier of the i-th tool call of a reply: "call_<i>". */
  function CallId(i: nat): (id: string)
    ensures |id| > 5 && id[..5] == "call_" && AllDigits(id[5..])
    ensures DecimalValue(id[5..]) == i
    ensures id[5] == '0' ==> i == 0
  {
    NatToStringRoundTrip(i);
    var id := "call_" + NatToString(i);
    assert id[5..] == NatToString(i);
    id
  }

  /** The calls of one reply get pairwise different identifiers. */
  lemma CallIdsDistinct(i: nat, j: nat)
    requires i != j
    ensures CallId(i) != CallId(j)
  {
  }

  /**
   * convertResponse: the reply's text and done flag, and its tool calls copied by index,
   * each with its position as identifier, type "function" and no result yet.
   */
  method ConvertResponse(resp: ApiChatResponse) returns (result: ChatResponse)
    ensures result.message == resp.content && result.finished == resp.done
    ensures |result.toolCalls| == |resp.toolCalls|
    ensures forall i :: 0 <= i < |resp.toolCalls| ==>
              result.toolCalls[i] == ToolCall(CallId(i), "function", FunctionCall(resp.toolCalls[i].name, resp.toolCalls[i].arguments), Nil)
    ensures forall i, j :: 0 <= i < j < |result.toolCalls| ==> result.toolCalls[i].id != result.toolCalls[j].id
  {
    result := ChatResponse(resp.content, [], resp.done);
    if |resp.toolCalls| > 0 {
      var calls := new ToolCall[|resp.toolCalls|](_ => ToolCall("", "", FunctionCall("", Nil), Nil));
      for i := 0 to |resp.toolCalls|
        invariant forall j :: 0 <= j < i ==>
                    calls[j] == ToolCall(CallId(j), "function", FunctionCall(resp.toolCalls[j].name, resp.toolCalls[j].arguments), Nil)
      {
        calls[i] := ToolCall(CallId(i), "function", FunctionCall(resp.toolCalls[i].name, resp.toolCalls[i].arguments), Nil);
      }
      result := result.(toolCalls := calls[..]);
    }
    forall i, j | 0 <= i < j < |result.toolCalls|
      ensures result.toolCalls[i].id != result.toolCalls[j].id
    {
      CallIdsDistinct(i, j);
    }
  }
}
