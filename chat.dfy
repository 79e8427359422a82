/**
 * The chat-completion values of the OpenAI-compatible client that the Ollama engine and
 * the old OpenAI engine share: messages, tool calls, requests and responses, already
 * decoded from JSON.
 */
module Chat {
  import opened Base
  import opened Common
  import opened Prompts
  import opened Tools

  const ChatMessageRoleTool: string := "tool"
  const ToolTypeFunction: string := "function"

  /** A client as configured: the public API, an Azure deployment, or a custom base URL. */
  datatype Client =
    | OpenAIClient(authToken: string)
    | AzureClient(apiKey: string, endpoint: string)
    | CustomClient(baseURL: string, authToken: string)

  /** The function a tool call names, with its raw JSON arguments. */
  datatype FunctionCall = FunctionCall(name: string, arguments: RawArgs)

  datatype ToolCall = ToolCall(id: string, functionCall: FunctionCall)

  /** A chat message; a tool message carries the tool's name and the id of the call it answers. */
  datatype ChatMessage = ChatMessage(role: string, content: string, name: string, toolCallId: string, toolCalls: seq<ToolCall>)

  /** A declared tool as sent: type "function" and the declaration. */
  datatype ChatTool = ChatTool(typ: string, functionDecl: ToolDecl)

  /** A request; `tools` is None when the field is omitted. */
  datatype ChatRequest = ChatRequest(model: string, messages: seq<ChatMessage>, temperature: real, tools: Option<seq<ChatTool>>)

  datatype Choice = Choice(message: ChatMessage)

  datatype ChatResponse = ChatResponse(choices: seq<Choice>)

  /** A message with only a role and text. */
  function TextMessage(role: string, content: string): ChatMessage
  {
    ChatMessage(role, content, "", "", [])
  }

  /** The tools of a request: one function tool per declaration, in order. */
  function ChatTools(functions: seq<ToolDecl>): (ts: seq<ChatTool>)
    ensures |ts| == |functions|
    ensures forall i :: 0 <= i < |functions| ==> ts[i] == ChatTool(ToolTypeFunction, functions[i])
  {
    if functions == [] then []
    else ChatTools(functions[..|functions| - 1]) + [ChatTool(ToolTypeFunction, functions[|functions| - 1])]
  }

  /** One message per system prompt, in order, with the prompt's role and text. */
  function SystemMessages(ps: seq<AgentPrompt>): (ms: seq<ChatMessage>)
    ensures |ms| == |ps|
    ensures forall i :: 0 <= i < |ps| ==> ms[i] == TextMessage(ps[i].role, ps[i].context)
  {
    if ps == [] then [] else SystemMessages(ps[..|ps| - 1]) + [TextMessage(ps[|ps| - 1].role, ps[|ps| - 1].context)]
  }
}
