/**
 * The Ollama provider engine (ollama.go): the same tool registry as the other engines,
 * chat messages built from the persona and the prompt, and a completion that answers
 * tool calls for exactly one round, without retries.
 *
 * The OpenAI-compatible client is abstract: `ChatFn` maps a client and a request to the
 * decoded response or the client's error text. Nothing here retries.
 */
module Ollama {
  import opened Base
  import opened Errors
  import opened Common
  import opened Functions
  import opened Prompts
  import opened Tools
  import opened Chat

  const DefaultOllamaEndpoint: string := "http://localhost:11434/v1"

  /** The `input` property a builtin tool declares. */
  const BuiltinInputAttrs: map<string, string> := map["title" := "input", "type" := "string"]

  /** The fields of the shared configuration this engine reads. */
  datatype Config = Config(model: string, temperature: real, endpoint: string)

  /** The chat endpoint: a response, or the error text the client reports. */
  type ChatFn = (Client, ChatRequest) -> Result<ChatResponse, string>

  /** createClient: the configured endpoint, or the local default when empty; never an error. */
  function CreateClient(c: Config): Result<Client, Error>
  {
    Ok(CustomClient(if c.endpoint == "" then DefaultOllamaEndpoint else c.endpoint, "ollama"))
  }

  /** No credential is ever required, and an empty endpoint means the local server. */
  lemma CreateClientSpec(c: Config)
    ensures CreateClient(c).Ok? && CreateClient(c).value.CustomClient?
    ensures CreateClient(c).value.authToken == "ollama"
    ensures c.endpoint == "" ==> CreateClient(c).value.baseURL == "http://localhost:11434/v1"
    ensures c.endpoint != "" ==> CreateClient(c).value.baseURL == c.endpoint
  {
  }

  /** The message answering one tool call: role "tool", the output, the tool's name and the call's id. */
  function CallTool(exec: map<string, ToolFn>, builtin: map<string, bool>, call: ToolCall): Result<ChatMessage, Error>
  {
    var r := Invoke(exec, builtin, call.functionCall.name, call.functionCall.arguments);
    if r.Err? then Err(r.error)
    else Ok(ChatMessage(ChatMessageRoleTool, r.value, call.functionCall.name, call.id, []))
  }

  /** Running the tool calls in order, stopping at the first failure. */
  function RunToolCalls(exec: map<string, ToolFn>, builtin: map<string, bool>, calls: seq<ToolCall>): Result<seq<ChatMessage>, Error>
  {
    if calls == [] then Ok([])
    else
      var prior := RunToolCalls(exec, builtin, calls[..|calls| - 1]);
      if prior.Err? then prior
      else
        var r := CallTool(exec, builtin, calls[|calls| - 1]);
        if r.Err? then Err(r.error) else Ok(prior.value + [r.value])
  }

  /**
   * The calls succeed exactly when every one does, giving one tool message per call, in
   * call order, each with the call's id and tool name; otherwise the first failure's error,
   * which wraps ErrToolCallFailed.
   */
  lemma {:induction false} RunToolCallsSpec(exec: map<string, ToolFn>, builtin: map<string, bool>, calls: seq<ToolCall>)
    ensures var r := RunToolCalls(exec, builtin, calls);
      && (r.Ok? <==> forall i :: 0 <= i < |calls| ==> CallTool(exec, builtin, calls[i]).Ok?)
      && (r.Ok? ==> |r.value| == |calls| && forall i :: 0 <= i < |calls| ==>
            r.value[i].role == ChatMessageRoleTool && r.value[i].toolCallId == calls[i].id
            && r.value[i].name == calls[i].functionCall.name
            && r.value[i].content == Invoke(exec, builtin, calls[i].functionCall.name, calls[i].functionCall.arguments).value)
      && (r.Err? ==> Is(r.error, ToolCallFailed))
  {
    if calls != [] {
      var init := calls[..|calls| - 1];
      RunToolCallsSpec(exec, builtin, init);
      InvokeSpec(exec, builtin, calls[|calls| - 1].functionCall.name, calls[|calls| - 1].functionCall.arguments);
      assert forall i :: 0 <= i < |init| ==> calls[i] == init[i];
    }
  }

  /** Once a prefix of the calls fails, the whole run fails with that error. */
  lemma {:induction false} RunToolCallsErrPersists(exec: map<string, ToolFn>, builtin: map<string, bool>, calls: seq<ToolCall>, j: nat)
    requires j <= |calls|
    requires RunToolCalls(exec, builtin, calls[..j]).Err?
    ensures RunToolCalls(exec, builtin, calls) == RunToolCalls(exec, builtin, calls[..j])
    decreases |calls| - j
  {
    if j < |calls| {
      var init := calls[..|calls| - 1];
      assert init[..j] == calls[..j];
      RunToolCallsErrPersists(exec, builtin, init, j);
    } else {
      assert calls[..j] == calls;
    }
  }

  /** A snapshot of the provider's fields. */
  datatype Engine = Engine(
    config: Config, functions: seq<ToolDecl>, exec: map<string, ToolFn>,
    builtin: map<string, bool>, systemPrompts: seq<AgentPrompt>, userPrompt: Option<string>)

  /** How a completion ends, and every request it sent, in order. */
  datatype Run = Run(result: Result<string, Error>, requests: seq<ChatRequest>)

  /** The first request: system messages, the user message, and the declared tools if any. */
  function FirstRequest(e: Engine, prompt: string): ChatRequest
  {
    var tools := ChatTools(e.functions);
    ChatRequest(e.config.model, SystemMessages(e.systemPrompts) + [TextMessage(AgentRoleUser, prompt)],
      e.config.temperature, if |tools| > 0 then Some(tools) else None)
  }

  /** The reference definition of Completion. */
  function Complete(e: Engine, chat: ChatFn, params: seq<string>): Run
  {
    var resolved := ResolveUserPrompt(e.userPrompt, params);
    if resolved.Err? then Run(Err(resolved.error), [])
    else Exchange(e, chat, CreateClient(e.config).value, FirstRequest(e, resolved.value))
  }

  /**
   * The exchange after the first request is built: send it, answer the tool calls of its
   * first choice once, and send the follow-up.
   */
  function Exchange(e: Engine, chat: ChatFn, client: Client, req: ChatRequest): Run
  {
    var first := chat(client, req);
    if first.Err? then Run(Err(Annotated(CompletionFailed, first.error)), [req])
    else if |first.value.choices| == 0 then Run(Err(Annotated(CompletionFailed, "no choices returned")), [req])
    else
      var msg := first.value.choices[0].message;
      if |msg.toolCalls| == 0 then Run(Ok(msg.content), [req])
      else
        var answers := RunToolCalls(e.exec, e.builtin, msg.toolCalls);
        if answers.Err? then Run(Err(answers.error), [req])
        else
          var followUp := req.(messages := req.messages + [msg] + answers.value);
          var second := chat(client, followUp);
          if second.Err? then
            Run(Err(Annotated(CompletionFailed, "follow-up after tool call: " + second.error)), [req, followUp])
          else if |second.value.choices| == 0 then
            Run(Err(Annotated(CompletionFailed, "no choices in follow-up response")), [req, followUp])
          else Run(Ok(second.value.choices[0].message.content), [req, followUp])
  }

  /** The Ollama provider (ollamaProvider). */
  class OllamaProvider {
    var config: Config
    var functions: seq<ToolDecl>
    var fnExecutable: map<string, ToolFn>
    var builtinTools: map<string, bool>
    var systemPrompts: seq<AgentPrompt>
    var userPrompt: Option<string>

    /** newOllama: empty registry, exactly the two persona system prompts, no user prompt. */
    constructor (c: Config, role: string, backstory: string, goal: string)
      ensures config == c && functions == [] && fnExecutable == map[] && builtinTools == map[]
      ensures systemPrompts == BuildSystemPrompts(role, backstory, goal) && userPrompt == None
    {
      config := c;
      functions := [];
      fnExecutable := map[];
      builtinTools := map[];
      systemPrompts := [AgentPrompt(AgentRoleSystem, "As a " + role + ", " + backstory),
                        AgentPrompt(AgentRoleSystem, "Your goal is " + goal)];
      userPrompt := None;
    }

    function State(): Engine
      reads this
    {
      Engine(config, functions, fnExecutable, builtinTools, systemPrompts, userPrompt)
    }

    /** WithUserPrompt: stores the prompt and changes nothing else. */
    method WithUserPrompt(prompt: string)
      modifies this
      ensures State() == old(State()).(userPrompt := Some(prompt))
    {
      userPrompt := Some(prompt);
    }

    /**
     * WithTools: per tool, in order, one builtin declaration appended, the tool's call
     * registered under its name, and the name marked builtin.
     */
    method WithTools(ts: seq<Tool>)
      modifies this
      ensures functions == old(functions) + BuiltinDecls(ts, BuiltinInputAttrs)
      ensures fnExecutable == RegisterAll(old(fnExecutable), ts)
      ensures builtinTools == MarkAll(old(builtinTools), ts)
      ensures config == old(config) && systemPrompts == old(systemPrompts) && userPrompt == old(userPrompt)
    {
      for i := 0 to |ts|
        invariant functions == old(functions) + BuiltinDecls(ts[..i], BuiltinInputAttrs)
        invariant fnExecutable == RegisterAll(old(fnExecutable), ts[..i])
        invariant builtinTools == MarkAll(old(builtinTools), ts[..i])
        invariant config == old(config) && systemPrompts == old(systemPrompts) && userPrompt == old(userPrompt)
      {
        assert ts[..i + 1][..i] == ts[..i];
        var tool := ts[i];
        functions := functions + [ToolDecl(tool.name, tool.description, BuiltinSchema(BuiltinInputAttrs))];
        fnExecutable := fnExecutable[tool.name := tool.call];
        builtinTools := builtinTools[tool.name := true];
      }
      assert ts[..|ts|] == ts;
    }

    /**
     * AddCustomTools: appends one declaration whose schema declares `params`, registers
     * `fn` under the name (overwriting), and leaves the builtin flags alone.
     */
    method AddCustomTools(name: string, description: string, params: FunctionShape, fn: ToolFn)
      modifies this
      ensures |functions| == |old(functions)| + 1 && functions[..|old(functions)|] == old(functions)
      ensures var d := functions[|old(functions)|];
        d.name == name && d.description == description && DeclaresShape(params, d.schema)
      ensures fnExecutable == old(fnExecutable)[name := fn]
      ensures builtinTools == old(builtinTools)
      ensures config == old(config) && systemPrompts == old(systemPrompts) && userPrompt == old(userPrompt)
    {
      var schema := BuildCustomSchema(params);
      functions := functions + [ToolDecl(name, description, schema)];
      fnExecutable := fnExecutable[name := fn];
    }

    /** Running the tool calls of the first answer, appending one tool message per call. */
    method ExecuteToolCalls(calls: seq<ToolCall>, messages: seq<ChatMessage>) returns (r: Result<seq<ChatMessage>, Error>)
      ensures RunToolCalls(fnExecutable, builtinTools, calls).Ok? ==>
        r == Ok(messages + RunToolCalls(fnExecutable, builtinTools, calls).value)
      ensures RunToolCalls(fnExecutable, builtinTools, calls).Err? ==> r == RunToolCalls(fnExecutable, builtinTools, calls)
    {
      var msgs := messages;
      for i := 0 to |calls|
        invariant RunToolCalls(fnExecutable, builtinTools, calls[..i]).Ok?
        invariant msgs == messages + RunToolCalls(fnExecutable, builtinTools, calls[..i]).value
      {
        assert calls[..i + 1][..i] == calls[..i];
        var toolCall := calls[i];
        if toolCall.functionCall.name !in fnExecutable {
          r := Err(Annotated(ToolCallFailed, "unknown tool " + Quote(toolCall.functionCall.name)));
          RunToolCallsErrPersists(fnExecutable, builtinTools, calls, i + 1);
          return;
        }
        var fn := fnExecutable[toolCall.functionCall.name];
        var toolInput := toolCall.functionCall.arguments.text;
        if IsBuiltin(builtinTools, toolCall.functionCall.name) {
          toolInput := ExtractBuiltinInput(toolCall.functionCall.arguments);
        }
        var called := fn(toolInput);
        if called.err.Some? {
          r := Err(Annotated(ToolCallFailed, "tool " + Quote(toolCall.functionCall.name) + ": " + Message(called.err.value)));
          RunToolCallsErrPersists(fnExecutable, builtinTools, calls, i + 1);
          return;
        }
        msgs := msgs + [ChatMessage(ChatMessageRoleTool, called.content, toolCall.functionCall.name, toolCall.id, [])];
      }
      assert calls[..|calls|] == calls;
      r := Ok(msgs);
    }

    /** Completion: the result, and every request sent, in order, exactly as Complete defines them. */
    method Completion(chat: ChatFn, params: seq<string>) returns (result: Result<string, Error>, requests: seq<ChatRequest>)
      ensures Run(result, requests) == Complete(State(), chat, params)
    {
      if userPrompt.None? {
        return Err(Sentinel(MissingPrompt)), [];
      }
      var prompt := userPrompt.value;
      if |params| > 1 {
        return Err(Sentinel(TooManyArgs)), [];
      }
      if |params| == 1 {
        prompt := prompt + "\n\nTake in consideration the following context: " + params[0];
      }
      var fn: seq<ChatTool> := [];
      for i := 0 to |functions|
        invariant fn == ChatTools(functions[..i])
      {
        assert functions[..i + 1][..i] == functions[..i];
        fn := fn + [ChatTool(ToolTypeFunction, functions[i])];
      }
      assert functions[..|functions|] == functions;
      var messages: seq<ChatMessage> := [];
      for i := 0 to |systemPrompts|
        invariant messages == SystemMessages(systemPrompts[..i])
      {
        assert systemPrompts[..i + 1][..i] == systemPrompts[..i];
        messages := messages + [TextMessage(systemPrompts[i].role, systemPrompts[i].context)];
      }
      assert systemPrompts[..|systemPrompts|] == systemPrompts;
      messages := messages + [TextMessage(AgentRoleUser, prompt)];
      var client := CreateClient(config).value;
      var req := ChatRequest(config.model, messages, config.temperature, None);
      if |fn| > 0 {
        req := req.(tools := Some(fn));
      }
      assert req == FirstRequest(State(), prompt);
      result, requests := Converse(chat, client, req);
    }

    /** Sending the first request and at most one follow-up, exactly as Exchange defines them. */
    method Converse(chat: ChatFn, client: Client, req0: ChatRequest) returns (result: Result<string, Error>, requests: seq<ChatRequest>)
      ensures Run(result, requests) == Exchange(State(), chat, client, req0)
    {
      var req := req0;
      requests := [req];
      var resp := chat(client, req);
      if resp.Err? {
        return Err(Annotated(CompletionFailed, resp.error)), requests;
      }
      if |resp.value.choices| == 0 {
        return Err(Annotated(CompletionFailed, "no choices returned")), requests;
      }
      var msg := resp.value.choices[0].message;
      if |msg.toolCalls| > 0 {
        var messages := req.messages + [msg];
        var answered := ExecuteToolCalls(msg.toolCalls, messages);
        if answered.Err? {
          return Err(answered.error), requests;
        }
        req := req.(messages := answered.value);
        requests := requests + [req];
        resp := chat(client, req);
        if resp.Err? {
          return Err(Annotated(CompletionFailed, "follow-up after tool call: " + resp.error)), requests;
        }
        if |resp.value.choices| == 0 {
          return Err(Annotated(CompletionFailed, "no choices in follow-up response")), requests;
        }
      }
      result := Ok(resp.value.choices[0].message.content);
    }
  }

  /** A missing prompt is reported before the argument count, and neither sends a request. */
  lemma CompleteEarlyErrors(e: Engine, chat: ChatFn, params: seq<string>)
    ensures e.userPrompt.None? ==> Complete(e, chat, params) == Run(Err(Sentinel(MissingPrompt)), [])
    ensures e.userPrompt.Some? && |params| > 1 ==> Complete(e, chat, params) == Run(Err(Sentinel(TooManyArgs)), [])
    ensures Complete(e, chat, params).requests == [] <==> e.userPrompt.None? || |params| > 1
  {
  }

  /**
   * Once the prompt resolves, the completion is the exchange of the first request: the
   * system messages, then one user message with the resolved prompt (a single context
   * argument appended after the fixed suffix, even when empty), with the tools attached
   * exactly when some are declared.
   */
  lemma CompleteFirstRequest(e: Engine, chat: ChatFn, params: seq<string>)
    requires e.userPrompt.Some? && |params| <= 1
    ensures var prompt := ResolveUserPrompt(e.userPrompt, params).value;
      var req := FirstRequest(e, prompt);
      && Complete(e, chat, params) == Exchange(e, chat, CreateClient(e.config).value, req)
      && req.messages == SystemMessages(e.systemPrompts) + [TextMessage(AgentRoleUser, prompt)]
      && req.messages[|e.systemPrompts|].role == AgentRoleUser
      && (|params| == 1 ==> prompt == e.userPrompt.value + "\n\nTake in consideration the following context: " + params[0])
      && (|params| == 0 ==> prompt == e.userPrompt.value)
      && (req.tools.Some? <==> |e.functions| > 0)
      && (req.tools.Some? ==> |req.tools.value| == |e.functions|)
      && req.model == e.config.model
  {
  }

  /**
   * One or two requests, the first being the one given. The second is sent exactly when
   * the first answer asked for tools and every tool call succeeded, and it is the first
   * request with the assistant's message and the tool messages appended.
   */
  lemma ExchangeRequests(e: Engine, chat: ChatFn, client: Client, req: ChatRequest)
    ensures var reqs := Exchange(e, chat, client, req).requests;
      && 1 <= |reqs| <= 2 && reqs[0] == req
      && (|reqs| == 2 <==>
            && chat(client, req).Ok? && |chat(client, req).value.choices| > 0
            && |chat(client, req).value.choices[0].message.toolCalls| > 0
            && RunToolCalls(e.exec, e.builtin, chat(client, req).value.choices[0].message.toolCalls).Ok?)
      && (|reqs| == 2 ==>
            var msg := chat(client, req).value.choices[0].message;
            reqs[1] == req.(messages := req.messages + [msg] + RunToolCalls(e.exec, e.builtin, msg.toolCalls).value))
  {
  }

  /**
   * The follow-up's messages: the first request's, then the assistant's message, then one
   * tool message per call, each carrying the call's id and tool name, in call order.
   */
  lemma FollowUpMessages(e: Engine, messages: seq<ChatMessage>, msg: ChatMessage)
    requires RunToolCalls(e.exec, e.builtin, msg.toolCalls).Ok?
    ensures var all := messages + [msg] + RunToolCalls(e.exec, e.builtin, msg.toolCalls).value;
      && |all| == |messages| + 1 + |msg.toolCalls|
      && all[..|messages|] == messages
      && all[|messages|] == msg
      && forall i :: 0 <= i < |msg.toolCalls| ==>
           var m := all[|messages| + 1 + i];
           m.role == ChatMessageRoleTool && m.toolCallId == msg.toolCalls[i].id && m.name == msg.toolCalls[i].functionCall.name
  {
    RunToolCallsSpec(e.exec, e.builtin, msg.toolCalls);
    var answers := RunToolCalls(e.exec, e.builtin, msg.toolCalls).value;
    var all := messages + [msg] + answers;
    assert all[..|messages|] == messages;
    assert forall i :: 0 <= i < |msg.toolCalls| ==> all[|messages| + 1 + i] == answers[i];
  }

  /**
   * Exactly one tool round: the follow-up's first choice is returned even when it asks for
   * more tools, and an empty choice list or a client error on either request fails with
   * ErrCompletionFailed; a failing tool call ends the completion after one request.
   */
  lemma ExchangeOutcome(e: Engine, chat: ChatFn, client: Client, req: ChatRequest)
    ensures var c := Exchange(e, chat, client, req);
      var last := chat(client, c.requests[|c.requests| - 1]);
      && (last.Ok? && |last.value.choices| == 0 ==> c.result.Err? && Is(c.result.error, CompletionFailed))
      && (last.Err? ==> c.result.Err? && Is(c.result.error, CompletionFailed))
      && (|c.requests| == 2 && last.Ok? && |last.value.choices| > 0 ==>
            c.result == Ok(last.value.choices[0].message.content))
      && (c.result.Ok? ==> last.Ok? && |last.value.choices| > 0 && c.result.value == last.value.choices[0].message.content)
      && (c.result.Err? && Is(c.result.error, ToolCallFailed) ==>
            |c.requests| == 1 && RunToolCalls(e.exec, e.builtin, last.value.choices[0].message.toolCalls).Err?)
  {
    var first := chat(client, req);
    if first.Ok? && |first.value.choices| > 0 {
      RunToolCallsSpec(e.exec, e.builtin, first.value.choices[0].message.toolCalls);
    }
  }
}
