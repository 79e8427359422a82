/**
 * The OpenAI provider engine of the older revision (openai.go). It shares the registry
 * and message building of the other engines but reports misuse by panicking, chooses
 * its credentials by provider, and answers one round of tool calls without checking
 * that a tool exists or that a response has choices.
 *
 * A completion's outcome is `Outcome<string>`: the returned string, or the panic.
 * The client call is abstract: `ReplyFn` gives both the response value and the error,
 * as the Go client does, because this engine reads the second response even on error.
 */
module OpenAi {
  import opened Base
  import opened Common
  import opened Functions
  import opened Prompts
  import opened Tools
  import opened Chat
  import opened Llm
  import opened Legacy

  /** The `input` property a builtin tool declares. */
  const BuiltinInputAttrs: map<string, string> := map["title" := "input", "type" := "string"]

  const MissingPromptPanic: string := "User prompt is required"
  const AzurePanic: string := "AZURE_OPEN_AI_API_KEY or AZURE_OPEN_AI_ENDPOINT not provided"
  const OpenAiKeyPanic: string := "OPENAI_API_KEY Key not provided"

  /** The Go runtime's panic on indexing an empty slice at 0. */
  const NoChoicePanic: string := "runtime error: index out of range [0] with length 0"

  /** What the client hands back: the response value and the error, both always present. */
  datatype Reply = Reply(response: ChatResponse, err: Option<string>)

  type ReplyFn = (Client, ChatRequest) -> Reply

  /** The fields of the shared configuration this engine reads. */
  datatype Settings = Settings(provider: string, model: string, credentials: OpenAiCredentials)

  /**
   * The client: an Azure deployment when the provider is openai-azure (both the Azure key
   * and the endpoint must be set), otherwise the public API with the plain key.
   */
  function ChooseClient(s: Settings): Outcome<Client>
  {
    if s.provider == ProviderAzure then
      if s.credentials.azureOpenAiApiKey == "" || s.credentials.azureOpenAiEndpoint == "" then Panicked(AzurePanic)
      else Returned(AzureClient(s.credentials.azureOpenAiApiKey, s.credentials.azureOpenAiEndpoint))
    else if s.credentials.openAiApiKey == "" then Panicked(OpenAiKeyPanic)
    else Returned(OpenAIClient(s.credentials.openAiApiKey))
  }

  /**
   * Azure needs both of its fields and nothing else; every other provider needs the plain
   * key and nothing else, so a key set for the other kind of provider does not help.
   */
  lemma ChooseClientSpec(s: Settings)
    ensures s.provider == ProviderAzure ==>
      (ChooseClient(s).Returned? <==> s.credentials.azureOpenAiApiKey != "" && s.credentials.azureOpenAiEndpoint != "")
    ensures s.provider != ProviderAzure ==> (ChooseClient(s).Returned? <==> s.credentials.openAiApiKey != "")
    ensures ChooseClient(s).Returned? ==>
      (ChooseClient(s).value.AzureClient? <==> s.provider == ProviderAzure)
    ensures ChooseClient(s).Panicked? ==>
      ChooseClient(s).reason == (if s.provider == ProviderAzure then AzurePanic else OpenAiKeyPanic)
  {
  }

  /**
   * The message answering one tool call. No existence check: an unregistered name calls a
   * nil function, which panics. A tool's error is only printed: its content is still used.
   */
  function LegacyCallTool(exec: map<string, ToolFn>, builtin: map<string, bool>, call: ToolCall): Outcome<ChatMessage>
  {
    var name := call.functionCall.name;
    if name !in exec then Panicked(NilFunctionPanic)
    else
      var r := exec[name](ToolInput(builtin, name, call.functionCall.arguments));
      Returned(ChatMessage(ChatMessageRoleTool, r.content, name, call.id, []))
  }

  /** Answering the calls in order; the first unregistered name panics. */
  function LegacyRunToolCalls(exec: map<string, ToolFn>, builtin: map<string, bool>, calls: seq<ToolCall>): Outcome<seq<ChatMessage>>
  {
    if calls == [] then Returned([])
    else
      var prior := LegacyRunToolCalls(exec, builtin, calls[..|calls| - 1]);
      if prior.Panicked? then prior
      else
        var r := LegacyCallTool(exec, builtin, calls[|calls| - 1]);
        if r.Panicked? then Panicked(r.reason) else Returned(prior.value + [r.value])
  }

  /**
   * The calls panic exactly when one names an unregistered tool. Otherwise there is one tool
   * message per call, in order, with the call's id and name and the tool's output, whether
   * or not the tool reported an error.
   */
  lemma {:induction false} LegacyRunToolCallsSpec(exec: map<string, ToolFn>, builtin: map<string, bool>, calls: seq<ToolCall>)
    ensures var r := LegacyRunToolCalls(exec, builtin, calls);
      && (r.Returned? <==> forall i :: 0 <= i < |calls| ==> calls[i].functionCall.name in exec)
      && (r.Panicked? ==> r.reason == NilFunctionPanic)
      && (r.Returned? ==> |r.value| == |calls| && forall i :: 0 <= i < |calls| ==>
            var name := calls[i].functionCall.name;
            r.value[i] == ChatMessage(ChatMessageRoleTool,
              exec[name](ToolInput(builtin, name, calls[i].functionCall.arguments)).content, name, calls[i].id, []))
  {
    if calls != [] {
      var init := calls[..|calls| - 1];
      LegacyRunToolCallsSpec(exec, builtin, init);
      assert forall i :: 0 <= i < |init| ==> calls[i] == init[i];
    }
  }

  /** Once a prefix of the calls panics, the whole run panics the same way. */
  lemma {:induction false} LegacyPanicPersists(exec: map<string, ToolFn>, builtin: map<string, bool>, calls: seq<ToolCall>, j: nat)
    requires j <= |calls|
    requires LegacyRunToolCalls(exec, builtin, calls[..j]).Panicked?
    ensures LegacyRunToolCalls(exec, builtin, calls) == LegacyRunToolCalls(exec, builtin, calls[..j])
    decreases |calls| - j
  {
    if j < |calls| {
      var init := calls[..|calls| - 1];
      assert init[..j] == calls[..j];
      LegacyPanicPersists(exec, builtin, init, j);
    } else {
      assert calls[..j] == calls;
    }
  }

  /** A snapshot of the engine's fields, with the configuration it points to. */
  datatype Engine = Engine(
    settings: Settings, functions: seq<ToolDecl>, exec: map<string, ToolFn>,
    builtin: map<string, bool>, systemPrompts: seq<AgentPrompt>, userPrompt: Option<string>)

  /** How a completion ends, and every request it sent, in order. */
  datatype Run = Run(out: Outcome<string>, requests: seq<ChatRequest>)

  /** The prompt sent: the stored one, with a single context argument after the suffix. */
  function LegacyPrompt(userPrompt: Option<string>, params: seq<string>): Outcome<string>
  {
    if userPrompt.None? then Panicked(MissingPromptPanic)
    else if |params| > 1 then Panicked(TooManyArgsPanic)
    else if |params| == 1 then Returned(userPrompt.value + LegacyContextSuffix + params[0])
    else Returned(userPrompt.value)
  }

  /** The first request: system messages then the user message; tools only when declared; no temperature. */
  function FirstRequest(e: Engine, prompt: string): ChatRequest
  {
    var tools := ChatTools(e.functions);
    ChatRequest(e.settings.model, SystemMessages(e.systemPrompts) + [TextMessage(AgentRoleUser, prompt)],
      0.0, if |tools| > 0 then Some(tools) else None)
  }

  /** The first choice's content, or the runtime panic of indexing no choices. */
  function FirstContent(r: ChatResponse): Outcome<string>
  {
    if |r.choices| == 0 then Panicked(NoChoicePanic) else Returned(r.choices[0].message.content)
  }

  /** The reference definition of Completion. */
  function Complete(e: Engine, chat: ReplyFn, params: seq<string>): Run
  {
    var prompt := LegacyPrompt(e.userPrompt, params);
    if prompt.Panicked? then Run(Panicked(prompt.reason), [])
    else
      var client := ChooseClient(e.settings);
      if client.Panicked? then Run(Panicked(client.reason), [])
      else Exchange(e, chat, client.value, FirstRequest(e, prompt.value))
  }

  /** The exchange once the first request is built. */
  function Exchange(e: Engine, chat: ReplyFn, client: Client, req: ChatRequest): Run
  {
    var first := chat(client, req);
    if first.err.Some? then Run(Returned(""), [req])
    else if |first.response.choices| == 0 then Run(Panicked(NoChoicePanic), [req])
    else
      var msg := first.response.choices[0].message;
      if |msg.toolCalls| == 0 then Run(Returned(msg.content), [req])
      else
        var answers := LegacyRunToolCalls(e.exec, e.builtin, msg.toolCalls);
        if answers.Panicked? then Run(Panicked(answers.reason), [req])
        else
          var followUp := req.(messages := req.messages + [msg] + answers.value);
          Run(FirstContent(chat(client, followUp).response), [req, followUp])
  }

  /** The OpenAI engine (openAI). The configuration is shared by reference, as in Go. */
  class OpenAIEngine {
    const config: LlmConfig
    var functions: seq<ToolDecl>
    var fnExecutable: map<string, ToolFn>
    var builtinTools: map<string, bool>
    var systemPrompts: seq<AgentPrompt>
    var userPrompt: Option<string>

    /** NewOpenAI: empty registry, the two persona system prompts in order, no user prompt. */
    constructor (c: LlmConfig, role: string, backstory: string, goal: string)
      ensures config == c && functions == [] && fnExecutable == map[] && builtinTools == map[]
      ensures systemPrompts == BuildSystemPrompts(role, backstory, goal) && userPrompt == None
    {
      config := c;
      functions := [];
      fnExecutable := map[];
      builtinTools := map[];
      systemPrompts := [AgentPrompt(AgentRoleSystem, "As a " + role + ", " + backstory),
                        AgentPrompt(AgentRoleSystem, "Your goal is " + goal)];
      userPrompt := None;
    }

    function State(): Engine
      reads this, config
    {
      Engine(Settings(config.provider, config.model, config.credentials),
        functions, fnExecutable, builtinTools, systemPrompts, userPrompt)
    }

    /** WithUserPrompt: stores the prompt and changes nothing else. */
    method WithUserPrompt(prompt: string)
      modifies this
      ensures userPrompt == Some(prompt)
      ensures functions == old(functions) && fnExecutable == old(fnExecutable)
      ensures builtinTools == old(builtinTools) && systemPrompts == old(systemPrompts)
    {
      userPrompt := Some(prompt);
    }

    /**
     * WithTools: per tool, in order, one builtin declaration appended, the tool's call
     * registered under its name, and the name marked builtin.
     */
    method WithTools(ts: seq<Tool>)
      modifies this
      ensures functions == old(functions) + BuiltinDecls(ts, BuiltinInputAttrs)
      ensures fnExecutable == RegisterAll(old(fnExecutable), ts)
      ensures builtinTools == MarkAll(old(builtinTools), ts)
      ensures systemPrompts == old(systemPrompts) && userPrompt == old(userPrompt)
    {
      for i := 0 to |ts|
        invariant functions == old(functions) + BuiltinDecls(ts[..i], BuiltinInputAttrs)
        invariant fnExecutable == RegisterAll(old(fnExecutable), ts[..i])
        invariant builtinTools == MarkAll(old(builtinTools), ts[..i])
        invariant systemPrompts == old(systemPrompts) && userPrompt == old(userPrompt)
      {
        assert ts[..i + 1][..i] == ts[..i];
        var t := ts[i];
        functions := functions + [ToolDecl(t.name, t.description, BuiltinSchema(BuiltinInputAttrs))];
        fnExecutable := fnExecutable[t.name := t.call];
        builtinTools := builtinTools[t.name := true];
      }
      assert ts[..|ts|] == ts;
    }

    /**
     * AddCustomTools: appends a declaration whose parameters are what `generateSchema` makes
     * of `params`, registers `fn` under the name, and leaves the builtin flags alone.
     */
    method AddCustomTools(name: string, description: string, params: FunctionShape, fn: ToolFn,
                          generateSchema: FunctionShape -> Schema)
      modifies this
      ensures functions == old(functions) + [ToolDecl(name, description, generateSchema(params))]
      ensures fnExecutable == old(fnExecutable)[name := fn]
      ensures builtinTools == old(builtinTools)
      ensures systemPrompts == old(systemPrompts) && userPrompt == old(userPrompt)
    {
      var jsonschema := generateSchema(params);
      functions := functions + [ToolDecl(name, description, jsonschema)];
      fnExecutable := fnExecutable[name := fn];
    }

    /** Answering the tool calls of the first answer, appending one tool message per call. */
    method ExecuteToolCalls(calls: seq<ToolCall>, messages: seq<ChatMessage>) returns (r: Outcome<seq<ChatMessage>>)
      ensures LegacyRunToolCalls(fnExecutable, builtinTools, calls).Returned? ==>
        r == Returned(messages + LegacyRunToolCalls(fnExecutable, builtinTools, calls).value)
      ensures LegacyRunToolCalls(fnExecutable, builtinTools, calls).Panicked? ==>
        r == LegacyRunToolCalls(fnExecutable, builtinTools, calls)
    {
      var msgs := messages;
      for i := 0 to |calls|
        invariant LegacyRunToolCalls(fnExecutable, builtinTools, calls[..i]).Returned?
        invariant msgs == messages + LegacyRunToolCalls(fnExecutable, builtinTools, calls[..i]).value
      {
        assert calls[..i + 1][..i] == calls[..i];
        var toolCall := calls[i];
        if toolCall.functionCall.name !in fnExecutable {
          r := Panicked(NilFunctionPanic);
          LegacyPanicPersists(fnExecutable, builtinTools, calls, i + 1);
          return;
        }
        var fn := fnExecutable[toolCall.functionCall.name];
        var toolInput := toolCall.functionCall.arguments.text;
        if IsBuiltin(builtinTools, toolCall.functionCall.name) {
          toolInput := ExtractBuiltinInput(toolCall.functionCall.arguments);
        }
        var called := fn(toolInput);
        msgs := msgs + [ChatMessage(ChatMessageRoleTool, called.content, toolCall.functionCall.name, toolCall.id, [])];
      }
      assert calls[..|calls|] == calls;
      r := Returned(msgs);
    }

    /** Completion: the outcome, and every request sent, in order, exactly as Complete defines them. */
    method Completion(chat: ReplyFn, params: seq<string>) returns (out: Outcome<string>, requests: seq<ChatRequest>)
      ensures Run(out, requests) == Complete(State(), chat, params)
    {
      if userPrompt.None? {
        return Panicked(MissingPromptPanic), [];
      }
      var prompt := userPrompt.value;
      if |params| > 1 {
        return Panicked(TooManyArgsPanic), [];
      }
      if |params| == 1 {
        prompt := prompt + "\n\n take in consideration the following context: " + params[0];
      }
      var fn: seq<ChatTool> := [];
      for i := 0 to |functions|
        invariant fn == ChatTools(functions[..i])
      {
        assert functions[..i + 1][..i] == functions[..i];
        fn := fn + [ChatTool(ToolTypeFunction, functions[i])];
      }
      assert functions[..|functions|] == functions;
      var messages: seq<ChatMessage> := [];
      for i := 0 to |systemPrompts|
        invariant messages == SystemMessages(systemPrompts[..i])
      {
        assert systemPrompts[..i + 1][..i] == systemPrompts[..i];
        messages := messages + [TextMessage(systemPrompts[i].role, systemPrompts[i].context)];
      }
      assert systemPrompts[..|systemPrompts|] == systemPrompts;
      messages := messages + [TextMessage(AgentRoleUser, prompt)];
      var client: Client;
      if config.provider == ProviderAzure {
        var azureApiKey := config.credentials.azureOpenAiApiKey;
        var azureEndpoint := config.credentials.azureOpenAiEndpoint;
        if azureApiKey == "" || azureEndpoint == "" {
          return Panicked(AzurePanic), [];
        }
        client := AzureClient(azureApiKey, azureEndpoint);
      } else {
        var openAIApiKey := config.credentials.openAiApiKey;
        if openAIApiKey == "" {
          return Panicked(OpenAiKeyPanic), [];
        }
        client := OpenAIClient(openAIApiKey);
      }
      var req := ChatRequest(config.model, messages, 0.0, None);
      if |fn| > 0 {
        req := req.(tools := Some(fn));
      }
      assert req == FirstRequest(State(), prompt);
      out, requests := Converse(chat, client, req);
    }

    /** Sending the first request and at most one follow-up, exactly as Exchange defines them. */
    method Converse(chat: ReplyFn, client: Client, req0: ChatRequest) returns (out: Outcome<string>, requests: seq<ChatRequest>)
      ensures Run(out, requests) == Exchange(State(), chat, client, req0)
    {
      var req := req0;
      requests := [req];
      var reply := chat(client, req);
      if reply.err.Some? {
        return Returned(""), requests;
      }
      if |reply.response.choices| == 0 {
        return Panicked(NoChoicePanic), requests;
      }
      var msg := reply.response.choices[0].message;
      if |msg.toolCalls| > 0 {
        var answered := ExecuteToolCalls(msg.toolCalls, req.messages + [msg]);
        if answered.Panicked? {
          return Panicked(answered.reason), requests;
        }
        req := req.(messages := answered.value);
        requests := requests + [req];
        reply := chat(client, req);
      }
      if |reply.response.choices| == 0 {
        return Panicked(NoChoicePanic), requests;
      }
      out := Returned(reply.response.choices[0].message.content);
    }
  }

  /** Misuse panics in order (prompt, argument count, then credentials), before any request. */
  lemma CompletePanics(e: Engine, chat: ReplyFn, params: seq<string>)
    ensures e.userPrompt.None? ==> Complete(e, chat, params) == Run(Panicked(MissingPromptPanic), [])
    ensures e.userPrompt.Some? && |params| > 1 ==> Complete(e, chat, params) == Run(Panicked(TooManyArgsPanic), [])
    ensures e.userPrompt.Some? && |params| <= 1 && ChooseClient(e.settings).Panicked? ==>
      Complete(e, chat, params) == Run(Panicked(ChooseClient(e.settings).reason), [])
    ensures Complete(e, chat, params).requests == [] <==>
      e.userPrompt.None? || |params| > 1 || ChooseClient(e.settings).Panicked?
  {
  }

  /**
   * Otherwise the completion is the exchange of the first request: system messages, then
   * one user message whose text carries a single context argument after the lower-case
   * suffix; tools are attached exactly when some are declared.
   */
  lemma CompleteFirstRequest(e: Engine, chat: ReplyFn, params: seq<string>)
    requires e.userPrompt.Some? && |params| <= 1 && ChooseClient(e.settings).Returned?
    ensures var prompt := LegacyPrompt(e.userPrompt, params).value;
      var req := FirstRequest(e, prompt);
      && Complete(e, chat, params) == Exchange(e, chat, ChooseClient(e.settings).value, req)
      && req.messages == SystemMessages(e.systemPrompts) + [TextMessage(AgentRoleUser, prompt)]
      && (|params| == 1 ==> prompt == e.userPrompt.value + "\n\n take in consideration the following context: " + params[0])
      && (|params| == 0 ==> prompt == e.userPrompt.value)
      && (req.tools.Some? <==> |e.functions| > 0)
      && req.model == e.settings.model
  {
  }

  /**
   * One or two requests, the first being the one given. A client error on the first gives
   * "" with no panic; no choices panics. A second request is sent exactly when the first
   * answer asked for tools that are all registered, and it extends the first with the
   * assistant's message and the tool messages.
   */
  lemma ExchangeRequests(e: Engine, chat: ReplyFn, client: Client, req: ChatRequest)
    ensures var c := Exchange(e, chat, client, req);
      var first := chat(client, req);
      && 1 <= |c.requests| <= 2 && c.requests[0] == req
      && (first.err.Some? ==> c == Run(Returned(""), [req]))
      && (first.err.None? && |first.response.choices| == 0 ==> c == Run(Panicked(NoChoicePanic), [req]))
      && (|c.requests| == 2 <==>
            && first.err.None? && |first.response.choices| > 0
            && |first.response.choices[0].message.toolCalls| > 0
            && forall i :: 0 <= i < |first.response.choices[0].message.toolCalls| ==>
                 first.response.choices[0].message.toolCalls[i].functionCall.name in e.exec)
      && (|c.requests| == 2 ==>
            var msg := first.response.choices[0].message;
            c.requests[1] == req.(messages := req.messages + [msg] + LegacyRunToolCalls(e.exec, e.builtin, msg.toolCalls).value))
  {
    var first := chat(client, req);
    if first.err.None? && |first.response.choices| > 0 {
      LegacyRunToolCallsSpec(e.exec, e.builtin, first.response.choices[0].message.toolCalls);
    }
  }

  /**
   * The result is the first choice of the latest response: after a tool round the follow-up
   * is read whatever its error, and a follow-up without choices panics. An unregistered tool
   * panics after one request.
   */
  lemma ExchangeOutcome(e: Engine, chat: ReplyFn, client: Client, req: ChatRequest)
    ensures var c := Exchange(e, chat, client, req);
      var last := chat(client, c.requests[|c.requests| - 1]);
      && (|c.requests| == 2 ==> c.out == FirstContent(last.response))
      && ((|c.requests| == 1 && last.err.None? && |last.response.choices| > 0
           && |last.response.choices[0].message.toolCalls| == 0) ==> c.out == FirstContent(last.response))
      && (c.out.Panicked? && c.out.reason == NilFunctionPanic ==>
            && |c.requests| == 1
            && (exists i :: 0 <= i < |last.response.choices[0].message.toolCalls|
                 && last.response.choices[0].message.toolCalls[i].functionCall.name !in e.exec))
  {
    var c := Exchange(e, chat, client, req);
    var first := chat(client, req);
    if first.err.None? && |first.response.choices| > 0 {
      LegacyRunToolCallsSpec(e.exec, e.builtin, first.response.choices[0].message.toolCalls);
    }
  }

  /**
   * A tool's error does not stop the round: the tool's output still becomes the tool
   * message, exactly as for a successful call.
   */
  lemma ToolErrorIgnored(exec: map<string, ToolFn>, builtin: map<string, bool>, call: ToolCall)
    requires call.functionCall.name in exec
    requires exec[call.functionCall.name](ToolInput(builtin, call.functionCall.name, call.functionCall.arguments)).err.Some?
    ensures LegacyCallTool(exec, builtin, call).Returned?
    ensures LegacyCallTool(exec, builtin, call).value.content ==
      exec[call.functionCall.name](ToolInput(builtin, call.functionCall.name, call.functionCall.arguments)).content
  {
  }
}
