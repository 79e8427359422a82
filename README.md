# forza, modelled in Dafny

forza is a Go library for building LLM "agents": a persona (role, backstory, goal) and a
configuration are turned into a provider engine (OpenAI, Azure OpenAI, Anthropic, Gemini,
Ollama) that sends a prompt, answers the model's tool calls with registered Go functions and
returns the final text; a pipeline runs such completions one after another or as a chain.

This project models the core of the library:

- the **Anthropic engine** (`anthropic.go`): the tool registry, the system prompt, the
  HTTP round trip with its classification of failures, and the tool loop capped at ten
  follow-up rounds;
- the **retry executor** (`retry.go`): which errors are retried, how many attempts are
  made, the exponential backoff with jitter, and the cancellable wait;
- the **Ollama engine** (`ollama.go`) and the older **OpenAI engine** (`openai.go`), which
  answer one round of tool calls through an OpenAI-compatible client;
- the **model tables and checks** (`common.go`), **parameter shapes** (`functions.go`),
  the **agent and provider factory** (`agent.go`), the **pipeline** (`forza.go`), the
  configuration builder (`llm.go`), and the older task/adaptor layer (`task.go`,
  `adaptor.go`, `forza/agent.go`, `forza/task.go`);
- the sixteen sentinel errors (`errors.go`) with Go's `Error()`, `Unwrap` and `errors.Is`.

HTTP, JSON and the OpenAI client library are abstract. A server is a function from a
request and an attempt number to what came back (a transport failure, or a status with a
body that was read and decoded); the OpenAI-compatible client is a function from a client
and a request to a decoded response or an error text; tool functions, task functions and
the adaptor's completion are function-typed parameters. The context's cancellation is an
oracle saying whether the context fires during a given backoff wait. Random jitter is a
nondeterministic choice within its bounds. Go panics are an `Outcome` value
(`Returned(value)` or `Panicked(reason)`).

Each engine keeps its fields in a class whose methods update them in place, and each
completion method is proved equal to a reference function (`Complete`, `Exchange`,
`Rounds`) whose properties are then proved as lemmas. Loops over slices are `for` loops
whose invariants tie the prefix processed so far to a fold over that prefix.

Files, one module each: `base.dfy` (Option, Result, Outcome, number formatting),
`errors.dfy`, `common.dfy`, `functions.dfy`, `prompts.dfy` (prompt helpers shared by the
engines), `tools.dfy` (the tool registry's values and the schema loop), `chat.dfy` (the
OpenAI-compatible chat values), `retry.dfy`, `anthropic.dfy`, `ollama.dfy`, `llm.dfy`,
`legacy.dfy` (values shared by the older layer), `openai.dfy`, `forza.dfy`, `agent.dfy`,
`task.dfy`, `adaptor.dfy`, `forza_agent.dfy`, `forza_task.dfy`.

### Behaviour of the code worth knowing

- A failing tool is reported as `ErrToolCallFailed` with the tool's error formatted by `%v`
  (anthropic.go:224, ollama.go:180), so only its text survives: `errors.Is` does not find
  the tool's own sentinels (`Tools.InvokeSpec`).
- A failure of the first request is returned as it is, while a failure of a follow-up
  request is put under `ErrCompletionFailed` with the text "follow-up after tool call: "
  and the error formatted by `%v` (anthropic.go:240-243, ollama.go:193-195). A cancelled
  context during a follow-up is therefore no longer `context.Canceled` for `errors.Is`.
- The Anthropic loop sends up to eleven requests and reports
  `ErrMaxToolRoundsExceeded` without looking at the answer to the last one, even when that
  answer holds only text (anthropic.go:187-246, `Anthropic.RoundsOutcome`).
- The Ollama engine does not retry and answers tool calls for exactly one round: the
  follow-up's first choice is returned even if it asks for more tools (ollama.go:157-201).
- The older OpenAI engine and the older task layer panic on misuse, ignore a tool's error,
  call a nil function for an unknown tool and index a response without choices
  (openai.go:88-220, task.go:26-49).
- `CreateChain` formats a task's error with `%v` under `ErrChainInterrupted`
  (forza.go:62-64), while `RunSequentially` wraps it with `%w` (forza.go:146-149): only
  the latter keeps the task's sentinels visible to `errors.Is`.

## Model

| member | source | states |
|---|---|---|
| Errors.ChainFollowsUnwrap | retry.go:25-26 | the chain of an error lists exactly what successive `Unwrap` calls return, ending where `Unwrap` gives nil |
| Errors.IsMeansOnChain | errors.go:5-22 | `errors.Is(err, sentinel)` holds exactly when the sentinel occurs on the error's Unwrap chain |
| Errors.RetryableTransparent | retry.go:20-26 | a retryableError has its inner error's text, unwraps to it, and is recognised as every sentinel the inner error is |
| Errors.AnnotatedIs | agent.go:59 | a `%w: detail` annotation is recognised as its own sentinel and no other, and its text is the sentinel's text, ": ", the detail |
| Errors.ContextErrIsNoSentinel | retry.go:55-57 | the context's error is none of the package's sentinels and has a non-empty text |
| Common.ProvidersDistinct | common.go:12-18 | the five provider names are non-empty and pairwise distinct |
| Common.OpenAIModelList.ListModels | common.go:45-47 | the OpenAI list has eight models, each field at its declaration position, from gpt-3.5-turbo to gpt-5 |
| Common.AnthropicModelList.ListModels | common.go:72-74 | the Anthropic list has five models, each field at its declaration position |
| Common.GeminiModelList.ListModels | common.go:95-97 | the Gemini list has four models, each field at its declaration position |
| Common.OllamaModelList.ListModels | common.go:119-121 | the Ollama list has six models, each field at its declaration position |
| Common.AvailableProviders | common.go:135-141 | the registered providers are exactly the five names, and openai-azure shares the OpenAI list |
| Common.CheckModelSpec | common.go:144-161 | the check accepts exactly a registered provider with a model from its list, or any model for Ollama; a refusal always carries a message |
| Common.OllamaAcceptsAnyModel | common.go:150-152 | Ollama accepts a model that is not in its list |
| Common.AzureUsesOpenAIList | common.go:135-141 | an openai-azure model is accepted exactly when it is in the OpenAI list |
| Common.ListedModelsAccepted | common.go:144-161 | every model of a non-Ollama provider's list is accepted for it with "model exists", and the list names each model once |
| Common.OpenAIListHoldsTestedModels | common.go:50-59 | gpt-3.5-turbo, gpt-4, gpt-4o, gpt-4-turbo and gpt-4o-mini are in the OpenAI list and accepted for openai and openai-azure; an unknown model is refused |
| Functions.ApplyWritesOneEntry | functions.go:13-20 | a WithProperty option writes its own entry with its description and flag and leaves every other entry unchanged |
| Functions.ApplyAllPanics | functions.go:23-29 | applying options panics exactly when one of them is nil, with Go's nil-call panic |
| Functions.PanicPersists | functions.go:23-29 | once an option panics, the later options change nothing about the outcome |
| Functions.NewFunction | functions.go:23-29 | the loop's result is the options applied in order to an empty map, and it panics exactly when an option is nil |
| Functions.ApplyAllKeys | functions.go:23-29 | with WithProperty options only, the shape has one entry per distinct name supplied |
| Functions.LastWriteWins | functions.go:13-29 | the last WithProperty option naming a parameter decides its entry |
| Functions.NoOptionsEmptyShape | functions.go:23-29 | with no options the shape is empty |
| Functions.CustomOptionMayClear | functions.go:23-29 | an option written by the caller may rewrite the shape, for instance remove every entry written before it |
| Prompts.BuildSystemPrompts | ollama.go:28-37 | exactly two system prompts: "As a role, backstory", then "Your goal is goal" |
| Prompts.ResolveUserPromptSpec | ollama.go:96-106 | resolution fails exactly when no prompt is set (ErrMissingPrompt, checked first) or more than one argument is given (ErrTooManyArgs); with none the prompt is unchanged |
| Prompts.ResolvedPromptCarriesContext | ollama.go:104-106 | one context argument is appended after the fixed suffix, the stored prompt staying a prefix, even when the argument is empty |
| Prompts.ExtractBuiltinInputSpec | ollama.go:166-176 | a builtin tool receives the `input` string member of its JSON arguments when there is one, and the raw text otherwise |
| Tools.BuiltinDecls | ollama.go:51-63 | one declaration per tool, in order, with the tool's name and description and a schema with the single required string `input` |
| Tools.RegisterAllSpec | ollama.go:51-66 | after registering tools in order, a name maps to the call of the last tool carrying it, and every other name keeps its executable |
| Tools.MarkAllSpec | ollama.go:51-66 | registering tools marks exactly their names as builtin and keeps every other flag |
| Tools.InvokeSpec | ollama.go:160-181 | a tool call succeeds exactly for a registered tool that returns no error, with that tool's output on the extracted input; every failure wraps ErrToolCallFailed, an unknown tool naming it |
| Tools.BuildCustomSchema | anthropic.go:119-130 | whatever order the map walk takes, the schema declares one string property per parameter with its description and lists each required parameter exactly once |
| Tools.DeclaredRequiredCount | ollama.go:70-81 | the required list is as long as the number of required parameters |
| Chat.ChatTools | ollama.go:109-115 | one function tool per declaration, in order |
| Chat.SystemMessages | ollama.go:118-124 | one message per system prompt, in order, with the prompt's role and text |
| Retry.RetryableStatusSet | retry.go:11-17 | the retryable statuses are exactly 429, 500, 502, 503 and 504 |
| Retry.WrappedRetryableNotRetried | retry.go:43-49 | only an error that is itself a retryableError with a retryable status is retried; one wrapped in another error is not |
| Retry.Attempts | retry.go:31-33 | at least one attempt: a non-positive maximum means one |
| Retry.RetryFromShape | retry.go:36-62 | every call before the last failed with a retryable error and its wait completed; the last call's outcome, the attempt budget or a cancelled wait decides the result |
| Retry.CallsBounded | retry.go:36-62 | between one and max(maxAttempts, 1) calls; the run succeeds exactly when its last call did |
| Retry.NonPositiveMaxAttemptsRunsOnce | retry.go:31-33 | with maxAttempts <= 0 the operation runs exactly once and its result is returned |
| Retry.NonRetryableStopsImmediately | retry.go:43-49 | an error that is not retryable ends the run after the first call, unchanged |
| Retry.ExhaustsAttempts | retry.go:36-62 | when every call fails retryably and no wait is cancelled, all attempts are made and the last error is returned |
| Retry.CancelledWaitStops | retry.go:52-59 | a cancelled wait returns the context's error and no further call is made |
| Retry.WithRetry | retry.go:30-63 | the run is the one RetryFrom defines; wait i lasts 500ms·2^i plus a jitter below half of that, and no wait follows the final call |
| Anthropic.ClassifySpec | anthropic.go:265-303 | every failed attempt wraps ErrCompletionFailed; it is retryable, with the status, exactly when a non-200 status came back; success needs a 200 whose body was read, decoded and has no error member |
| Anthropic.SendErrors | anthropic.go:249-310 | doRequest fails only with an ErrCompletionFailed error or the context's error, never a tool or round error |
| Anthropic.SendSettledByFirstAttempt | anthropic.go:305-307 | a first attempt that succeeds or fails without a retryable status decides the request alone |
| Anthropic.ToolUsesSpec | anthropic.go:190-201 | the tool_use blocks kept are tool_use blocks of the content, and there are none exactly when the content has none |
| Anthropic.SplitContent | anthropic.go:188-197 | the text blocks concatenated in order and the tool_use blocks in order |
| Anthropic.RunToolsSpec | anthropic.go:210-232 | the tools run succeed exactly when every call does, with one tool_result per block in order; otherwise the first failing call's error |
| Anthropic.RunToolsErrPersists | anthropic.go:211-225 | a failure among the first blocks is the failure of the whole round |
| Anthropic.JoinSystemJoinsLines | anthropic.go:156-162 | with non-empty contexts the system prompt is the contexts joined by newlines, in order |
| Anthropic.EmptyContextAddsNoSeparator | anthropic.go:158-160 | an empty first context adds no separator before the next one |
| Anthropic.PersonaSystemPrompt | anthropic.go:86 | the persona's system prompt is "As a role, backstory" and "Your goal is goal" on two lines |
| Anthropic.RoundStepShape | anthropic.go:203-238 | a tool round keeps every earlier message and field and appends the assistant's content, then one tool_result per tool_use block with that block's id, in order |
| Anthropic.RoundsBounded | anthropic.go:187-246 | the loop sends at most one follow-up per remaining round |
| Anthropic.RoundsSteps | anthropic.go:187-244 | each follow-up is its predecessor after a tool round answering that predecessor's response |
| Anthropic.RoundsOutcome | anthropic.go:187-246 | text comes only from an answer without tool_use blocks; ErrMaxToolRoundsExceeded exactly when the round budget is spent and the last follow-up was answered; a tool failure is the first failing call of the last answer; a failed follow-up wraps ErrCompletionFailed |
| Anthropic.AnthropicProvider.constructor | anthropic.go:79-90 | an empty registry, the persona's two system prompts, no user prompt |
| Anthropic.AnthropicProvider.WithUserPrompt | anthropic.go:92-94 | stores the prompt and changes nothing else |
| Anthropic.AnthropicProvider.WithTools | anthropic.go:96-116 | appends one builtin declaration per tool, registers each call under its name and marks it builtin; nothing else changes |
| Anthropic.AnthropicProvider.AddCustomTools | anthropic.go:118-142 | appends a declaration whose schema declares the shape, registers the function (overwriting) and leaves the builtin flags alone |
| Anthropic.AnthropicProvider.DoRequest | anthropic.go:249-310 | the result is the retry run over the attempts followed by the last attempt's decoded response |
| Anthropic.AnthropicProvider.ExecuteTools | anthropic.go:210-232 | the tool results or error of the round, as RunTools defines them |
| Anthropic.AnthropicProvider.ToolLoop | anthropic.go:186-246 | the loop's result and follow-up requests are those Rounds defines |
| Anthropic.AnthropicProvider.Completion | anthropic.go:144-247 | the result and every request sent, in order, are those Complete defines |
| Anthropic.CompleteEarlyErrors | anthropic.go:145-153 | a prompt error, then a missing API key, are reported before any request; a request is sent exactly when neither occurs |
| Anthropic.CompleteFirstRequest | anthropic.go:155-179 | the first request has the joined system prompt, one user message with the resolved prompt, and the declarations exactly when some exist |
| Anthropic.CompleteRequestsBounded | anthropic.go:181-246 | a completion sends at most eleven requests |
| Anthropic.CompleteRoundSteps | anthropic.go:186-244 | every request after the first is its predecessor after a tool round answering it |
| Anthropic.CompleteOutcome | anthropic.go:144-247 | how a completion ends in terms of the answer to its last request: its text, the first failing tool, the round cap after eleven answered requests, or the send error (wrapped for a follow-up) |
| Ollama.CreateClientSpec | ollama.go:204-213 | never an error, the token "ollama", the configured endpoint or the local default when empty |
| Ollama.RunToolCallsSpec | ollama.go:157-189 | the calls succeed exactly when every one does, with one tool message per call in order carrying its id, name and output; otherwise ErrToolCallFailed |
| Ollama.RunToolCallsErrPersists | ollama.go:160-181 | a failure among the first calls is the failure of the whole round |
| Ollama.OllamaProvider.constructor | ollama.go:24-45 | an empty registry, the persona's two system prompts, no user prompt |
| Ollama.OllamaProvider.WithUserPrompt | ollama.go:47-49 | stores the prompt and changes nothing else |
| Ollama.OllamaProvider.WithTools | ollama.go:51-67 | appends one builtin declaration per tool, registers each call under its name and marks it builtin; nothing else changes |
| Ollama.OllamaProvider.AddCustomTools | ollama.go:69-93 | appends a declaration whose schema declares the shape, registers the function and leaves the builtin flags alone |
| Ollama.OllamaProvider.ExecuteToolCalls | ollama.go:157-189 | the messages extended with the tool messages, or the first failure, as RunToolCalls defines them |
| Ollama.OllamaProvider.Completion | ollama.go:95-202 | the result and every request sent are those Complete defines |
| Ollama.OllamaProvider.Converse | ollama.go:145-201 | the result and requests after the first request is built are those Exchange defines |
| Ollama.CompleteEarlyErrors | ollama.go:96-103 | a missing prompt is reported before too many arguments, and neither sends a request |
| Ollama.CompleteFirstRequest | ollama.go:100-143 | the first request: system messages, then one user message with the resolved prompt, and the tools exactly when some are declared |
| Ollama.ExchangeRequests | ollama.go:145-192 | one or two requests; the second is sent exactly when the first answer asked for tools and all calls succeeded, and it extends the first with the assistant's message and tool messages |
| Ollama.FollowUpMessages | ollama.go:158-191 | the follow-up keeps the first request's messages, then the assistant's message, then one tool message per call with its id and name |
| Ollama.ExchangeOutcome | ollama.go:145-201 | exactly one tool round: the follow-up's first choice is returned even if it asks for tools; a client error or no choices fails with ErrCompletionFailed; a failing tool ends after one request |
| Llm.OpenAiOnly | llm.go:44-50 | the stored credentials hold only the plain key |
| Llm.AzureOnly | llm.go:52-59 | the stored credentials hold only the Azure key and endpoint |
| Llm.LlmConfig.constructor | llm.go:23-27 | temperature 0.3 and everything else empty |
| Llm.LlmConfig.WithTempature | llm.go:29-32 | sets the temperature only and returns the receiver |
| Llm.LlmConfig.WithProvider | llm.go:34-37 | sets the provider only and returns the receiver |
| Llm.LlmConfig.WithModel | llm.go:39-42 | sets the model only and returns the receiver |
| Llm.LlmConfig.WithOpenAiCredentials | llm.go:44-50 | replaces the credentials, clearing any Azure key and endpoint, and returns the receiver |
| Llm.LlmConfig.WithAzureOpenAiCredentials | llm.go:52-59 | replaces the credentials, clearing the plain key, and returns the receiver |
| Llm.CredentialsExclusive | llm.go:44-59 | the two credential setters never combine: a plain key and an Azure pair are not stored together |
| OpenAi.ChooseClientSpec | openai.go:129-149 | Azure needs both its key and endpoint, every other provider the plain key; otherwise the matching panic |
| OpenAi.LegacyRunToolCallsSpec | openai.go:175-208 | the round panics exactly when a call names an unregistered tool; otherwise one tool message per call with its id, name and the tool's output whether or not the tool failed |
| OpenAi.LegacyPanicPersists | openai.go:175-197 | a panic among the first calls is the outcome of the whole round |
| OpenAi.ToolErrorIgnored | openai.go:197-207 | a tool's error does not stop the round; its output is still sent back |
| OpenAi.OpenAIEngine.constructor | openai.go:27-48 | an empty registry, the persona's two system prompts, no user prompt, the configuration shared by reference |
| OpenAi.OpenAIEngine.WithUserPrompt | openai.go:50-52 | stores the prompt and changes nothing else |
| OpenAi.OpenAIEngine.WithTools | openai.go:54-72 | appends one builtin declaration per tool, registers each call under its name and marks it builtin |
| OpenAi.OpenAIEngine.AddCustomTools | openai.go:74-86 | appends a declaration with the generated schema and registers the function, leaving the builtin flags alone |
| OpenAi.OpenAIEngine.ExecuteToolCalls | openai.go:175-208 | the messages extended with the tool messages, or the panic, as LegacyRunToolCalls defines them |
| OpenAi.OpenAIEngine.Completion | openai.go:88-220 | the outcome and every request sent are those Complete defines |
| OpenAi.OpenAIEngine.Converse | openai.go:159-219 | the outcome and requests after the first request is built are those Exchange defines |
| OpenAi.CompletePanics | openai.go:88-149 | misuse panics in order (prompt, argument count, credentials) before any request |
| OpenAi.CompleteFirstRequest | openai.go:99-158 | the first request: system messages then one user message with the lower-case context suffix; tools exactly when declared |
| OpenAi.ExchangeRequests | openai.go:160-212 | one or two requests; a first client error gives "" without panic, no choices panics; a second request is sent exactly when all requested tools are registered |
| OpenAi.ExchangeOutcome | openai.go:168-219 | the result is the first choice of the latest response, read after a tool round whatever its error; an unregistered tool panics after one request |
| Forza.ChainErrPersists | forza.go:50-64 | a chain that failed on a prefix fails on the whole list the same way |
| Forza.ChainCalledAll | forza.go:50-66 | a chain calls at most every task, and every task when it succeeds |
| Forza.ChainFoldFrom | forza.go:47-68 | the chain agrees with threading each result into the next task from any point reached |
| Forza.ChainIsPipe | forza.go:44-68 | the chain is the pipe that runs the first task with no argument and each later task on its predecessor's result |
| Forza.EmptyChain | forza.go:47-68 | an empty chain returns "" without error and calls nothing |
| Forza.ChainNilTask | forza.go:51-53 | a nil task reached at index i ends the chain with ErrNilTask naming i after i calls |
| Forza.ChainTaskError | forza.go:62-64 | a task error at index i ends the chain with ErrChainInterrupted carrying only the task's text, after i+1 calls |
| Forza.RunChain | forza.go:47-68 | the chain's result and number of calls are those ChainFold defines |
| Forza.SeqFoldSuccess | forza.go:138-153 | a sequential run succeeds exactly when every task does, with one result per task in order |
| Forza.SeqErrPersists | forza.go:140-150 | a run that stopped on a prefix stops the same way on the whole list |
| Forza.SeqFoldFirstFailure | forza.go:140-150 | at the first failing task the run returns exactly the earlier results and ErrNilTask or the task's error wrapped so that errors.Is still sees it |
| Forza.Pipeline.constructor | forza.go:23-25 | no tasks |
| Forza.Pipeline.AddTasks | forza.go:40-42 | appends in argument order, earlier tasks keeping their places |
| Forza.Pipeline.RunSequentially | forza.go:138-153 | the results and error are those SeqFold defines |
| Agents.FactoryCoversProviders | agent.go:36-42 | the factory covers exactly the registered providers, and only openai and openai-azure share a constructor |
| Agents.Agent.constructor | agent.go:13-15 | an empty persona |
| Agents.Agent.WithRole | agent.go:18-21 | sets the role only and returns the same agent |
| Agents.Agent.WithBackstory | agent.go:24-27 | sets the backstory only and returns the same agent |
| Agents.Agent.WithGoal | agent.go:30-33 | sets the goal only and returns the same agent |
| Agents.Agent.NewLLMTask | agent.go:46-68 | the first missing field of role, backstory, goal gives its sentinel, then a refused model ErrModelNotFound with the check's message; success exactly otherwise, with the provider's constructor; ErrProviderNotFound cannot occur |
| ForzaAgent.Agent.constructor | forza/agent.go:17-32 | one system entry with the goal and backstory, not configured |
| ForzaAgent.Agent.Configure | forza/agent.go:34-46 | an unknown provider panics listing the providers, then an unknown model panics with the check's message, neither changing anything; otherwise the adaptor is configured and the agent marked configured |
| ForzaAgent.Agent.AddExtraPrompt | forza/agent.go:48-54 | appends one entry, earlier ones unchanged |
| ForzaAgent.Agent.WithBackstory | forza/agent.go:56-58 | rewrites the backstory of the first entry only |
| ForzaAgent.Agent.WithGoal | forza/agent.go:60-62 | rewrites the goal of the first entry only |
| ForzaAgent.Agent.WithRole | forza/agent.go:64-66 | rewrites the role of the first entry only |
| ForzaTask.Task.constructor | forza/task.go:17-21 | bound to the agent with an empty prompt |
| ForzaTask.Task.SetPrompt | forza/task.go:23-25 | overwrites the prompt |
| ForzaTask.Task.CheckAgentConfiguration | forza/task.go:27-31 | panics exactly when the agent is not configured |
| ForzaTask.Task.Completion | forza/task.go:33-40 | an unconfigured agent panics first, then an empty prompt; otherwise the adaptor's completion of the prompt with the agent's entries |
| LegacyTask.ComposePrompt | task.go:43-46 | a non-empty context follows the suffix, the prompt staying a prefix; an empty one adds nothing |
| LegacyTask.Task.constructor | task.go:10-14 | bound to the agent with an empty prompt |
| LegacyTask.Task.Instruction | task.go:16-18 | overwrites the prompt |
| LegacyTask.Task.CheckAgentConfiguration | task.go:20-24 | panics exactly when the agent is not configured |
| LegacyTask.Task.Completion | task.go:26-49 | too many arguments panic first, then an unconfigured agent, then an empty prompt; otherwise the adaptor's completion of the composed prompt |
| LegacyTask.EmptyContextIsNoContext | task.go:33-46 | an empty context argument behaves exactly like none |
| Adaptors.Adaptor.constructor | adaptor.go:23-25 | nothing set |
| Adaptors.Adaptor.Configure | adaptor.go:27-37 | openai and openai-azure record the provider and model and get a fresh service told the model; any other provider changes nothing |
| Adaptors.Adaptor.Completion | adaptor.go:39-51 | panics exactly when nothing is configured; only openai reaches the service, openai-azure returns "" |
| Adaptors.Adaptor.SetFunction | adaptor.go:53-65 | panics exactly without a provider; for openai registers the function with the generated schema on the service; otherwise nothing changes |

## Left out

- HTTP, JSON encoding and decoding, and the OpenAI client library: requests and responses are
  values already decoded; a marshal or request-construction failure (anthropic.go:250-258)
  cannot occur in the model.
- The wall clock and the random source: the jitter is any value in its range, and a wait is
  either completed or cancelled as the environment says.
- Temperatures are Go floating point (float64, converted to float32 for Ollama); the model
  keeps them as real numbers and never computes with them.
- The backoff duration is an unbounded integer: Go's `time.Duration` would overflow for
  attempt numbers above about 33, which `maxRetries` never reaches in practice.
- Retried Anthropic requests reuse one `http.Request` whose body reader is consumed by the
  first attempt (anthropic.go:255, 266); the model assumes each attempt sends the full body.
- The HTTP client's timeout, the response size limit and the headers (anthropic.go:88,
  260-262, 274, 289) are not modelled beyond the body text an attempt reads.
- Errors from Go's JSON decoder, `io.ReadAll` and the client are kept as opaque texts.
- `%q` quoting of tool names is modelled as wrapping in double quotes, without Go's escaping.
- The tool lists of the Ollama and OpenAI engines take `&f` of the loop variable
  (ollama.go:110-114, openai.go:106-112); the model assumes Go 1.22 semantics, one declaration
  per tool.
- The Anthropic and Ollama engines hold a `*LLMConfig` reference to the shared configuration; the model
  takes a snapshot of the fields they read, so a later change to the configuration is not
  seen. The OpenAI engine keeps the reference.
- Anthropic.AnthropicProvider.AddCustomTools and Ollama.OllamaProvider.AddCustomTools: Go
  walks the shape in random order, so the order of `required` is left open; Ollama's schema
  definition omits an empty description when encoded, which the model does not distinguish.
- The tool `Call` of a builtin tool receives `context.Background()` (anthropic.go:109-113);
  contexts passed to tools and tasks are dropped.
- Panics raised inside tool, task or option functions, and their recovery, are not modelled.
- Tools, tasks and options are Go closures that may keep state or call a model; the model
  takes them as functions of their argument, so repeated calls with equal arguments (two
  identical tool calls, two tasks given the same input) are assumed to return equal results.
- `RunConcurrently` (forza.go:70-134) is concurrent and is not part of this model; nor are
  the optional logger and `WithLogger` (forza.go:27-37).
- `resolveUserPrompt`, `buildSystemPrompts` and `extractBuiltinToolInput`, which
  anthropic.go calls, are not part of this model; they are defined as ollama.go spells the
  same steps out (ollama.go:28-37, 96-106, 166-176).
- `generateSchema`, `CheckProvider`, `CheckModel` and `ListProviders` of the internal
  package, and the OpenAI service of the older adaptor, are not part of this model; they are
  parameters, and the service is the log of calls made on it with its completion as an oracle.
- The agent type of task.go is not part of this model; a task reads only its two fields.
- `SetFunction` of task.go and forza/task.go only forwards to the adaptor
  (task.go:51-53, forza/task.go:42-44) and is covered by `Adaptors.Adaptor.SetFunction`.
- The Gemini engine (gemini.go), the scraper tool, the examples and `main.go` are outside
  the modelled core; the factory records only which constructor it picks.
- Printing to standard output (adaptor.go, openai.go, task.go) is not modelled.
- ForzaAgent.Agent.Configure: the adaptor is recorded as the list of (provider, model) pairs
  it was configured with, not as the adaptor object itself.
