/**
 * The Anthropic provider engine (anthropic.go): a tool registry updated in place,
 * the classification of each HTTP round trip, and the completion loop that answers
 * `tool_use` blocks for at most DefaultMaxToolRounds rounds.
 *
 * HTTP and JSON are abstract. The environment `Env` is an oracle: `server(req, i)` is
 * what the i-th HTTP attempt of request `req` gets back (already read and decoded),
 * `cancelled(req, i)` whether the context fires during the wait after that attempt.
 */
module Anthropic {
  import opened Base
  import opened Errors
  import opened Common
  import opened Functions
  import opened Prompts
  import opened Tools
  import Retry

  const AnthropicAPIURL: string := "https://api.anthropic.com/v1/messages"
  const AnthropicAPIVersion: string := "2023-06-01"

  /** The cap on follow-up requests in one completion. */
  const DefaultMaxToolRounds: nat := 10

  /** The `input` property a builtin tool declares. */
  const BuiltinInputAttrs: map<string, string> := map["type" := "string", "description" := "input"]

  /** The fields of the shared configuration this engine reads. */
  datatype Config = Config(model: string, maxTokens: int, temperature: real, apiKey: string, maxRetries: int)

  /** A content block of a response; `input` holds a tool_use block's raw arguments. */
  datatype ContentBlock = ContentBlock(typ: string, text: string, id: string, name: string, input: RawArgs)

  datatype ApiError = ApiError(typ: string, message: string)

  /** A decoded response: its content blocks and the optional `error` member. */
  datatype Response = Response(content: seq<ContentBlock>, error: Option<ApiError>)

  datatype ToolResult = ToolResult(typ: string, toolUseId: string, content: string)

  /** A message's `content`: the prompt text, a response's blocks, or tool results. */
  datatype MessageContent =
    | TextContent(text: string)
    | Blocks(blocks: seq<ContentBlock>)
    | ToolResults(results: seq<ToolResult>)

  datatype AnthropicMessage = AnthropicMessage(role: string, content: MessageContent)

  /** A request body; `tools` is None when omitted. */
  datatype Request = Request(
    model: string, maxTokens: int, temperature: real, system: string,
    messages: seq<AnthropicMessage>, tools: Option<seq<ToolDecl>>)

  /**
   * A response body as read: the bytes (up to maxResponseSize), the read error if the
   * read failed, and the JSON decoding of the bytes (or the decoder's error text).
   */
  datatype Body = Body(text: string, readErr: Option<string>, parsed: Result<Response, string>)

  /** One HTTP attempt: the client failed, or a status with a body came back. */
  datatype HttpOutcome = TransportFailure(reason: string) | HttpResponse(status: int, body: Body)

  datatype Env = Env(
    server: (Request, nat) -> HttpOutcome,
    cancelled: (Request, nat) -> bool,
    ctxErr: ContextError)

  function ApiErrorDetail(e: ApiError): string
  {
    "API error [" + e.typ + "]: " + e.message
  }

  /**
   * What one attempt of doRequest's closure returns: the decoded response, or its
   * error. Only a non-200 status yields a retryableError.
   */
  function Classify(o: HttpOutcome): Result<Response, Error>
  {
    match o
    case TransportFailure(reason) => Err(Annotated(CompletionFailed, "request failed: " + reason))
    case HttpResponse(status, body) =>
      if status != 200 then
        if body.parsed.Ok? && body.parsed.value.error.Some? then
          Err(Retryable(Annotated(CompletionFailed, ApiErrorDetail(body.parsed.value.error.value)), status))
        else
          Err(Retryable(Annotated(CompletionFailed, "unexpected status " + IntToString(status) + ": " + body.text), status))
      else if body.readErr.Some? then
        Err(Annotated(CompletionFailed, "failed to read response: " + body.readErr.value))
      else if body.parsed.Err? then
        Err(Annotated(CompletionFailed, "failed to parse response: " + body.parsed.error))
      else if body.parsed.value.error.Some? then
        Err(Annotated(CompletionFailed, ApiErrorDetail(body.parsed.value.error.value)))
      else
        Ok(body.parsed.value)
  }

  /**
   * Every failed attempt wraps ErrCompletionFailed; it is a retryableError carrying the
   * status exactly when a non-200 status came back; success needs a 200 whose body was
   * read and decoded and carries no `error` member.
   */
  lemma ClassifySpec(o: HttpOutcome)
    ensures Classify(o).Err? ==> Is(Classify(o).error, CompletionFailed)
    ensures Classify(o).Err? && Classify(o).error.Retryable? <==> o.HttpResponse? && o.status != 200
    ensures Classify(o).Err? && Classify(o).error.Retryable? ==> Classify(o).error.status == o.status
    ensures Classify(o).Ok? <==>
      o.HttpResponse? && o.status == 200 && o.body.readErr.None? && o.body.parsed.Ok? && o.body.parsed.value.error.None?
    ensures Classify(o).Ok? ==> Classify(o).value == o.body.parsed.value
  {
  }

  /** The error the i-th attempt hands to withRetry (None for nil). */
  function AttemptError(o: HttpOutcome): Option<Error>
  {
    var c := Classify(o);
    if c.Err? then Some(c.error) else None
  }

  function AttemptFn(env: Env, req: Request): nat -> Option<Error>
  {
    (i: nat) => AttemptError(env.server(req, i))
  }

  function CancelFn(env: Env, req: Request): nat -> bool
  {
    (i: nat) => env.cancelled(req, i)
  }

  /** The reference definition of doRequest: withRetry over the attempts, then the last response. */
  function Send(maxRetries: int, env: Env, req: Request): Result<Response, Error>
  {
    var run := Retry.Retry(maxRetries, AttemptFn(env, req), CancelFn(env, req), ContextErr(env.ctxErr));
    Retry.CallsBounded(maxRetries, AttemptFn(env, req), CancelFn(env, req), ContextErr(env.ctxErr));
    if run.err.Some? then Err(run.err.value) else Classify(env.server(req, run.calls - 1))
  }

  /**
   * doRequest fails with an error wrapping ErrCompletionFailed, or with the context's
   * error when a backoff wait was cancelled; nothing else comes out.
   */
  lemma SendErrors(maxRetries: int, env: Env, req: Request)
    ensures Send(maxRetries, env, req).Err? ==>
      Is(Send(maxRetries, env, req).error, CompletionFailed) || Send(maxRetries, env, req).error == ContextErr(env.ctxErr)
    ensures Send(maxRetries, env, req).Err? ==>
      !Is(Send(maxRetries, env, req).error, ToolCallFailed) && !Is(Send(maxRetries, env, req).error, MaxToolRoundsExceeded)
  {
    var fn := AttemptFn(env, req);
    var run := Retry.Retry(maxRetries, fn, CancelFn(env, req), ContextErr(env.ctxErr));
    Retry.RetryFromShape(Retry.Attempts(maxRetries), fn, CancelFn(env, req), ContextErr(env.ctxErr), 0);
    if run.err.Some? && run.err.value != ContextErr(env.ctxErr) {
      ClassifySpec(env.server(req, run.calls - 1));
    }
  }

  /**
   * A first attempt that succeeds, or fails in a way withRetry does not retry (a
   * transport failure, a 401, a bad body), decides doRequest on its own.
   */
  lemma SendSettledByFirstAttempt(maxRetries: int, env: Env, req: Request)
    requires Classify(env.server(req, 0)).Ok? || !Retry.ShouldRetry(Classify(env.server(req, 0)).error)
    ensures Send(maxRetries, env, req) == Classify(env.server(req, 0))
  {
  }

  /** The concatenated text of the `text` blocks, in order. */
  function TextOf(blocks: seq<ContentBlock>): string
  {
    if blocks == [] then ""
    else
      var last := blocks[|blocks| - 1];
      TextOf(blocks[..|blocks| - 1]) + (if last.typ == "text" then last.text else "")
  }

  /** The `tool_use` blocks, in order. */
  function ToolUses(blocks: seq<ContentBlock>): seq<ContentBlock>
  {
    if blocks == [] then []
    else
      var last := blocks[|blocks| - 1];
      ToolUses(blocks[..|blocks| - 1]) + (if last.typ == "tool_use" then [last] else [])
  }

  /**
   * ToolUses keeps exactly the tool_use blocks: each one it returns is a tool_use block
   * of the content, and it is empty exactly when the content has none.
   */
  lemma {:induction false} ToolUsesSpec(blocks: seq<ContentBlock>)
    ensures forall b :: b in ToolUses(blocks) ==> b.typ == "tool_use" && b in blocks
    ensures ToolUses(blocks) == [] <==> forall i :: 0 <= i < |blocks| ==> blocks[i].typ != "tool_use"
    ensures |ToolUses(blocks)| <= |blocks|
  {
    if blocks != [] {
      var init := blocks[..|blocks| - 1];
      ToolUsesSpec(init);
      assert forall b :: b in init ==> b in blocks;
      if ToolUses(blocks) == [] {
        forall i | 0 <= i < |blocks| ensures blocks[i].typ != "tool_use" {
          if i < |blocks| - 1 { assert init[i] == blocks[i]; }
        }
      }
    }
  }

  /** Splitting a response's content: text blocks concatenated, tool_use blocks kept. */
  method SplitContent(content: seq<ContentBlock>) returns (textContent: string, toolUseBlocks: seq<ContentBlock>)
    ensures textContent == TextOf(content) && toolUseBlocks == ToolUses(content)
  {
    textContent, toolUseBlocks := "", [];
    for i := 0 to |content|
      invariant textContent == TextOf(content[..i]) && toolUseBlocks == ToolUses(content[..i])
    {
      assert content[..i + 1][..i] == content[..i];
      var block := content[i];
      if block.typ == "text" {
        textContent := textContent + block.text;
      } else if block.typ == "tool_use" {
        toolUseBlocks := toolUseBlocks + [block];
      }
    }
    assert content[..|content|] == content;
  }

  /** Running one tool_use block: the named tool's output becomes a tool_result for the block's id. */
  function CallTool(exec: map<string, ToolFn>, builtin: map<string, bool>, b: ContentBlock): Result<ToolResult, Error>
  {
    var r := Invoke(exec, builtin, b.name, b.input);
    if r.Err? then Err(r.error) else Ok(ToolResult("tool_result", b.id, r.value))
  }

  /** Running the tool_use blocks in order, stopping at the first failure. */
  function RunTools(exec: map<string, ToolFn>, builtin: map<string, bool>, uses: seq<ContentBlock>): Result<seq<ToolResult>, Error>
  {
    if uses == [] then Ok([])
    else
      var prior := RunTools(exec, builtin, uses[..|uses| - 1]);
      if prior.Err? then prior
      else
        var r := CallTool(exec, builtin, uses[|uses| - 1]);
        if r.Err? then Err(r.error) else Ok(prior.value + [r.value])
  }

  /**
   * RunTools succeeds exactly when every call does, with one result per block in the
   * same order; otherwise it reports the first failing call's error.
   */
  lemma {:induction false} RunToolsSpec(exec: map<string, ToolFn>, builtin: map<string, bool>, uses: seq<ContentBlock>)
    ensures var r := RunTools(exec, builtin, uses);
      && (r.Ok? <==> forall i :: 0 <= i < |uses| ==> CallTool(exec, builtin, uses[i]).Ok?)
      && (r.Ok? ==> |r.value| == |uses| && forall i :: 0 <= i < |uses| ==> r.value[i] == CallTool(exec, builtin, uses[i]).value)
      && (r.Err? ==>
            exists i :: 0 <= i < |uses| && CallTool(exec, builtin, uses[i]).Err? && r.error == CallTool(exec, builtin, uses[i]).error
              && forall j :: 0 <= j < i ==> CallTool(exec, builtin, uses[j]).Ok?)
  {
    if uses != [] {
      var init := uses[..|uses| - 1];
      RunToolsSpec(exec, builtin, init);
      var prior := RunTools(exec, builtin, init);
      if prior.Err? {
        var i :| 0 <= i < |init| && CallTool(exec, builtin, init[i]).Err? && prior.error == CallTool(exec, builtin, init[i]).error
          && forall j :: 0 <= j < i ==> CallTool(exec, builtin, init[j]).Ok?;
        assert uses[i] == init[i];
        assert forall j :: 0 <= j < i ==> uses[j] == init[j];
      } else {
        assert forall i :: 0 <= i < |init| ==> uses[i] == init[i];
      }
    }
  }

  /** Once a prefix of the blocks fails, the whole run fails with that error. */
  lemma {:induction false} RunToolsErrPersists(exec: map<string, ToolFn>, builtin: map<string, bool>, uses: seq<ContentBlock>, j: nat)
    requires j <= |uses|
    requires RunTools(exec, builtin, uses[..j]).Err?
    ensures RunTools(exec, builtin, uses) == RunTools(exec, builtin, uses[..j])
    decreases |uses| - j
  {
    if j < |uses| {
      var init := uses[..|uses| - 1];
      assert init[..j] == uses[..j];
      RunToolsErrPersists(exec, builtin, init, j);
    } else {
      assert uses[..j] == uses;
    }
  }

  /** The system prompt: contexts in order, a "\n" before each one once the text is non-empty. */
  function JoinSystem(ps: seq<AgentPrompt>): string
  {
    if ps == [] then ""
    else
      var s := JoinSystem(ps[..|ps| - 1]);
      (if s != "" then s + "\n" else s) + ps[|ps| - 1].context
  }

  function Contexts(ps: seq<AgentPrompt>): (cs: seq<string>)
    ensures |cs| == |ps| && forall i :: 0 <= i < |ps| ==> cs[i] == ps[i].context
  {
    if ps == [] then [] else Contexts(ps[..|ps| - 1]) + [ps[|ps| - 1].context]
  }

  /** With non-empty contexts, the system prompt is the contexts joined by "\n", in order. */
  lemma {:induction false} JoinSystemJoinsLines(ps: seq<AgentPrompt>)
    requires forall i :: 0 <= i < |ps| ==> ps[i].context != ""
    ensures JoinSystem(ps) == Join(Contexts(ps), "\n")
    ensures ps != [] ==> JoinSystem(ps) != ""
  {
    if ps != [] {
      var init := ps[..|ps| - 1];
      JoinSystemJoinsLines(init);
      assert Contexts(ps)[..|ps| - 1] == Contexts(init);
    }
  }

  /** An empty context contributes no separator: ["", "b"] gives "b", not "\nb". */
  lemma EmptyContextAddsNoSeparator(r1: string, r2: string, b: string)
    ensures JoinSystem([AgentPrompt(r1, ""), AgentPrompt(r2, b)]) == b
  {
    var ps := [AgentPrompt(r1, ""), AgentPrompt(r2, b)];
    assert ps[..1] == [ps[0]] && [ps[0]][..0] == [];
    assert JoinSystem([ps[0]]) == "";
  }

  /** The persona's system prompt: "As a {role}, {backstory}" and "Your goal is {goal}" on two lines. */
  lemma PersonaSystemPrompt(role: string, backstory: string, goal: string)
    ensures JoinSystem(BuildSystemPrompts(role, backstory, goal))
      == "As a " + role + ", " + backstory + "\n" + "Your goal is " + goal
  {
    var ps := BuildSystemPrompts(role, backstory, goal);
    assert ps[..1] == [ps[0]] && [ps[0]][..0] == [];
    assert JoinSystem([ps[0]]) == ps[0].context;
    assert ps[0].context != "" by {
      assert ps[0].context[0] == 'A';
    }
  }

  /** A snapshot of the provider's fields. */
  datatype Engine = Engine(
    config: Config, functions: seq<ToolDecl>, exec: map<string, ToolFn>,
    builtin: map<string, bool>, systemPrompts: seq<AgentPrompt>, userPrompt: Option<string>)

  /** The first request: the joined system prompt, one user message, tools only if declared. */
  function InitialRequest(e: Engine, prompt: string): Request
  {
    Request(e.config.model, e.config.maxTokens, e.config.temperature, JoinSystem(e.systemPrompts),
      [AnthropicMessage(AgentRoleUser, TextContent(prompt))], if |e.functions| > 0 then Some(e.functions) else None)
  }

  /** The request after one tool round: the assistant's full content, then the tool results. */
  function FollowUp(req: Request, resp: Response, results: seq<ToolResult>): Request
  {
    req.(messages := req.messages + [AnthropicMessage("assistant", Blocks(resp.content)), AnthropicMessage(AgentRoleUser, ToolResults(results))])
  }

  /** How a completion ends, and every request it sent, in order. */
  datatype Run = Run(result: Result<string, Error>, requests: seq<Request>)

  /** The transport as the tool loop sees it: a request and doRequest's answer. */
  type Sender = Request -> Result<Response, Error>

  /** doRequest with this configuration and environment. */
  function SendFn(maxRetries: int, env: Env): Sender
  {
    (r: Request) => Send(maxRetries, env, r)
  }

  const MaxRoundsError: Error := Annotated(MaxToolRoundsExceeded, "exceeded " + NatToString(DefaultMaxToolRounds) + " rounds")

  function FollowUpError(e: Error): Error
  {
    Annotated(CompletionFailed, "follow-up after tool call: " + Message(e))
  }

  /** The tool loop from round `round`, with `resp` the answer to `req`: the requests it adds. */
  function Rounds(e: Engine, send: Sender, req: Request, resp: Response, round: nat): Run
    decreases DefaultMaxToolRounds - round
  {
    if round >= DefaultMaxToolRounds then Run(Err(MaxRoundsError), [])
    else
      var uses := ToolUses(resp.content);
      if uses == [] then Run(Ok(TextOf(resp.content)), [])
      else
        var executed := RunTools(e.exec, e.builtin, uses);
        if executed.Err? then Run(Err(executed.error), [])
        else
          var next := FollowUp(req, resp, executed.value);
          var sent := send(next);
          if sent.Err? then Run(Err(FollowUpError(sent.error)), [next])
          else
            var rest := Rounds(e, send, next, sent.value, round + 1);
            Run(rest.result, [next] + rest.requests)
  }

  /** The reference definition of Completion. */
  function Complete(e: Engine, env: Env, params: seq<string>): Run
  {
    var resolved := ResolveUserPrompt(e.userPrompt, params);
    if resolved.Err? then Run(Err(resolved.error), [])
    else if e.config.apiKey == "" then Run(Err(Annotated(MissingAPIKey, "Anthropic API key")), [])
    else
      var req := InitialRequest(e, resolved.value);
      var sent := Send(e.config.maxRetries, env, req);
      if sent.Err? then Run(Err(sent.error), [req])
      else
        var rest := Rounds(e, SendFn(e.config.maxRetries, env), req, sent.value, 0);
        Run(rest.result, [req] + rest.requests)
  }

  /** `next` is `prev` after one tool round answering `resp` with the engine's tools. */
  ghost predicate RoundStep(e: Engine, prev: Request, resp: Response, next: Request)
  {
    && ToolUses(resp.content) != []
    && RunTools(e.exec, e.builtin, ToolUses(resp.content)).Ok?
    && next == FollowUp(prev, resp, RunTools(e.exec, e.builtin, ToolUses(resp.content)).value)
  }

  /**
   * A tool round keeps every earlier message and field and appends exactly two
   * messages: the assistant's content, then a user message with one tool_result per
   * tool_use block, in the same order, each carrying that block's id.
   */
  lemma RoundStepShape(e: Engine, prev: Request, resp: Response, next: Request)
    requires RoundStep(e, prev, resp, next)
    ensures |next.messages| == |prev.messages| + 2
    ensures next.messages[..|prev.messages|] == prev.messages
    ensures next == prev.(messages := next.messages)
    ensures next.messages[|prev.messages|] == AnthropicMessage("assistant", Blocks(resp.content))
    ensures var user := next.messages[|prev.messages| + 1];
      var uses := ToolUses(resp.content);
      && user.role == AgentRoleUser && user.content.ToolResults?
      && |user.content.results| == |uses|
      && forall i :: 0 <= i < |uses| ==>
           user.content.results[i].typ == "tool_result" && user.content.results[i].toolUseId == uses[i].id
  {
    var uses := ToolUses(resp.content);
    RunToolsSpec(e.exec, e.builtin, uses);
    forall i | 0 <= i < |uses| ensures CallTool(e.exec, e.builtin, uses[i]).Ok? {
    }
  }

  /** The loop sends at most one request per remaining round. */
  lemma {:induction false} RoundsBounded(e: Engine, send: Sender, req: Request, resp: Response, round: nat)
    requires round <= DefaultMaxToolRounds
    ensures |Rounds(e, send, req, resp, round).requests| + round <= DefaultMaxToolRounds
    decreases DefaultMaxToolRounds - round
  {
    if round < DefaultMaxToolRounds {
      var uses := ToolUses(resp.content);
      if uses != [] {
        var executed := RunTools(e.exec, e.builtin, uses);
        if executed.Ok? {
          var next := FollowUp(req, resp, executed.value);
          var sent := send(next);
          if sent.Ok? {
            RoundsBounded(e, send, next, sent.value, round + 1);
          }
        }
      }
    }
  }

  /** The answer to request k of a loop run started from `req`, answered by `resp`. */
  function AnswerAt(send: Sender, resp: Response, all: seq<Request>, k: nat): Result<Response, Error>
    requires k < |all|
  {
    if k == 0 then Ok(resp) else send(all[k])
  }

  /** Each request of `all` after the first is its predecessor after a tool round answering it. */
  ghost predicate StepsHold(e: Engine, send: Sender, resp: Response, all: seq<Request>)
  {
    forall k :: 0 <= k < |all| - 1 ==>
      AnswerAt(send, resp, all, k).Ok? && RoundStep(e, all[k], AnswerAt(send, resp, all, k).value, all[k + 1])
  }

  /** Each request the loop adds is the previous one after a tool round answering its response. */
  lemma {:induction false} RoundsSteps(e: Engine, send: Sender, req: Request, resp: Response, round: nat)
    ensures StepsHold(e, send, resp, [req] + Rounds(e, send, req, resp, round).requests)
    decreases DefaultMaxToolRounds - round
  {
    var all := [req] + Rounds(e, send, req, resp, round).requests;
    if round < DefaultMaxToolRounds {
      var uses := ToolUses(resp.content);
      if uses != [] {
        var executed := RunTools(e.exec, e.builtin, uses);
        if executed.Ok? {
          var next := FollowUp(req, resp, executed.value);
          var sent := send(next);
          assert all[..2] == [req, next];
          assert RoundStep(e, req, resp, next);
          if sent.Ok? {
            var rest := [next] + Rounds(e, send, next, sent.value, round + 1).requests;
            RoundsSteps(e, send, next, sent.value, round + 1);
            assert StepsHold(e, send, sent.value, rest);
            assert all == [req] + rest;
            forall k | 1 <= k < |all| - 1
              ensures AnswerAt(send, resp, all, k).Ok? && RoundStep(e, all[k], AnswerAt(send, resp, all, k).value, all[k + 1])
            {
              assert all[k] == rest[k - 1] && all[k + 1] == rest[k];
              assert AnswerAt(send, resp, all, k) == AnswerAt(send, sent.value, rest, k - 1);
            }
          }
        }
      }
    }
  }

  /** The answer in hand when the loop stops: `resp` if it sent nothing, else the last send's. */
  function LastAnswer(send: Sender, resp: Response, sent: seq<Request>): Result<Response, Error>
  {
    if sent == [] then Ok(resp) else send(sent[|sent| - 1])
  }

  /**
   * How the loop ends. It returns text only from an answer with no tool_use block, and
   * then that answer's text. It reports ErrMaxToolRoundsExceeded exactly when the round
   * budget is spent and the last follow-up was answered (that answer is not inspected).
   * A tool failure is the first failing call on the last answer, and no follow-up is
   * sent after it. A failed follow-up wraps ErrCompletionFailed.
   */
  lemma {:induction false} RoundsOutcome(e: Engine, send: Sender, req: Request, resp: Response, round: nat)
    requires round <= DefaultMaxToolRounds
    ensures var r := Rounds(e, send, req, resp, round);
      var last := LastAnswer(send, resp, r.requests);
      && (r.result.Ok? ==>
            last.Ok? && ToolUses(last.value.content) == [] && r.result.value == TextOf(last.value.content))
      && (r.result.Err? ==>
            r.result.error.Annotated? && r.result.error.kind in {ToolCallFailed, MaxToolRoundsExceeded, CompletionFailed})
      && (r.result.Err? && r.result.error.kind == MaxToolRoundsExceeded <==>
            round + |r.requests| == DefaultMaxToolRounds && last.Ok?)
      && (r.result.Err? && r.result.error.kind == ToolCallFailed ==>
            last.Ok? && RunTools(e.exec, e.builtin, ToolUses(last.value.content)).Err?
            && r.result == Err(RunTools(e.exec, e.builtin, ToolUses(last.value.content)).error))
      && (last.Err? ==> r.result == Err(FollowUpError(last.error)))
    decreases DefaultMaxToolRounds - round
  {
    var r := Rounds(e, send, req, resp, round);
    if round < DefaultMaxToolRounds {
      var uses := ToolUses(resp.content);
      if uses != [] {
        var executed := RunTools(e.exec, e.builtin, uses);
        if executed.Ok? {
          var next := FollowUp(req, resp, executed.value);
          var sent := send(next);
          if sent.Ok? {
            RoundsOutcome(e, send, next, sent.value, round + 1);
            var rest := Rounds(e, send, next, sent.value, round + 1);
            assert r.requests == [next] + rest.requests;
            assert LastAnswer(send, resp, r.requests) == LastAnswer(send, sent.value, rest.requests);
          }
        } else {
          RunToolsSpec(e.exec, e.builtin, uses);
        }
      }
    }
  }

  /**
   * The tool registry of an Anthropic provider (anthropicProvider). The HTTP client is
   * the environment `Env`; the configuration is a snapshot of the shared record.
   */
  class AnthropicProvider {
    var config: Config
    var functions: seq<ToolDecl>
    var fnExecutable: map<string, ToolFn>
    var builtinTools: map<string, bool>
    var systemPrompts: seq<AgentPrompt>
    var userPrompt: Option<string>

    /** newAnthropic: empty registry, the persona's system prompts, no user prompt. */
    constructor (c: Config, role: string, backstory: string, goal: string)
      ensures config == c && functions == [] && fnExecutable == map[] && builtinTools == map[]
      ensures systemPrompts == BuildSystemPrompts(role, backstory, goal) && userPrompt == None
    {
      config := c;
      functions := [];
      fnExecutable := map[];
      builtinTools := map[];
      systemPrompts := BuildSystemPrompts(role, backstory, goal);
      userPrompt := None;
    }

    function State(): Engine
      reads this
    {
      Engine(config, functions, fnExecutable, builtinTools, systemPrompts, userPrompt)
    }

    /** WithUserPrompt: stores the prompt and changes nothing else. */
    method WithUserPrompt(prompt: string)
      modifies this
      ensures State() == old(State()).(userPrompt := Some(prompt))
    {
      userPrompt := Some(prompt);
    }

    /**
     * WithTools: per tool, in order, one builtin declaration appended, the tool's call
     * registered under its name, and the name marked builtin.
     */
    method WithTools(ts: seq<Tool>)
      modifies this
      ensures functions == old(functions) + BuiltinDecls(ts, BuiltinInputAttrs)
      ensures fnExecutable == RegisterAll(old(fnExecutable), ts)
      ensures builtinTools == MarkAll(old(builtinTools), ts)
      ensures config == old(config) && systemPrompts == old(systemPrompts) && userPrompt == old(userPrompt)
    {
      for i := 0 to |ts|
        invariant functions == old(functions) + BuiltinDecls(ts[..i], BuiltinInputAttrs)
        invariant fnExecutable == RegisterAll(old(fnExecutable), ts[..i])
        invariant builtinTools == MarkAll(old(builtinTools), ts[..i])
        invariant config == old(config) && systemPrompts == old(systemPrompts) && userPrompt == old(userPrompt)
      {
        assert ts[..i + 1][..i] == ts[..i];
        var tool := ts[i];
        functions := functions + [ToolDecl(tool.name, tool.description, BuiltinSchema(BuiltinInputAttrs))];
        fnExecutable := fnExecutable[tool.name := tool.call];
        builtinTools := builtinTools[tool.name := true];
      }
      assert ts[..|ts|] == ts;
    }

    /**
     * AddCustomTools: appends one declaration (even for a name already declared) whose
     * schema declares `params`, registers `fn` under the name (overwriting), and leaves
     * the builtin flags alone.
     */
    method AddCustomTools(name: string, description: string, params: FunctionShape, fn: ToolFn)
      modifies this
      ensures |functions| == |old(functions)| + 1 && functions[..|old(functions)|] == old(functions)
      ensures var d := functions[|old(functions)|];
        d.name == name && d.description == description && DeclaresShape(params, d.schema)
      ensures fnExecutable == old(fnExecutable)[name := fn]
      ensures builtinTools == old(builtinTools)
      ensures config == old(config) && systemPrompts == old(systemPrompts) && userPrompt == old(userPrompt)
    {
      var schema := BuildCustomSchema(params);
      functions := functions + [ToolDecl(name, description, schema)];
      fnExecutable := fnExecutable[name := fn];
    }

    /** doRequest: withRetry over the attempts, then the last attempt's decoded response. */
    method DoRequest(env: Env, req: Request) returns (r: Result<Response, Error>)
      ensures r == Send(config.maxRetries, env, req)
    {
      var fn := AttemptFn(env, req);
      var err, calls, waits := Retry.WithRetry(config.maxRetries, fn, CancelFn(env, req), ContextErr(env.ctxErr));
      if err.Some? {
        return Err(err.value);
      }
      Retry.CallsBounded(config.maxRetries, fn, CancelFn(env, req), ContextErr(env.ctxErr));
      r := Classify(env.server(req, calls - 1));
    }

    /** Running the tool_use blocks of one round, in order, stopping at the first failure. */
    method ExecuteTools(toolUseBlocks: seq<ContentBlock>) returns (r: Result<seq<ToolResult>, Error>)
      ensures r == RunTools(fnExecutable, builtinTools, toolUseBlocks)
    {
      var toolResults: seq<ToolResult> := [];
      for i := 0 to |toolUseBlocks|
        invariant RunTools(fnExecutable, builtinTools, toolUseBlocks[..i]) == Ok(toolResults)
      {
        assert toolUseBlocks[..i + 1][..i] == toolUseBlocks[..i];
        var toolBlock := toolUseBlocks[i];
        if toolBlock.name !in fnExecutable {
          r := Err(Annotated(ToolCallFailed, "unknown tool " + Quote(toolBlock.name)));
          RunToolsErrPersists(fnExecutable, builtinTools, toolUseBlocks, i + 1);
          return;
        }
        var fn := fnExecutable[toolBlock.name];
        var toolInput := toolBlock.input.text;
        if IsBuiltin(builtinTools, toolBlock.name) {
          toolInput := ExtractBuiltinInput(toolBlock.input);
        }
        var called := fn(toolInput);
        if called.err.Some? {
          r := Err(Annotated(ToolCallFailed, "tool " + Quote(toolBlock.name) + ": " + Message(called.err.value)));
          RunToolsErrPersists(fnExecutable, builtinTools, toolUseBlocks, i + 1);
          return;
        }
        toolResults := toolResults + [ToolResult("tool_result", toolBlock.id, called.content)];
      }
      assert toolUseBlocks[..|toolUseBlocks|] == toolUseBlocks;
      r := Ok(toolResults);
    }

    /**
     * The tool loop of Completion from round 0, with `resp` the answer to `req`: the
     * result and the follow-up requests, exactly as Rounds defines them.
     */
    method ToolLoop(env: Env, req0: Request, resp0: Response) returns (result: Result<string, Error>, sent: seq<Request>)
      ensures Run(result, sent) == Rounds(State(), SendFn(config.maxRetries, env), req0, resp0, 0)
    {
      ghost var e := State();
      ghost var send := SendFn(config.maxRetries, env);
      var req, resp := req0, resp0;
      sent := [];
      for round := 0 to DefaultMaxToolRounds
        invariant Rounds(e, send, req0, resp0, 0) ==
          Run(Rounds(e, send, req, resp, round).result, sent + Rounds(e, send, req, resp, round).requests)
      {
        var textContent, toolUseBlocks := SplitContent(resp.content);
        if |toolUseBlocks| == 0 {
          return Ok(textContent), sent;
        }
        var toolResults := ExecuteTools(toolUseBlocks);
        if toolResults.Err? {
          return Err(toolResults.error), sent;
        }
        ghost var prev := req;
        req := req.(messages := req.messages + [AnthropicMessage("assistant", Blocks(resp.content))]);
        req := req.(messages := req.messages + [AnthropicMessage(AgentRoleUser, ToolResults(toolResults.value))]);
        assert req == FollowUp(prev, resp, toolResults.value);
        sent := sent + [req];
        var answer := DoRequest(env, req);
        assert answer == send(req);
        ghost var rest := Rounds(e, send, prev, resp, round);
        if answer.Err? {
          assert rest == Run(Err(FollowUpError(answer.error)), [req]);
          return Err(Annotated(CompletionFailed, "follow-up after tool call: " + Message(answer.error))), sent;
        }
        assert rest.requests == [req] + Rounds(e, send, req, answer.value, round + 1).requests;
        resp := answer.value;
      }
      result := Err(Annotated(MaxToolRoundsExceeded, "exceeded " + NatToString(DefaultMaxToolRounds) + " rounds"));
    }

    /**
     * Completion: the result, and every request sent, in order, exactly as Complete
     * defines them.
     */
    method Completion(env: Env, params: seq<string>) returns (result: Result<string, Error>, requests: seq<Request>)
      ensures Run(result, requests) == Complete(State(), env, params)
    {
      var resolved := ResolveUserPrompt(userPrompt, params);
      if resolved.Err? {
        return Err(resolved.error), [];
      }
      var apiKey := config.apiKey;
      if apiKey == "" {
        return Err(Annotated(MissingAPIKey, "Anthropic API key")), [];
      }
      var systemPrompt := "";
      for i := 0 to |systemPrompts|
        invariant systemPrompt == JoinSystem(systemPrompts[..i])
      {
        assert systemPrompts[..i + 1][..i] == systemPrompts[..i];
        if systemPrompt != "" {
          systemPrompt := systemPrompt + "\n";
        }
        systemPrompt := systemPrompt + systemPrompts[i].context;
      }
      assert systemPrompts[..|systemPrompts|] == systemPrompts;
      var req := Request(config.model, config.maxTokens, config.temperature, systemPrompt,
        [AnthropicMessage(AgentRoleUser, TextContent(resolved.value))], None);
      if |functions| > 0 {
        req := req.(tools := Some(functions));
      }
      var answer := DoRequest(env, req);
      if answer.Err? {
        return Err(answer.error), [req];
      }
      var followUps;
      result, followUps := ToolLoop(env, req, answer.value);
      requests := [req] + followUps;
    }
  }

  /** Neither a prompt error nor a missing API key sends a request; the prompt is checked first. */
  lemma CompleteEarlyErrors(e: Engine, env: Env, params: seq<string>)
    ensures ResolveUserPrompt(e.userPrompt, params).Err? ==>
      Complete(e, env, params) == Run(Err(ResolveUserPrompt(e.userPrompt, params).error), [])
    ensures ResolveUserPrompt(e.userPrompt, params).Ok? && e.config.apiKey == "" ==>
      Complete(e, env, params).requests == [] && Is(Complete(e, env, params).result.error, MissingAPIKey)
    ensures Complete(e, env, params).requests != [] <==>
      ResolveUserPrompt(e.userPrompt, params).Ok? && e.config.apiKey != ""
  {
  }

  /**
   * The first request carries the system prompt joined from the persona contexts, exactly
   * one user message with the resolved prompt, and the declarations only when some exist.
   */
  lemma CompleteFirstRequest(e: Engine, env: Env, params: seq<string>)
    requires Complete(e, env, params).requests != []
    ensures var req := Complete(e, env, params).requests[0];
      && req.system == JoinSystem(e.systemPrompts)
      && req.messages == [AnthropicMessage(AgentRoleUser, TextContent(ResolveUserPrompt(e.userPrompt, params).value))]
      && (req.tools.Some? <==> |e.functions| > 0)
      && (req.tools.Some? ==> req.tools.value == e.functions)
      && req.model == e.config.model && req.maxTokens == e.config.maxTokens
  {
  }

  /** At most 1 + DefaultMaxToolRounds requests per completion. */
  lemma CompleteRequestsBounded(e: Engine, env: Env, params: seq<string>)
    ensures |Complete(e, env, params).requests| <= 1 + DefaultMaxToolRounds
  {
    var resolved := ResolveUserPrompt(e.userPrompt, params);
    if resolved.Ok? && e.config.apiKey != "" {
      var req := InitialRequest(e, resolved.value);
      var sent := Send(e.config.maxRetries, env, req);
      if sent.Ok? {
        RoundsBounded(e, SendFn(e.config.maxRetries, env), req, sent.value, 0);
      }
    }
  }

  /** Every request after the first is its predecessor after one tool round answering it. */
  lemma CompleteRoundSteps(e: Engine, env: Env, params: seq<string>)
    ensures var reqs := Complete(e, env, params).requests;
      forall k :: 0 <= k < |reqs| - 1 ==>
        Send(e.config.maxRetries, env, reqs[k]).Ok?
        && RoundStep(e, reqs[k], Send(e.config.maxRetries, env, reqs[k]).value, reqs[k + 1])
  {
    var reqs := Complete(e, env, params).requests;
    var resolved := ResolveUserPrompt(e.userPrompt, params);
    if resolved.Ok? && e.config.apiKey != "" {
      var req := InitialRequest(e, resolved.value);
      var sent := Send(e.config.maxRetries, env, req);
      if sent.Ok? {
        var send := SendFn(e.config.maxRetries, env);
        RoundsSteps(e, send, req, sent.value, 0);
        assert StepsHold(e, send, sent.value, reqs);
        forall k | 0 <= k < |reqs| - 1
          ensures Send(e.config.maxRetries, env, reqs[k]).Ok?
          ensures RoundStep(e, reqs[k], Send(e.config.maxRetries, env, reqs[k]).value, reqs[k + 1])
        {
          assert AnswerAt(send, sent.value, reqs, k) == Send(e.config.maxRetries, env, reqs[k]);
        }
      }
    }
  }

  /**
   * How a completion that sent requests ends, in terms of the answer to its last request:
   * text from an answer without tool_use blocks; ErrToolCallFailed from the first failing
   * tool of the last answer; ErrMaxToolRoundsExceeded exactly when all 1 + DefaultMaxToolRounds
   * requests were answered; otherwise the failed send's error (wrapped for a follow-up).
   */
  lemma CompleteOutcome(e: Engine, env: Env, params: seq<string>)
    requires Complete(e, env, params).requests != []
    ensures var c := Complete(e, env, params);
      var last := Send(e.config.maxRetries, env, c.requests[|c.requests| - 1]);
      && (c.result.Ok? ==> last.Ok? && ToolUses(last.value.content) == [] && c.result.value == TextOf(last.value.content))
      && (c.result.Err? && Is(c.result.error, MaxToolRoundsExceeded) <==>
            |c.requests| == 1 + DefaultMaxToolRounds && last.Ok?)
      && (c.result.Err? && Is(c.result.error, ToolCallFailed) ==>
            last.Ok? && RunTools(e.exec, e.builtin, ToolUses(last.value.content)).Err?
            && c.result == Err(RunTools(e.exec, e.builtin, ToolUses(last.value.content)).error))
      && (last.Err? && |c.requests| == 1 ==> c.result == Err(last.error))
      && (last.Err? && |c.requests| > 1 ==> c.result == Err(FollowUpError(last.error)))
  {
    var c := Complete(e, env, params);
    var resolved := ResolveUserPrompt(e.userPrompt, params);
    var req := InitialRequest(e, resolved.value);
    var sent := Send(e.config.maxRetries, env, req);
    SendErrors(e.config.maxRetries, env, req);
    if sent.Ok? {
      var send := SendFn(e.config.maxRetries, env);
      RoundsOutcome(e, send, req, sent.value, 0);
      var rest := Rounds(e, send, req, sent.value, 0);
      assert c.requests == [req] + rest.requests;
      assert Send(e.config.maxRetries, env, c.requests[|c.requests| - 1]) == LastAnswer(send, sent.value, rest.requests);
      if c.result.Err? {
        AnnotatedIs(c.result.error.kind, c.result.error.detail, MaxToolRoundsExceeded);
        AnnotatedIs(c.result.error.kind, c.result.error.detail, ToolCallFailed);
      }
    }
  }
}
