/**
 * Prompt handling shared by the provider engines: the persona system prompts,
 * the resolution of the user prompt with an optional context argument, and the
 * extraction of a builtin tool's `input` argument. The Anthropic engine calls these
 * as helpers (buildSystemPrompts, resolveUserPrompt, extractBuiltinToolInput) whose
 * source is not part of this model; they are defined here as the Ollama engine
 * spells them out inline (ollama.go:28-37, 96-106, 166-176).
 */
module Prompts {
  import opened Base
  import opened Errors
  import opened Common

  /** What follows the prompt when one context argument is given (anthropic_test.go:172). */
  const ContextSuffix: string := "\n\nTake in consideration the following context: "

  /** The two system prompts built from the persona, in this order. */
  function BuildSystemPrompts(role: string, backstory: string, goal: string): (ps: seq<AgentPrompt>)
    ensures |ps| == 2
    ensures ps[0] == AgentPrompt(AgentRoleSystem, "As a " + role + ", " + backstory)
    ensures ps[1] == AgentPrompt(AgentRoleSystem, "Your goal is " + goal)
  {
    [AgentPrompt(AgentRoleSystem, "As a " + role + ", " + backstory),
     AgentPrompt(AgentRoleSystem, "Your goal is " + goal)]
  }

  /**
   * The prompt a completion sends: the stored prompt (ErrMissingPrompt when none was
   * set, checked first), at most one context argument (ErrTooManyArgs otherwise),
   * appended after ContextSuffix even when it is empty.
   */
  function ResolveUserPrompt(userPrompt: Option<string>, params: seq<string>): Result<string, Error>
  {
    if userPrompt.None? then Err(Sentinel(MissingPrompt))
    else if |params| > 1 then Err(Sentinel(TooManyArgs))
    else if |params| == 1 then Ok(userPrompt.value + ContextSuffix + params[0])
    else Ok(userPrompt.value)
  }

  /**
   * Resolution fails exactly when no prompt is set or more than one argument is
   * given; a missing prompt is reported even when there are also too many arguments.
   */
  lemma ResolveUserPromptSpec(userPrompt: Option<string>, params: seq<string>)
    ensures ResolveUserPrompt(userPrompt, params).Err? <==> userPrompt.None? || |params| > 1
    ensures userPrompt.None? ==> ResolveUserPrompt(userPrompt, params) == Err(Sentinel(MissingPrompt))
    ensures userPrompt.Some? && |params| > 1 ==> ResolveUserPrompt(userPrompt, params) == Err(Sentinel(TooManyArgs))
    ensures userPrompt.Some? && |params| == 0 ==> ResolveUserPrompt(userPrompt, params) == Ok(userPrompt.value)
  {
  }

  /**
   * With one context argument the stored prompt is a prefix of the resolved one and
   * the argument its suffix; an empty argument still adds the suffix text.
   */
  lemma ResolvedPromptCarriesContext(prompt: string, ctx: string)
    ensures ResolveUserPrompt(Some(prompt), [ctx]).Ok?
    ensures var p := ResolveUserPrompt(Some(prompt), [ctx]).value;
      && |p| == |prompt| + |ContextSuffix| + |ctx|
      && p[..|prompt|] == prompt
      && p[|prompt| + |ContextSuffix|..] == ctx
    ensures ResolveUserPrompt(Some(prompt), [""]).value == prompt + ContextSuffix
  {
    var p := ResolveUserPrompt(Some(prompt), [ctx]).value;
    assert p == prompt + ContextSuffix + ctx;
    assert p[..|prompt|] == prompt;
    assert p[|prompt| + |ContextSuffix|..] == ctx;
  }

  /** A decoded JSON value: a string, or anything else. */
  datatype JsonValue = JString(s: string) | JOther

  /**
   * A tool call's raw JSON arguments, with what decoding them into a Go
   * `map[string]any` gives: None when the text is not a JSON object.
   */
  datatype RawArgs = RawArgs(text: string, decoded: Option<map<string, JsonValue>>)

  /**
   * The input handed to a builtin tool: the `input` member when the arguments are a
   * JSON object whose `input` is a string, otherwise the raw argument text.
   */
  function ExtractBuiltinInput(args: RawArgs): string
  {
    if args.decoded.Some? && "input" in args.decoded.value && args.decoded.value["input"].JString? then
      args.decoded.value["input"].s
    else
      args.text
  }

  /** Both directions: the extracted input differs from the raw text only through `input`. */
  lemma ExtractBuiltinInputSpec(args: RawArgs)
    ensures (args.decoded.Some? && "input" in args.decoded.value && args.decoded.value["input"].JString?) ==>
      ExtractBuiltinInput(args) == args.decoded.value["input"].s
    ensures ExtractBuiltinInput(args) != args.text ==>
      args.decoded.Some? && "input" in args.decoded.value && args.decoded.value["input"].JString?
    ensures args.decoded.None? ==> ExtractBuiltinInput(args) == args.text
  {
  }
}
