/**
 * The task of the older root revision (task.go): a stored instruction, and a completion
 * that checks its arguments and the agent, composes the prompt with an optional context
 * and hands it to the agent's adaptor. Misuse panics.
 */
module LegacyTask {
  import opened Base
  import opened Legacy

  /**
   * The two fields of this revision's agent that a task reads. The agent type itself and
   * its adaptor are not part of this model; the adaptor's completion is a `CompleteFn`.
   */
  class TaskAgent {
    var isConfigured: bool
    var prompts: seq<PersonaPrompt>
  }

  /** The prompt handed on: a non-empty context follows the suffix; an empty one adds nothing. */
  function ComposePrompt(prompt: string, context: string): (p: string)
    ensures context == "" ==> p == prompt
    ensures context != "" ==>
      && |p| == |prompt| + |LegacyContextSuffix| + |context|
      && p[..|prompt|] == prompt && p[|prompt| + |LegacyContextSuffix|..] == context
  {
    if context != "" then prompt + LegacyContextSuffix + context else prompt
  }

  class Task {
    const agent: TaskAgent
    var prompt: string

    /** NewTask: bound to the agent, with an empty prompt. */
    constructor (agent: TaskAgent)
      ensures this.agent == agent && prompt == ""
    {
      this.agent := agent;
      prompt := "";
    }

    /** Instruction: overwrites the stored prompt. */
    method Instruction(p: string)
      modifies this
      ensures prompt == p
    {
      prompt := p;
    }

    /** checkAgentConfiguration: the panic, if any, for an unconfigured agent. */
    function CheckAgentConfiguration(): (panic: Option<string>)
      reads this, agent
      ensures panic.None? <==> agent.isConfigured
      ensures panic.Some? ==> panic.value == AgentNotConfiguredPanic
    {
      if !agent.isConfigured then Some(AgentNotConfiguredPanic) else None
    }

    /**
     * Completion: more than one argument panics first, then an unconfigured agent, then an
     * empty prompt; otherwise the composed prompt and the agent's prompts go to the adaptor.
     */
    function Completion(complete: CompleteFn, params: seq<string>): (out: Outcome<string>)
      reads this, agent
      ensures |params| > 1 ==> out == Panicked(TooManyArgsPanic)
      ensures |params| <= 1 && !agent.isConfigured ==> out == Panicked(AgentNotConfiguredPanic)
      ensures |params| <= 1 && agent.isConfigured && prompt == "" ==> out == Panicked(NoPromptPanic)
      ensures out.Returned? <==> |params| <= 1 && agent.isConfigured && prompt != ""
      ensures out.Returned? ==>
        out.value == complete(ComposePrompt(prompt, if |params| == 1 then params[0] else ""), agent.prompts)
    {
      if |params| > 1 then Panicked(TooManyArgsPanic)
      else
        var context := if |params| == 1 then params[0] else "";
        var check := CheckAgentConfiguration();
        if check.Some? then Panicked(check.value)
        else if prompt == "" then Panicked(NoPromptPanic)
        else Returned(complete(ComposePrompt(prompt, context), agent.prompts))
    }
  }

  /** An empty context argument behaves exactly like no argument. */
  lemma EmptyContextIsNoContext(t: Task, complete: CompleteFn)
    ensures t.Completion(complete, [""]) == t.Completion(complete, [])
  {
  }
}
