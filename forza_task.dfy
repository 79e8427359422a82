/**
 * The task of the forza sub-package (forza/task.go): a stored prompt, and a completion that
 * checks the agent and the prompt before handing both to the agent's adaptor.
 */
module ForzaTask {
  import opened Base
  import opened Legacy
  import ForzaAgent

  class Task {
    const agent: ForzaAgent.Agent
    var prompt: string

    /** NewTask: bound to the agent, with an empty prompt. */
    constructor (agent: ForzaAgent.Agent)
      ensures this.agent == agent && prompt == ""
    {
      this.agent := agent;
      prompt := "";
    }

    /** SetPrompt: overwrites the stored prompt. */
    method SetPrompt(p: string)
      modifies this
      ensures prompt == p
    {
      prompt := p;
    }

    /** checkAgentConfiguration: the panic, if any, for an unconfigured agent. */
    function CheckAgentConfiguration(): (panic: Option<string>)
      reads this, agent
      ensures panic.None? <==> agent.isConfigured
      ensures panic.Some? ==> panic.value == AgentNotConfiguredPanic
    {
      if !agent.isConfigured then Some(AgentNotConfiguredPanic) else None
    }

    /**
     * Completion: an unconfigured agent panics first, then an empty prompt; otherwise the
     * prompt goes to the adaptor unchanged, with the agent's prompt list.
     */
    function Completion(complete: CompleteFn): (out: Outcome<string>)
      reads this, agent
      ensures !agent.isConfigured ==> out == Panicked(AgentNotConfiguredPanic)
      ensures agent.isConfigured && prompt == "" ==> out == Panicked(NoPromptPanic)
      ensures out.Returned? <==> agent.isConfigured && prompt != ""
      ensures out.Returned? ==> out.value == complete(prompt, agent.prompts)
    {
      var check := CheckAgentConfiguration();
      if check.Some? then Panicked(check.value)
      else if prompt == "" then Panicked(NoPromptPanic)
      else Returned(complete(prompt, agent.prompts))
    }
  }
}
