/**
 * Values shared by the older task/agent/adaptor layer (task.go, adaptor.go, forza/agent.go,
 * forza/task.go): the persona prompt entry, the panic texts, and the completion the agent's
 * adaptor performs, which is an oracle here.
 */
module Legacy {

  /** A persona entry (AgentPrompts): role, goal and backstory. */
  datatype PersonaPrompt = PersonaPrompt(role: string, goal: string, backstory: string)

  /** The adaptor's completion: the composed prompt and the agent's prompt list to a reply. */
  type CompleteFn = (string, seq<PersonaPrompt>) -> string

  /** What follows the prompt when a context is given (lower case, leading space). */
  const LegacyContextSuffix: string := "\n\n take in consideration the following context: "

  const TooManyArgsPanic: string := "Error: too many arguments. Only one optional argument(context) is allowed."
  const AgentNotConfiguredPanic: string := "agent is not configured. Missing provider and model"
  const NoPromptPanic: string := "no prompt set"
}
