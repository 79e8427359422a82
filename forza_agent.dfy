/**
 * The agent of the forza sub-package (forza/agent.go): a list of persona entries whose
 * first entry the setters edit in place, and a configuration step that validates the
 * provider and model before marking the agent configured.
 *
 * The provider and model checks and the provider list live in a package that is not part
 * of this model; they are parameters. So is the adaptor: the agent records the
 * (provider, model) pairs it configured the adaptor with.
 */
module ForzaAgent {
  import opened Base
  import opened Common
  import opened Legacy

  /** The panic text for an unknown provider. */
  function UnknownProviderPanic(provider: string, providers: seq<string>): string
  {
    "Provider " + provider + " does not exist. Providers available are: " + Join(providers, ", ") + "\n"
  }

  class Agent {
    var isConfigured: bool
    var prompts: seq<PersonaPrompt>
    var adaptorConfigured: seq<(string, string)>

    /** The prompt list always has its first entry: the setters edit it. */
    predicate Valid()
      reads this
    {
      |prompts| >= 1
    }

    /** NewAgent: exactly one system entry with the goal and backstory; not configured. */
    constructor (backstory: string, goal: string)
      ensures prompts == [PersonaPrompt(AgentRoleSystem, goal, backstory)]
      ensures !isConfigured && adaptorConfigured == []
      ensures Valid()
    {
      prompts := [PersonaPrompt(AgentRoleSystem, goal, backstory)];
      isConfigured := false;
      adaptorConfigured := [];
    }

    /**
     * Configure: an unknown provider panics, then an unknown model panics with the check's
     * message; neither changes anything. Otherwise the adaptor is configured and the agent
     * becomes configured.
     */
    method Configure(provider: string, model: string, checkProvider: string -> bool,
                     checkModel: (string, string) -> (bool, string), listProviders: seq<string>)
      returns (out: Outcome<()>)
      modifies this
      ensures !checkProvider(provider) ==> out == Panicked(UnknownProviderPanic(provider, listProviders))
      ensures checkProvider(provider) && !checkModel(provider, model).0 ==> out == Panicked(checkModel(provider, model).1)
      ensures out.Panicked? ==>
        isConfigured == old(isConfigured) && adaptorConfigured == old(adaptorConfigured)
      ensures out.Returned? <==> checkProvider(provider) && checkModel(provider, model).0
      ensures out.Returned? ==> isConfigured && adaptorConfigured == old(adaptorConfigured) + [(provider, model)]
      ensures prompts == old(prompts)
    {
      if !checkProvider(provider) {
        return Panicked(UnknownProviderPanic(provider, listProviders));
      }
      var (isModelExist, msg) := checkModel(provider, model);
      if !isModelExist {
        return Panicked(msg);
      }
      adaptorConfigured := adaptorConfigured + [(provider, model)];
      isConfigured := true;
      out := Returned(());
    }

    /** AddExtraPrompt: appends one entry; earlier entries are unchanged. */
    method AddExtraPrompt(backstory: string, goal: string, role: string)
      modifies this
      ensures prompts == old(prompts) + [PersonaPrompt(role, goal, backstory)]
      ensures isConfigured == old(isConfigured) && adaptorConfigured == old(adaptorConfigured)
    {
      prompts := prompts + [PersonaPrompt(role, goal, backstory)];
    }

    /** WithBackstory: rewrites the backstory of the first entry only. */
    method WithBackstory(backstory: string)
      requires Valid()
      modifies this
      ensures prompts == old(prompts)[0 := old(prompts)[0].(backstory := backstory)]
      ensures isConfigured == old(isConfigured) && adaptorConfigured == old(adaptorConfigured)
    {
      prompts := prompts[0 := prompts[0].(backstory := backstory)];
    }

    /** WithGoal: rewrites the goal of the first entry only. */
    method WithGoal(goal: string)
      requires Valid()
      modifies this
      ensures prompts == old(prompts)[0 := old(prompts)[0].(goal := goal)]
      ensures isConfigured == old(isConfigured) && adaptorConfigured == old(adaptorConfigured)
    {
      prompts := prompts[0 := prompts[0].(goal := goal)];
    }

    /** WithRole: rewrites the role of the first entry only. */
    method WithRole(role: string)
      requires Valid()
      modifies this
      ensures prompts == old(prompts)[0 := old(prompts)[0].(role := role)]
      ensures isConfigured == old(isConfigured) && adaptorConfigured == old(adaptorConfigured)
    {
      prompts := prompts[0 := prompts[0].(role := role)];
    }
  }
}
