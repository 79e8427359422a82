/**
 * The agent of the current revision (agent.go): a persona built by chained setters, and
 * NewLLMTask, which validates the persona and the configuration in a fixed order before
 * picking a provider constructor.
 */
module Agents {
  import opened Base
  import opened Errors
  import opened Common

  /** The provider constructors the factory can pick. */
  datatype Constructor = NewOpenAI | NewAnthropic | NewGemini | NewOllama

  /** providerFactory: openai and openai-azure share the OpenAI constructor. */
  const ProviderFactory: map<string, Constructor> := map[
    ProviderOpenAi := NewOpenAI,
    ProviderAzure := NewOpenAI,
    ProviderAnthropic := NewAnthropic,
    ProviderGemini := NewGemini,
    ProviderOllama := NewOllama]

  /** The two fields of the configuration NewLLMTask reads. */
  datatype LlmSettings = LlmSettings(provider: string, model: string)

  /** An engine as the factory builds it: which constructor, from which configuration and persona. */
  datatype LlmTask = LlmTask(engine: Constructor, settings: LlmSettings, role: string, backstory: string, goal: string)

  /** The factory covers all five providers, and openai and openai-azure share a constructor. */
  lemma FactoryCoversProviders()
    ensures ProviderFactory.Keys == AvailableModels.Keys
    ensures ProviderFactory[ProviderAzure] == ProviderFactory[ProviderOpenAi] == NewOpenAI
    ensures forall p, q ::
      (p in ProviderFactory && q in ProviderFactory && p != q && ProviderFactory[p] == ProviderFactory[q])
      ==> {p, q} == {ProviderOpenAi, ProviderAzure}
  {
    AvailableProviders();
  }

  class Agent {
    var role: string
    var backstory: string
    var goal: string

    /** NewAgent: an empty persona. */
    constructor ()
      ensures role == "" && backstory == "" && goal == ""
    {
      role := "";
      backstory := "";
      goal := "";
    }

    /** WithRole: sets the role only and returns the same agent. */
    method WithRole(r: string) returns (a: Agent)
      modifies this
      ensures a == this && role == r && backstory == old(backstory) && goal == old(goal)
    {
      role := r;
      a := this;
    }

    /** WithBackstory: sets the backstory only and returns the same agent. */
    method WithBackstory(b: string) returns (a: Agent)
      modifies this
      ensures a == this && backstory == b && role == old(role) && goal == old(goal)
    {
      backstory := b;
      a := this;
    }

    /** WithGoal: sets the goal only and returns the same agent. */
    method WithGoal(g: string) returns (a: Agent)
      modifies this
      ensures a == this && goal == g && role == old(role) && backstory == old(backstory)
    {
      goal := g;
      a := this;
    }

    /**
     * NewLLMTask: the persona is checked role, backstory, goal, and the first empty field
     * gives its sentinel; then the model check, whose message follows ErrModelNotFound;
     * then the factory lookup. Success builds with the provider's constructor. The lookup
     * never fails: ErrProviderNotFound is unreachable, because an unknown provider already
     * fails the model check.
     */
    method NewLLMTask(c: LlmSettings) returns (r: Result<LlmTask, Error>)
      ensures role == "" ==> r == Err(Sentinel(MissingRole))
      ensures role != "" && backstory == "" ==> r == Err(Sentinel(MissingBackstory))
      ensures role != "" && backstory != "" && goal == "" ==> r == Err(Sentinel(MissingGoal))
      ensures role != "" && backstory != "" && goal != "" && !CheckModel(c.provider, c.model).0 ==>
        r == Err(Annotated(ModelNotFound, CheckModel(c.provider, c.model).1))
      ensures r.Ok? <==> role != "" && backstory != "" && goal != "" && CheckModel(c.provider, c.model).0
      ensures r.Ok? ==> c.provider in ProviderFactory && r.value == LlmTask(ProviderFactory[c.provider], c, role, backstory, goal)
      ensures r.Err? ==> !Is(r.error, ProviderNotFound)
    {
      if role == "" {
        return Err(Sentinel(MissingRole));
      }
      if backstory == "" {
        return Err(Sentinel(MissingBackstory));
      }
      if goal == "" {
        return Err(Sentinel(MissingGoal));
      }
      var (ok, msg) := CheckModel(c.provider, c.model);
      if !ok {
        return Err(Annotated(ModelNotFound, msg));
      }
      FactoryCoversProviders();
      if c.provider !in ProviderFactory {
        // The Go code returns ErrProviderNotFound here; the model check above rules it out.
        assert false;
      }
      r := Ok(LlmTask(ProviderFactory[c.provider], c, role, backstory, goal));
    }
  }
}
