/**
 * The adaptor of the older root revision (adaptor.go): a small state machine that records
 * a provider and model, creates an OpenAI service for the two OpenAI providers, and
 * dispatches completions and function registrations on that state.
 *
 * The OpenAI service of this revision is not part of this model: a `Service` records the
 * calls made on it, and its completion is an oracle.
 */
module Adaptors {
  import opened Base
  import opened Common
  import opened Functions
  import opened Tools
  import opened Legacy

  /** A call made on the service: setting its model, or registering a function. */
  datatype ServiceCall =
    | WithModel(model: string)
    | AddFunction(name: string, description: string, schema: Schema, fn: string -> string)

  /** An OpenAI service, as the calls made on it since it was created. */
  datatype Service = OpenAIService(calls: seq<ServiceCall>)

  /** The service's completion. */
  type ServiceCompleteFn = (Service, string, seq<PersonaPrompt>) -> string

  const ConfigurePanic: string := "Please configure the adaptor first"
  const NoProviderPanic: string := "no provider selected"

  class Adaptor {
    var provider: string
    var model: string
    var service: Option<Service>

    /**
     * The reachable states: nothing set, or an OpenAI provider with its service (the model
     * may be empty).
     */
    predicate Valid()
      reads this
    {
      && (provider == "" ==> model == "" && service.None?)
      && (provider != "" ==> (provider == ProviderOpenAi || provider == ProviderAzure) && service.Some?)
    }

    /** NewAdaptor: nothing set. */
    constructor ()
      ensures provider == "" && model == "" && service == None
      ensures Valid()
    {
      provider := "";
      model := "";
      service := None;
    }

    /**
     * Configure: openai and openai-azure record the provider and model and get a fresh
     * service told the model; any other provider changes nothing.
     */
    method Configure(p: string, m: string)
      requires Valid()
      modifies this
      ensures Valid()
      ensures p == ProviderOpenAi || p == ProviderAzure ==>
        provider == p && model == m && service == Some(OpenAIService([WithModel(m)]))
      ensures p != ProviderOpenAi && p != ProviderAzure ==>
        provider == old(provider) && model == old(model) && service == old(service)
    {
      if p == ProviderOpenAi || p == ProviderAzure {
        provider := p;
        model := m;
        service := Some(OpenAIService([WithModel(m)]));
      }
    }

    /**
     * Completion: panics only when provider, service and model are all unset; dispatches
     * to the service for openai only, and returns "" for openai-azure.
     */
    function Completion(prompt: string, prompts: seq<PersonaPrompt>, complete: ServiceCompleteFn): (out: Outcome<string>)
      requires Valid()
      reads this
      ensures out.Panicked? <==> provider == "" && service.None? && model == ""
      ensures out.Panicked? ==> out.reason == ConfigurePanic
      ensures provider == ProviderOpenAi ==> out == Returned(complete(service.value, prompt, prompts))
      ensures provider == ProviderAzure ==> out == Returned("")
    {
      if provider == "" && service.None? && model == "" then Panicked(ConfigurePanic)
      else if provider == ProviderOpenAi then Returned(complete(service.value, prompt, prompts))
      else Returned("")
    }

    /**
     * SetFunction: panics without a provider; for openai registers the function, with the
     * schema `generateSchema` makes of the shape, on the service; otherwise does nothing.
     */
    method SetFunction(name: string, description: string, params: FunctionShape, fn: string -> string,
                       generateSchema: FunctionShape -> Schema) returns (out: Outcome<()>)
      requires Valid()
      modifies this
      ensures Valid()
      ensures provider == old(provider) && model == old(model)
      ensures out.Panicked? <==> old(provider) == ""
      ensures out.Panicked? ==> out.reason == NoProviderPanic
      ensures provider == ProviderOpenAi ==>
        service == Some(OpenAIService(old(service).value.calls + [AddFunction(name, description, generateSchema(params), fn)]))
      ensures provider != ProviderOpenAi ==> service == old(service)
    {
      if provider == "" {
        return Panicked(NoProviderPanic);
      }
      if provider == ProviderOpenAi {
        var jsonschema := generateSchema(params);
        service := Some(OpenAIService(service.value.calls + [AddFunction(name, description, jsonschema, fn)]));
      }
      out := Returned(());
    }
  }
}
