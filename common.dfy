/**
 * Provider names, per-provider model allow-lists and the model check (common.go).
 * Everything here is a read-only table or a pure lookup.
 */
module Common {
  import opened Base

  /** agentPrompts: a message role and its text. */
  datatype AgentPrompt = AgentPrompt(role: string, context: string)

  const ProviderOpenAi: string := "openai"
  const ProviderAzure: string := "openai-azure"
  const ProviderAnthropic: string := "anthropic"
  const ProviderGemini: string := "gemini"
  const ProviderOllama: string := "ollama"

  const AgentRoleSystem: string := "system"
  const AgentRoleUser: string := "user"

  /** The five provider names are non-empty and pairwise distinct (common_test.go:145-164). */
  lemma ProvidersDistinct()
    ensures var ps := [ProviderOpenAi, ProviderAzure, ProviderAnthropic, ProviderGemini, ProviderOllama];
      (forall i :: 0 <= i < |ps| ==> ps[i] != "")
      && (forall i, j :: 0 <= i < j < |ps| ==> ps[i] != ps[j])
  {
  }

  datatype OpenAIModelList = OpenAIModelList(
    gpt35Turbo: string, gpt4: string, gpt4o: string, gpt4Turbo: string,
    gpt4oMini: string, o1Mini: string, o1: string, gpt5: string)
  {
    /** The fields in declaration order. */
    function ListModels(): (r: seq<string>)
      ensures |r| == 8
      ensures r[0] == gpt35Turbo && r[1] == gpt4 && r[2] == gpt4o && r[3] == gpt4Turbo
      ensures r[4] == gpt4oMini && r[5] == o1Mini && r[6] == o1 && r[7] == gpt5
    {
      [gpt35Turbo, gpt4, gpt4o, gpt4Turbo, gpt4oMini, o1Mini, o1, gpt5]
    }
  }

  datatype AnthropicModelList = AnthropicModelList(
    claude3Haiku: string, claude35Sonnet: string, claude37Sonnet: string,
    claude4Sonnet: string, claude4Opus: string)
  {
    function ListModels(): (r: seq<string>)
      ensures |r| == 5
      ensures r[0] == claude3Haiku && r[1] == claude35Sonnet && r[2] == claude37Sonnet
      ensures r[3] == claude4Sonnet && r[4] == claude4Opus
    {
      [claude3Haiku, claude35Sonnet, claude37Sonnet, claude4Sonnet, claude4Opus]
    }
  }

  datatype GeminiModelList = GeminiModelList(
    gemini20Flash: string, gemini20FlashExp: string, gemini25Pro: string, gemini25Flash: string)
  {
    function ListModels(): (r: seq<string>)
      ensures |r| == 4
      ensures r[0] == gemini20Flash && r[1] == gemini20FlashExp && r[2] == gemini25Pro && r[3] == gemini25Flash
    {
      [gemini20Flash, gemini20FlashExp, gemini25Pro, gemini25Flash]
    }
  }

  datatype OllamaModelList = OllamaModelList(
    llama3: string, llama31: string, mistral: string, mixtral: string, phi3: string, gemma2: string)
  {
    function ListModels(): (r: seq<string>)
      ensures |r| == 6
      ensures r[0] == llama3 && r[1] == llama31 && r[2] == mistral
      ensures r[3] == mixtral && r[4] == phi3 && r[5] == gemma2
    {
      [llama3, llama31, mistral, mixtral, phi3, gemma2]
    }
  }

  const OpenAIModels: OpenAIModelList := OpenAIModelList(
    "gpt-3.5-turbo", "gpt-4", "gpt-4o", "gpt-4-turbo", "gpt-4o-mini", "o1-mini", "o1", "gpt-5")

  const AnthropicModels: AnthropicModelList := AnthropicModelList(
    "claude-3-haiku-20240307", "claude-3-5-sonnet-latest", "claude-3-7-sonnet-latest",
    "claude-sonnet-4-20250514", "claude-opus-4-20250514")

  const GeminiModels: GeminiModelList := GeminiModelList(
    "gemini-2.0-flash", "gemini-2.0-flash-exp", "gemini-2.5-pro", "gemini-2.5-flash")

  const OllamaModels: OllamaModelList := OllamaModelList(
    "llama3", "llama3.1", "mistral", "mixtral", "phi3", "gemma2")

  /** A value of the `Models` interface: one of the four list structs. */
  datatype Models =
    | OpenAIList(openai: OpenAIModelList)
    | AnthropicList(anthropic: AnthropicModelList)
    | GeminiList(gemini: GeminiModelList)
    | OllamaList(ollama: OllamaModelList)
  {
    function ListModels(): seq<string>
    {
      match this
      case OpenAIList(m) => m.ListModels()
      case AnthropicList(m) => m.ListModels()
      case GeminiList(m) => m.ListModels()
      case OllamaList(m) => m.ListModels()
    }
  }

  /** availableModels: openai-azure shares the OpenAI list. */
  const AvailableModels: map<string, Models> := map[
    ProviderOpenAi := OpenAIList(OpenAIModels),
    ProviderAzure := OpenAIList(OpenAIModels),
    ProviderAnthropic := AnthropicList(AnthropicModels),
    ProviderGemini := GeminiList(GeminiModels),
    ProviderOllama := OllamaList(OllamaModels)]

  /** The registered providers are exactly the five constants. */
  lemma AvailableProviders()
    ensures AvailableModels.Keys == {ProviderOpenAi, ProviderAzure, ProviderAnthropic, ProviderGemini, ProviderOllama}
    ensures AvailableModels[ProviderAzure] == AvailableModels[ProviderOpenAi]
  {
  }

  /** checkModel: whether the model is acceptable for the provider, and a message. */
  function CheckModel(provider: string, modelName: string): (bool, string)
  {
    if provider !in AvailableModels then
      (false, "provider " + Quote(provider) + " is not registered")
    else if provider == ProviderOllama then
      (true, "model accepted")
    else if modelName in AvailableModels[provider].ListModels() then
      (true, "model exists")
    else
      (false, "model " + Quote(modelName) + " does not exist. Available models for " + provider + ": ["
         + Join(AvailableModels[provider].ListModels(), " ") + "]")
  }

  /**
   * The model check accepts exactly: any model for Ollama, and for every other
   * registered provider a model of that provider's list; an unregistered provider
   * is refused with a non-empty message.
   */
  lemma CheckModelSpec(provider: string, modelName: string)
    ensures CheckModel(provider, modelName).0 <==>
      provider in AvailableModels && (provider == ProviderOllama || modelName in AvailableModels[provider].ListModels())
    ensures !CheckModel(provider, modelName).0 ==> CheckModel(provider, modelName).1 != ""
  {
  }

  /** Ollama accepts any model string, including ones not in its list (common_test.go:64-78). */
  lemma OllamaAcceptsAnyModel(modelName: string)
    ensures CheckModel(ProviderOllama, modelName).0
    ensures "my-custom-model" !in OllamaModels.ListModels()
  {
  }

  /** openai-azure is checked against the OpenAI list (common_test.go:17). */
  lemma AzureUsesOpenAIList(modelName: string)
    ensures CheckModel(ProviderAzure, modelName).0 <==> modelName in OpenAIModels.ListModels()
  {
  }

  /**
   * Every model of a non-Ollama provider's list is accepted for that provider with the
   * message "model exists", and each constant list holds distinct names, so listing the
   * list names each model once (common_test.go:7-62, 100-122).
   */
  lemma ListedModelsAccepted(provider: string, i: nat)
    requires provider in AvailableModels && provider != ProviderOllama
    requires i < |AvailableModels[provider].ListModels()|
    ensures CheckModel(provider, AvailableModels[provider].ListModels()[i]) == (true, "model exists")
    ensures forall j :: 0 <= j < |AvailableModels[provider].ListModels()| && j != i ==>
      AvailableModels[provider].ListModels()[j] != AvailableModels[provider].ListModels()[i]
  {
  }

  /** The models the tests name are in the OpenAI list and accepted for openai and openai-azure. */
  lemma OpenAIListHoldsTestedModels()
    ensures forall m | m in ["gpt-3.5-turbo", "gpt-4", "gpt-4o", "gpt-4-turbo", "gpt-4o-mini"] ::
      m in OpenAIModels.ListModels() && CheckModel(ProviderOpenAi, m).0 && CheckModel(ProviderAzure, m).0
    ensures !CheckModel(ProviderOpenAi, "nonexistent-model").0
  {
  }
}
