/**
 * The configuration builder of the older revision (llm.go): a mutable record whose
 * setters assign one field each and return the receiver, so calls can be chained.
 */
module Llm {

  /** The OpenAI credentials: a plain key, or an Azure key with its endpoint. */
  datatype OpenAiCredentials = OpenAiCredentials(openAiApiKey: string, azureOpenAiApiKey: string, azureOpenAiEndpoint: string)

  /** The record WithOpenAiCredentials stores: only the key, Azure fields cleared. */
  function OpenAiOnly(openAiApiKey: string): (c: OpenAiCredentials)
    ensures c.openAiApiKey == openAiApiKey && c.azureOpenAiApiKey == "" && c.azureOpenAiEndpoint == ""
  {
    OpenAiCredentials(openAiApiKey, "", "")
  }

  /** The record WithAzureOpenAiCredentials stores: the Azure pair, the plain key cleared. */
  function AzureOnly(azureOpenAiApiKey: string, azureOpenAiEndpoint: string): (c: OpenAiCredentials)
    ensures c.openAiApiKey == "" && c.azureOpenAiApiKey == azureOpenAiApiKey && c.azureOpenAiEndpoint == azureOpenAiEndpoint
  {
    OpenAiCredentials("", azureOpenAiApiKey, azureOpenAiEndpoint)
  }

  /** The default temperature of a new configuration. */
  const DefaultTemperature: real := 0.3

  /** llmConfig. The temperature is a Go float64, kept here as an opaque real. */
  class LlmConfig {
    var provider: string
    var model: string
    var credentials: OpenAiCredentials
    var temperature: real

    /** NewLLMConfig: temperature 0.3, everything else empty. */
    constructor ()
      ensures provider == "" && model == "" && temperature == 0.3
      ensures credentials == OpenAiCredentials("", "", "")
    {
      provider := "";
      model := "";
      credentials := OpenAiCredentials("", "", "");
      temperature := DefaultTemperature;
    }

    /** WithTempature (sic): sets the temperature only and returns the receiver. */
    method WithTempature(t: real) returns (c: LlmConfig)
      modifies this
      ensures c == this && temperature == t
      ensures provider == old(provider) && model == old(model) && credentials == old(credentials)
    {
      temperature := t;
      c := this;
    }

    /** WithProvider: sets the provider only and returns the receiver. */
    method WithProvider(p: string) returns (c: LlmConfig)
      modifies this
      ensures c == this && provider == p
      ensures model == old(model) && credentials == old(credentials) && temperature == old(temperature)
    {
      provider := p;
      c := this;
    }

    /** WithModel: sets the model only and returns the receiver. */
    method WithModel(m: string) returns (c: LlmConfig)
      modifies this
      ensures c == this && model == m
      ensures provider == old(provider) && credentials == old(credentials) && temperature == old(temperature)
    {
      model := m;
      c := this;
    }

    /** WithOpenAiCredentials: replaces the whole record, clearing any Azure key and endpoint. */
    method WithOpenAiCredentials(openAiApiKey: string) returns (c: LlmConfig)
      modifies this
      ensures c == this && credentials == OpenAiOnly(openAiApiKey)
      ensures provider == old(provider) && model == old(model) && temperature == old(temperature)
    {
      credentials := OpenAiCredentials(openAiApiKey, "", "");
      c := this;
    }

    /** WithAzureOpenAiCredentials: replaces the whole record, clearing the plain key. */
    method WithAzureOpenAiCredentials(azureOpenAiApiKey: string, azureOpenAiEndpoint: string) returns (c: LlmConfig)
      modifies this
      ensures c == this && credentials == AzureOnly(azureOpenAiApiKey, azureOpenAiEndpoint)
      ensures provider == old(provider) && model == old(model) && temperature == old(temperature)
    {
      credentials := OpenAiCredentials("", azureOpenAiApiKey, azureOpenAiEndpoint);
      c := this;
    }
  }

  /**
   * The two credential setters never combine: a stored record holds a plain key or an
   * Azure pair, not both, and the record only depends on the last call's arguments.
   */
  lemma CredentialsExclusive(key: string, azureKey: string, endpoint: string)
    ensures OpenAiOnly(key) != AzureOnly(azureKey, endpoint) || (key == "" && azureKey == "" && endpoint == "")
    ensures key != "" ==> AzureOnly(azureKey, endpoint).openAiApiKey != key
    ensures azureKey != "" ==> OpenAiOnly(key).azureOpenAiApiKey != azureKey
  {
  }
}
