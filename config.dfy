/**
 * The two decisions of the settings object: which LLM provider to use and
 * what to hand the vector-store client. The field values themselves (read
 * from the environment and `.env`) are inputs.
 */
module Config {
  import opened Wrappers

  /** The settings fields these decisions read. */
  datatype Settings = Settings(
    openaiApiKey: Option<string>,
    openaiModel: string,
    anthropicApiKey: Option<string>,
    anthropicModel: string,
    googleApiKey: Option<string>,
    googleModel: string,
    weaviateUrl: Option<string>,
    weaviateApiKey: Option<string>,
    weaviateClassName: string)

  /** The declared field defaults: no key, no URL, the default model and class names. */
  function Defaults(): (s: Settings)
    ensures !IsSet(s.openaiApiKey) && !IsSet(s.anthropicApiKey) && !IsSet(s.googleApiKey)
    ensures !IsSet(s.weaviateUrl) && !IsSet(s.weaviateApiKey)
  {
    Settings(None, "gpt-4-turbo-preview", None, "claude-3-sonnet-20240229",
             None, "gemini-2.0-flash-exp", None, None, "BudgetDocument")
  }

  /** Python truthiness of an `Optional[str]`: `None` and `""` both count as unset. */
  predicate IsSet(key: Option<string>)
  {
    key.Some? && key.value != ""
  }

  /** The record `get_llm_config` returns. */
  datatype LlmConfig = LlmConfig(provider: string, apiKey: string, model: string)

  /** The providers, highest priority first. */
  const Providers: seq<string> := ["google", "openai", "anthropic"]

  /** The key field that belongs to a provider. */
  function KeyOf(s: Settings, provider: string): (key: Option<string>)
  {
    if provider == "google" then s.googleApiKey
    else if provider == "openai" then s.openaiApiKey
    else if provider == "anthropic" then s.anthropicApiKey
    else None
  }

  /** The model field that belongs to a provider. */
  function ModelOf(s: Settings, provider: string): (model: string)
  {
    if provider == "google" then s.googleModel
    else if provider == "openai" then s.openaiModel
    else s.anthropicModel
  }

  const NoLlmKey := "No LLM API key provided. Please set GOOGLE_API_KEY, OPENAI_API_KEY, or ANTHROPIC_API_KEY"

  /**
   * `get_llm_config`: the first provider in priority order whose key is set,
   * with that key and that provider's model; an error when no key is set.
   */
  function GetLlmConfig(s: Settings): (r: Result<LlmConfig, string>)
    ensures r.Failure? <==> forall p :: p in Providers ==> !IsSet(KeyOf(s, p))
    ensures r.Failure? ==> r.error != ""
    ensures r.Success? ==>
              (exists i :: 0 <= i < |Providers| && r.value.provider == Providers[i] &&
                 forall j :: 0 <= j < i ==> !IsSet(KeyOf(s, Providers[j])))
    ensures r.Success? ==>
              (IsSet(KeyOf(s, r.value.provider)) &&
               Some(r.value.apiKey) == KeyOf(s, r.value.provider) &&
               r.value.model == ModelOf(s, r.value.provider))
  {
    if IsSet(s.googleApiKey) then
      assert Providers[0] == "google" && KeyOf(s, Providers[0]) == s.googleApiKey;
      Success(LlmConfig("google", s.googleApiKey.value, s.googleModel))
    else if IsSet(s.openaiApiKey) then
      assert Providers[1] == "openai" && KeyOf(s, Providers[1]) == s.openaiApiKey;
      Success(LlmConfig("openai", s.openaiApiKey.value, s.openaiModel))
    else if IsSet(s.anthropicApiKey) then
      assert Providers[2] == "anthropic" && KeyOf(s, Providers[2]) == s.anthropicApiKey;
      Success(LlmConfig("anthropic", s.anthropicApiKey.value, s.anthropicModel))
    else
      Failure(NoLlmKey)
  }

  /** A Google key decides the provider whatever the other two keys are. */
  lemma GoogleKeyWins(s: Settings, openai: Option<string>, anthropic: Option<string>)
    requires IsSet(s.googleApiKey)
    ensures GetLlmConfig(s).Success? && GetLlmConfig(s).value.provider == "google"
    ensures GetLlmConfig(s) == GetLlmConfig(s.(openaiApiKey := openai, anthropicApiKey := anthropic))
  {
  }

  /** Without a Google key an OpenAI key decides, whatever the Anthropic key is. */
  lemma OpenAiKeyNext(s: Settings, anthropic: Option<string>)
    requires !IsSet(s.googleApiKey) && IsSet(s.openaiApiKey)
    ensures GetLlmConfig(s) == Success(LlmConfig("openai", s.openaiApiKey.value, s.openaiModel))
    ensures GetLlmConfig(s) == GetLlmConfig(s.(anthropicApiKey := anthropic))
  {
  }

  /** Only an Anthropic key: the provider is Anthropic. */
  lemma AnthropicKeyLast(s: Settings)
    requires !IsSet(s.googleApiKey) && !IsSet(s.openaiApiKey) && IsSet(s.anthropicApiKey)
    ensures GetLlmConfig(s) == Success(LlmConfig("anthropic", s.anthropicApiKey.value, s.anthropicModel))
  {
  }

  /** The record `get_weaviate_config` returns, keyed as in the source. */
  type WeaviateConfig = map<string, string>

  const WeaviateUrlRequired := "WEAVIATE_URL is required"

  /**
   * `get_weaviate_config`: an error without a URL; otherwise `url` and
   * `class_name`, plus `api_key` exactly when a key is set.
   */
  function GetWeaviateConfig(s: Settings): (r: Result<WeaviateConfig, string>)
    ensures r.Failure? <==> !IsSet(s.weaviateUrl)
    ensures r.Failure? ==> r.error == WeaviateUrlRequired
    ensures r.Success? ==> "url" in r.value && r.value["url"] == s.weaviateUrl.value
    ensures r.Success? ==> "class_name" in r.value && r.value["class_name"] == s.weaviateClassName
    ensures r.Success? ==> ("api_key" in r.value <==> IsSet(s.weaviateApiKey))
    ensures r.Success? && IsSet(s.weaviateApiKey) ==> r.value["api_key"] == s.weaviateApiKey.value
    ensures r.Success? ==> r.value.Keys <= {"url", "class_name", "api_key"}
  {
    if !IsSet(s.weaviateUrl) then
      Failure(WeaviateUrlRequired)
    else
      var config := map["url" := s.weaviateUrl.value, "class_name" := s.weaviateClassName];
      if IsSet(s.weaviateApiKey) then Success(config["api_key" := s.weaviateApiKey.value])
      else Success(config)
  }
}
