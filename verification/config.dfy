/** Provider configuration of src/unified_provider/config.py: the provider
    enum, the configuration record and its validation, the two default-model
    tables, and configuration from an environment snapshot. */
module Config {
  import opened Wrappers
  import opened JsonValues
  import opened Exceptions
  import opened Text

  // ---------------------------------------------------------------------
  // ProviderType

  datatype ProviderType = OpenAI | Google | Together | AzureOpenAI | Anyscale

  function ProviderValue(p: ProviderType): string {
    match p
    case OpenAI => "openai"
    case Google => "google"
    case Together => "together"
    case AzureOpenAI => "azure_openai"
    case Anyscale => "anyscale"
  }

  /** `ProviderType(s)`: the member whose value is exactly s. */
  function ProviderFromValue(s: string): (r: Option<ProviderType>)
    ensures r.Some? <==> exists p :: ProviderValue(p) == s
    ensures r.Some? ==> ProviderValue(r.value) == s
  {
    if s == ProviderValue(OpenAI) then Some(OpenAI)
    else if s == ProviderValue(Google) then Some(Google)
    else if s == ProviderValue(Together) then Some(Together)
    else if s == ProviderValue(AzureOpenAI) then Some(AzureOpenAI)
    else if s == ProviderValue(Anyscale) then Some(Anyscale)
    else None
  }

  /** The values are distinct and already lower-case, so each one names its
      own member, whatever the capitalisation it is written in. */
  lemma ProviderValueRoundTrip(p: ProviderType, s: string)
    requires ToLower(s) == ProviderValue(p)
    ensures ProviderFromValue(ProviderValue(p)) == Some(p)
    ensures ProviderFromValue(ToLower(s)) == Some(p)
    ensures HasNoCapitals(ProviderValue(p))
  {
  }

  // ---------------------------------------------------------------------
  // ProviderConfig

  datatype ProviderConfig = ProviderConfig(
    provider: ProviderType,
    apiKey: string,
    baseUrl: Option<string> := None,
    defaultLlmModel: Option<string> := None,
    defaultEmbeddingModel: Option<string> := None,
    timeout: int := 60,
    maxRetries: int := 3,
    additionalParams: Object := map[])

  /** The invariant `validate` checks. */
  predicate IsValid(c: ProviderConfig) {
    c.apiKey != "" && c.timeout > 0 && c.maxRetries >= 0
  }

  const ApiKeyRequired := "API key is required"
  const TimeoutNotPositive := "Timeout must be positive"
  const RetriesNegative := "Max retries cannot be negative"

  /** `ProviderConfig.validate`: passes exactly on valid configurations.
      When several clauses fail, the first in the order key, timeout,
      retries decides the ValueError. */
  function Validate(c: ProviderConfig): (r: Outcome<Failure>)
    ensures r.Pass? <==> IsValid(c)
    ensures r.Fail? ==> r.error.ValueError?
    ensures c.apiKey == "" ==> r == Fail(ValueError(ApiKeyRequired))
    ensures c.apiKey != "" && c.timeout <= 0 ==> r == Fail(ValueError(TimeoutNotPositive))
    ensures c.apiKey != "" && c.timeout > 0 && c.maxRetries < 0 ==> r == Fail(ValueError(RetriesNegative))
  {
    if c.apiKey == "" then Fail(ValueError(ApiKeyRequired))
    else if c.timeout <= 0 then Fail(ValueError(TimeoutNotPositive))
    else if c.maxRetries < 0 then Fail(ValueError(RetriesNegative))
    else Pass
  }

  /** A configuration built with only a provider and a non-empty key takes
      the defaults 60 and 3, and so validates. */
  lemma DefaultConfigIsValid(p: ProviderType, key: string)
    requires key != ""
    ensures var c := ProviderConfig(p, key);
      c.timeout == 60 && c.maxRetries == 3 && c.baseUrl.None? && c.additionalParams == map[]
      && Validate(c) == Pass
  {
  }

  // ---------------------------------------------------------------------
  // Default-model tables

  /** `_get_default_llm_model`. The table covers every member, so the
      `dict.get` fallback to "gpt-4-turbo-preview" is never taken. */
  function DefaultLlmModel(p: ProviderType): (r: string)
    ensures r != ""
  {
    match p
    case OpenAI => "gpt-4-turbo-preview"
    case Google => "gemini-pro"
    case Together => "mistralai/Mixtral-8x7B-Instruct-v0.1"
    case AzureOpenAI => "gpt-4"
    case Anyscale => "mistralai/Mixtral-8x7B-Instruct-v0.1"
  }

  /** `_get_default_embedding_model`; its fallback is likewise unreachable.
      No provider's embedding model is also its chat model. */
  function DefaultEmbeddingModel(p: ProviderType): (r: string)
    ensures r != "" && r != DefaultLlmModel(p)
  {
    match p
    case OpenAI => "text-embedding-3-small"
    case Google => "text-embedding-004"
    case Together => "togethercomputer/m2-bert-80M-8k-retrieval"
    case AzureOpenAI => "text-embedding-3-small"
    case Anyscale => "thenlper/gte-large"
  }

  /** How the tables relate: Azure shares OpenAI's embedding model but not
      its chat model, and Together and Anyscale share a chat model (the
      Mixtral instruct model). OpenAI, Azure and Google use embedding
      models named "text-embedding-...". */
  lemma DefaultTablesShape()
    ensures DefaultEmbeddingModel(AzureOpenAI) == DefaultEmbeddingModel(OpenAI)
    ensures DefaultLlmModel(AzureOpenAI) == "gpt-4" != DefaultLlmModel(OpenAI)
    ensures DefaultLlmModel(Together) == DefaultLlmModel(Anyscale)
  {
  }

  // ---------------------------------------------------------------------
  // from_env over an environment snapshot

  type Env = map<string, string>

  const ApiKeyVar := "UNIFIED_API_KEY"
  const ProviderVar := "UNIFIED_PROVIDER"
  const LlmModelVar := "UNIFIED_LLM_MODEL"
  const EmbeddingModelVar := "UNIFIED_EMBEDDING_MODEL"
  const BaseUrlVar := "UNIFIED_BASE_URL"
  const TimeoutVar := "UNIFIED_TIMEOUT"
  const MaxRetriesVar := "UNIFIED_MAX_RETRIES"

  /** `os.getenv(name)`. */
  function GetEnv(env: Env, name: string): Option<string> {
    if name in env then Some(env[name]) else None
  }

  /** `os.getenv(name, default)`. */
  function GetEnvOr(env: Env, name: string, default: string): string {
    if name in env then env[name] else default
  }

  /** An explicit provider wins; otherwise the variable (default "openai")
      is lower-cased and must name a member. */
  function ResolveProvider(env: Env, provider: Option<ProviderType>, envProvider: string): (r: Result<ProviderType, Failure>)
    ensures provider.Some? ==> r == Success(provider.value)
    ensures provider.None? && r.Success? ==> ProviderValue(r.value) == ToLower(GetEnvOr(env, envProvider, "openai"))
    ensures provider.None? ==>
      (r.Failure? <==> forall p :: ProviderValue(p) != ToLower(GetEnvOr(env, envProvider, "openai")))
    ensures r.Failure? ==> r.error == ValueError("Invalid provider type: " + GetEnvOr(env, envProvider, "openai"))
  {
    if provider.Some? then Success(provider.value)
    else
      var name := GetEnvOr(env, envProvider, "openai");
      match ProviderFromValue(ToLower(name))
      case Some(p) => Success(p)
      case None => Failure(ValueError("Invalid provider type: " + name))
  }

  /** `x = os.getenv(name)` followed by `if not x: x = fallback`. */
  function ModelSetting(env: Env, name: string, fallback: string): (r: string)
    ensures name in env && env[name] != "" ==> r == env[name]
    ensures name !in env || env[name] == "" ==> r == fallback
  {
    if name in env && env[name] != "" then env[name] else fallback
  }

  /** `int(os.getenv(name, default))` with the default written in decimal:
      the variable when it is set, read by `int()`, and the default itself
      when it is not (a default too long for `int()` would be refused). */
  function IntSetting(env: Env, name: string, default: int): (r: Result<int, Failure>)
    ensures r.Success? <==> ParseInt(GetEnvOr(env, name, ShowInt(default))).Some?
    ensures r.Success? ==> ParseInt(GetEnvOr(env, name, ShowInt(default))) == Some(r.value)
    ensures r.Failure? ==> r.error.ValueError?
    ensures name !in env && ShortDecimal(default) ==> r == Success(default)
    ensures name !in env && !ShortDecimal(default) ==> r.Failure?
  {
    ParseShowRoundTrip(default);
    var text := GetEnvOr(env, name, ShowInt(default));
    match ParseInt(text)
    case Some(n) => Success(n)
    case None => Failure(ValueError("invalid literal for int() with base 10: '" + text + "'"))
  }

  /** Everything `from_env` reads from the environment, each read as the
      source performs it. */
  datatype EnvReading = EnvReading(
    apiKey: string,
    provider: Result<ProviderType, Failure>,
    llmModel: string,
    embeddingModel: string,
    baseUrl: Option<string>,
    timeout: Result<int, Failure>,
    maxRetries: Result<int, Failure>)

  function ReadEnv(env: Env, provider: Option<ProviderType>, envApiKey: string, envProvider: string): EnvReading {
    EnvReading(
      GetEnvOr(env, envApiKey, ""),
      ResolveProvider(env, provider, envProvider),
      GetEnvOr(env, LlmModelVar, ""),
      GetEnvOr(env, EmbeddingModelVar, ""),
      GetEnv(env, BaseUrlVar),
      IntSetting(env, TimeoutVar, 60),
      IntSetting(env, MaxRetriesVar, 3))
  }

  /** The checks and defaults of `from_env`, in the source's order. */
  function Assemble(envApiKey: string, e: EnvReading): (r: Result<ProviderConfig, Failure>)
    ensures e.apiKey == "" ==> r == Failure(ValueError("Environment variable " + envApiKey + " not set"))
    ensures r.Success? <==> e.apiKey != "" && e.provider.Success? && e.timeout.Success? && e.maxRetries.Success?
    ensures e.apiKey != "" && e.provider.Failure? ==> r == Failure(e.provider.error)
    ensures r.Success? ==>
      && r.value.provider == e.provider.value && r.value.apiKey == e.apiKey && r.value.baseUrl == e.baseUrl
      && r.value.defaultLlmModel == Some(if e.llmModel != "" then e.llmModel else DefaultLlmModel(e.provider.value))
      && r.value.defaultEmbeddingModel ==
           Some(if e.embeddingModel != "" then e.embeddingModel else DefaultEmbeddingModel(e.provider.value))
      && r.value.timeout == e.timeout.value && r.value.maxRetries == e.maxRetries.value
      && r.value.additionalParams == map[]
  {
    if e.apiKey == "" then Failure(ValueError("Environment variable " + envApiKey + " not set"))
    else
      var p :- e.provider;
      var llm := if e.llmModel != "" then e.llmModel else DefaultLlmModel(p);
      var embedding := if e.embeddingModel != "" then e.embeddingModel else DefaultEmbeddingModel(p);
      var timeout :- e.timeout;
      var retries :- e.maxRetries;
      Success(ProviderConfig(p, e.apiKey, e.baseUrl, Some(llm), Some(embedding), timeout, retries))
  }

  /** `ProviderConfig.from_env` over the snapshot `env`. It fails on a
      missing or empty key, then on an unknown provider name, then on a
      timeout or retry count `int()` cannot read; it does not validate. */
  function FromEnv(env: Env, provider: Option<ProviderType> := None,
                   envApiKey: string := ApiKeyVar, envProvider: string := ProviderVar): (r: Result<ProviderConfig, Failure>)
    ensures GetEnvOr(env, envApiKey, "") == "" ==>
      r == Failure(ValueError("Environment variable " + envApiKey + " not set"))
    ensures r.Success? <==>
      && GetEnvOr(env, envApiKey, "") != ""
      && ResolveProvider(env, provider, envProvider).Success?
      && IntSetting(env, TimeoutVar, 60).Success?
      && IntSetting(env, MaxRetriesVar, 3).Success?
    ensures GetEnvOr(env, envApiKey, "") != "" && ResolveProvider(env, provider, envProvider).Failure? ==>
      r == Failure(ResolveProvider(env, provider, envProvider).error)
    ensures r.Success? ==>
      var c := r.value;
      && c.apiKey == env[envApiKey] && c.apiKey != ""
      && Success(c.provider) == ResolveProvider(env, provider, envProvider)
      && c.defaultLlmModel == Some(ModelSetting(env, LlmModelVar, DefaultLlmModel(c.provider)))
      && c.defaultEmbeddingModel == Some(ModelSetting(env, EmbeddingModelVar, DefaultEmbeddingModel(c.provider)))
      && c.baseUrl == GetEnv(env, BaseUrlVar)
      && (TimeoutVar !in env ==> c.timeout == 60)
      && (TimeoutVar in env ==> ParseInt(env[TimeoutVar]) == Some(c.timeout))
      && (MaxRetriesVar !in env ==> c.maxRetries == 3)
      && (MaxRetriesVar in env ==> ParseInt(env[MaxRetriesVar]) == Some(c.maxRetries))
      && c.additionalParams == map[]
  {
    SmallIsShortDecimal(60);
    SmallIsShortDecimal(3);
    var e := ReadEnv(env, provider, envApiKey, envProvider);
    assert e.apiKey == GetEnvOr(env, envApiKey, "") && e.provider == ResolveProvider(env, provider, envProvider);
    assert e.llmModel == GetEnvOr(env, LlmModelVar, "") && e.embeddingModel == GetEnvOr(env, EmbeddingModelVar, "");
    assert e.timeout == IntSetting(env, TimeoutVar, 60) && e.maxRetries == IntSetting(env, MaxRetriesVar, 3);
    Assemble(envApiKey, e)
  }

  /** An environment holding only a non-empty API key reads as an OpenAI
      configuration with every default in place. */
  lemma FromEnvMinimal(key: string)
    requires key != ""
    ensures var r := FromEnv(map[ApiKeyVar := key]);
      && r.Success?
      && r.value == ProviderConfig(OpenAI, key, None, Some(DefaultLlmModel(OpenAI)), Some(DefaultEmbeddingModel(OpenAI)), 60, 3, map[])
  {
    var env := map[ApiKeyVar := key];
    assert GetEnvOr(env, ApiKeyVar, "") == key;
    assert ResolveProvider(env, None, ProviderVar) == Success(OpenAI) by {
      assert GetEnvOr(env, ProviderVar, "openai") == "openai";
      assert ToLower("openai") == "openai";
      ProviderValueRoundTrip(OpenAI, "openai");
    }
    assert TimeoutVar !in env && MaxRetriesVar !in env;
    assert LlmModelVar !in env && EmbeddingModelVar !in env && BaseUrlVar !in env;
  }

  /** A configuration read from the environment always names both default
      models, and neither is empty. */
  lemma FromEnvSetsDefaultModels(env: Env, provider: Option<ProviderType>, envApiKey: string, envProvider: string)
    ensures var r := FromEnv(env, provider, envApiKey, envProvider);
      r.Success? ==>
        && r.value.defaultLlmModel.Some? && r.value.defaultLlmModel.value != ""
        && r.value.defaultEmbeddingModel.Some? && r.value.defaultEmbeddingModel.value != ""
  {
  }

  /** With an explicit provider the provider variable is never read: two
      environments that differ at most in that variable, in its value or in
      its presence, give the same result. */
  lemma ExplicitProviderIgnoresVariable(env: Env, env': Env, p: ProviderType, envApiKey: string, envProvider: string)
    requires envProvider != envApiKey
    requires envProvider !in {LlmModelVar, EmbeddingModelVar, BaseUrlVar, TimeoutVar, MaxRetriesVar}
    requires env - {envProvider} == env' - {envProvider}
    ensures FromEnv(env, Some(p), envApiKey, envProvider) == FromEnv(env', Some(p), envApiKey, envProvider)
  {
    ReadEnvIgnoresProviderVariable(env, env', p, envApiKey, envProvider);
  }

  lemma ReadEnvIgnoresProviderVariable(env: Env, env': Env, p: ProviderType, envApiKey: string, envProvider: string)
    requires envProvider != envApiKey
    requires envProvider !in {LlmModelVar, EmbeddingModelVar, BaseUrlVar, TimeoutVar, MaxRetriesVar}
    requires env - {envProvider} == env' - {envProvider}
    ensures ReadEnv(env, Some(p), envApiKey, envProvider) == ReadEnv(env', Some(p), envApiKey, envProvider)
  {
    AgreeOutside(env, env', envProvider, envApiKey);
    AgreeOutside(env, env', envProvider, LlmModelVar);
    AgreeOutside(env, env', envProvider, EmbeddingModelVar);
    AgreeOutside(env, env', envProvider, BaseUrlVar);
    AgreeOutside(env, env', envProvider, TimeoutVar);
    AgreeOutside(env, env', envProvider, MaxRetriesVar);
  }

  /** Two environments equal outside one variable read every other
      variable alike. */
  lemma AgreeOutside(env: Env, env': Env, skipped: string, name: string)
    requires env - {skipped} == env' - {skipped} && name != skipped
    ensures GetEnv(env, name) == GetEnv(env', name)
    ensures forall d :: GetEnvOr(env, name, d) == GetEnvOr(env', name, d)
  {
    assert name in env <==> name in env - {skipped};
    assert name in env' <==> name in env' - {skipped};
    if name in env {
      assert env[name] == (env - {skipped})[name];
      assert env'[name] == (env' - {skipped})[name];
    }
  }

  /** The provider variable is matched without regard to case, and an
      unset variable means OpenAI. */
  lemma ProviderVariableCaseInsensitive(env: Env, envApiKey: string, envProvider: string, p: ProviderType)
    requires envProvider in env && ToLower(env[envProvider]) == ProviderValue(p)
    ensures ResolveProvider(env, None, envProvider) == Success(p)
    ensures ResolveProvider(env - {envProvider}, None, envProvider) == Success(OpenAI)
  {
    ToLowerFixesLowerCase("openai");
  }
}
