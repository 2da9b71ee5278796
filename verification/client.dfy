/** The unified client of src/unified_provider/client.py: it picks the
    provider implementation for a configuration and hands every request to
    it unchanged. */
module Client {
  import opened Wrappers
  import opened JsonValues
  import opened Exceptions
  import opened Text
  import opened Models
  import opened Config
  import OpenAI

  datatype UnifiedClient = UnifiedClient(config: ProviderConfig, provider: OpenAI.Provider)

  /** The providers with an implementation: Azure OpenAI shares OpenAI's. */
  predicate IsImplemented(p: ProviderType) {
    p == ProviderType.OpenAI || p == AzureOpenAI
  }

  /** The message refusing a provider that has no implementation. */
  function NotImplementedMessage(service: string, contributor: string): string {
    service + " provider " + "not yet implemented" + (". Please use OpenAI provider or contribute " + contributor + " implementation.")
  }

  lemma NotImplementedMessageSaysSo(service: string, contributor: string)
    ensures Contains(NotImplementedMessage(service, contributor), "not yet implemented")
  {
    ContainsInfix(service + " provider ", "not yet implemented",
                  ". Please use OpenAI provider or contribute " + contributor + " implementation.");
  }

  function NotImplementedError(p: ProviderType): ProviderError
    requires !IsImplemented(p)
  {
    match p
    case Google => NewConfigurationError(NotImplementedMessage("Google AI", "a Google"), Some("google"))
    case Together => NewConfigurationError(NotImplementedMessage("Together AI", "a Together"), Some("together"))
    case Anyscale => NewConfigurationError(NotImplementedMessage("Anyscale", "an Anyscale"), Some("anyscale"))
  }

  /** `_create_provider`: OpenAI and Azure OpenAI get the OpenAI provider;
      the other three are refused with a ConfigurationError naming the
      provider, before the configuration is validated. */
  function CreateProvider(config: ProviderConfig): (r: Result<OpenAI.Provider, Failure>)
    ensures IsImplemented(config.provider) ==> r == OpenAI.NewProvider(config)
    ensures !IsImplemented(config.provider) ==>
      && r.Failure? && r.error.Raised?
      && r.error.err.kind == ConfigurationError
      && r.error.err.provider == Some(ProviderValue(config.provider))
  {
    if IsImplemented(config.provider) then OpenAI.NewProvider(config)
    else Failure(Raised(NotImplementedError(config.provider)))
  }

  /** `UnifiedProviderClient(config)`: keeps the configuration as given. */
  function NewClient(config: ProviderConfig): (r: Result<UnifiedClient, Failure>)
    ensures r.Success? <==> IsImplemented(config.provider) && IsValid(config)
    ensures r.Success? ==> r.value.config == config && OpenAI.NewProvider(config) == Success(r.value.provider)
    ensures r.Failure? ==> CreateProvider(config) == Failure(r.error)
  {
    var provider :- CreateProvider(config);
    Success(UnifiedClient(config, provider))
  }

  /** A provider without an implementation is refused with a message saying
      so, and the refusal comes first: the API key and every other setting
      play no part in it. */
  lemma UnimplementedProviderRefused(config: ProviderConfig, other: ProviderConfig)
    requires !IsImplemented(config.provider) && other.provider == config.provider
    ensures NewClient(config).Failure? && IsProviderError(NewClient(config).error)
    ensures var e := NewClient(config).error.err;
      && e.kind == ConfigurationError
      && e.provider == Some(ProviderValue(config.provider))
      && Contains(e.message, "not yet implemented")
    ensures NewClient(other) == NewClient(config)
  {
    match config.provider
    case Google => NotImplementedMessageSaysSo("Google AI", "a Google");
    case Together => NotImplementedMessageSaysSo("Together AI", "a Together");
    case Anyscale => NotImplementedMessageSaysSo("Anyscale", "an Anyscale");
  }

  /** `from_env`: the environment configuration handed to the constructor. */
  function ClientFromEnv(env: Env): (r: Result<UnifiedClient, Failure>)
    ensures FromEnv(env).Failure? ==> r == Failure(FromEnv(env).error)
    ensures FromEnv(env).Success? ==> r == NewClient(FromEnv(env).value)
  {
    var config :- FromEnv(env);
    NewClient(config)
  }

  /** An environment holding only a non-empty API key gives an OpenAI
      client with the default settings. */
  lemma MinimalEnvironment(key: string)
    requires key != ""
    ensures var r := ClientFromEnv(map[ApiKeyVar := key]);
      && r.Success?
      && r.value.config.provider == ProviderType.OpenAI
      && r.value.config.apiKey == key
      && r.value.config.timeout == 60 && r.value.config.maxRetries == 3
      && r.value.config.defaultLlmModel == Some(DefaultLlmModel(ProviderType.OpenAI))
      && r.value.provider.baseUrl == OpenAI.DefaultBaseUrl
  {
    var env := map[ApiKeyVar := key];
    FromEnvMinimal(key);
    var c := FromEnv(env).value;
    assert IsValid(c);
    assert ClientFromEnv(env) == NewClient(c);
  }

  /** `chat_completion` / `chat_completion_sync`: the provider's POST, and
      its answer read by the provider. */
  function ChatCompletion(client: UnifiedClient, req: ChatRequest, server: OpenAI.HttpRequest -> OpenAI.HttpResponse,
                          show: Json -> string): (r: Result<ChatResponse, Failure>)
    ensures var resp := server(OpenAI.ChatCall(client.provider, req));
      && (r.Success? ==> resp.status == 200)
      && (resp.status != 200 ==> r == Failure(OpenAI.HandleErrorAsWritten(resp, show)))
      && (resp.status == 200 ==> r == OpenAI.ParseChatBody(resp.body))
  {
    OpenAI.ChatCompletion(client.provider, req, server, show)
  }

  /** `create_embedding` / `create_embedding_sync`. */
  function CreateEmbedding(client: UnifiedClient, req: EmbeddingRequest, server: OpenAI.HttpRequest -> OpenAI.HttpResponse,
                           show: Json -> string): (r: Result<EmbeddingResponse, Failure>)
    ensures var resp := server(OpenAI.EmbeddingCall(client.provider, req));
      && (r.Success? ==> resp.status == 200)
      && (resp.status != 200 ==> r == Failure(OpenAI.HandleErrorAsWritten(resp, show)))
      && (resp.status == 200 ==> r == OpenAI.ParseEmbeddingBody(resp.body))
  {
    OpenAI.CreateEmbedding(client.provider, req, server, show)
  }

  /** The client adds nothing of its own: a chat completion is the server's
      answer to the provider's POST, built from the client's configuration.
      A non-200 answer surfaces as an API error with that status, except a
      429 with an unreadable Retry-After, which escapes as a ValueError. */
  lemma ChatDelegates(config: ProviderConfig, req: ChatRequest, server: OpenAI.HttpRequest -> OpenAI.HttpResponse,
                      show: Json -> string)
    requires NewClient(config).Success?
    ensures var sent := OpenAI.ChatCall(NewClient(config).value.provider, req);
      && sent.url == OpenAI.EffectiveBaseUrl(config) + "/chat/completions"
      && sent.headers["Authorization"] == "Bearer " + config.apiKey
      && sent.timeout == config.timeout
      && ChatCompletion(NewClient(config).value, req, server, show) == OpenAI.ChatResult(server(sent), show)
      && (server(sent).status != 200 && !OpenAI.RetryAfterUnreadable(server(sent)) ==>
            && ChatCompletion(NewClient(config).value, req, server, show).Failure?
            && IsProviderError(ChatCompletion(NewClient(config).value, req, server, show).error)
            && StatusCode(ChatCompletion(NewClient(config).value, req, server, show).error.err) == Some(server(sent).status))
      && (OpenAI.RetryAfterUnreadable(server(sent)) ==>
            && ChatCompletion(NewClient(config).value, req, server, show).Failure?
            && ChatCompletion(NewClient(config).value, req, server, show).error.ValueError?)
  {
  }

  lemma EmbeddingDelegates(config: ProviderConfig, req: EmbeddingRequest, server: OpenAI.HttpRequest -> OpenAI.HttpResponse,
                           show: Json -> string)
    requires NewClient(config).Success?
    ensures var sent := OpenAI.EmbeddingCall(NewClient(config).value.provider, req);
      && sent.url == OpenAI.EffectiveBaseUrl(config) + "/embeddings"
      && sent.headers["Authorization"] == "Bearer " + config.apiKey
      && sent.timeout == config.timeout
      && CreateEmbedding(NewClient(config).value, req, server, show) == OpenAI.EmbeddingResult(server(sent), show)
  {
  }
}
