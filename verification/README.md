# unified_provider in Dafny

A model of the core of `unified_provider`, a Python client library that
puts one interface in front of several hosted LLM and embedding services.
The model covers:

- the request and response records and their dictionary (wire) forms (`Models`);
- the provider configuration: the validation rule, the default-model tables and `from_env` (`Config`);
- the exception hierarchy (`Exceptions`);
- the OpenAI-compatible provider: payload construction, the HTTP-status error classifier and the response parsers (`OpenAI`);
- the unified client, which picks a provider and delegates to it (`Client`).

Supporting modules:

- `Wrappers`: Option, Result and Outcome.
- `JsonValues`: decoded JSON, and the dictionary operations the source uses (`dict.get`, `update`, conditional insertion).
- `Text`: `str.lower` and `int()`, the two string functions the source calls, with the whitespace trimming that `int()` performs and a substring test used to state properties of messages.

Python exceptions are values. An operation returns `Result<T, Failure>`. A `Failure` is one of:

- `Raised(e)`: one of the library's own ProviderErrors;
- `ValueError`: from `validate`, from an enum lookup or from `int()`;
- `DataError`: the KeyError, IndexError or TypeError that comes from reading a response body of the wrong shape.

The two operations follow the source as written: an error response goes through the error handler the source has, which lets a ValueError escape on one input (see "## Findings"). The handler that input evidently calls for is modelled beside it.

The HTTP exchange is a function parameter `server: HttpRequest -> HttpResponse`. Python's `str()` of a decoded body is a parameter `show`. The environment is a `map<string, string>` snapshot.

## Model

| member | source | states |
|---|---|---|
| JsonValues.Lookup | src/unified_provider/openai_provider.py:104-105 | `dict.get`: a value is found exactly when the key is present and not null |
| JsonValues.Merge | src/unified_provider/models.py:105-106 | `update`: the keys are the union, the extra parameters win on a clash, and every other key keeps its base value |
| Text.ParseInt | src/unified_provider/config.py:89-90 | `int()` succeeds exactly on an optionally signed run of at most 4300 ASCII digits (the default `sys.get_int_max_str_digits` limit) with surrounding whitespace, and the sign of the result follows the text |
| Text.ParseShowRoundTrip | src/unified_provider/config.py:89-90 | `int()` reads back the decimal rendering of every integer of at most 4300 digits, and refuses every longer one |
| Text.ParseIntRejects | src/unified_provider/openai_provider.py:67 | `int()` refuses text that starts with neither a digit, a sign nor whitespace, such as an HTTP date |
| Text.ToLower | src/unified_provider/config.py:74 | lower-casing keeps the length, and each character is lowered independently |
| Exceptions.NewAPIError | src/unified_provider/exceptions.py:24-39 | an APIError keeps the given status code and response data and is caught as an APIError |
| Exceptions.NewProviderError | src/unified_provider/exceptions.py:4-16 | a bare ProviderError keeps its message and provider, is outside the API branch and carries no status or response data |
| Exceptions.NewRateLimitError | src/unified_provider/exceptions.py:42-55 | a RateLimitError always reports status 429, keeps retry_after and is an APIError |
| Exceptions.NewAuthenticationError | src/unified_provider/exceptions.py:58-69 | an AuthenticationError always reports status 401 and is an APIError |
| Exceptions.NewConfigurationError | src/unified_provider/exceptions.py:19-21 | a ConfigurationError is a ProviderError outside the API branch and carries no status |
| Exceptions.NewModelNotFoundError | src/unified_provider/exceptions.py:72-74 | a ModelNotFoundError is an instance of its own class and of ProviderError, outside the API branch, with no status |
| Exceptions.NewValidationError | src/unified_provider/exceptions.py:77-79 | a ValidationError is an instance of its own class and of ProviderError, outside the API branch, with no status |
| Exceptions.HierarchyFacts | src/unified_provider/exceptions.py:4-79 | every error is a ProviderError; the API branch is exactly APIError, RateLimitError and AuthenticationError; only that branch carries a status or response data |
| Models.ParseRole | src/unified_provider/models.py:9-15 | `MessageRole(v)` succeeds exactly on the four role strings and otherwise raises ValueError |
| Models.MessageToDict | src/unified_provider/models.py:35-45 | role and content are always present, the content as given; name and function_call appear exactly when they are non-empty, and are then never null |
| Models.MessageFromDict | src/unified_provider/models.py:47-55 | reading a message fails on a missing role, then on an unknown role, then on a missing content; any content value is kept, null included; name and function_call are optional |
| Models.MessageRoundTrip | src/unified_provider/models.py:35-55 | reading back a message's dictionary gives the message, except that an empty name or function_call comes back as None |
| Models.MessageWireRoundTrip | src/unified_provider/models.py:35-55 | every dictionary of the form `to_dict` produces is read and written back unchanged |
| Models.MessagesRoundTrip | src/unified_provider/models.py:90 | the messages list round-trips element by element, in order |
| Models.ChatRequestToDict | src/unified_provider/models.py:87-108 | the keys are the fixed six, plus model, max_tokens and stop when set, plus the additional parameters, and the additional parameters win |
| Models.ChatRequestMessages | src/unified_provider/models.py:90 | unless overridden, the conversation goes out as one object per message, in order |
| Models.ChatRequestScalars | src/unified_provider/models.py:91-95 | unless overridden, the four sampling floats and the stream flag go out as given |
| Models.ChatRequestOptionals | src/unified_provider/models.py:98-103 | unless overridden, model, max_tokens and stop are present exactly when truthy, and then carry the field's value |
| Models.InputRoundTrip | src/unified_provider/models.py:148-157 | the input, single text or batch, is read back from its wire form |
| Models.EmbeddingRequestToDict | src/unified_provider/models.py:154-169 | the keys are input and encoding_format, plus model and dimensions when set, plus the additional parameters; the additional parameters win, and every other key keeps its own value |
| Models.EmbeddingRequestWireFields | src/unified_provider/models.py:156-164 | unless overridden, the input reads back as given, the encoding format is its string, and model and dimensions are present exactly when truthy |
| Models.Defaults | src/unified_provider/models.py:76-85 | the declared defaults: temperature 0.7, top_p 1.0, penalties 0.0, no streaming, float encoding, assistant role |
| Config.ProviderFromValue | src/unified_provider/config.py:9-16 | `ProviderType(v)` succeeds exactly on the five provider strings |
| Config.ProviderValueRoundTrip | src/unified_provider/config.py:9-16 | each provider is found again from its string in any letter case |
| Config.Validate | src/unified_provider/config.py:126-140 | passes exactly when the key is non-empty, the timeout is positive and the retries are non-negative; the first failing check decides the message |
| Config.DefaultLlmModel | src/unified_provider/config.py:102-112 | every provider has a non-empty default chat model |
| Config.DefaultEmbeddingModel | src/unified_provider/config.py:114-124 | every provider has a non-empty default embedding model, and it is never that provider's chat model |
| Config.DefaultConfigIsValid | src/unified_provider/config.py:35-42 | a configuration with only a provider and a non-empty key gets timeout 60 and 3 retries, and it validates |
| Config.DefaultTablesShape | src/unified_provider/config.py:102-124 | Azure shares OpenAI's embedding model but not its chat model; Together and Anyscale share the Mixtral chat model |
| Config.ResolveProvider | src/unified_provider/config.py:70-76 | an explicit provider wins; otherwise the variable, default "openai", is matched case-insensitively, and an unknown name raises with the raw text |
| Config.ModelSetting | src/unified_provider/config.py:79-85 | an unset or empty model variable falls back to the provider's default |
| Config.IntSetting | src/unified_provider/config.py:89-90 | an integer setting succeeds exactly when `int()` accepts the variable, and an unset variable gives the default |
| Config.FromEnv | src/unified_provider/config.py:44-100 | a missing or empty key raises first; the read succeeds exactly when the key, provider, timeout and retries all read; the resulting settings |
| Config.FromEnvMinimal | src/unified_provider/config.py:44-100 | an environment holding only the key gives an OpenAI configuration with every default |
| Config.FromEnvSetsDefaultModels | src/unified_provider/config.py:79-85 | a configuration read from the environment always names two non-empty default models |
| Config.ExplicitProviderIgnoresVariable | src/unified_provider/config.py:71-76 | with an explicit provider, two environments that differ only in the provider variable, in its value or its presence, give the same configuration |
| Config.ProviderVariableCaseInsensitive | src/unified_provider/config.py:72-74 | the provider variable is read in any letter case, and an absent variable means OpenAI |
| OpenAI.NewProvider | src/unified_provider/openai_provider.py:30-37 | construction succeeds exactly on a valid configuration (validated by the base class, base_provider.py:25); the base URL and the two headers |
| OpenAI.EffectiveModel | src/unified_provider/openai_provider.py:79 | `request.model or default`: the request's model when it is non-empty, else the configured default, else null |
| OpenAI.ChatPayload | src/unified_provider/openai_provider.py:79-82 | the request's wire form with "model" set to the effective model, even over an additional "model", and every other key unchanged |
| OpenAI.EmbeddingPayload | src/unified_provider/openai_provider.py:111-114 | the same for embeddings, with the default embedding model |
| OpenAI.ChatCall | src/unified_provider/openai_provider.py:84-89 | the POST goes to base URL + /chat/completions with the provider's headers and timeout |
| OpenAI.EmbeddingCall | src/unified_provider/openai_provider.py:116-121 | the POST goes to base URL + /embeddings with the provider's headers and timeout |
| OpenAI.PayloadModel | src/unified_provider/openai_provider.py:79-82 | when default models are configured, the payload always names a non-empty model: the request's own if set, else the default |
| OpenAI.FromEnvProviderNamesModels | src/unified_provider/config.py:79-85 | a provider built from an environment configuration meets that condition |
| OpenAI.HandleError | src/unified_provider/openai_provider.py:39-75 | 401 gives AuthenticationError and 429 gives RateLimitError, each as an iff; the rest give APIError with the status and the decoded body; all are APIErrors from "openai" with the prefixed detail |
| OpenAI.ErrorDetail | src/unified_provider/openai_provider.py:51-55 | the detail is the server's error message when the body has an error object with one; the rendered body when it has no error key or the error object no message; otherwise the raw text |
| OpenAI.HandleErrorAsWritten | src/unified_provider/openai_provider.py:62-68 | the handler as written: it raises ValueError exactly on a 429 with a Retry-After that `int()` refuses, and otherwise it agrees with HandleError |
| OpenAI.RetryAfterDateEscapes | src/unified_provider/openai_provider.py:62-68 | a Retry-After HTTP date makes the written handler raise ValueError, which is not a ProviderError |
| OpenAI.RetryAfterSeconds | src/unified_provider/openai_provider.py:63-67 | a Retry-After holding an integer n of at most 4300 digits gives retry_after n; a longer one is refused by `int()`, so the handler as written raises ValueError and the corrected one gives no retry_after |
| OpenAI.RetryAfterTooManyDigits | src/unified_provider/openai_provider.py:62-68 | a Retry-After of 4301 digits makes the handler as written raise ValueError, like an HTTP date |
| OpenAI.ServerErrorMessage | src/unified_provider/openai_provider.py:51-75 | a 500 with `{"error": {"message": "boom"}}` reports "API request failed: boom" and keeps the body |
| OpenAI.FirstChoice | src/unified_provider/openai_provider.py:96-97 | `data["choices"][0]["message"]` succeeds exactly on a non-empty choices array whose first element holds a message object |
| OpenAI.ParseChatBody | src/unified_provider/openai_provider.py:94-107 | the parse succeeds exactly when the body is an object with `id` and `model` strings, a first choice whose message has a `content` and a valid `role`, and a `finish_reason` that is absent, null or a string; every other key is ignored; a successful parse takes each field from the place the source reads it, keeps any content value, null included, and keeps the body as raw_response |
| OpenAI.EmbeddingVectors | src/unified_provider/openai_provider.py:129 | succeeds exactly when every item has an "embedding"; then it gives one vector per item, in order |
| OpenAI.ParseEmbeddingBody | src/unified_provider/openai_provider.py:126-136 | the parse succeeds exactly when the body is an object with a `data` array whose every item is an object with an "embedding", and a `model` string; it then has one vector per data item, in order, plus the model, the usage and the raw body |
| OpenAI.ChatBodyRoundTrip | src/unified_provider/openai_provider.py:94-107 | every field of a chat body built from given values comes back in the ChatResponse |
| OpenAI.ChatBodyRead | src/unified_provider/openai_provider.py:94-107 | any body with the entries the parser reads, whatever other keys it has, reads into the response those entries spell out |
| OpenAI.TypicalReplyParses | src/unified_provider/openai_provider.py:94-107 | a reply shaped like the OpenAI API's, with `object`, `created`, `index`, `logprobs` and `refusal`, parses and ignores those keys |
| OpenAI.FunctionCallReply | src/unified_provider/openai_provider.py:94-107 | a reply with a null content, as sent for a function call, is read and keeps the null |
| OpenAI.EmbeddingBodyRoundTrip | src/unified_provider/openai_provider.py:126-136 | the vectors of an embeddings body built from given vectors come back unchanged and in order |
| OpenAI.ChatResult | src/unified_provider/openai_provider.py:91-107 | a response comes out only for status 200, parsed from the body; any other status goes to the handler as written |
| OpenAI.EmbeddingResult | src/unified_provider/openai_provider.py:123-136 | the same for embeddings |
| OpenAI.StatusDecidesAPIError | src/unified_provider/openai_provider.py:62-68 | a ProviderError comes out exactly when the status is not 200 and is not a 429 with an unreadable Retry-After, and it then carries that status; that 429 escapes as a ValueError |
| OpenAI.ChatCompletion | src/unified_provider/openai_provider.py:77-107 | the server answers the POST of ChatCall; a response comes out only for a 200, read by ParseChatBody, and any other status goes to the handler as written |
| OpenAI.CreateEmbedding | src/unified_provider/openai_provider.py:109-136 | the same for embeddings, with EmbeddingCall and ParseEmbeddingBody |
| Client.CreateProvider | src/unified_provider/client.py:60-101 | OpenAI and Azure get the OpenAI provider; Google, Together and Anyscale are refused with a ConfigurationError naming the provider |
| Client.NewClient | src/unified_provider/client.py:47-58 | a client exists exactly for an implemented provider with a valid configuration, and it keeps the configuration unchanged |
| Client.UnimplementedProviderRefused | src/unified_provider/client.py:79-96 | an unimplemented provider is refused with a "not yet implemented" message, whatever the key or other settings |
| Client.ClientFromEnv | src/unified_provider/client.py:171-193 | `from_env` raises the configuration's error, or else builds a client from the configuration |
| Client.MinimalEnvironment | src/unified_provider/client.py:171-193 | an environment with only a non-empty key gives an OpenAI client with the default timeout, retries, model and base URL |
| Client.ChatCompletion | src/unified_provider/client.py:103-118 | the client's chat call is the provider's: a response only for a 200, the handler as written otherwise |
| Client.CreateEmbedding | src/unified_provider/client.py:120-135 | the same for embeddings |
| Client.ChatDelegates | src/unified_provider/client.py:103-118 | a chat call is the POST built from the client's configuration; a non-200 answer surfaces as an APIError with that status, except a 429 with an unreadable Retry-After, which raises ValueError |
| Client.EmbeddingDelegates | src/unified_provider/client.py:120-135 | an embedding call is the POST built from the client's configuration, and its answer is handled as EmbeddingResult handles it |

## Left out

- HTTP transport, connection errors, timeouts and the async context managers: the exchange is the `server` parameter, and the blocking and non-blocking variants are one function each, because they build the same request and handle the response the same way.
- JSON encoding and decoding: bodies arrive already decoded. A body that fails to decode is `None`, and reading it as a success gives a ValueError, as `json.JSONDecodeError` is one.
- Python's `str()` of a decoded value is the parameter `show`, because Python's repr formatting is not modelled.
- Floating-point numbers are carried as their literal text. Nothing in the core computes with them.
- `max_retries` is validated and stored, but no code in the core retries, so nothing further is modelled.
- Typed fields: a response or message field that the source would pass through with the wrong type must have the declared JSON type here, or the read fails with a DataError. This covers a non-string `id`, `model`, `finish_reason` or `name`, and a `choices` or `data` value that is not an array. Python would build the record anyway, or fail later with a TypeError. Three fields are kept as any JSON value rather than at their declared type: `content` (declared `str`), because a null content is a normal reply; `usage` (declared `Optional[Dict[str, int]]`); and each embedding vector (declared `List[float]`).
- A malformed 200 body fails with the KeyError, IndexError or TypeError the code raises, gathered as DataError. The docstrings (client.py:113-116, base_provider.py:41-42) list only APIError and its subclasses under "Raises"; the model follows the code, which raises none of them here.
- Text.ParseInt: refuses underscores between digits (`int("1_000")` is 1000 in Python) and non-ASCII digits and spaces. A timeout, retry count or Retry-After written that way is reported as invalid here. The digit limit is the default 4300 of Python 3.11 and later; a limit changed with `sys.set_int_max_str_digits` or `PYTHONINTMAXSTRDIGITS`, and older interpreters without a limit, are not modelled.
- OpenAI.ChatBodyRoundTrip: covers only bodies built by ChatBody. A reply with further keys is covered by ParseChatBody's success condition and by ChatBodyRead, which ignore every key the source does not read.
- OpenAI.EmbeddingBodyRoundTrip: covers only bodies built by EmbeddingBody, with no usage and items holding only "embedding". Any other body is covered by ParseEmbeddingBody's success condition, which ignores every key the source does not read.
- The ValueError message of `int()` quotes the text in single quotes. Python quotes it with `repr`, so its message differs for text that holds a quote or a control character; the model's message is approximate, and no contract depends on its wording.
- Text.ToLower: lowers ASCII letters only. No other character lowers into one of the ASCII provider names, so which names are accepted is unchanged.
- HTTP header names are lower-case keys, and the handler looks up "retry-after". This models the case-insensitive lookup.
- The unreachable `else` branch of `_create_provider` and the unreachable fallbacks of the default-model tables: the provider enumeration has exactly five members.
- `base_provider.py` apart from line 25, `__init__.py` and `examples.py` are not part of this model. They hold abstract signatures, re-exports and usage samples.

## Findings

| source | as written | input that shows it | evidently intended | confidence | as-written member | corrected member |
|---|---|---|---|---|---|---|
| src/unified_provider/openai_provider.py:62-68 | `int(retry_after)` runs inside the 429 branch, so a Retry-After that is not an integer raises ValueError out of the error handler | status 429 with `Retry-After: Wed, 21 Oct 2015 07:28:00 GMT`, a form section 10.2.3 of RFC 9110 allows; also a Retry-After of more than 4300 digits | a RateLimitError with no retry_after, as for a missing header | not executed | OpenAI.HandleErrorAsWritten (shown by OpenAI.RetryAfterDateEscapes and OpenAI.RetryAfterTooManyDigits) | OpenAI.HandleError |
