/** The OpenAI-style provider of src/unified_provider/openai_provider.py,
    with the HTTP exchange taken out. A call is split into the request it
    sends (`HttpRequest`) and the handling of the response it gets back
    (`HttpResponse`); the exchange between the two is a parameter `server`.
    The blocking and non-blocking variants of each operation build the same
    request and handle the response the same way, so each is modelled once. */
module OpenAI {
  import opened Wrappers
  import opened JsonValues
  import opened Exceptions
  import opened Text
  import opened Models
  import opened Config

  const DefaultBaseUrl := "https://api.openai.com/v1"
  const ChatPath := "/chat/completions"
  const EmbeddingsPath := "/embeddings"

  /** The provider name every error raised here carries, Azure included. */
  const ProviderName := "openai"

  // ---------------------------------------------------------------------
  // Construction

  datatype Provider = Provider(config: ProviderConfig, baseUrl: string, headers: map<string, string>)

  /** `config.base_url or "https://api.openai.com/v1"`. */
  function EffectiveBaseUrl(c: ProviderConfig): (r: string)
    ensures c.baseUrl.Some? && c.baseUrl.value != "" ==> r == c.baseUrl.value
    ensures c.baseUrl.None? || c.baseUrl.value == "" ==> r == DefaultBaseUrl
  {
    if c.baseUrl.Some? && c.baseUrl.value != "" then c.baseUrl.value else DefaultBaseUrl
  }

  function RequestHeaders(c: ProviderConfig): map<string, string> {
    map["Authorization" := "Bearer " + c.apiKey, "Content-Type" := "application/json"]
  }

  /** `OpenAIProvider(config)`: the base class validates the configuration
      first, so construction succeeds exactly on a valid configuration and
      otherwise raises validate's ValueError. */
  function NewProvider(config: ProviderConfig): (r: Result<Provider, Failure>)
    ensures r.Success? <==> IsValid(config)
    ensures r.Failure? ==> Validate(config) == Fail(r.error)
    ensures r.Success? ==>
      && r.value.config == config
      && r.value.baseUrl == EffectiveBaseUrl(config)
      && r.value.headers.Keys == {"Authorization", "Content-Type"}
      && r.value.headers["Authorization"] == "Bearer " + config.apiKey
      && r.value.headers["Content-Type"] == "application/json"
  {
    match Validate(config)
    case Fail(e) => Failure(e)
    case Pass => Success(Provider(config, EffectiveBaseUrl(config), RequestHeaders(config)))
  }

  // ---------------------------------------------------------------------
  // The HTTP boundary

  datatype HttpRequest = HttpRequest(url: string, headers: map<string, string>, body: Object, timeout: int)

  /** A response as the provider sees it: the status, the headers (names
      lower-cased, since header lookup ignores case), the body decoded as
      JSON when it is JSON (None when decoding fails), and the raw text. */
  datatype HttpResponse = HttpResponse(status: int, headers: map<string, string>, body: Option<Json>, text: string)

  // ---------------------------------------------------------------------
  // Payloads

  /** `request.model or default`, as the JSON value put under "model":
      null when neither is set. */
  function EffectiveModel(requested: Option<string>, default: Option<string>): (r: Json)
    ensures IsSetString(requested) ==> r == JString(requested.value)
    ensures !IsSetString(requested) && default.Some? ==> r == JString(default.value)
    ensures !IsSetString(requested) && default.None? ==> r == JNull
  {
    if IsSetString(requested) then JString(requested.value)
    else match default
      case Some(d) => JString(d)
      case None => JNull
  }

  /** `payload = wire; payload["model"] = model`. */
  function WithModel(wire: Object, model: Json): (r: Object)
    ensures r.Keys == wire.Keys + {"model"}
    ensures r["model"] == model
    ensures forall k :: k in wire && k != "model" ==> r[k] == wire[k]
  {
    wire["model" := model]
  }

  /** The chat payload: the request's wire form with "model" always present,
      set to the effective model even over an additional "model" entry. */
  function ChatPayload(p: Provider, req: ChatRequest): (r: Object)
    ensures r.Keys == ChatRequestToDict(req).Keys + {"model"}
    ensures r["model"] == EffectiveModel(req.model, p.config.defaultLlmModel)
    ensures forall k :: k in ChatRequestToDict(req) && k != "model" ==> r[k] == ChatRequestToDict(req)[k]
  {
    WithModel(ChatRequestToDict(req), EffectiveModel(req.model, p.config.defaultLlmModel))
  }

  function EmbeddingPayload(p: Provider, req: EmbeddingRequest): (r: Object)
    ensures r.Keys == EmbeddingRequestToDict(req).Keys + {"model"}
    ensures r["model"] == EffectiveModel(req.model, p.config.defaultEmbeddingModel)
    ensures forall k :: k in EmbeddingRequestToDict(req) && k != "model" ==> r[k] == EmbeddingRequestToDict(req)[k]
  {
    WithModel(EmbeddingRequestToDict(req), EffectiveModel(req.model, p.config.defaultEmbeddingModel))
  }

  /** The POST a chat completion sends. */
  function ChatCall(p: Provider, req: ChatRequest): (r: HttpRequest)
    ensures r.url == p.baseUrl + "/chat/completions"
    ensures r.headers == p.headers && r.timeout == p.config.timeout
    ensures r.body == ChatPayload(p, req)
  {
    HttpRequest(p.baseUrl + ChatPath, p.headers, ChatPayload(p, req), p.config.timeout)
  }

  /** The POST an embedding request sends. */
  function EmbeddingCall(p: Provider, req: EmbeddingRequest): (r: HttpRequest)
    ensures r.url == p.baseUrl + "/embeddings"
    ensures r.headers == p.headers && r.timeout == p.config.timeout
    ensures r.body == EmbeddingPayload(p, req)
  {
    HttpRequest(p.baseUrl + EmbeddingsPath, p.headers, EmbeddingPayload(p, req), p.config.timeout)
  }

  /** When the configuration names default models, as every configuration
      read from the environment does, the payload always names a non-empty
      model: the request's own when it sets one, the default otherwise. An
      additional "model" parameter never survives. */
  lemma PayloadModel(p: Provider, req: ChatRequest, ereq: EmbeddingRequest)
    requires p.config.defaultLlmModel.Some? && p.config.defaultLlmModel.value != ""
    requires p.config.defaultEmbeddingModel.Some? && p.config.defaultEmbeddingModel.value != ""
    ensures ChatPayload(p, req)["model"].JString? && ChatPayload(p, req)["model"].str != ""
    ensures EmbeddingPayload(p, ereq)["model"].JString? && EmbeddingPayload(p, ereq)["model"].str != ""
    ensures IsSetString(req.model) ==> ChatPayload(p, req)["model"] == JString(req.model.value)
    ensures !IsSetString(req.model) ==> ChatPayload(p, req)["model"] == JString(p.config.defaultLlmModel.value)
  {
    var chat := ChatPayload(p, req);
    var embedding := EmbeddingPayload(p, ereq);
    assert chat["model"] == EffectiveModel(req.model, p.config.defaultLlmModel);
    assert embedding["model"] == EffectiveModel(ereq.model, p.config.defaultEmbeddingModel);
    EffectiveModelNamed(req.model, p.config.defaultLlmModel);
    EffectiveModelNamed(ereq.model, p.config.defaultEmbeddingModel);
  }

  lemma EffectiveModelNamed(requested: Option<string>, default: Option<string>)
    requires default.Some? && default.value != ""
    ensures EffectiveModel(requested, default).JString? && EffectiveModel(requested, default).str != ""
  {
  }

  /** A provider built from an environment configuration meets the
      requirement of PayloadModel. */
  lemma FromEnvProviderNamesModels(env: Env, provider: Option<ProviderType>)
    ensures var c := FromEnv(env, provider);
      c.Success? && NewProvider(c.value).Success? ==>
        var p := NewProvider(c.value).value;
        && p.config.defaultLlmModel.Some? && p.config.defaultLlmModel.value != ""
        && p.config.defaultEmbeddingModel.Some? && p.config.defaultEmbeddingModel.value != ""
  {
    FromEnvSetsDefaultModels(env, provider, ApiKeyVar, ProviderVar);
  }

  // ---------------------------------------------------------------------
  // The error classifier

  /** Python's f-string formatting of a decoded value: a string is itself,
      anything else is rendered by `show`, which stands for `str()`. */
  function Display(j: Json, show: Json -> string): string {
    if j.JString? then j.str else show(j)
  }

  /** A decoded body whose "error" entry is an object: `.get("error", {})`
      and `.get("message", ...)` both succeed on it. */
  predicate HasErrorObject(m: Object) {
    "error" in m && m["error"].JObject?
  }

  /** The detail after the message prefix, from one of three sources: the
      server's `error.message`; the whole body rendered, when the body is an
      object with no "error" key or an "error" object with no "message";
      and the raw text, when the body is not JSON, is not an object, or has
      an "error" that is not an object (the `.get` call fails and the
      `except` takes over). */
  function ErrorDetail(resp: HttpResponse, show: Json -> string): (r: string)
    ensures resp.body.Some? && resp.body.value.JObject? && HasErrorObject(resp.body.value.fields)
            && "message" in resp.body.value.fields["error"].fields ==>
      r == Display(resp.body.value.fields["error"].fields["message"], show)
    ensures resp.body.Some? && resp.body.value.JObject?
            && ("error" !in resp.body.value.fields
                || (HasErrorObject(resp.body.value.fields) && "message" !in resp.body.value.fields["error"].fields)) ==>
      r == show(resp.body.value)
    ensures resp.body.None? || !resp.body.value.JObject?
            || ("error" in resp.body.value.fields && !HasErrorObject(resp.body.value.fields)) ==>
      r == resp.text
  {
    match resp.body
    case Some(JObject(m)) =>
      if "error" !in m then show(JObject(m))
      else if m["error"].JObject? then
        if "message" in m["error"].fields then Display(m["error"].fields["message"], show)
        else show(JObject(m))
      else resp.text
    case _ => resp.text
  }

  const AuthenticationPrefix := "Authentication failed: "
  const RateLimitPrefix := "Rate limit exceeded: "
  const APIPrefix := "API request failed: "

  /** The Retry-After header when present and non-empty. */
  function RetryAfterText(resp: HttpResponse): Option<string> {
    if "retry-after" in resp.headers && resp.headers["retry-after"] != "" then Some(resp.headers["retry-after"])
    else None
  }

  /** `response_data`: the decoded body when decoding succeeded. */
  function DecodedBody(resp: HttpResponse): Option<Json> {
    match resp.body
    case Some(d) => NonNull(d)
    case None => None
  }

  /** `_handle_error`, as corrected (see HandleErrorAsWritten): 401 is an
      authentication error, 429 a rate-limit error whose retry_after is the
      header's integer when it has one, and every other status a plain
      APIError carrying that status and the decoded body. */
  function HandleError(resp: HttpResponse, show: Json -> string): (e: ProviderError)
    ensures e.provider == Some(ProviderName)
    ensures IsAPIError(e) && StatusCode(e) == Some(resp.status)
    ensures e.kind.AuthenticationError? <==> resp.status == 401
    ensures e.kind.RateLimitError? <==> resp.status == 429
    ensures e.kind.APIError? <==> resp.status != 401 && resp.status != 429
    ensures resp.status == 401 ==> e.message == "Authentication failed: " + ErrorDetail(resp, show)
    ensures resp.status == 429 ==> e.message == "Rate limit exceeded: " + ErrorDetail(resp, show)
    ensures resp.status == 429 ==>
      RetryAfter(e) == (if RetryAfterText(resp).Some? then ParseInt(RetryAfterText(resp).value) else None)
    ensures e.kind.APIError? ==>
      e.message == "API request failed: " + ErrorDetail(resp, show) && ResponseData(e) == DecodedBody(resp)
  {
    var detail := ErrorDetail(resp, show);
    if resp.status == 401 then
      NewAuthenticationError(AuthenticationPrefix + detail, Some(ProviderName))
    else if resp.status == 429 then
      var retryAfter := match RetryAfterText(resp)
        case Some(t) => ParseInt(t)
        case None => None;
      NewRateLimitError(RateLimitPrefix + detail, Some(ProviderName), retryAfter)
    else
      NewAPIError(APIPrefix + detail, Some(ProviderName), Some(resp.status), DecodedBody(resp))
  }

  /** A 429 whose Retry-After is present but is not an integer `int()` reads. */
  predicate RetryAfterUnreadable(resp: HttpResponse) {
    resp.status == 429 && RetryAfterText(resp).Some? && ParseInt(RetryAfterText(resp).value).None?
  }

  /** `_handle_error` as the source writes it: `int(retry_after)` runs inside
      the handler, so a 429 whose Retry-After is not an integer raises the
      ValueError of `int()` instead of a RateLimitError. The two operations
      below use this handler. */
  function HandleErrorAsWritten(resp: HttpResponse, show: Json -> string): (f: Failure)
    ensures f.ValueError? <==> RetryAfterUnreadable(resp)
    ensures !RetryAfterUnreadable(resp) ==> f == Raised(HandleError(resp, show))
  {
    if RetryAfterUnreadable(resp) then
      ValueError("invalid literal for int() with base 10: '" + RetryAfterText(resp).value + "'")
    else
      Raised(HandleError(resp, show))
  }

  /** A Retry-After given as an HTTP date, which section 10.2.3 of RFC 9110
      allows: the source's handler raises a ValueError, not a
      RateLimitError; the corrected handler gives a RateLimitError with no
      retry_after. */
  lemma RetryAfterDateEscapes(show: Json -> string)
    ensures var resp := HttpResponse(429, map["retry-after" := "Wed, 21 Oct 2015 07:28:00 GMT"], None, "slow down");
      && HandleErrorAsWritten(resp, show).ValueError?
      && !IsProviderError(HandleErrorAsWritten(resp, show))
      && HandleError(resp, show).kind == RateLimitError(None)
  {
    var date := "Wed, 21 Oct 2015 07:28:00 GMT";
    ParseIntRejects(date);
    var resp := HttpResponse(429, map["retry-after" := date], None, "slow down");
    assert RetryAfterText(resp) == Some(date);
  }

  /** A 429 whose Retry-After is the decimal rendering of an integer n is
      a rate-limit error asking for n seconds, provided n has at most
      MaxStrDigits digits; a longer rendering is refused by `int()`, so the
      handler as written raises ValueError on it. */
  lemma RetryAfterSeconds(n: int, body: Option<Json>, text: string, show: Json -> string)
    ensures var resp := HttpResponse(429, map["retry-after" := ShowInt(n)], body, text);
      var e := HandleError(resp, show);
      && StatusCode(e) == Some(429)
      && (ShortDecimal(n) ==> e.kind == RateLimitError(Some(n)) && HandleErrorAsWritten(resp, show) == Raised(e))
      && (!ShortDecimal(n) ==> e.kind == RateLimitError(None) && HandleErrorAsWritten(resp, show).ValueError?)
  {
    ParseShowRoundTrip(n);
    var resp := HttpResponse(429, map["retry-after" := ShowInt(n)], body, text);
    assert RetryAfterText(resp) == Some(ShowInt(n));
  }

  /** A Retry-After of 4301 digits, one more than `int()` accepts: the
      handler as written raises ValueError, as it does for an HTTP date. */
  lemma RetryAfterTooManyDigits(show: Json -> string)
    ensures var resp := HttpResponse(429, map["retry-after" := seq(MaxStrDigits + 1, i => '1')], None, "slow down");
      && HandleErrorAsWritten(resp, show).ValueError?
      && HandleError(resp, show).kind == RateLimitError(None)
  {
    var digits := seq(MaxStrDigits + 1, i => '1');
    StripKeepsTrimmed(digits);
    assert ParseInt(digits).None?;
    var resp := HttpResponse(429, map["retry-after" := digits], None, "slow down");
    assert RetryAfterText(resp) == Some(digits);
  }

  /** A 500 whose body is `{"error": {"message": "boom"}}` reports that
      message and keeps the body. */
  lemma ServerErrorMessage(show: Json -> string)
    ensures var body := JObject(map["error" := JObject(map["message" := JString("boom")])]);
      var e := HandleError(HttpResponse(500, map[], Some(body), ""), show);
      && e.kind.APIError? && StatusCode(e) == Some(500) && ResponseData(e) == Some(body)
      && e.message == "API request failed: boom"
  {
    var body := JObject(map["error" := JObject(map["message" := JString("boom")])]);
    assert ErrorDetail(HttpResponse(500, map[], Some(body), ""), show) == "boom";
  }

  // ---------------------------------------------------------------------
  // Response parsing

  /** `obj[key]` read as a string. */
  function StringField(m: Object, key: string): (r: Result<string, Failure>)
    ensures r.Success? <==> key in m && m[key].JString?
    ensures r.Success? ==> m[key] == JString(r.value)
    ensures r.Failure? ==> r.error.DataError?
  {
    if key in m && m[key].JString? then Success(m[key].str) else Failure(DataError("'" + key + "'"))
  }

  /** `data["choices"][0]["message"]` with the choice it came from. */
  function FirstChoice(data: Object): (r: Result<(Object, Object), Failure>)
    ensures r.Success? <==>
      && "choices" in data && data["choices"].JArray? && |data["choices"].items| > 0
      && data["choices"].items[0].JObject?
      && "message" in data["choices"].items[0].fields
      && data["choices"].items[0].fields["message"].JObject?
    ensures r.Success? ==>
      r.value.0 == data["choices"].items[0].fields && r.value.1 == r.value.0["message"].fields
    ensures r.Failure? ==> r.error.DataError?
  {
    if "choices" !in data || !data["choices"].JArray? || |data["choices"].items| == 0 then
      Failure(DataError("'choices'"))
    else if !data["choices"].items[0].JObject? then Failure(DataError("choice is not an object"))
    else
      var choice := data["choices"].items[0].fields;
      if "message" !in choice || !choice["message"].JObject? then Failure(DataError("'message'"))
      else Success((choice, choice["message"].fields))
  }

  /** The entries the chat parser reads, each of the type it needs: `id`
      and `model` strings, a first choice whose message has a `content` and
      a valid `role`, and a `finish_reason` that is absent, null or a
      string. Every other key, such as `object`, `created` or a choice's
      `index`, is ignored. */
  predicate IsChatBody(data: Object) {
    && FirstChoice(data).Success?
    && "id" in data && data["id"].JString?
    && "model" in data && data["model"].JString?
    && var choice := FirstChoice(data).value.0;
    var message := FirstChoice(data).value.1;
    && "content" in message
    && "role" in message && ParseRole(message["role"]).Success?
    && (Lookup(choice, "finish_reason").None? || Lookup(choice, "finish_reason").value.JString?)
  }

  /** The successful chat body read into a ChatResponse, in the source's
      order: the first choice and its message, then id, model, content and
      role; finish_reason and usage are optional, and the whole body is
      kept as the raw response. */
  function ParseChatBody(body: Option<Json>): (r: Result<ChatResponse, Failure>)
    ensures body.None? ==> r.Failure? && r.error.ValueError?
    ensures r.Success? <==> body.Some? && body.value.JObject? && IsChatBody(body.value.fields)
    ensures r.Success? ==>
      var data := body.value.fields;
      && FirstChoice(data).Success?
      && var choice := FirstChoice(data).value.0;
      var message := FirstChoice(data).value.1;
      && "id" in data && data["id"] == JString(r.value.id)
      && "model" in data
      && data["model"] == JString(r.value.model)
      && "content" in message && message["content"] == r.value.content
      && "role" in message && message["role"] == JString(RoleValue(r.value.role))
      && (r.value.finishReason.None? <==> Lookup(choice, "finish_reason").None?)
      && (r.value.finishReason.Some? ==> "finish_reason" in choice && choice["finish_reason"] == JString(r.value.finishReason.value))
      && r.value.usage == Lookup(data, "usage")
      && r.value.rawResponse == Some(data)
  {
    match body
    case None => Failure(ValueError("response body is not valid JSON"))
    case Some(JObject(data)) =>
      var pair :- FirstChoice(data);
      var (choice, message) := pair;
      var id :- StringField(data, "id");
      var model :- StringField(data, "model");
      var content :- if "content" in message then Success(message["content"]) else Failure(DataError("'content'"));
      var role :- if "role" in message then ParseRole(message["role"]) else Failure(DataError("'role'"));
      var finish :- OptionalString(choice, "finish_reason");
      Success(ChatResponse(id, model, content, role, finish, Lookup(data, "usage"), Some(data)))
    case Some(_) => Failure(DataError("response body is not an object"))
  }

  /** `[item["embedding"] for item in data]`: one vector per item, in order. */
  function EmbeddingVectors(items: seq<Json>): (r: Result<seq<Json>, Failure>)
    ensures r.Success? <==> forall i :: 0 <= i < |items| ==> items[i].JObject? && "embedding" in items[i].fields
    ensures r.Success? ==> |r.value| == |items|
    ensures r.Success? ==> forall i :: 0 <= i < |items| ==> r.value[i] == items[i].fields["embedding"]
    ensures r.Failure? ==> r.error.DataError?
  {
    if |items| == 0 then Success([])
    else if !items[0].JObject? || "embedding" !in items[0].fields then Failure(DataError("'embedding'"))
    else
      var rest :- EmbeddingVectors(items[1..]);
      Success([items[0].fields["embedding"]] + rest)
  }

  /** The entries the embeddings parser reads: a `data` array whose every
      item is an object with an "embedding", and a `model` string. Every
      other key, in the body or in an item, is ignored. */
  predicate IsEmbeddingBody(data: Object) {
    && "data" in data && data["data"].JArray?
    && (forall i :: 0 <= i < |data["data"].items| ==>
          data["data"].items[i].JObject? && "embedding" in data["data"].items[i].fields)
    && "model" in data && data["model"].JString?
  }

  /** The successful embeddings body read into an EmbeddingResponse. */
  function ParseEmbeddingBody(body: Option<Json>): (r: Result<EmbeddingResponse, Failure>)
    ensures body.None? ==> r.Failure? && r.error.ValueError?
    ensures r.Success? <==> body.Some? && body.value.JObject? && IsEmbeddingBody(body.value.fields)
    ensures r.Success? ==>
      var data := body.value.fields;
      && "data" in data && data["data"].JArray?
      && |r.value.embeddings| == |data["data"].items|
      && (forall i :: 0 <= i < |data["data"].items| ==>
            data["data"].items[i].JObject? && "embedding" in data["data"].items[i].fields)
      && (forall i :: 0 <= i < |r.value.embeddings| ==>
            r.value.embeddings[i] == data["data"].items[i].fields["embedding"])
      && "model" in data && data["model"] == JString(r.value.model)
      && r.value.usage == Lookup(data, "usage")
      && r.value.rawResponse == Some(data)
  {
    match body
    case None => Failure(ValueError("response body is not valid JSON"))
    case Some(JObject(data)) =>
      if "data" !in data || !data["data"].JArray? then Failure(DataError("'data'"))
      else
        var vectors :- EmbeddingVectors(data["data"].items);
        var model :- StringField(data, "model");
        Success(EmbeddingResponse(vectors, model, Lookup(data, "usage"), Some(data)))
    case Some(_) => Failure(DataError("response body is not an object"))
  }

  // ---------------------------------------------------------------------
  // Partners for the parsers: the bodies a server sends on success.

  /** The first choice of a successful chat body. */
  function ChatChoice(content: Json, role: MessageRole, finishReason: Option<string>): (r: Object)
    ensures "message" in r && r["message"].JObject?
    ensures var message := r["message"].fields;
      "role" in message && message["role"] == JString(RoleValue(role))
      && "content" in message && message["content"] == content
    ensures Lookup(r, "finish_reason") == (if finishReason.Some? then Some(JString(finishReason.value)) else None)
  {
    var message := map["role" := JString(RoleValue(role)), "content" := content];
    PutIf(map["message" := JObject(message)], finishReason.Some?, "finish_reason", JString(finishReason.GetOr("")))
  }

  /** The body of a successful chat completion carrying the given fields. */
  function ChatBody(id: string, model: string, content: Json, role: MessageRole,
                    finishReason: Option<string>, usage: Option<Json>): (r: Object)
    ensures "id" in r && r["id"] == JString(id)
    ensures "model" in r && r["model"] == JString(model)
    ensures "choices" in r && r["choices"] == JArray([JObject(ChatChoice(content, role, finishReason))])
    ensures usage != Some(JNull) ==> Lookup(r, "usage") == usage
  {
    var base := map["id" := JString(id), "model" := JString(model),
                    "choices" := JArray([JObject(ChatChoice(content, role, finishReason))])];
    PutIf(base, usage.Some? && usage.value != JNull, "usage", usage.GetOr(JNull))
  }

  /** Every field the server sends comes back in the ChatResponse, and the
      body itself is kept as the raw response. */
  lemma ChatBodyRoundTrip(id: string, model: string, content: Json, role: MessageRole,
                          finishReason: Option<string>, usage: Option<Json>)
    requires usage != Some(JNull)
    ensures var body := ChatBody(id, model, content, role, finishReason, usage);
      ParseChatBody(Some(JObject(body))) == Success(ChatResponse(id, model, content, role, finishReason, usage, Some(body)))
  {
    var body := ChatBody(id, model, content, role, finishReason, usage);
    var choice := ChatChoice(content, role, finishReason);
    var message := choice["message"].fields;
    assert FirstChoice(body) == Success((choice, message));
    assert StringField(body, "id") == Success(id);
    assert StringField(body, "model") == Success(model);
    assert ParseRole(message["role"]) == Success(role);
    assert OptionalString(choice, "finish_reason") == Success(finishReason);
    assert Lookup(body, "usage") == usage;
  }

  /** The reply to a turn that calls a function carries a null content;
      it is read like any other reply, with the null kept. */
  lemma FunctionCallReply(id: string, model: string)
    ensures var message := map["role" := JString("assistant"), "content" := JNull];
      var body := map["id" := JString(id), "model" := JString(model),
                      "choices" := JArray([JObject(map["message" := JObject(message)])])];
      ParseChatBody(Some(JObject(body))) == Success(ChatResponse(id, model, JNull, Assistant, None, None, Some(body)))
  {
    ChatBodyRoundTrip(id, model, JNull, Assistant, None, None);
    var message := map["role" := JString("assistant"), "content" := JNull];
    assert ChatChoice(JNull, Assistant, None) == map["message" := JObject(message)];
  }

  /** Any body with the entries the parser reads is read, whatever other
      keys it has, into the response those entries spell out. */
  lemma ChatBodyRead(data: Object)
    requires IsChatBody(data)
    ensures var choice := FirstChoice(data).value.0;
      var message := FirstChoice(data).value.1;
      ParseChatBody(Some(JObject(data))) ==
        Success(ChatResponse(data["id"].str, data["model"].str, message["content"], ParseRole(message["role"]).value,
                             if Lookup(choice, "finish_reason").Some? then Some(Lookup(choice, "finish_reason").value.str) else None,
                             Lookup(data, "usage"), Some(data)))
  {
    var r := ParseChatBody(Some(JObject(data))).value;
    assert JString(RoleValue(r.role)) == JString(RoleValue(ParseRole(FirstChoice(data).value.1["role"]).value));
  }

  /** A reply in the shape the OpenAI API sends, with `object`, `created`,
      a choice `index`, `logprobs` and a message `refusal` besides the
      entries the parser reads: those extra keys are ignored. */
  lemma TypicalReplyParses()
    ensures var message := map["role" := JString("assistant"), "content" := JString("Hi"), "refusal" := JNull];
      var choice := map["index" := JInt(0), "message" := JObject(message), "logprobs" := JNull,
                        "finish_reason" := JString("stop")];
      var usage := JObject(map["total_tokens" := JInt(9)]);
      var data := map["id" := JString("chatcmpl-1"), "object" := JString("chat.completion"),
                      "created" := JInt(1700000000), "model" := JString("gpt-4"),
                      "choices" := JArray([JObject(choice)]), "usage" := usage];
      ParseChatBody(Some(JObject(data))) ==
        Success(ChatResponse("chatcmpl-1", "gpt-4", JString("Hi"), Assistant, Some("stop"), Some(usage), Some(data)))
  {
    var message := map["role" := JString("assistant"), "content" := JString("Hi"), "refusal" := JNull];
    var choice := map["index" := JInt(0), "message" := JObject(message), "logprobs" := JNull,
                      "finish_reason" := JString("stop")];
    var usage := JObject(map["total_tokens" := JInt(9)]);
    var data := map["id" := JString("chatcmpl-1"), "object" := JString("chat.completion"),
                    "created" := JInt(1700000000), "model" := JString("gpt-4"),
                    "choices" := JArray([JObject(choice)]), "usage" := usage];
    assert FirstChoice(data) == Success((choice, message));
    assert ParseRole(message["role"]) == Success(Assistant);
    assert Lookup(choice, "finish_reason") == Some(JString("stop"));
    ChatBodyRead(data);
  }

  /** The body of a successful embeddings response. */
  function EmbeddingBody(vectors: seq<Json>, model: string): Object {
    map["data" := JArray(seq(|vectors|, i requires 0 <= i < |vectors| => JObject(map["embedding" := vectors[i]]))),
        "model" := JString(model)]
  }

  /** The vectors come back one per data item, in the order sent. */
  lemma EmbeddingBodyRoundTrip(vectors: seq<Json>, model: string)
    ensures var body := EmbeddingBody(vectors, model);
      ParseEmbeddingBody(Some(JObject(body))) == Success(EmbeddingResponse(vectors, model, None, Some(body)))
  {
    var body := EmbeddingBody(vectors, model);
    var back := EmbeddingVectors(body["data"].items);
    assert back.Success?;
    assert back.value == vectors;
  }

  // ---------------------------------------------------------------------
  // The two operations

  /** A non-200 status goes to the handler as written and never yields a
      response; a 200 is parsed as a chat body. */
  function ChatResult(resp: HttpResponse, show: Json -> string): (r: Result<ChatResponse, Failure>)
    ensures r.Success? ==> resp.status == 200
    ensures resp.status != 200 ==> r == Failure(HandleErrorAsWritten(resp, show))
    ensures resp.status == 200 ==> r == ParseChatBody(resp.body)
  {
    if resp.status != 200 then Failure(HandleErrorAsWritten(resp, show)) else ParseChatBody(resp.body)
  }

  function EmbeddingResult(resp: HttpResponse, show: Json -> string): (r: Result<EmbeddingResponse, Failure>)
    ensures r.Success? ==> resp.status == 200
    ensures resp.status != 200 ==> r == Failure(HandleErrorAsWritten(resp, show))
    ensures resp.status == 200 ==> r == ParseEmbeddingBody(resp.body)
  {
    if resp.status != 200 then Failure(HandleErrorAsWritten(resp, show)) else ParseEmbeddingBody(resp.body)
  }

  /** A ProviderError comes out exactly when the status is not 200 and is not
      a 429 with an unreadable Retry-After; it then is an API error carrying
      that status. That 429 escapes as the ValueError of `int()`, and a 200
      fails, if at all, with a ValueError or a DataError. */
  lemma StatusDecidesAPIError(resp: HttpResponse, show: Json -> string)
    ensures ChatResult(resp, show).Failure? && IsProviderError(ChatResult(resp, show).error) <==>
      resp.status != 200 && !RetryAfterUnreadable(resp)
    ensures EmbeddingResult(resp, show).Failure? && IsProviderError(EmbeddingResult(resp, show).error) <==>
      resp.status != 200 && !RetryAfterUnreadable(resp)
    ensures resp.status != 200 && !RetryAfterUnreadable(resp) ==>
      IsAPIError(ChatResult(resp, show).error.err) && StatusCode(ChatResult(resp, show).error.err) == Some(resp.status)
    ensures RetryAfterUnreadable(resp) ==>
      && ChatResult(resp, show).Failure? && ChatResult(resp, show).error.ValueError?
      && EmbeddingResult(resp, show).Failure? && EmbeddingResult(resp, show).error.ValueError?
  {
  }

  /** `chat_completion` / `chat_completion_sync`: the POST of ChatCall, then
      the answer read as ChatResult reads it. */
  function ChatCompletion(p: Provider, req: ChatRequest, server: HttpRequest -> HttpResponse,
                          show: Json -> string): (r: Result<ChatResponse, Failure>)
    ensures var resp := server(ChatCall(p, req));
      && (r.Success? ==> resp.status == 200 && r == ParseChatBody(resp.body))
      && (resp.status != 200 ==> r == Failure(HandleErrorAsWritten(resp, show)))
      && (resp.status == 200 ==> r == ParseChatBody(resp.body))
  {
    ChatResult(server(ChatCall(p, req)), show)
  }

  /** `create_embedding` / `create_embedding_sync`: the POST of
      EmbeddingCall, then the answer read as EmbeddingResult reads it. */
  function CreateEmbedding(p: Provider, req: EmbeddingRequest, server: HttpRequest -> HttpResponse,
                           show: Json -> string): (r: Result<EmbeddingResponse, Failure>)
    ensures var resp := server(EmbeddingCall(p, req));
      && (r.Success? ==> resp.status == 200 && r == ParseEmbeddingBody(resp.body))
      && (resp.status != 200 ==> r == Failure(HandleErrorAsWritten(resp, show)))
      && (resp.status == 200 ==> r == ParseEmbeddingBody(resp.body))
  {
    EmbeddingResult(server(EmbeddingCall(p, req)), show)
  }
}
