/** Request and response records of src/unified_provider/models.py and their
    wire forms. A wire form is the string-keyed JSON object that `to_dict`
    builds. Python truthiness decides which optional fields appear: an empty
    string, zero, an empty list or an empty map counts as unset. */
module Models {
  import opened Wrappers
  import opened JsonValues
  import opened Exceptions

  // ---------------------------------------------------------------------
  // MessageRole

  datatype MessageRole = System | User | Assistant | Function

  /** The enum's string value. */
  function RoleValue(r: MessageRole): string {
    match r
    case System => "system"
    case User => "user"
    case Assistant => "assistant"
    case Function => "function"
  }

  /** `MessageRole(x)`: the role whose value is x, else ValueError. */
  function ParseRole(j: Json): (r: Result<MessageRole, Failure>)
    ensures r.Success? <==> exists role :: j == JString(RoleValue(role))
    ensures r.Success? ==> j == JString(RoleValue(r.value))
    ensures r.Failure? ==> r.error.ValueError?
  {
    if j == JString(RoleValue(System)) then Success(System)
    else if j == JString(RoleValue(User)) then Success(User)
    else if j == JString(RoleValue(Assistant)) then Success(Assistant)
    else if j == JString(RoleValue(Function)) then Success(Function)
    else Failure(ValueError("is not a valid MessageRole"))
  }

  // ---------------------------------------------------------------------
  // ChatMessage

  /** `content` is declared `str`, but nothing checks it: whatever value the
      dictionary holds is kept, including the null an assistant turn that
      calls a function carries. */
  datatype ChatMessage = ChatMessage(
    role: MessageRole,
    content: Json,
    name: Option<string> := None,
    functionCall: Option<Object> := None)

  /** `if self.name:` */
  predicate HasName(m: ChatMessage) {
    m.name.Some? && m.name.value != ""
  }

  /** `if self.function_call:` */
  predicate HasFunctionCall(m: ChatMessage) {
    m.functionCall.Some? && m.functionCall.value != map[]
  }

  function MessageKeys(m: ChatMessage): set<string> {
    {"role", "content"}
    + (if HasName(m) then {"name"} else {})
    + (if HasFunctionCall(m) then {"function_call"} else {})
  }

  /** `ChatMessage.to_dict`. */
  function MessageToDict(m: ChatMessage): (r: Object)
    ensures r.Keys == MessageKeys(m)
    ensures r["role"] == JString(RoleValue(m.role))
    ensures r["content"] == m.content
    ensures "name" in r <==> HasName(m)
    ensures "name" in r ==> r["name"] == JString(m.name.value)
    ensures "function_call" in r <==> HasFunctionCall(m)
    ensures "function_call" in r ==> r["function_call"] == JObject(m.functionCall.value)
    ensures forall k :: k in r && k != "content" ==> r[k] != JNull
  {
    var base := map["role" := JString(RoleValue(m.role)), "content" := m.content];
    var withName := if HasName(m) then base["name" := JString(m.name.value)] else base;
    if HasFunctionCall(m) then withName["function_call" := JObject(m.functionCall.value)] else withName
  }

  /** `data.get(key)` read as an optional string. */
  function OptionalString(d: Object, key: string): Result<Option<string>, Failure> {
    match Lookup(d, key)
    case None => Success(None)
    case Some(JString(s)) => Success(Some(s))
    case Some(_) => Failure(DataError(key + " is not a string"))
  }

  /** `data.get(key)` read as an optional JSON object. */
  function OptionalObject(d: Object, key: string): Result<Option<Object>, Failure> {
    match Lookup(d, key)
    case None => Success(None)
    case Some(JObject(o)) => Success(Some(o))
    case Some(_) => Failure(DataError(key + " is not an object"))
  }

  /** `ChatMessage.from_dict`, reading in the source's order: a missing
      `role` (KeyError), a role outside the enum (ValueError), a missing
      `content` (KeyError), then the two optional fields. The content is
      kept whatever its value, null included. Keys other than these four
      are ignored. */
  function MessageFromDict(d: Object): (r: Result<ChatMessage, Failure>)
    ensures "role" !in d ==> r.Failure? && r.error.DataError?
    ensures "role" in d && ParseRole(d["role"]).Failure? ==> r.Failure? && r.error.ValueError?
    ensures "role" in d && ParseRole(d["role"]).Success? && "content" !in d ==> r.Failure? && r.error.DataError?
    ensures r.Success? <==>
      && "role" in d && ParseRole(d["role"]).Success?
      && "content" in d
      && OptionalString(d, "name").Success?
      && OptionalObject(d, "function_call").Success?
    ensures r.Success? ==>
      && JString(RoleValue(r.value.role)) == d["role"]
      && r.value.content == d["content"]
      && (r.value.name.None? <==> Lookup(d, "name").None?)
      && (r.value.name.Some? ==> d["name"] == JString(r.value.name.value))
      && (r.value.functionCall.None? <==> Lookup(d, "function_call").None?)
      && (r.value.functionCall.Some? ==> d["function_call"] == JObject(r.value.functionCall.value))
  {
    if "role" !in d then Failure(DataError("'role'"))
    else
      var role :- ParseRole(d["role"]);
      if "content" !in d then Failure(DataError("'content'"))
      else
        var name :- OptionalString(d, "name");
        var call :- OptionalObject(d, "function_call");
        Success(ChatMessage(role, d["content"], name, call))
  }

  /** The message with an empty name or an empty function call collapsed to
      absent: what survives a trip through the wire form. */
  function Canonical(m: ChatMessage): ChatMessage {
    m.(name := if HasName(m) then m.name else None,
       functionCall := if HasFunctionCall(m) then m.functionCall else None)
  }

  /** `from_dict(to_dict(m))` gives m back, except that an empty name or an
      empty function call comes back absent; so it is exactly m when those
      fields are absent or non-empty. */
  lemma MessageRoundTrip(m: ChatMessage)
    ensures MessageFromDict(MessageToDict(m)) == Success(Canonical(m))
    ensures Canonical(m) == m <==>
      (m.name.None? || m.name.value != "") && (m.functionCall.None? || m.functionCall.value != map[])
  {
    var d := MessageToDict(m);
    assert ParseRole(d["role"]) == Success(m.role);
  }

  /** A wire message in the form `to_dict` produces. */
  predicate IsMessageWire(d: Object) {
    && d.Keys <= {"role", "content", "name", "function_call"}
    && "role" in d && ParseRole(d["role"]).Success?
    && "content" in d
    && ("name" in d ==> d["name"].JString? && d["name"].str != "")
    && ("function_call" in d ==> d["function_call"].JObject? && d["function_call"].fields != map[])
  }

  /** The other direction: a wire message in canonical form is read by
      `from_dict` and written back by `to_dict` unchanged. */
  lemma MessageWireRoundTrip(d: Object)
    requires IsMessageWire(d)
    ensures MessageFromDict(d).Success?
    ensures MessageToDict(MessageFromDict(d).value) == d
  {
    var m := MessageFromDict(d).value;
    var e := MessageToDict(m);
    assert e.Keys == d.Keys;
    forall k | k in d
      ensures e[k] == d[k]
    {
    }
  }

  // ---------------------------------------------------------------------
  // ChatRequest

  datatype ChatRequest = ChatRequest(
    messages: seq<ChatMessage>,
    model: Option<string> := None,
    temperature: Float := Float("0.7"),
    maxTokens: Option<int> := None,
    topP: Float := Float("1.0"),
    frequencyPenalty: Float := Float("0.0"),
    presencePenalty: Float := Float("0.0"),
    stop: Option<seq<string>> := None,
    stream: bool := false,
    additionalParams: Object := map[])

  /** Truthiness of an optional string, integer and list. */
  predicate IsSetString(s: Option<string>) { s.Some? && s.value != "" }
  predicate IsSetInt(n: Option<int>) { n.Some? && n.value != 0 }
  predicate IsSetList(l: Option<seq<string>>) { l.Some? && l.value != [] }

  /** The conversation in wire form, one object per message, in order. */
  function MessagesWire(ms: seq<ChatMessage>): (r: seq<Json>)
    ensures |r| == |ms|
    ensures forall i :: 0 <= i < |ms| ==> r[i] == JObject(MessageToDict(ms[i]))
  {
    seq(|ms|, i requires 0 <= i < |ms| => JObject(MessageToDict(ms[i])))
  }

  const ChatFixedKeys: set<string> :=
    {"messages", "temperature", "top_p", "frequency_penalty", "presence_penalty", "stream"}

  function ChatOptionalKeys(req: ChatRequest): set<string> {
    (if IsSetString(req.model) then {"model"} else {})
    + (if IsSetInt(req.maxTokens) then {"max_tokens"} else {})
    + (if IsSetList(req.stop) then {"stop"} else {})
  }

  /** The six fields `ChatRequest.to_dict` always writes. */
  function ChatFixedDict(req: ChatRequest): (r: Object)
    ensures r.Keys == ChatFixedKeys
    ensures r["messages"] == JArray(MessagesWire(req.messages))
    ensures r["temperature"] == JFloat(req.temperature)
    ensures r["top_p"] == JFloat(req.topP)
    ensures r["frequency_penalty"] == JFloat(req.frequencyPenalty)
    ensures r["presence_penalty"] == JFloat(req.presencePenalty)
    ensures r["stream"] == JBool(req.stream)
  {
    map[
      "messages" := JArray(MessagesWire(req.messages)),
      "temperature" := JFloat(req.temperature),
      "top_p" := JFloat(req.topP),
      "frequency_penalty" := JFloat(req.frequencyPenalty),
      "presence_penalty" := JFloat(req.presencePenalty),
      "stream" := JBool(req.stream)]
  }

  /** The three fields `ChatRequest.to_dict` writes only when truthy. */
  function ChatOptionalDict(req: ChatRequest): (r: Object)
    ensures r.Keys == ChatOptionalKeys(req)
    ensures ("model" in r <==> IsSetString(req.model)) && ("model" in r ==> r["model"] == JString(req.model.value))
    ensures ("max_tokens" in r <==> IsSetInt(req.maxTokens)) && ("max_tokens" in r ==> r["max_tokens"] == JInt(req.maxTokens.value))
    ensures ("stop" in r <==> IsSetList(req.stop)) && ("stop" in r ==> r["stop"] == StringArray(req.stop.value))
  {
    var withModel := PutIf(map[], IsSetString(req.model), "model", JString(req.model.GetOr("")));
    var withMax := PutIf(withModel, IsSetInt(req.maxTokens), "max_tokens", JInt(req.maxTokens.GetOr(0)));
    PutIf(withMax, IsSetList(req.stop), "stop", StringArray(req.stop.GetOr([])))
  }

  /** No optional key is also a fixed key. */
  lemma ChatKeyGroupsDisjoint(req: ChatRequest)
    ensures ChatFixedKeys !! ChatOptionalKeys(req)
  {
    assert ChatOptionalKeys(req) <= {"model", "max_tokens", "stop"};
    assert "model" !in ChatFixedKeys;
    assert "max_tokens" !in ChatFixedKeys;
    assert "stop" !in ChatFixedKeys;
  }

  /** The fixed and optional fields of `ChatRequest.to_dict`, before the
      merge of `additional_params`. The two groups share no key. */
  function ChatBaseDict(req: ChatRequest): (r: Object)
    ensures r.Keys == ChatFixedKeys + ChatOptionalKeys(req)
    ensures forall k :: k in ChatFixedKeys ==> r[k] == ChatFixedDict(req)[k]
    ensures forall k :: k in ChatOptionalKeys(req) ==> r[k] == ChatOptionalDict(req)[k]
  {
    ChatKeyGroupsDisjoint(req);
    Merge(ChatFixedDict(req), ChatOptionalDict(req))
  }

  /** `ChatRequest.to_dict`: the six fixed fields, the three optional ones
      that are set, and then `additional_params`, whose entries win every
      collision. The values of the other keys are stated by
      ChatRequestKeepsBase, ChatRequestMessages, ChatRequestScalars and
      ChatRequestOptionals. */
  function ChatRequestToDict(req: ChatRequest): (r: Object)
    ensures r.Keys == ChatFixedKeys + ChatOptionalKeys(req) + req.additionalParams.Keys
    ensures forall k :: k in req.additionalParams ==> r[k] == req.additionalParams[k]
    ensures forall k :: k in ChatBaseDict(req) && k !in req.additionalParams ==> r[k] == ChatBaseDict(req)[k]
  {
    Merge(ChatBaseDict(req), req.additionalParams)
  }

  /** A key that `additional_params` does not override keeps the value the
      request's own fields give it. */
  lemma ChatRequestKeepsBase(req: ChatRequest, k: string)
    requires k in ChatBaseDict(req) && k !in req.additionalParams
    ensures k in ChatRequestToDict(req) && ChatRequestToDict(req)[k] == ChatBaseDict(req)[k]
  {
  }

  /** The conversation goes out as one object per message, in order. */
  lemma ChatRequestMessages(req: ChatRequest)
    requires "messages" !in req.additionalParams
    ensures var r := ChatRequestToDict(req);
      && r["messages"].JArray? && |r["messages"].items| == |req.messages|
      && forall i :: 0 <= i < |req.messages| ==> r["messages"].items[i] == JObject(MessageToDict(req.messages[i]))
  {
    ChatRequestKeepsBase(req, "messages");
    assert ChatFixedDict(req)["messages"] == JArray(MessagesWire(req.messages));
  }

  /** The sampling fields and the stream flag are sent as given. */
  lemma ChatRequestScalars(req: ChatRequest)
    ensures var r := ChatRequestToDict(req);
      && ("temperature" !in req.additionalParams ==> r["temperature"] == JFloat(req.temperature))
      && ("top_p" !in req.additionalParams ==> r["top_p"] == JFloat(req.topP))
      && ("frequency_penalty" !in req.additionalParams ==> r["frequency_penalty"] == JFloat(req.frequencyPenalty))
      && ("presence_penalty" !in req.additionalParams ==> r["presence_penalty"] == JFloat(req.presencePenalty))
      && ("stream" !in req.additionalParams ==> r["stream"] == JBool(req.stream))
  {
    var fixed := ChatFixedDict(req);
    assert "temperature" in fixed && "top_p" in fixed && "stream" in fixed;
    assert "frequency_penalty" in fixed && "presence_penalty" in fixed;
  }

  /** Each optional key is present exactly when its field is truthy, and
      then carries the field's value. */
  lemma ChatRequestOptionals(req: ChatRequest)
    ensures var r := ChatRequestToDict(req);
      "model" !in req.additionalParams ==>
        ("model" in r <==> IsSetString(req.model)) && ("model" in r ==> r["model"] == JString(req.model.value))
    ensures var r := ChatRequestToDict(req);
      "max_tokens" !in req.additionalParams ==>
        ("max_tokens" in r <==> IsSetInt(req.maxTokens)) && ("max_tokens" in r ==> r["max_tokens"] == JInt(req.maxTokens.value))
    ensures var r := ChatRequestToDict(req);
      "stop" !in req.additionalParams ==>
        ("stop" in r <==> IsSetList(req.stop)) && ("stop" in r ==> r["stop"] == StringArray(req.stop.value))
  {
    var opt := ChatOptionalDict(req);
    assert "model" !in ChatFixedKeys && "max_tokens" !in ChatFixedKeys && "stop" !in ChatFixedKeys;
    assert opt.Keys == ChatOptionalKeys(req);
  }

  /** Reads a wire conversation back with `from_dict`, message by message. */
  function MessagesFromWire(items: seq<Json>): (r: Result<seq<ChatMessage>, Failure>)
    ensures r.Success? ==> |r.value| == |items|
  {
    if |items| == 0 then Success([])
    else if !items[0].JObject? then Failure(DataError("message is not an object"))
    else
      var first :- MessageFromDict(items[0].fields);
      var rest :- MessagesFromWire(items[1..]);
      Success([first] + rest)
  }

  /** The `messages` array of a request reads back as the same conversation,
      in the same order, each message in canonical form. */
  lemma {:induction false} MessagesRoundTrip(ms: seq<ChatMessage>)
    ensures MessagesFromWire(MessagesWire(ms)).Success?
    ensures var back := MessagesFromWire(MessagesWire(ms)).value;
      |back| == |ms| && forall i :: 0 <= i < |ms| ==> back[i] == Canonical(ms[i])
  {
    if |ms| > 0 {
      var w := MessagesWire(ms);
      assert w[1..] == MessagesWire(ms[1..]);
      MessageRoundTrip(ms[0]);
      MessagesRoundTrip(ms[1..]);
      var back := MessagesFromWire(w).value;
      forall i | 0 <= i < |ms|
        ensures back[i] == Canonical(ms[i])
      {
        if i > 0 {
          assert ms[1..][i - 1] == ms[i];
        }
      }
    }
  }

  // ---------------------------------------------------------------------
  // EmbeddingRequest

  /** `Union[List[str], str]`. */
  datatype EmbeddingInput = Single(text: string) | Batch(texts: seq<string>)

  function InputWire(input: EmbeddingInput): Json {
    match input
    case Single(t) => JString(t)
    case Batch(ts) => StringArray(ts)
  }

  /** Reads an `input` field back: a string, or an array of strings. */
  function InputFromWire(j: Json): Option<EmbeddingInput> {
    match j
    case JString(t) => Some(Single(t))
    case JArray(items) =>
      if forall i :: 0 <= i < |items| ==> items[i].JString? then
        Some(Batch(seq(|items|, i requires 0 <= i < |items| => items[i].str)))
      else None
    case _ => None
  }

  /** The input goes on the wire verbatim: a single string stays a string,
      a list stays a list of the same strings in the same order. */
  lemma InputRoundTrip(input: EmbeddingInput)
    ensures InputFromWire(InputWire(input)) == Some(input)
  {
    if input.Batch? {
      var back := InputFromWire(InputWire(input)).value;
      assert back.texts == input.texts;
    }
  }

  datatype EncodingFormat = FloatEncoding | Base64Encoding

  function FormatValue(f: EncodingFormat): string {
    match f
    case FloatEncoding => "float"
    case Base64Encoding => "base64"
  }

  datatype EmbeddingRequest = EmbeddingRequest(
    input: EmbeddingInput,
    model: Option<string> := None,
    encodingFormat: EncodingFormat := FloatEncoding,
    dimensions: Option<int> := None,
    additionalParams: Object := map[])

  function EmbeddingOptionalKeys(req: EmbeddingRequest): set<string> {
    (if IsSetString(req.model) then {"model"} else {})
    + (if IsSetInt(req.dimensions) then {"dimensions"} else {})
  }

  /** The fixed and optional fields of `EmbeddingRequest.to_dict`, before
      the merge of `additional_params`. */
  function EmbeddingBaseDict(req: EmbeddingRequest): (r: Object)
    ensures r.Keys == {"input", "encoding_format"} + EmbeddingOptionalKeys(req)
    ensures r["input"] == InputWire(req.input)
    ensures r["encoding_format"] == JString(FormatValue(req.encodingFormat))
    ensures ("model" in r <==> IsSetString(req.model)) && ("model" in r ==> r["model"] == JString(req.model.value))
    ensures ("dimensions" in r <==> IsSetInt(req.dimensions)) && ("dimensions" in r ==> r["dimensions"] == JInt(req.dimensions.value))
  {
    var fixed := map["input" := InputWire(req.input), "encoding_format" := JString(FormatValue(req.encodingFormat))];
    var withModel := PutIf(fixed, IsSetString(req.model), "model", JString(req.model.GetOr("")));
    PutIf(withModel, IsSetInt(req.dimensions), "dimensions", JInt(req.dimensions.GetOr(0)))
  }

  /** `EmbeddingRequest.to_dict`: input and encoding format always, model
      and dimensions when set, and `additional_params` last, winning every
      collision. The values of the other keys are stated by
      EmbeddingRequestWireFields. */
  function EmbeddingRequestToDict(req: EmbeddingRequest): (r: Object)
    ensures r.Keys == {"input", "encoding_format"} + EmbeddingOptionalKeys(req) + req.additionalParams.Keys
    ensures forall k :: k in req.additionalParams ==> r[k] == req.additionalParams[k]
    ensures forall k :: k in EmbeddingBaseDict(req) && k !in req.additionalParams ==> r[k] == EmbeddingBaseDict(req)[k]
  {
    Merge(EmbeddingBaseDict(req), req.additionalParams)
  }

  /** Field by field: the input reads back as given, the encoding format is
      its string, and model and dimensions are present exactly when set. */
  lemma EmbeddingRequestWireFields(req: EmbeddingRequest)
    ensures var r := EmbeddingRequestToDict(req);
      "input" !in req.additionalParams ==> InputFromWire(r["input"]) == Some(req.input)
    ensures var r := EmbeddingRequestToDict(req);
      "encoding_format" !in req.additionalParams ==> r["encoding_format"] == JString(FormatValue(req.encodingFormat))
    ensures var r := EmbeddingRequestToDict(req);
      "model" !in req.additionalParams ==>
        ("model" in r <==> IsSetString(req.model)) && ("model" in r ==> r["model"] == JString(req.model.value))
    ensures var r := EmbeddingRequestToDict(req);
      "dimensions" !in req.additionalParams ==>
        ("dimensions" in r <==> IsSetInt(req.dimensions)) && ("dimensions" in r ==> r["dimensions"] == JInt(req.dimensions.value))
  {
    InputRoundTrip(req.input);
    var base := EmbeddingBaseDict(req);
    assert "input" in base && "encoding_format" in base;
  }

  // ---------------------------------------------------------------------
  // Responses

  /** As for ChatMessage, `content` is whatever the provider sent: a string,
      or null when the reply is a function call. */
  datatype ChatResponse = ChatResponse(
    id: string,
    model: string,
    content: Json,
    role: MessageRole := Assistant,
    finishReason: Option<string> := None,
    usage: Option<Json> := None,
    rawResponse: Option<Object> := None)

  /** One embedding vector per input, each carried as the JSON value the
      provider sent. */
  datatype EmbeddingResponse = EmbeddingResponse(
    embeddings: seq<Json>,
    model: string,
    usage: Option<Json> := None,
    rawResponse: Option<Object> := None)

  /** The records' default field values, and the wire form of a request
      built from defaults: only the always-present keys. */
  lemma Defaults(ms: seq<ChatMessage>, input: EmbeddingInput, id: string, model: string, content: Json)
    ensures var req := ChatRequest(ms);
      && req.temperature == Float("0.7") && req.topP == Float("1.0")
      && req.frequencyPenalty == Float("0.0") && req.presencePenalty == Float("0.0")
      && !req.stream && req.additionalParams == map[]
      && ChatRequestToDict(req).Keys == ChatFixedKeys
    ensures var req := EmbeddingRequest(input);
      && req.encodingFormat == FloatEncoding && req.dimensions.None?
      && EmbeddingRequestToDict(req).Keys == {"input", "encoding_format"}
      && EmbeddingRequestToDict(req)["encoding_format"] == JString("float")
    ensures ChatResponse(id, model, content).role == Assistant
    ensures ChatResponse(id, model, content).finishReason.None?
    ensures EmbeddingResponse([], model).usage.None?
  {
  }
}
