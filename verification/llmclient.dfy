/**
 * The client that talks to the LLM server: the request body each provider expects, the
 * endpoint it is posted to, the reply read out of the answer, and the exceptions ChatAsync
 * turns transport failures into. The HTTP exchange itself is a parameter: a function from
 * the request sent to what came back.
 */
module LlmClient {
  import opened Wrappers
  import opened Text
  import opened Configuration
  import opened Json

  /** One entry of the conversation handed to ChatAsync: (role, content). */
  datatype ChatMessage = ChatMessage(role: string, content: string)

  function MessageJson(m: ChatMessage): Json {
    JObject([Member("role", JString(m.role)), Member("content", JString(m.content))])
  }

  /** The messages array of the request: one {role, content} object per message, in order. */
  function MessagesJson(messages: seq<ChatMessage>): (r: Json)
    ensures r.JArray? && |r.elements| == |messages|
  {
    JArray(seq(|messages|, i requires 0 <= i < |messages| => MessageJson(messages[i])))
  }

  /** Reads one message object back. */
  function DecodeMessage(t: Json): Option<ChatMessage> {
    if t.JObject? then
      match (Get(t.members, "role"), Get(t.members, "content"))
      case (Some(JString(role)), Some(JString(content))) => Some(ChatMessage(role, content))
      case _ => None
    else None
  }

  /** Reads a messages array back; fails if any element is not a message object. */
  function DecodeMessages(t: Json): Option<seq<ChatMessage>>
    decreases if t.JArray? then |t.elements| else 0
  {
    if !t.JArray? || t.elements == [] then (if t.JArray? then Some([]) else None)
    else
      match (DecodeMessage(t.elements[0]), DecodeMessages(JArray(t.elements[1..])))
      case (Some(m), Some(rest)) => Some([m] + rest)
      case _ => None
  }

  /** The messages travel in order, with role and content unchanged. */
  lemma {:induction false} MessagesRoundTrip(messages: seq<ChatMessage>)
    ensures DecodeMessages(MessagesJson(messages)) == Some(messages)
  {
    if messages != [] {
      MessagesRoundTrip(messages[1..]);
      assert MessagesJson(messages).elements[1..] == MessagesJson(messages[1..]).elements;
      assert JArray(MessagesJson(messages).elements[1..]) == MessagesJson(messages[1..]);
      var m := MessageJson(messages[0]);
      GetAt(m.members, 0);
      GetAt(m.members, 1);
      assert DecodeMessage(m) == Some(messages[0]);
      assert messages == [messages[0]] + messages[1..];
    }
  }

  /** The name under which the reply-length limit is sent. */
  function TokenLimitName(provider: ApiProvider): string {
    if provider == Ollama then "num_predict" else "max_tokens"
  }

  /**
   * The request body: for Ollama {model, messages, stream, options: {temperature, num_predict}},
   * for the OpenAI-compatible providers {model, messages, temperature, max_tokens, stream}.
   */
  function RequestBody(config: LlmConfig, messages: seq<ChatMessage>): Json {
    var model := Member("model", JString(config.modelName));
    var history := Member("messages", MessagesJson(messages));
    var stream := Member("stream", JBool(false));
    var temperature := Member("temperature", JNumber(config.temperature.literal));
    var limit := Member(TokenLimitName(config.provider), JNumber(IntToString(config.maxTokens)));
    if config.provider == Ollama then
      JObject([model, history, stream, Member("options", JObject([temperature, limit]))])
    else
      JObject([model, history, temperature, limit, stream])
  }

  /** The object holding the sampling settings: the options object for Ollama, the body itself otherwise. */
  function SamplingSettings(body: Json): seq<Member> {
    if body.JObject? then
      match Get(body.members, "options")
      case Some(JObject(options)) => options
      case _ => body.members
    else []
  }

  function Names(members: seq<Member>): seq<string> {
    seq(|members|, i requires 0 <= i < |members| => members[i].name)
  }

  /** The body lists its members under the provider's names, in the source's order. */
  lemma RequestBodyLayout(config: LlmConfig, messages: seq<ChatMessage>)
    ensures var body := RequestBody(config, messages);
      && body.JObject?
      && Names(body.members) == (if config.provider == Ollama
                                 then ["model", "messages", "stream", "options"]
                                 else ["model", "messages", "temperature", "max_tokens", "stream"])
      && (config.provider == Ollama ==> Names(SamplingSettings(body)) == ["temperature", "num_predict"])
  {
    var body := RequestBody(config, messages);
    if config.provider == Ollama {
      GetAt(body.members, 3);
    }
  }

  /** What a server reads out of the body: the model, the messages in order, no streaming. */
  lemma RequestBodyCarriesConversation(config: LlmConfig, messages: seq<ChatMessage>)
    ensures var body := RequestBody(config, messages);
      && body.JObject?
      && Get(body.members, "model") == Some(JString(config.modelName))
      && Get(body.members, "messages") == Some(MessagesJson(messages))
      && DecodeMessages(MessagesJson(messages)) == Some(messages)
      && Get(body.members, "stream") == Some(JBool(false))
  {
    MessagesRoundTrip(messages);
    var ms := RequestBody(config, messages).members;
    assert Get(ms, "model") == Some(JString(config.modelName)) by {
      assert ms[0] == Member("model", JString(config.modelName));
      assert forall j :: 0 < j < |ms| ==> ms[j].name != "model";
      GetAt(ms, 0);
    }
    assert Get(ms, "messages") == Some(MessagesJson(messages)) by {
      assert ms[1] == Member("messages", MessagesJson(messages));
      assert forall j :: 1 < j < |ms| ==> ms[j].name != "messages";
      GetAt(ms, 1);
    }
    assert Get(ms, "stream") == Some(JBool(false)) by {
      var streamAt := if config.provider == Ollama then 2 else 4;
      assert ms[streamAt] == Member("stream", JBool(false));
      GetAt(ms, streamAt);
    }
  }

  /** The sampling settings carry the temperature and the token limit as the number configured. */
  lemma RequestBodyCarriesSampling(config: LlmConfig, messages: seq<ChatMessage>)
    ensures var settings := SamplingSettings(RequestBody(config, messages));
      && Get(settings, "temperature") == Some(JNumber(config.temperature.literal))
      && Get(settings, TokenLimitName(config.provider)).Some?
      && Get(settings, TokenLimitName(config.provider)).value.JNumber?
      && IsIntText(Get(settings, TokenLimitName(config.provider)).value.literal)
      && IntValue(Get(settings, TokenLimitName(config.provider)).value.literal) == config.maxTokens
  {
    IntToStringRoundTrip(config.maxTokens);
    var body := RequestBody(config, messages);
    var ms := body.members;
    var settings := SamplingSettings(body);
    if config.provider == Ollama {
      GetAt(ms, 3);
      assert settings == ms[3].value.members;
      GetAt(settings, 0);
      GetAt(settings, 1);
    } else {
      GetMissing(ms, "options");
      GetAt(ms, 2);
      GetAt(ms, 3);
    }
  }

  const ChatPath: string := "/api/chat"

  /** What the endpoint adds to the base URL: Ollama's chat path, or nothing for the providers
      whose URL is configured in full. */
  function EndpointSuffix(provider: ApiProvider): string {
    match provider
    case Ollama => ChatPath
    case LmStudio => ""
    case OpenAiCompatible => ""
    case Custom => ""
  }

  /**
   * The URL posted to: the configured URL without its trailing slashes, followed by the
   * provider's suffix.
   */
  function Endpoint(apiUrl: string, provider: ApiProvider): (r: string)
    ensures |r| >= |EndpointSuffix(provider)|
    ensures var base := r[..|r| - |EndpointSuffix(provider)|];
      && r == base + EndpointSuffix(provider)
      && base <= apiUrl
      && (base == [] || base[|base| - 1] != '/')
      && forall i :: |base| <= i < |apiUrl| ==> apiUrl[i] == '/'
  {
    var r := TrimTrailing(apiUrl, '/') + EndpointSuffix(provider);
    assert r[..|r| - |EndpointSuffix(provider)|] == TrimTrailing(apiUrl, '/');
    r
  }

  /** Any number of trailing slashes on the configured URL leads to the same endpoint. */
  lemma EndpointIgnoresTrailingSlashes(apiUrl: string, provider: ApiProvider, n: nat)
    ensures Endpoint(apiUrl + Repeat('/', n), provider) == Endpoint(apiUrl, provider)
  {
    TrimTrailingRun(apiUrl, Repeat('/', n), '/');
  }

  /** With the default settings the client posts to the local Ollama chat endpoint. */
  lemma DefaultEndpoint()
    ensures Endpoint(DefaultConfig.apiUrl, DefaultConfig.provider) == "http://localhost:11434/api/chat"
  {
    var url := DefaultConfig.apiUrl;
    assert url[|url| - 1] != '/';
    assert TrimTrailing(url, '/') == url;
    assert Endpoint(url, Ollama) == url + ChatPath;
  }

  /**
   * The default settings are usable as they are: the client accepts their timeout, sends no
   * Authorization header and asks for at most 2048 tokens.
   */
  lemma DefaultSettingsUsable(messages: seq<ChatMessage>)
    ensures TimeoutAccepted(DefaultConfig.timeoutSeconds)
    ensures AuthorizationFor(DefaultConfig.bearerToken) == None
    ensures var settings := SamplingSettings(RequestBody(DefaultConfig, messages));
      Get(settings, "num_predict").Some? && Get(settings, "num_predict").value.JNumber?
      && IntValue(Get(settings, "num_predict").value.literal) == 2048
  {
    RequestBodyCarriesSampling(DefaultConfig, messages);
  }

  /** root["x"]["message"]["content"] for a token x found earlier: the content token when both
      lookups find something, nothing when either finds nothing, and the exception an indexer raises. */
  function MessageContent(t: Option<Json>): Result<Option<Json>> {
    match Lookup(t, Name("message"))
    case Err(m) => Err(m)
    case Ok(None) => Ok(None)
    case Ok(Some(message)) => Child(message, Name("content"))
  }

  /**
   * The reply read out of a parsed answer: choices[0].message.content when choices has values
   * and that content exists; otherwise message.content; otherwise response; otherwise the raw
   * text. An indexer applied to the wrong kind of token raises, and the exception escapes.
   */
  function ExtractReply(root: seq<Member>, raw: string): Result<string> {
    var choices := Get(root, "choices");
    if choices.Some? && HasValues(choices.value) then
      match Child(choices.value, Position(0))
      case Err(m) => Err(m)
      case Ok(choice) =>
        match MessageContent(choice)
        case Err(m) => Err(m)
        case Ok(Some(content)) => Ok(TokenText(content))
        case Ok(None) => ExtractOllamaReply(root, raw)
    else ExtractOllamaReply(root, raw)
  }

  /** The Ollama shapes and the raw fallback, tried once the OpenAI shape gave nothing. */
  function ExtractOllamaReply(root: seq<Member>, raw: string): Result<string> {
    match MessageContent(Some(JObject(root)))
    case Err(m) => Err(m)
    case Ok(Some(content)) => Ok(TokenText(content))
    case Ok(None) =>
      match Get(root, "response")
      case Some(response) => Ok(TokenText(response))
      case None => Ok(raw)
  }

  /** An OpenAI-style answer is read from choices[0].message.content, whatever else it holds. */
  lemma OpenAiShapeFirst(root: seq<Member>, raw: string, choice: seq<Member>, rest: seq<Json>,
                         message: seq<Member>, content: Json)
    requires Get(root, "choices") == Some(JArray([JObject(choice)] + rest))
    requires Get(choice, "message") == Some(JObject(message))
    requires Get(message, "content") == Some(content)
    ensures ExtractReply(root, raw) == Ok(TokenText(content))
  {
    assert ([JObject(choice)] + rest)[0] == JObject(choice);
  }

  /**
   * A first choice without message.content does not end the search: the answer is read as if
   * it had no choices at all. The same holds when choices is empty or a plain value.
   */
  lemma ChoicesWithoutContentFallThrough(root: seq<Member>, raw: string)
    requires var choices := Get(root, "choices");
      choices.Some? ==>
        !HasValues(choices.value)
        || (choices.value.JArray? && MessageContent(Some(choices.value.elements[0])) == Ok(None))
    ensures ExtractReply(root, raw) == ExtractReply(Without(root, "choices"), raw)
  {
    var rest := Without(root, "choices");
    assert ExtractReply(root, raw) == ExtractOllamaReply(root, raw);
    WithoutKeeps(root, "choices");
    forall i | 0 <= i < |rest| ensures rest[i].name != "choices" {
      assert rest[i] in rest;
    }
    GetMissing(rest, "choices");
    GetWithout(root, "choices", "message");
    GetWithout(root, "choices", "response");
    assert ExtractOllamaReply(rest, raw) == ExtractOllamaReply(root, raw);
  }

  /** Without choices, an Ollama chat answer is read from message.content. */
  lemma OllamaShapeSecond(root: seq<Member>, raw: string, message: seq<Member>, content: Json)
    requires Get(root, "choices") == None
    requires Get(root, "message") == Some(JObject(message))
    requires Get(message, "content") == Some(content)
    ensures ExtractReply(root, raw) == Ok(TokenText(content))
  {
  }

  /** Without choices or message, a legacy Ollama answer is read from response. */
  lemma LegacyShapeThird(root: seq<Member>, raw: string, response: Json)
    requires Get(root, "choices") == None && Get(root, "message") == None
    requires Get(root, "response") == Some(response)
    ensures ExtractReply(root, raw) == Ok(TokenText(response))
  {
  }

  /** An answer in none of the three shapes is returned as the raw text. */
  lemma RawTextLast(root: seq<Member>, raw: string)
    requires Get(root, "choices") == None && Get(root, "message") == None && Get(root, "response") == None
    ensures ExtractReply(root, raw) == Ok(raw)
  {
  }

  /**
   * Extraction fails only with an exception of the JSON indexers: a child of a plain value, a
   * name used on an array, a position used on an object.
   */
  lemma ExtractReplyFailures(root: seq<Member>, raw: string)
    ensures var r := ExtractReply(root, raw);
      r.Err? ==> r.message in {ChildOfValueMessage, ArrayKeyMessage("message"),
                               ArrayKeyMessage("content"), ObjectKeyMessage(0)}
  {
  }

  /** A message object whose message is a JSON null raises instead of falling through. */
  lemma NullMessageRaises(root: seq<Member>, raw: string)
    requires Get(root, "choices") == None && Get(root, "message") == Some(JNull)
    ensures ExtractReply(root, raw) == Err(ChildOfValueMessage)
  {
  }

  /** What the server did with the request. */
  datatype ParsedBody = Malformed(message: string) | ParsedObject(members: seq<Member>)

  datatype Transport =
      /** An answer arrived: its status code, the name of that code, its text, and what
          JObject.Parse makes of the text. */
    | Responded(status: int, statusName: string, body: string, parsed: ParsedBody)
      /** The request was abandoned: the client's timeout expired, or the caller cancelled. */
    | Cancelled(byCaller: bool)
      /** The exchange failed with an HttpRequestException carrying this message. */
    | RequestFailed(message: string)
      /** Some other exception with this message. */
    | Faulted(message: string)

  /** The exceptions ChatAsync lets out, as the chat panel tells them apart. */
  datatype Raised =
    | TimeoutException(message: string)
    | OperationCanceled
    | OtherException(message: string)

  datatype ChatResult = Reply(text: string) | Threw(error: Raised)

  /** How ChatAsync opens the message of an exception it wraps after an HTTP failure. */
  const NetworkErrorTag: string := "Network error: "

  predicate IsSuccessStatusCode(status: int) {
    200 <= status <= 299
  }

  function TimeoutMessage(timeoutSeconds: int): string {
    "Request timed out after " + IntToString(timeoutSeconds) + " seconds"
  }

  /**
   * The catch clauses of ChatAsync applied to what the server did: a cancelled request becomes
   * a TimeoutException, an HTTP failure or an unsuccessful status a "Network error", an
   * unparsable answer a "Failed to parse" error; other exceptions pass unchanged. With
   * reportCancellation, a cancellation by the caller is let out as itself instead.
   */
  function Settle(timeoutSeconds: int, response: Transport, reportCancellation: bool): ChatResult {
    match response
    case Cancelled(byCaller) =>
      if byCaller && reportCancellation then Threw(OperationCanceled)
      else Threw(TimeoutException(TimeoutMessage(timeoutSeconds)))
    case RequestFailed(m) => Threw(OtherException(NetworkErrorTag + m))
    case Faulted(m) => Threw(OtherException(m))
    case Responded(status, statusName, body, parsed) =>
      if !IsSuccessStatusCode(status) then
        Threw(OtherException(NetworkErrorTag + ("LLM API request failed with status " + (statusName + ": " + body))))
      else
        match parsed
        case Malformed(m) => Threw(OtherException("Failed to parse LLM response: " + m))
        case ParsedObject(root) =>
          match ExtractReply(root, body)
          case Ok(text) => Reply(text)
          case Err(m) => Threw(OtherException(m))
  }

  /** How ChatAsync reports an HTTP failure: as a "Network error" carrying the failure's message. */
  lemma RequestFailureReported(timeoutSeconds: int, message: string)
    ensures Settle(timeoutSeconds, RequestFailed(message), false) == Threw(OtherException(NetworkErrorTag + message))
  {
  }

  /**
   * How ChatAsync reports an unsuccessful status: as a "Network error" that ends with the
   * status's name and the answer's text, whatever the answer holds.
   */
  lemma StatusFailureReported(timeoutSeconds: int, status: int, statusName: string, body: string, parsed: ParsedBody)
    requires !IsSuccessStatusCode(status)
    ensures var r := Settle(timeoutSeconds, Responded(status, statusName, body, parsed), false);
      && r.Threw? && r.error.OtherException? && NetworkErrorTag <= r.error.message
      && HasSuffix(r.error.message, statusName + ": " + body)
  {
    Framed(NetworkErrorTag, "LLM API request failed with status ", statusName + ": " + body);
  }

  /** A text made of three parts opens with the first and ends with the last. */
  lemma Framed(head: string, middle: string, tail: string)
    ensures head <= head + (middle + tail) && HasSuffix(head + (middle + tail), tail)
  {
    var t := head + (middle + tail);
    assert t[|t| - |tail|..] == tail;
  }

  /** An unparsable answer is reported as a parse failure, a cancellation as a timeout naming the configured seconds. */
  lemma SettleReportsParseAndTimeout(timeoutSeconds: int, response: Transport)
    ensures var r := Settle(timeoutSeconds, response, false);
      && (response.Responded? && IsSuccessStatusCode(response.status) && response.parsed.Malformed? ==>
            r == Threw(OtherException("Failed to parse LLM response: " + response.parsed.message)))
      && (response.Cancelled? ==> r == Threw(TimeoutException(TimeoutMessage(timeoutSeconds))))
  {
  }

  /** A reply is returned exactly when the status is a success and the parsed answer yields one. */
  lemma SettleRepliesIff(timeoutSeconds: int, response: Transport, reportCancellation: bool)
    ensures var r := Settle(timeoutSeconds, response, reportCancellation);
      && (r.Reply? <==> response.Responded? && IsSuccessStatusCode(response.status)
                        && response.parsed.ParsedObject? && ExtractReply(response.parsed.members, response.body).Ok?)
      && (r.Reply? ==> r.text == ExtractReply(response.parsed.members, response.body).value)
  {
  }

  /** t ends with the text u. */
  predicate HasSuffix(t: string, u: string) {
    |u| <= |t| && t[|t| - |u|..] == u
  }

  /** What the HttpClient.Timeout setter accepts: more than zero and at most Int32.MaxValue
      milliseconds. */
  predicate TimeoutAccepted(seconds: int) {
    1 <= seconds <= 2147483
  }

  /** The message of the ArgumentOutOfRangeException the setter raises otherwise. */
  const TimeoutRangeMessage: string :=
    "Specified argument was out of the range of valid values.\r\nParameter name: value"

  /** The Authorization header: a bearer credential when a token is configured, none otherwise. */
  function AuthorizationFor(token: string): (r: Option<string>)
    ensures r.Some? <==> token != []
    ensures r.Some? ==> "Bearer " <= r.value && r.value[7..] == token
  {
    if token == [] then None else Some("Bearer " + token)
  }

  datatype WireRequest = WireRequest(endpoint: string, body: Json, authorization: Option<string>)

  /** LlmClient: the settings it was given, its HttpClient's timeout and Authorization header. */
  class Client {
    var config: LlmConfig
    var timeoutSeconds: int
    var authorization: Option<string>

    /** The timeout and the header follow the settings. */
    ghost predicate Consistent()
      reads this
    {
      timeoutSeconds == config.timeoutSeconds && authorization == AuthorizationFor(config.bearerToken)
    }

    /** No settings means the defaults. The HttpClient.Timeout setter rejects a timeout out of range. */
    constructor (config: Option<LlmConfig>)
      requires TimeoutAccepted((if config.Some? then config.value else DefaultConfig).timeoutSeconds)
      ensures this.config == if config.Some? then config.value else DefaultConfig
      ensures Consistent()
    {
      var c := if config.Some? then config.value else DefaultConfig;
      this.config := c;
      timeoutSeconds := c.timeoutSeconds;
      authorization := AuthorizationFor(c.bearerToken);
    }

    /** The request ChatAsync posts for these messages. */
    function Request(messages: seq<ChatMessage>): WireRequest
      reads this
    {
      WireRequest(Endpoint(config.apiUrl, config.provider), RequestBody(config, messages), authorization)
    }

    /**
     * ChatAsync: posts the request and settles what came back. A cancellation, whoever caused
     * it, is reported as a timeout, so the caller never sees an OperationCanceledException.
     */
    function ChatAsync(messages: seq<ChatMessage>, server: WireRequest -> Transport): (r: ChatResult)
      reads this
      ensures r != Threw(OperationCanceled)
      ensures server(Request(messages)).Cancelled? <==> r == Threw(TimeoutException(TimeoutMessage(config.timeoutSeconds)))
    {
      Settle(config.timeoutSeconds, server(Request(messages)), false)
    }

    /** ChatAsync with a cancellation by the caller let out as an OperationCanceledException. */
    function ChatAsyncReportingCancellation(messages: seq<ChatMessage>, server: WireRequest -> Transport): (r: ChatResult)
      reads this
      ensures r == Threw(OperationCanceled) <==> server(Request(messages)) == Cancelled(true)
      ensures server(Request(messages)) != Cancelled(true) ==> r == ChatAsync(messages, server)
    {
      Settle(config.timeoutSeconds, server(Request(messages)), true)
    }

    /**
     * UpdateConfig: applies the change (none for a null action), then sets the timeout, which
     * raises when it is out of range (ok == false) before the header is touched; otherwise the
     * header is set from the token, or removed when there is none.
     */
    method UpdateConfig(update: Option<LlmConfig -> LlmConfig>) returns (ok: bool)
      modifies this
      ensures config == if update.Some? then update.value(old(config)) else old(config)
      ensures ok == TimeoutAccepted(config.timeoutSeconds)
      ensures timeoutSeconds == if ok then config.timeoutSeconds else old(timeoutSeconds)
      ensures authorization == if ok then AuthorizationFor(config.bearerToken) else old(authorization)
      ensures ok ==> Consistent()
    {
      if update.Some? {
        config := update.value(config);
      }
      ok := TimeoutAccepted(config.timeoutSeconds);
      if !ok {
        return;
      }
      timeoutSeconds := config.timeoutSeconds;
      if config.bearerToken != [] {
        authorization := Some("Bearer " + config.bearerToken);
      } else {
        authorization := None;
      }
    }
  }

  /**
   * new LlmClient(config): the HttpClient.Timeout setter raises for a timeout out of range, and
   * then no client exists; otherwise the client holds the settings (the defaults when none are
   * given) and its timeout and header follow them.
   */
  method NewClient(config: Option<LlmConfig>) returns (r: Result<Client>)
    ensures var c := if config.Some? then config.value else DefaultConfig;
      && (r.Ok? <==> TimeoutAccepted(c.timeoutSeconds))
      && (r.Ok? ==> fresh(r.value) && r.value.config == c && r.value.Consistent())
      && (r.Err? ==> r.message == TimeoutRangeMessage)
  {
    var c := if config.Some? then config.value else DefaultConfig;
    if !TimeoutAccepted(c.timeoutSeconds) {
      return Err(TimeoutRangeMessage);
    }
    var client := new Client(config);
    return Ok(client);
  }

  /** The token travels in the header alone: settings that differ only in their token give the
      same body and the same endpoint. */
  lemma TokenOnlyInHeader(c: LlmConfig, token: string, messages: seq<ChatMessage>)
    ensures RequestBody(c.(bearerToken := token), messages) == RequestBody(c, messages)
    ensures Endpoint(c.(bearerToken := token).apiUrl, c.(bearerToken := token).provider)
         == Endpoint(c.apiUrl, c.provider)
  {
  }
}
