/** The client side of the backend protocol (`APIManager`): which route a
    platform is sent to, the request that is built, how a reply is turned
    into an answer or an error, and the two best-effort probes. The network
    is not modelled: the reply the backend sent is a parameter. */
module ApiManager {
  import opened Wrappers
  import opened Json
  import opened Messages
  import opened Urls
  import BackendConfig

  /** The backend's name for a platform's service. */
  function ServiceName(p: Platform): (r: string)
    ensures |r| > 0
  {
    match p
    case ChatGPT => "openai"
    case Gemini => "google"
    case Claude => "anthropic"
    case Perplexity => "perplexity"
  }

  /** No two platforms share a service. */
  lemma ServiceNameInjective(p: Platform, q: Platform)
    ensures ServiceName(p) == ServiceName(q) ==> p == q
  {
  }

  /** No two platforms are sent to the same URL. */
  lemma {:induction false} ServiceURLsDistinct(debug: bool, p: Platform, q: Platform)
    ensures BackendConfig.GetServiceURL(debug, ServiceName(p)) == BackendConfig.GetServiceURL(debug, ServiceName(q)) ==> p == q
  {
    BackendConfig.ServiceURLInjective(debug, ServiceName(p), ServiceName(q));
    ServiceNameInjective(p, q);
  }

  // ---------------------------------------------------------------------
  // The request

  /** The parts of a `URLRequest` the client sets. `headers` maps a field
      name to the values added to it, in order. */
  datatype URLRequest = URLRequest(url: string, httpMethod: string, headers: map<string, seq<string>>,
                                   httpBody: Option<Json>)

  /** `URLRequest(url:)`: a GET with no headers and no body. */
  function NewRequest(url: string): (r: URLRequest)
    ensures r.url == url && r.httpMethod == "GET" && r.headers == map[] && r.httpBody == None
  {
    URLRequest(url, "GET", map[], None)
  }

  /** `addValue(_:forHTTPHeaderField:)`: appends a value to a header field. */
  function AddValue(request: URLRequest, value: string, field: string): (r: URLRequest)
    ensures r.url == request.url && r.httpMethod == request.httpMethod && r.httpBody == request.httpBody
    ensures r.headers.Keys == request.headers.Keys + {field}
    ensures r.headers[field] == (if field in request.headers then request.headers[field] else []) + [value]
    ensures forall f :: f in request.headers && f != field ==> r.headers[f] == request.headers[f]
  {
    var old_values := if field in request.headers then request.headers[field] else [];
    request.(headers := request.headers[field := old_values + [value]])
  }

  /** One entry of a chat request's `messages` array. */
  datatype ChatMessage = ChatMessage(role: string, content: string)

  /** The body of a chat request: a single user message carrying the prompt. */
  function RequestBody(prompt: string): (r: Json)
    ensures r.JObject? && r.fields.Keys == {"messages"}
  {
    JObject(map["messages" := JArray([JObject(map["role" := JString("user"), "content" := JString(prompt)])])])
  }

  /** Reads one `{role, content}` entry, as the backend's chat interface
      does; an entry with any other key is refused. */
  function DecodeChatMessage(j: Json): (r: Option<ChatMessage>)
    ensures r.Some? ==> && j.JObject? && j.fields.Keys == {"role", "content"}
                        && j.fields["role"] == JString(r.value.role)
                        && j.fields["content"] == JString(r.value.content)
  {
    if j.JObject? && j.fields.Keys == {"role", "content"} then
      match (StringField(j.fields, "role"), StringField(j.fields, "content"))
      case (Some(role), Some(content)) => Some(ChatMessage(role, content))
      case _ => None
    else None
  }

  /** Reads a list of entries; fails if any entry is malformed. */
  function DecodeChatMessages(items: seq<Json>): (r: Option<seq<ChatMessage>>)
    ensures r.Some? <==> forall i :: 0 <= i < |items| ==> DecodeChatMessage(items[i]).Some?
    ensures r.Some? ==> |r.value| == |items|
    ensures r.Some? ==> forall i :: 0 <= i < |items| ==> DecodeChatMessage(items[i]) == Some(r.value[i])
  {
    if items == [] then Some([])
    else
      match (DecodeChatMessage(items[0]), DecodeChatMessages(items[1..]))
      case (Some(m), Some(ms)) => Some([m] + ms)
      case _ => None
  }

  /** The messages a request body carries under `"messages"`. */
  function ChatMessages(body: Json): Option<seq<ChatMessage>> {
    if body.JObject? && "messages" in body.fields && body.fields["messages"].JArray? then
      DecodeChatMessages(body.fields["messages"].items)
    else None
  }

  /** The body carries exactly one message: the prompt, in the user role. */
  lemma RequestBodyCarriesPrompt(prompt: string)
    ensures ChatMessages(RequestBody(prompt)) == Some([ChatMessage("user", prompt)])
  {
    var entry := JObject(map["role" := JString("user"), "content" := JString(prompt)]);
    assert DecodeChatMessage(entry) == Some(ChatMessage("user", prompt));
    assert [entry][1..] == [];
    assert DecodeChatMessages([entry][1..]) == Some([]);
    assert [ChatMessage("user", prompt)] + [] == [ChatMessage("user", prompt)];
    assert DecodeChatMessages([entry]) == Some([ChatMessage("user", prompt)]);
  }

  /** Builds the chat request for one platform, field by field as
      `sendBackendRequest` does. */
  method BuildRequest(debug: bool, platform: Platform, prompt: string) returns (request: URLRequest)
    ensures request.url == BackendConfig.GetServiceURL(debug, ServiceName(platform))
    ensures request.httpMethod == "POST"
    ensures request.headers == map["Content-Type" := ["application/json"]]
    ensures request.httpBody.Some? && request.httpBody.value.JObject?
    ensures request.httpBody.value.fields.Keys == {"messages"}
    ensures ChatMessages(request.httpBody.value) == Some([ChatMessage("user", prompt)])
  {
    var serviceName := ServiceName(platform);
    var url := BackendConfig.ApiURL(debug) + "/chat/" + serviceName;
    request := NewRequest(url);
    request := request.(httpMethod := "POST");
    request := AddValue(request, "application/json", "Content-Type");
    assert request.headers["Content-Type"] == [] + ["application/json"] == ["application/json"];
    var body := RequestBody(prompt);
    request := request.(httpBody := Some(body));
    RequestBodyCarriesPrompt(prompt);
  }

  // ---------------------------------------------------------------------
  // The reply

  /** What came back from the network for one request. `status` is `None`
      when the response is not an HTTP response; `body` is the outcome of
      parsing the bytes as JSON, a failure carrying the serializer's error
      description. */
  datatype Reply =
    | TransportError(description: string)
    | Received(status: Option<int>, body: Result<Json, string>)

  /** `APIError`. */
  datatype APIError = MissingAPIKey | InvalidResponse | ParsingError | ApiError(message: string)

  /** What a request can throw: one of the client's own errors, or an error
      from `URLSession` or `JSONSerialization` passed through unchanged. */
  datatype RequestError = Api(error: APIError) | Foreign(description: string)

  /** `APIError.errorDescription`. */
  function ErrorDescription(e: APIError): (r: string)
    ensures e.ApiError? ==> r == e.message
    ensures !e.ApiError? ==> |r| > 0
  {
    match e
    case MissingAPIKey => "API key is missing or service is disabled"
    case InvalidResponse => "Invalid response from API"
    case ParsingError => "Failed to parse API response"
    case ApiError(message) => message
  }

  /** The three fixed descriptions tell their errors apart. */
  lemma FixedDescriptionsDistinct(e: APIError, f: APIError)
    requires !e.ApiError? && !f.ApiError?
    ensures ErrorDescription(e) == ErrorDescription(f) ==> e == f
  {
  }

  /** `error.localizedDescription` of a thrown error. */
  function LocalizedDescription(e: RequestError): (r: string)
    ensures e.Api? ==> r == ErrorDescription(e.error)
    ensures e.Foreign? ==> r == e.description
  {
    match e
    case Api(a) => ErrorDescription(a)
    case Foreign(d) => d
  }

  /** `json` has the answer shape `{choices: [{message: {content: c}}, ...]}`
      and every element of `choices` is an object. */
  predicate AnswerIs(json: Json, c: string) {
    && json.JObject?
    && "choices" in json.fields
    && json.fields["choices"].JArray?
    && var choices := json.fields["choices"].items;
    && |choices| > 0
    && AllObjects(choices)
    && "message" in choices[0].fields
    && choices[0].fields["message"].JObject?
    && "content" in choices[0].fields["message"].fields
    && choices[0].fields["message"].fields["content"] == JString(c)
  }

  /** The `if let choices … content` chain: the text of the first choice. */
  function FirstChoiceContent(fields: map<string, Json>): (r: Option<string>)
    ensures r.Some? ==> AnswerIs(JObject(fields), r.value)
    ensures forall c :: AnswerIs(JObject(fields), c) ==> r == Some(c)
  {
    if "choices" in fields && fields["choices"].JArray? && AllObjects(fields["choices"].items)
       && |fields["choices"].items| > 0 then
      match ObjectField(fields["choices"].items[0].fields, "message")
      case Some(message) => StringField(message, "content")
      case None => None
    else None
  }

  /** The `"error"` string of a structured error body, if there is one. */
  function ErrorMessage(body: Result<Json, string>): (r: Option<string>)
    ensures r.Some? <==> body.Success? && body.value.JObject? && "error" in body.value.fields
                         && body.value.fields["error"].JString?
    ensures r.Some? ==> body.value.fields["error"] == JString(r.value)
  {
    if body.Failure? then None
    else
      match AsObject(body.value)
      case Some(errorJson) => StringField(errorJson, "error")
      case None => None
  }

  /** A status that sends the reply down the error path (`!= 200`). */
  predicate IsErrorStatus(status: Option<int>) {
    status.Some? && status.value != 200
  }

  /** How `sendBackendRequest` turns a reply into an answer or an error. */
  function ClassifyReply(platform: Platform, reply: Reply): (r: Result<string, RequestError>)
    // A transport failure is passed through.
    ensures reply.TransportError? ==> r == Failure(Foreign(reply.description))
    // Only a 200 (or non-HTTP) reply can carry an answer, and it is returned verbatim.
    ensures r.Success? ==> reply.Received? && !IsErrorStatus(reply.status)
                           && reply.body.Success? && AnswerIs(reply.body.value, r.value)
    ensures forall c :: (reply.Received? && !IsErrorStatus(reply.status) && reply.body.Success?
                         && AnswerIs(reply.body.value, c)) ==> r == Success(c)
    // Any other status yields a provider error (prefixed with the platform's
    // name) when the body has an "error" string, and an invalid response otherwise.
    ensures (reply.Received? && IsErrorStatus(reply.status)) ==>
              r == Failure(Api(match ErrorMessage(reply.body)
                               case Some(m) => ApiError(RawValue(platform) + ": " + m)
                               case None => InvalidResponse))
    // A 200 reply whose bytes are not JSON propagates the serializer's error;
    // JSON without the answer shape is a parsing error.
    ensures (reply.Received? && !IsErrorStatus(reply.status) && reply.body.Failure?) ==>
              r == Failure(Foreign(reply.body.error))
    ensures (reply.Received? && !IsErrorStatus(reply.status) && reply.body.Success?
             && !(exists c :: AnswerIs(reply.body.value, c))) ==> r == Failure(Api(ParsingError))
  {
    match reply
    case TransportError(description) => Failure(Foreign(description))
    case Received(status, body) =>
      if status.Some? && status.value != 200 then
        match ErrorMessage(body)
        case Some(message) => Failure(Api(ApiError(RawValue(platform) + ": " + message)))
        case None => Failure(Api(InvalidResponse))
      else if body.Failure? then Failure(Foreign(body.error))
      else
        match AsObject(body.value)
        case None => Failure(Api(ParsingError))
        case Some(json) =>
          match FirstChoiceContent(json)
          case Some(content) => Success(content)
          case None => Failure(Api(ParsingError))
  }

  /** `sendRequest(to:prompt:)`: builds the request for `platform` and
      classifies the reply the backend sent for it. */
  method SendRequest(debug: bool, platform: Platform, prompt: string, reply: Reply)
    returns (request: URLRequest, result: Result<string, RequestError>)
    ensures request.url == BackendConfig.GetServiceURL(debug, ServiceName(platform))
    ensures request.httpMethod == "POST" && request.httpBody.Some?
    ensures ChatMessages(request.httpBody.value) == Some([ChatMessage("user", prompt)])
    ensures result == ClassifyReply(platform, reply)
  {
    request := BuildRequest(debug, platform, prompt);
    result := ClassifyReply(platform, reply);
  }

  /** An answer of the expected shape with status 200 is returned as is. */
  lemma AnswerRoundTrip(platform: Platform, status: Option<int>, content: string)
    requires status == None || status == Some(200)
    ensures ClassifyReply(platform, Received(status, Success(
              JObject(map["choices" := JArray([JObject(map["message" := JObject(map["content" := JString(content)])])])]))))
            == Success(content)
  {
    var json := JObject(map["choices" := JArray([JObject(map["message" := JObject(map["content" := JString(content)])])])]);
    assert AnswerIs(json, content);
  }

  // ---------------------------------------------------------------------
  // Probes

  /** `checkBackendHealth()`: `url` is the parse of the health URL. */
  function CheckBackendHealth(url: Option<ParsedUrl>, reply: Reply): (r: bool)
    ensures r <==> && url.Some? && reply.Received? && reply.status == Some(200)
                   && reply.body.Success? && reply.body.value.JObject?
                   && "status" in reply.body.value.fields
                   && reply.body.value.fields["status"] == JString("ok")
  {
    if url.None? then false
    else
      match reply
      case TransportError(_) => false
      case Received(status, body) =>
        if status != Some(200) || body.Failure? then false
        else
          match AsObject(body.value)
          case None => false
          case Some(json) =>
            match StringField(json, "status")
            case Some(s) => s == "ok"
            case None => false
  }

  /** `getAvailableServices()`: `url` is the parse of the services URL. */
  function GetAvailableServices(url: Option<ParsedUrl>, reply: Reply): (r: seq<string>)
    ensures r != [] ==> && url.Some? && reply.Received? && reply.body.Success?
                        && reply.body.value.JObject? && "services" in reply.body.value.fields
                        && reply.body.value.fields["services"] == StringArray(r)
  {
    if url.None? || reply.TransportError? then []
    else
      var body := reply.body;
      if body.Failure? then []
      else
        match AsObject(body.value)
        case None => []
        case Some(json) =>
          if "services" in json && json["services"].JArray? && AllStrings(json["services"].items) then
            var items := json["services"].items;
            assert StringArray(Strings(items)).items == items;
            Strings(items)
          else []
  }

  /** A services list in the reply is returned whatever the status code. */
  lemma ServicesListReturned(u: ParsedUrl, status: Option<int>, fields: map<string, Json>, services: seq<string>)
    requires "services" in fields && fields["services"] == StringArray(services)
    ensures GetAvailableServices(Some(u), Received(status, Success(JObject(fields)))) == services
  {
  }

  /** The status code plays no part in the services probe. */
  lemma ServicesIgnoreStatus(url: Option<ParsedUrl>, s: Option<int>, t: Option<int>, body: Result<Json, string>)
    ensures GetAvailableServices(url, Received(s, body)) == GetAvailableServices(url, Received(t, body))
  {
  }
}
