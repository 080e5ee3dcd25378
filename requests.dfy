/** One request of `HttpClient` (src/client.ts): the URL, the merged
    headers, the body and the timeout it is sent with, and how whatever the
    transport produced is normalised into a reply or an `InkressApiError`
    (`getBaseUrl`, `getHeaders`, `makeRequest`). */
module Requests {
  import opened Wrappers
  import opened Json
  import opened Host
  import opened Text
  import opened ApiErrors
  import opened ClientConfig

  datatype Method = GET | POST | PUT | DELETE | PATCH

  /** A value whose `typeof` is not `'string'`. */
  type NonString = v: Value | !v.Str? witness Null

  /** A request body as callers pass it: none, a string (sent as it is), or
      any other value (JSON-encoded). */
  datatype RequestBody = NoBody | TextBody(text: string) | ValueBody(value: NonString)

  /** `RequestOptions`; `timeout` is `None` when not given. */
  datatype RequestOptions = RequestOptions(
    verb: Method,
    body: RequestBody,
    headers: map<string, string>,
    timeout: Option<int>)

  /** What is handed to `fetch`, and the timer it is raced against. */
  datatype HttpRequest = HttpRequest(
    url: string,
    verb: Method,
    headers: map<string, string>,
    body: Option<string>,
    timeoutMs: int)

  /** `getBaseUrl`: `${endpoint}/api/${apiVersion}` */
  function BaseUrl(config: Settings): (url: string)
    ensures var n := |config.endpoint|;
            && |url| == n + 5 + |config.apiVersion|
            && url[..n] == config.endpoint && url[n..n + 5] == "/api/" && url[n + 5..] == config.apiVersion
  {
    config.endpoint + "/api/" + config.apiVersion
  }

  /** `Bearer ${this.config.bearerToken}` */
  function AuthorizationValue(token: Option<string>): string {
    "Bearer " + if token.Some? then token.value else "undefined"
  }

  /** The header precedence, one name at a time: a non-empty client id
      decides `Client-Id`; otherwise per-call headers beat configured
      headers, which beat the two library defaults. */
  function HeaderValue(config: Settings, extra: map<string, string>, name: string): Option<string> {
    if name == "Client-Id" && config.clientId != "" then Some(config.clientId)
    else if name in extra then Some(extra[name])
    else if name in config.headers then Some(config.headers[name])
    else if name == "Authorization" then Some(AuthorizationValue(config.bearerToken))
    else if name == "Content-Type" then Some("application/json")
    else None
  }

  /** The header names a request can carry. */
  function HeaderNames(config: Settings, extra: map<string, string>): set<string> {
    extra.Keys + config.headers.Keys + {"Content-Type", "Authorization", "Client-Id"}
  }

  /** The headers of a request, defined name by name through HeaderValue. */
  function RequestHeaders(config: Settings, extra: map<string, string>): (h: map<string, string>)
    ensures forall name :: name in h <==> HeaderValue(config, extra, name).Some?
    ensures forall name :: name in h ==> h[name] == HeaderValue(config, extra, name).value
  {
    map name | name in HeaderNames(config, extra) && HeaderValue(config, extra, name).Some?
             :: HeaderValue(config, extra, name).value
  }

  /** The consequences of the precedence that callers rely on. */
  lemma HeaderPrecedence(config: Settings, extra: map<string, string>)
    ensures var h := RequestHeaders(config, extra);
      && "Content-Type" in h && "Authorization" in h
      && (config.clientId != "" ==> "Client-Id" in h && h["Client-Id"] == config.clientId)
      && (config.clientId == "" ==> ("Client-Id" in h <==> "Client-Id" in extra || "Client-Id" in config.headers))
      && (forall name :: name in extra && (name != "Client-Id" || config.clientId == "") ==> h[name] == extra[name])
      && (forall name :: name in config.headers && name !in extra && (name != "Client-Id" || config.clientId == "")
            ==> h[name] == config.headers[name])
      && (("Authorization" !in extra && "Authorization" !in config.headers)
            ==> h["Authorization"] == AuthorizationValue(config.bearerToken))
      && (("Content-Type" !in extra && "Content-Type" !in config.headers)
            ==> h["Content-Type"] == "application/json")
  {
  }

  /** `timeout || this.config.timeout` */
  function EffectiveTimeout(config: Settings, options: RequestOptions): int {
    if options.timeout.Some? && options.timeout.value != 0 then options.timeout.value else config.timeout
  }

  /** Truthiness of a body. */
  predicate BodyIsTruthy(body: RequestBody) {
    match body
    case NoBody => false
    case TextBody(text) => text != ""
    case ValueBody(value) => Truthy(value)
  }

  /** `if (body && method !== 'GET') requestInit.body = typeof body === 'string' ? body : JSON.stringify(body)` */
  function EncodedBody(options: RequestOptions, rt: Runtime): (b: Option<string>)
    ensures b.Some? <==> BodyIsTruthy(options.body) && options.verb != GET
    ensures b.Some? && options.body.TextBody? ==> b.value == options.body.text
    ensures b.Some? && options.body.ValueBody? ==> b.value == rt.stringify(options.body.value)
  {
    if !BodyIsTruthy(options.body) || options.verb == GET then None
    else match options.body
      case TextBody(text) => Some(text)
      case ValueBody(value) => Some(rt.stringify(value))
  }

  /** The request `makeRequest` sends for `path`. */
  function BuildRequest(config: Settings, path: string, options: RequestOptions, rt: Runtime): (r: HttpRequest)
    ensures r.url == BaseUrl(config) + path && r.verb == options.verb
    ensures r.headers == RequestHeaders(config, options.headers)
    ensures r.body.Some? <==> BodyIsTruthy(options.body) && options.verb != GET
    ensures r.body.Some? && options.body.TextBody? ==> r.body.value == options.body.text
    ensures r.body == EncodedBody(options, rt)
    ensures options.timeout.Some? && options.timeout.value != 0 ==> r.timeoutMs == options.timeout.value
    ensures options.timeout.None? || options.timeout == Some(0) ==> r.timeoutMs == config.timeout
  {
    HttpRequest(BaseUrl(config) + path, options.verb, RequestHeaders(config, options.headers),
                EncodedBody(options, rt), EffectiveTimeout(config, options))
  }

  /** The URL is `<endpoint>/api/<apiVersion><path>`, and a per-call timeout
      of 0 (or none) falls back to the configured one. */
  lemma RequestUrlAndTimeout(config: Settings, path: string, options: RequestOptions, rt: Runtime)
    ensures BuildRequest(config, path, options, rt).url == config.endpoint + "/api/" + config.apiVersion + path
    ensures options.timeout.None? || options.timeout == Some(0)
            ==> BuildRequest(config, path, options, rt).timeoutMs == config.timeout
  {
  }

  /** How the race between `fetch` and the timer settled: a response whose
      body was read as text, the timer firing first, or a rejection of
      `fetch` or of reading the body. */
  datatype Outcome = Responded(status: int, text: string) | TimedOut | Threw(error: Thrown)

  /** The transport: what the `attempt`-th call (from 0) of `makeRequest`
      observes for the request it sends. */
  type Transport = (nat, HttpRequest) -> Outcome

  /** A successful `ApiResponse`: `{state: 'ok', data: undefined}` for an
      empty body, otherwise the parsed body as it is. */
  datatype Reply = EmptyOk | Parsed(body: Value)

  /** `response.ok` */
  predicate IsOk(status: int) {
    200 <= status <= 299
  }

  /** `HTTP ${response.status}` */
  function HttpStatusText(status: int): string {
    "HTTP " + IntToDecimal(status)
  }

  /** `String(message)` for the truthy message member of an error body. */
  function MessageText(message: Value, rt: Runtime): string {
    if message.Str? then message.s else rt.toText(message)
  }

  /** The error document of a non-ok response: the parsed body, or
      `{message: text || 'HTTP <status>'}` when it is not JSON. */
  function ErrorDocument(status: int, text: string, rt: Runtime): Value {
    match rt.parseJson(text)
    case Success(v) => v
    case Failure(_) => Object(map["message" := Str(if text != "" then text else HttpStatusText(status))])
  }

  /** The error thrown for a non-ok response. Reading `.message` of a `null`
      document throws a TypeError, which the outer `catch` turns into a
      status-0 error. */
  function ResponseError(status: int, text: string, rt: Runtime): ApiError {
    var document := ErrorDocument(status, text, rt);
    match Property(document, "message")
    case Failure(typeError) => ApiError(typeError, TransportStatus, Wrapped(ErrorObject(typeError)))
    case Success(message) =>
      ApiError(if Present(message) then MessageText(message.value, rt) else HttpStatusText(status),
               status, ResponseData(document))
  }

  /** The `try`/`catch` of `makeRequest` applied to an outcome: every failure
      is an `InkressApiError`; those not built from a response have status 0. */
  function Normalize(outcome: Outcome, rt: Runtime): (r: Result<Reply, ApiError>)
    ensures r.Success? <==> outcome.Responded? && IsOk(outcome.status)
                            && (outcome.text == "" || rt.parseJson(outcome.text).Success?)
    ensures r.Failure? && !outcome.Responded? ==> r.error.status == TransportStatus
    ensures r.Failure? && outcome.Responded? && IsOk(outcome.status) ==> r.error.status == TransportStatus
    ensures r.Failure? && outcome.Responded? && !IsOk(outcome.status)
            ==> r.error.status == outcome.status || r.error.status == TransportStatus
    ensures r.Success? ==> r.value == (if outcome.text == "" then EmptyOk else Parsed(rt.parseJson(outcome.text).value))
    ensures outcome.Threw? ==> r == Failure(ApiError(if outcome.error.ErrorObject? then outcome.error.message else "Unknown error",
                                                     TransportStatus, Wrapped(outcome.error)))
    ensures outcome.Responded? && IsOk(outcome.status) && outcome.text != "" && rt.parseJson(outcome.text).Failure?
            ==> r == Failure(ApiError(rt.parseJson(outcome.text).error, TransportStatus,
                                      Wrapped(ErrorObject(rt.parseJson(outcome.text).error))))
  {
    match outcome
    case TimedOut => Failure(ApiError("Request timeout", TransportStatus, Wrapped(ErrorObject("Request timeout"))))
    case Threw(error) =>
      Failure(ApiError(if error.ErrorObject? then error.message else "Unknown error", TransportStatus, Wrapped(error)))
    case Responded(status, text) =>
      if !IsOk(status) then Failure(ResponseError(status, text, rt))
      else if text == "" then Success(EmptyOk)
      else match rt.parseJson(text)
        case Success(v) => Success(Parsed(v))
        case Failure(syntaxError) => Failure(ApiError(syntaxError, TransportStatus, Wrapped(ErrorObject(syntaxError))))
  }

  /** A non-ok response keeps its status unless its body is the JSON text
      `null`; its message is the body's truthy `message` member, else the
      raw text, else `HTTP <status>`. */
  lemma NonOkResponseError(status: int, text: string, rt: Runtime)
    requires !IsOk(status)
    requires rt.parseJson(text) != Success(Null)
    ensures var r := Normalize(Responded(status, text), rt);
      && r.Failure? && r.error.status == status
      && (rt.parseJson(text).Failure? ==> r.error.message == (if text != "" then text else HttpStatusText(status)))
      && (rt.parseJson(text).Success? ==>
            var doc := rt.parseJson(text).value;
            r.error.data == ResponseData(doc)
            && r.error.message == (if doc.Object? && "message" in doc.fields && Truthy(doc.fields["message"])
                                   then MessageText(doc.fields["message"], rt) else HttpStatusText(status)))
  {
    if rt.parseJson(text).Failure? {
      var message := if text != "" then text else HttpStatusText(status);
      assert Property(ErrorDocument(status, text, rt), "message") == Success(Some(Str(message)));
    }
  }

  /** A non-ok response whose body is `null` loses its status: the TypeError
      from reading `null.message` is reported as a transport failure, which
      is then retried like one. */
  lemma NullErrorBodyBecomesTransportFailure(status: int, text: string, rt: Runtime)
    requires !IsOk(status) && rt.parseJson(text) == Success(Null)
    ensures var r := Normalize(Responded(status, text), rt);
            r.Failure? && r.error.status == TransportStatus && ShouldRetry(r.error)
            && r.error.message == NullReadMessage("message")
  {
  }

  /** Which outcomes of one request are retried: every timeout, every
      thrown failure and every 5xx response, but no 4xx response whose body
      is not JSON `null`. */
  lemma RetryableOutcomes(status: int, text: string, thrown: Thrown, rt: Runtime)
    ensures ShouldRetry(Normalize(TimedOut, rt).error)
    ensures ShouldRetry(Normalize(Threw(thrown), rt).error)
    ensures status >= 500 ==> var r := Normalize(Responded(status, text), rt); r.Failure? && ShouldRetry(r.error)
    ensures 400 <= status < 500 && rt.parseJson(text) != Success(Null)
            ==> !ShouldRetry(Normalize(Responded(status, text), rt).error)
  {
    if 400 <= status < 500 && rt.parseJson(text) != Success(Null) {
      NonOkResponseError(status, text, rt);
    }
  }

  /** The timer winning the race is a status-0 error `Request timeout`; an
      ok response with an empty body is a success without data. */
  lemma TimeoutAndEmptyBody(status: int, rt: Runtime)
    requires IsOk(status)
    ensures Normalize(TimedOut, rt) == Failure(ApiError("Request timeout", 0, Wrapped(ErrorObject("Request timeout"))))
    ensures Normalize(Responded(status, ""), rt) == Success(EmptyOk)
  {
  }

  /** `makeRequest`: the `attempt`-th call sends the built request and
      normalises what comes back. */
  function MakeRequest(config: Settings, path: string, options: RequestOptions,
                       transport: Transport, attempt: nat, rt: Runtime): (r: Result<Reply, ApiError>)
    ensures var o := transport(attempt, BuildRequest(config, path, options, rt));
            && (r.Success? <==> o.Responded? && IsOk(o.status) && (o.text == "" || rt.parseJson(o.text).Success?))
            && (r.Failure? && !(o.Responded? && !IsOk(o.status)) ==> r.error.status == TransportStatus)
            && (r.Failure? && o.Responded? && !IsOk(o.status) ==> r.error.status in {o.status, TransportStatus})
  {
    Normalize(transport(attempt, BuildRequest(config, path, options, rt)), rt)
  }
}
