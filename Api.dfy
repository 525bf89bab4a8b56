/** The typed request wrapper of src/services/api.ts: header merging, the request
    sent to `fetch`, and the four-stage check of the reply (HTTP status, response
    envelope, application code, payload schema). `fetch` itself is an input: the
    environment maps a URL and request init to what the network answered. */
module Api {
  import opened Json
  import opened Validation

  /** Used when the VITE_API_BASE_URL environment value is missing or empty. */
  const DefaultBaseUrl: string := "http://localhost:3001"
  /** Error text when a reply has a non-200 code and no (or an empty) message. */
  const DefaultFailureMessage: string := "请求处理失败"
  /** Error text prefix for a non-ok HTTP status. */
  const HttpFailurePrefix: string := "请求失败: "

  datatype Method = GET | POST | PUT | DELETE

  /** The optional per-call configuration; `headers: Some(..)` means the caller
      passed a `headers` field. */
  datatype RequestConfig = RequestConfig(
    httpMethod: Option<Method>,
    headers: Option<map<string, string>>,
    body: Option<Json>,
    authToken: Option<string>)

  /** What is handed to `fetch` besides the URL. An absent method means GET to `fetch`. */
  datatype FetchInit = FetchInit(httpMethod: Option<Method>, headers: map<string, string>, body: Option<Json>)

  /** A reply: the `ok` flag, the status, and the body parsed as JSON (None when
      `response.json()` rejects because the body is not JSON). */
  datatype Response = Response(ok: bool, status: nat, body: Option<Json>)

  /** `fetch` either rejects (network failure) or yields a response. */
  datatype FetchOutcome = Rejected | Responded(response: Response)

  /** The environment of every request: the configured base URL variable and the network. */
  datatype Env = Env(baseUrlVar: Option<string>, fetch: (string, FetchInit) -> FetchOutcome)

  /** `BaseResponseSchema`: numeric code, optional string message, optional payload. */
  datatype Envelope = Envelope(code: int, message: Option<string>, data: Option<Json>)

  /** The failures `request` can raise, one per stage, in the order they are checked. */
  datatype RequestError =
    | FetchFailed
    | HttpError(status: nat)
    | BodyNotJson
    | EnvelopeInvalid(envelopeIssues: seq<Issue>)
    | ApplicationError(message: string)
    | SchemaInvalid(schemaIssues: seq<Issue>)

  /** `import.meta.env.VITE_API_BASE_URL || 'http://localhost:3001'`. */
  function BaseUrl(baseUrlVar: Option<string>): (url: string)
    ensures baseUrlVar.Some? && baseUrlVar.value != "" ==> url == baseUrlVar.value
    ensures baseUrlVar.None? || baseUrlVar.value == "" ==> url == DefaultBaseUrl
    ensures url != ""
  {
    if baseUrlVar.Some? && baseUrlVar.value != "" then baseUrlVar.value else DefaultBaseUrl
  }

  /** The URL requested for `endpoint`: the base URL followed by the endpoint. */
  function Url(env: Env, endpoint: string): (url: string)
    ensures |url| == |BaseUrl(env.baseUrlVar)| + |endpoint|
    ensures url[|BaseUrl(env.baseUrlVar)|..] == endpoint
    ensures url[..|BaseUrl(env.baseUrlVar)|] == BaseUrl(env.baseUrlVar)
  {
    BaseUrl(env.baseUrlVar) + endpoint
  }

  function AuthTokenOf(config: Option<RequestConfig>): Option<string> {
    if config.Some? then config.value.authToken else None
  }

  function CallerHeaders(config: Option<RequestConfig>): map<string, string> {
    if config.Some? && config.value.headers.Some? then config.value.headers.value else map[]
  }

  /** `config?.authToken && { Authorization: 'Bearer ' + token }`: an absent or
      empty token adds nothing. */
  function AuthorizationHeader(authToken: Option<string>): (h: map<string, string>)
    ensures "Authorization" in h <==> authToken.Some? && authToken.value != ""
    ensures "Authorization" in h ==> h["Authorization"] == "Bearer " + authToken.value
    ensures h.Keys <= {"Authorization"}
  {
    if authToken.Some? && authToken.value != "" then map["Authorization" := "Bearer " + authToken.value]
    else map[]
  }

  /** The merged header object: Content-Type, then Authorization, then the caller's
      headers, a later entry winning on a shared key. */
  function MergeHeaders(config: Option<RequestConfig>): (h: map<string, string>)
    ensures h.Keys == {"Content-Type"} + AuthorizationHeader(AuthTokenOf(config)).Keys + CallerHeaders(config).Keys
    // the caller's headers win on every key they name
    ensures forall k :: k in CallerHeaders(config) ==> h[k] == CallerHeaders(config)[k]
    ensures "Content-Type" !in CallerHeaders(config) ==> h["Content-Type"] == "application/json"
    ensures "Authorization" in h <==>
              "Authorization" in CallerHeaders(config) || (AuthTokenOf(config).Some? && AuthTokenOf(config).value != "")
    ensures "Authorization" in h && "Authorization" !in CallerHeaders(config) ==>
              h["Authorization"] == "Bearer " + AuthTokenOf(config).value
    // nothing else is added
    ensures forall k :: k in h && k !in CallerHeaders(config) ==> k == "Content-Type" || k == "Authorization"
  {
    map["Content-Type" := "application/json"] + AuthorizationHeader(AuthTokenOf(config)) + CallerHeaders(config)
  }

  /** `{ headers, ...config }` AS WRITTEN: because the config is spread after the
      merged headers, a config that has its own `headers` field replaces them. */
  function FetchInitAsWritten(config: Option<RequestConfig>): (init: FetchInit)
    ensures config.None? || config.value.headers.None? ==> init.headers == MergeHeaders(config)
    ensures config.Some? && config.value.headers.Some? ==> init.headers == config.value.headers.value
  {
    match config
    case None => FetchInit(None, MergeHeaders(config), None)
    case Some(c) => FetchInit(c.httpMethod, if c.headers.Some? then c.headers.value else MergeHeaders(config), c.body)
  }

  /** The request init with the merged headers always sent, as the header merge
      evidently intends. `Request` uses this definition. */
  function FetchInitFor(config: Option<RequestConfig>): (init: FetchInit)
    ensures init.headers == MergeHeaders(config)
    ensures "Content-Type" in init.headers
    ensures forall k :: k in CallerHeaders(config) ==> k in init.headers && init.headers[k] == CallerHeaders(config)[k]
    ensures AuthTokenOf(config).Some? && AuthTokenOf(config).value != "" ==> "Authorization" in init.headers
    ensures config.Some? ==> init.httpMethod == config.value.httpMethod && init.body == config.value.body
    ensures config.None? ==> init.httpMethod.None? && init.body.None?
  {
    match config
    case None => FetchInit(None, MergeHeaders(config), None)
    case Some(c) => FetchInit(c.httpMethod, MergeHeaders(config), c.body)
  }

  /** The two definitions differ only for a config carrying its own `headers`. */
  lemma AsWrittenAgreesWithoutCallerHeaders(config: Option<RequestConfig>)
    requires config.None? || config.value.headers.None?
    ensures FetchInitAsWritten(config) == FetchInitFor(config)
  {
  }

  /** The discrepancy: a caller header and an auth token, and the token is not sent. */
  lemma CallerHeadersDropAuthorization()
    ensures var config := Some(RequestConfig(Some(GET), Some(map["X-Trace" := "1"]), None, Some("abc")));
            && "Authorization" !in FetchInitAsWritten(config).headers
            && "Content-Type" !in FetchInitAsWritten(config).headers
            && FetchInitFor(config).headers["Authorization"] == "Bearer abc"
            && FetchInitFor(config).headers["Content-Type"] == "application/json"
  {
    var config := Some(RequestConfig(Some(GET), Some(map["X-Trace" := "1"]), None, Some("abc")));
    assert "Authorization" in AuthorizationHeader(AuthTokenOf(config));
  }

  /** `BaseResponseSchema.parse(json)`. */
  function ParseEnvelope(j: Json): (r: Result<Envelope, seq<Issue>>)
    ensures r.Success? <==>
              && j.JObj?
              && "code" in j.fields && j.fields["code"].JNum?
              && ("message" !in j.fields || j.fields["message"].JStr?)
    ensures r.Success? ==>
              && r.value.code == j.fields["code"].n
              && r.value.message == (if "message" in j.fields then Some(j.fields["message"].s) else None)
              && r.value.data == Field(j.fields, "data")
    ensures r.Failure? ==> r.error != []
  {
    match j
    case JObj(f) =>
      var code := ExpectNumber(["code"], Field(f, "code"));
      var message := ExpectOptionalString(["message"], Field(f, "message"));
      if code.Success? && message.Success? then Success(Envelope(code.value, message.value, Field(f, "data")))
      else Failure(IssuesOf(code) + IssuesOf(message))
    case _ => Failure(NotAnObject([], Some(j)))
  }

  /** The wire form of an envelope, as a backend would send it. */
  function EnvelopeToJson(e: Envelope): Json {
    JObj(map["code" := JNum(e.code)]
         + (if e.message.Some? then map["message" := JStr(e.message.value)] else map[])
         + (if e.data.Some? then map["data" := e.data.value] else map[]))
  }

  /** Every envelope survives being sent and parsed again. */
  lemma EnvelopeRoundTrip(e: Envelope)
    ensures ParseEnvelope(EnvelopeToJson(e)) == Success(e)
  {
    var f := EnvelopeToJson(e).fields;
    assert "code" in f && f["code"] == JNum(e.code);
    assert "message" in f <==> e.message.Some?;
    assert e.message.Some? ==> f["message"] == JStr(e.message.value);
    assert Field(f, "data") == e.data;
  }

  /** `parsedResponse.message || '请求处理失败'`: an empty message is replaced too. */
  function AppMessage(message: Option<string>): (m: string)
    ensures m != ""
    ensures message.Some? && message.value != "" ==> m == message.value
    ensures message.None? || message.value == "" ==> m == DefaultFailureMessage
  {
    if message.Some? && message.value != "" then message.value else DefaultFailureMessage
  }

  /** The checks `request` applies to a reply, stopping at the first that fails. */
  function HandleResponse<T>(resp: Response, schema: Schema<T>): (r: Result<T, RequestError>)
    // 1. the status, before the body is looked at
    ensures !resp.ok <==> r == Failure(HttpError(resp.status))
    // 2. a body that is not JSON, only once the status passed
    ensures r == Failure(BodyNotJson) <==> resp.ok && resp.body.None?
    // 3. the envelope shape, only once the body parsed
    ensures (r.Failure? && r.error.EnvelopeInvalid?) <==>
              resp.ok && resp.body.Some? && ParseEnvelope(resp.body.value).Failure?
    ensures r.Failure? && r.error.EnvelopeInvalid? ==>
              r.error.envelopeIssues == ParseEnvelope(resp.body.value).error
    // 4. the application code, only once the envelope is well formed
    ensures (r.Failure? && r.error.ApplicationError?) <==>
              && resp.ok && resp.body.Some? && ParseEnvelope(resp.body.value).Success?
              && ParseEnvelope(resp.body.value).value.code != 200
    ensures r.Failure? && r.error.ApplicationError? ==>
              r.error.message == AppMessage(ParseEnvelope(resp.body.value).value.message)
    // 5. the payload schema, only with code 200
    ensures r.Failure? && r.error.SchemaInvalid? ==>
              && resp.ok && resp.body.Some? && ParseEnvelope(resp.body.value).Success?
              && ParseEnvelope(resp.body.value).value.code == 200
              && schema(ParseEnvelope(resp.body.value).value.data) == Failure(r.error.schemaIssues)
    // success returns exactly the validated payload
    ensures r.Success? <==>
              && resp.ok && resp.body.Some? && ParseEnvelope(resp.body.value).Success?
              && ParseEnvelope(resp.body.value).value.code == 200
              && schema(ParseEnvelope(resp.body.value).value.data).Success?
    ensures r.Success? ==> schema(ParseEnvelope(resp.body.value).value.data) == Success(r.value)
    ensures r != Failure(FetchFailed)
  {
    if !resp.ok then Failure(HttpError(resp.status))
    else match resp.body
      case None => Failure(BodyNotJson)
      case Some(j) =>
        match ParseEnvelope(j)
        case Failure(issues) => Failure(EnvelopeInvalid(issues))
        case Success(envelope) =>
          if envelope.code != 200 then Failure(ApplicationError(AppMessage(envelope.message)))
          else match schema(envelope.data)
            case Failure(issues) => Failure(SchemaInvalid(issues))
            case Success(v) => Success(v)
  }

  /** A non-ok reply fails the same way whatever its body holds. */
  lemma NonOkIgnoresBody<T>(status: nat, body1: Option<Json>, body2: Option<Json>, schema: Schema<T>)
    ensures HandleResponse(Response(false, status, body1), schema) == HandleResponse(Response(false, status, body2), schema)
    ensures HandleResponse(Response(false, status, body1), schema).Failure?
  {
  }

  /** A well-formed success reply yields exactly what the schema makes of its payload. */
  lemma SuccessEnvelopeYieldsPayload<T>(status: nat, message: Option<string>, data: Option<Json>, schema: Schema<T>)
    ensures var r := HandleResponse(Response(true, status, Some(EnvelopeToJson(Envelope(200, message, data)))), schema);
            match schema(data)
            case Success(v) => r == Success(v)
            case Failure(issues) => r == Failure(SchemaInvalid(issues))
  {
    EnvelopeRoundTrip(Envelope(200, message, data));
  }

  /** A well-formed reply with any other code fails with its message, whatever the payload. */
  lemma ErrorEnvelopeFails<T>(status: nat, code: int, message: Option<string>, data: Option<Json>, schema: Schema<T>)
    requires code != 200
    ensures HandleResponse(Response(true, status, Some(EnvelopeToJson(Envelope(code, message, data)))), schema)
            == Failure(ApplicationError(AppMessage(message)))
  {
    EnvelopeRoundTrip(Envelope(code, message, data));
  }

  /** `request(endpoint, schema, config)`: one call to the network at the base URL
      plus the endpoint, then the checks of HandleResponse. */
  function Request<T>(env: Env, endpoint: string, schema: Schema<T>, config: Option<RequestConfig>): (r: Result<T, RequestError>)
    ensures env.fetch(Url(env, endpoint), FetchInitFor(config)).Rejected? <==> r == Failure(FetchFailed)
    ensures env.fetch(Url(env, endpoint), FetchInitFor(config)).Responded? ==>
              r == HandleResponse(env.fetch(Url(env, endpoint), FetchInitFor(config)).response, schema)
  {
    match env.fetch(Url(env, endpoint), FetchInitFor(config))
    case Rejected => Failure(FetchFailed)
    case Responded(resp) => HandleResponse(resp, schema)
  }

  /** `request` with the request init as written (see FetchInitAsWritten). */
  function RequestAsWritten<T>(env: Env, endpoint: string, schema: Schema<T>, config: Option<RequestConfig>): (r: Result<T, RequestError>)
    ensures env.fetch(Url(env, endpoint), FetchInitAsWritten(config)).Rejected? <==> r == Failure(FetchFailed)
    ensures env.fetch(Url(env, endpoint), FetchInitAsWritten(config)).Responded? ==>
              r == HandleResponse(env.fetch(Url(env, endpoint), FetchInitAsWritten(config)).response, schema)
  {
    match env.fetch(Url(env, endpoint), FetchInitAsWritten(config))
    case Rejected => Failure(FetchFailed)
    case Responded(resp) => HandleResponse(resp, schema)
  }

  /** A request whose config has no `headers` of its own behaves the same as
      written and as corrected. */
  lemma RequestAgreesWithoutCallerHeaders<T>(env: Env, endpoint: string, schema: Schema<T>, config: Option<RequestConfig>)
    requires config.None? || config.value.headers.None?
    ensures RequestAsWritten(env, endpoint, schema, config) == Request(env, endpoint, schema, config)
  {
    AsWrittenAgreesWithoutCallerHeaders(config);
  }

  /** The text of the error raised for a non-ok status. */
  function HttpErrorMessage(status: nat): string {
    HttpFailurePrefix + NatToDecimal(status)
  }

  /** The status can be read back from the error text, which starts with the fixed prefix. */
  lemma HttpErrorMessageNamesStatus(status: nat)
    ensures |HttpErrorMessage(status)| > |HttpFailurePrefix|
    ensures HttpErrorMessage(status)[..|HttpFailurePrefix|] == HttpFailurePrefix
    ensures var digits := HttpErrorMessage(status)[|HttpFailurePrefix|..];
            (forall i :: 0 <= i < |digits| ==> IsDigit(digits[i])) && DecimalToNat(digits) == status
  {
    var digits := HttpErrorMessage(status)[|HttpFailurePrefix|..];
    assert digits == NatToDecimal(status);
    DecimalRoundTrip(status);
  }
}
