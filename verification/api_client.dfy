/** The per-session upstream client built by `createApiClient`: what one
    `apiRequest(method, path, body)` hands to `fetch`, and how the upstream
    answer becomes a value or an error. */
module ApiClient {
  import opened Options
  import opened Json
  import Decimal
  import Credentials

  const ApiPrefix: string := "/api/v1"
  /** Used when PUBLORA_API_URL is unset or empty. */
  const DefaultBaseUrl: string := "https://api.publora.com"
  const ContentTypeHeader: string := "Content-Type"
  const JsonContentType: string := "application/json"
  const StatusMessagePrefix: string := "API error: "

  /** A client is bound to one API key for its whole life. */
  datatype Client = Client(apiKey: string)

  /** The arguments of one `apiRequest(method, path, body)` call. */
  datatype Call = Call(httpMethod: string, path: string, body: Option<Json>)

  /** What is handed to `fetch`: the body is kept as a JSON value (its
      serialisation is not modelled). */
  datatype Outbound = Outbound(httpMethod: string, url: string, headers: map<string, string>, body: Option<Json>)

  /** The upstream's status code and parsed JSON body. */
  datatype Response = Response(status: int, data: Json)

  datatype UpstreamError =
    | ApiError(message: string)
      /** `data.error` read on a `null` body throws a TypeError. */
    | NullDataRead

  /** The URL string handed to `fetch`: base, then the version prefix, then
      the path. */
  function Url(base: string, path: string): (u: string)
    ensures |u| == |base| + |ApiPrefix| + |path|
    ensures u[..|base|] == base
    ensures u[|base|..|base| + |ApiPrefix|] == ApiPrefix
    ensures u[|base| + |ApiPrefix|..] == path
  {
    base + ApiPrefix + path
  }

  /** Under one base URL, distinct paths reach distinct URLs. */
  lemma UrlInjective(base: string, p: string, q: string)
    requires Url(base, p) == Url(base, q)
    ensures p == q
  {
    assert p == Url(base, p)[|base| + |ApiPrefix|..];
  }

  /** The request `apiRequest` sends: the caller's method, the versioned URL,
      the client's key and the JSON content type, and the body only when the
      body argument is truthy. */
  function Prepare(c: Client, base: string, call: Call): (o: Outbound)
    ensures o.httpMethod == call.httpMethod
    ensures o.url == Url(base, call.path)
    ensures Credentials.KeyHeader in o.headers && o.headers[Credentials.KeyHeader] == c.apiKey
    ensures ContentTypeHeader in o.headers && o.headers[ContentTypeHeader] == JsonContentType
    ensures o.headers.Keys == {Credentials.KeyHeader, ContentTypeHeader}
    ensures o.body.Some? <==> Given(call.body)
    ensures o.body.Some? ==> o.body == call.body
  {
    var headers := map[Credentials.KeyHeader := c.apiKey, ContentTypeHeader := JsonContentType];
    Outbound(call.httpMethod, Url(base, call.path), headers, if Given(call.body) then call.body else None)
  }

  /** `response.ok`: a status in the range 200-299. */
  predicate IsOk(status: int) {
    200 <= status <= 299
  }

  /** The fallback message that names the status code. */
  function StatusMessage(status: int): (m: string)
    ensures |m| > |StatusMessagePrefix| && m[..|StatusMessagePrefix|] == StatusMessagePrefix
    ensures Decimal.ParseInt(m[|StatusMessagePrefix|..]) == Some(status)
  {
    var m := StatusMessagePrefix + Decimal.IntToString(status);
    assert m[|StatusMessagePrefix|..] == Decimal.IntToString(status);
    Decimal.IntToStringRoundTrip(status);
    m
  }

  /** The error thrown for a failed call: `new Error(data.error || "API error: <status>")`. */
  function ErrorOf(status: int, data: Json): (e: UpstreamError)
    ensures e.NullDataRead? <==> data.JNull?
    ensures !data.JNull? && !Given(Property(data, "error")) ==> e == ApiError(StatusMessage(status))
    ensures !data.JNull? && Given(Property(data, "error")) ==> e == ApiError(ToJsString(Property(data, "error").value))
  {
    if data.JNull? then NullDataRead
    else
      var reported := Property(data, "error");
      if Given(reported) then ApiError(ToJsString(reported.value)) else ApiError(StatusMessage(status))
  }

  /** The outcome of `apiRequest` once the upstream has answered. */
  function Complete(r: Response): (res: Result<Json, UpstreamError>)
    ensures res.Success? <==> IsOk(r.status)
    ensures res.Success? ==> res.value == r.data
    ensures res.Failure? ==> res.error == ErrorOf(r.status, r.data)
  {
    if IsOk(r.status) then Success(r.data) else Failure(ErrorOf(r.status, r.data))
  }

  /** A failed call whose body reports a non-empty `error` string surfaces
      exactly that string. */
  lemma ReportedMessageWins(status: int, fields: seq<Field>, message: string)
    requires !IsOk(status) && message != ""
    requires Lookup(fields, "error") == Some(JStr(message))
    ensures Complete(Response(status, JObj(fields))) == Failure(ApiError(message))
  {
  }

  /** A failed call whose body has no usable `error` member surfaces a
      message from which the status code can be read back. */
  lemma FallbackNamesStatus(status: int, data: Json)
    requires !IsOk(status) && !data.JNull? && !Given(Property(data, "error"))
    ensures Complete(Response(status, data)).Failure?
    ensures var e := Complete(Response(status, data)).error;
            e.ApiError? && e.message[..|StatusMessagePrefix|] == StatusMessagePrefix &&
            Decimal.ParseInt(e.message[|StatusMessagePrefix|..]) == Some(status)
  {
  }
}
