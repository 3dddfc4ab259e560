/** The authenticated HTTP helper (src/api/axiosHelper.js): the request
    interceptor that adds the bearer token and the JSON content type, the
    identity response interceptor, the four helpers that return the response
    payload, and the central error handler that flags an expired session and
    always rethrows. The axios transport itself is not modelled: what it
    delivers enters as a `Transport` value. */
module Http {
  import opened Js
  import opened Browser

  datatype Verb = Get | Post | Put | Delete

  /** A query-string value as the client appends it: a string or a number. */
  datatype ParamValue = Text(text: string) | Number(number: int)

  /** One `key=value` pair of a query string (percent-encoding is not modelled). */
  datatype QueryParam = QueryParam(key: string, value: ParamValue)

  /** One `append(name, value)` of a FormData. */
  datatype FormEntry = TextEntry(name: string, text: string) | FileEntry(name: string, file: File)

  /** The `data` of a request: absent, a plain object sent as JSON, or a FormData. */
  datatype Body = NoBody | Json(fields: seq<(string, string)>) | FormData(entries: seq<FormEntry>)

  /** A request the client issues: the path, the query string after a `?`
      when the endpoint has one, and the data. */
  datatype Request = Request(verb: Verb, path: string, query: Option<seq<QueryParam>>, body: Body)

  /** What the client reads from a rejected axios call:
      `error.response.data.code`, `error.response.data.message` and
      `error.message`; a missing part is `None` or `""`. */
  datatype HttpError = HttpError(code: Option<int>, dataMessage: string, message: string)

  /** What the transport produced for one request. */
  datatype Transport<+T> = Delivered(data: T) | Failed(error: HttpError)

  /** What an awaited helper call gives the component: the payload, or the
      (rethrown) error. */
  datatype Outcome<+T> = Resolved(data: T) | Rejected(error: HttpError)

  /** The error `handleError` rethrows and whether it raised the
      session-expired signal on the way. */
  datatype Raised = Raised(error: HttpError, sessionExpired: bool)

  /** A settled helper call and whether the session-expired signal was raised. */
  datatype Settled<+T> = Settled(outcome: Outcome<T>, sessionExpired: bool)

  /** The payload of a call answered with only an outcome: its `success`,
      `status` and `message` (absent ones are `false`, `None` and `""`). */
  datatype Reply = Reply(success: bool, status: Option<int>, message: string)

  /** The acceptance test most handlers apply: `res.success || res.status === 200`.
      A reply with `success` is always accepted; one without is accepted
      exactly when its status is 200. */
  function Accepted(res: Reply): (b: bool)
    ensures res.success ==> b
    ensures !res.success ==> (b <==> res.status == Some(200))
  {
    res.success || res.status == Some(200)
  }

  const LoginPath := "/login"
  const SessionExpiredCode := 419

  function GetRequest(endPoint: string, query: Option<seq<QueryParam>>): Request {
    Request(Get, endPoint, query, NoBody)
  }

  function PostRequest(endPoint: string, body: Body): Request {
    Request(Post, endPoint, None, body)
  }

  /** `AxiosPut(endPoint, body)`: the helper has no parameter for extra request
      options, so nothing but the path and the body reaches the transport. */
  function PutRequest(endPoint: string, body: Body): Request {
    Request(Put, endPoint, None, body)
  }

  function DeleteRequest(endPoint: string, query: Option<seq<QueryParam>>): Request {
    Request(Delete, endPoint, query, NoBody)
  }

  /** The decimal digits of a natural number. */
  function NatText(n: nat): (r: string)
    ensures |r| >= 1
    ensures forall k :: 0 <= k < |r| ==> '0' <= r[k] <= '9'
  {
    var d := ['0' + (n % 10) as char];
    if n < 10 then d else NatText(n / 10) + d
  }

  /** A query value as text: a string as it is, a number in decimal. */
  function ParamText(v: ParamValue): string {
    match v
    case Text(s) => s
    case Number(n) => if n < 0 then "-" + NatText(-n) else NatText(n)
  }

  /** The pairs of a query string, `key=value`, joined by `&`. */
  function QueryText(query: seq<QueryParam>): string {
    if query == [] then ""
    else
      var pair := query[0].key + "=" + ParamText(query[0].value);
      if |query| == 1 then pair else pair + "&" + QueryText(query[1..])
  }

  /** The `endPoint` text a helper is called with and passes to `handleError`:
      the path, then `?` and the query string when the request has one. The
      path is a prefix of it, so whatever occurs in the path occurs in it, and
      a one-pair query ends it with `key=value`. */
  function EndPoint(r: Request): (s: string)
    ensures |r.path| <= |s| && s[..|r.path|] == r.path
    ensures r.query.None? ==> s == r.path
    ensures r.query.Some? ==> s[|r.path|..] == "?" + QueryText(r.query.value)
    ensures r.query.Some? && |r.query.value| == 1 ==>
              s == r.path + "?" + r.query.value[0].key + "=" + ParamText(r.query.value[0].value)
  {
    match r.query
    case None => r.path
    case Some(q) => r.path + "?" + QueryText(q)
  }

  /** The request interceptor's header decisions. The `Authorization` header
      is set to the bearer token when the stored token is truthy and is left as
      it was otherwise; `Content-Type` is set to JSON when the request carries
      data that is not a FormData and is left as it was otherwise; no other
      header is touched. */
  function PrepareHeaders(headers: map<string, string>, token: Option<string>, body: Body): (r: map<string, string>)
    ensures TruthyOpt(token) ==> "Authorization" in r && r["Authorization"] == "Bearer " + token.value
    ensures !TruthyOpt(token) ==> ("Authorization" in r <==> "Authorization" in headers)
    ensures !TruthyOpt(token) && "Authorization" in headers ==> r["Authorization"] == headers["Authorization"]
    ensures body.Json? ==> "Content-Type" in r && r["Content-Type"] == "application/json"
    ensures !body.Json? ==> ("Content-Type" in r <==> "Content-Type" in headers)
    ensures !body.Json? && "Content-Type" in headers ==> r["Content-Type"] == headers["Content-Type"]
    ensures forall k :: k != "Authorization" && k != "Content-Type" ==>
              (k in r <==> k in headers) && (k in headers ==> r[k] == headers[k])
  {
    var withAuth := if TruthyOpt(token) then headers["Authorization" := "Bearer " + token.value] else headers;
    if body.Json? then withAuth["Content-Type" := "application/json"] else withAuth
  }

  /** The `config` object the request interceptor receives and mutates. */
  class RequestConfig {
    var headers: map<string, string>
    const request: Request

    constructor (request: Request)
      ensures this.request == request && headers == map[]
    {
      this.request := request;
      headers := map[];
    }

    /** The request interceptor: reads the stored token and updates
        `config.headers` in place. */
    method Intercept(storage: LocalStorage)
      modifies this
      ensures headers == PrepareHeaders(old(headers), storage.GetItem("token"), request.body)
    {
      var token := storage.GetItem("token");
      if TruthyOpt(token) {
        headers := headers["Authorization" := "Bearer " + token.value];
      }
      if request.body.Json? {
        headers := headers["Content-Type" := "application/json"];
      }
    }
  }

  /** `handleError(error, path)`: the error is always rethrown unchanged, and
      the session-expired signal is raised exactly when the server's code is
      419 and the path does not contain `/login`. */
  function HandleError(error: HttpError, path: string): (r: Raised)
    ensures r.error == error
    ensures r.sessionExpired <==> error.code == Some(SessionExpiredCode) && !exists i :: OccursAt(path, LoginPath, i)
  {
    ContainsIffOccurs(path, LoginPath);
    Raised(error, !Contains(path, LoginPath) && error.code == Some(SessionExpiredCode))
  }

  /** The response interceptor: successes pass through, errors are rejected
      unchanged (its debug logging is not modelled). */
  function InterceptResponse<T>(t: Transport<T>): (r: Transport<T>)
    ensures r == t
  {
    match t
    case Delivered(data) => Delivered(data)
    case Failed(e) => Failed(e)
  }

  /** `AxiosGet`, `AxiosPost`, `AxiosPut` and `AxiosDelete` after the transport
      answered for `endPoint`: a delivered response yields its payload
      unchanged and raises no signal; a failure goes through `handleError` and
      reaches the caller as the same error. */
  function Settle<T>(endPoint: string, t: Transport<T>): (r: Settled<T>)
    ensures t.Delivered? ==> r == Settled(Resolved(t.data), false)
    ensures t.Failed? ==> r.outcome == Rejected(t.error)
    ensures t.Failed? ==> r.sessionExpired == HandleError(t.error, endPoint).sessionExpired
  {
    match InterceptResponse(t)
    case Delivered(data) => Settled(Resolved(data), false)
    case Failed(e) =>
      var raised := HandleError(e, endPoint);
      Settled(Rejected(raised.error), raised.sessionExpired)
  }

  /** The message a component shows for a rejected call:
      `error.response.data.message || error.message || fallback`. */
  function ErrorMessage(e: HttpError, fallback: string): (m: string)
    ensures Truthy(e.dataMessage) ==> m == e.dataMessage
    ensures !Truthy(e.dataMessage) && Truthy(e.message) ==> m == e.message
    ensures !Truthy(e.dataMessage) && !Truthy(e.message) ==> m == fallback
    ensures Truthy(fallback) ==> Truthy(m)
  {
    Or(Or(e.dataMessage, e.message), fallback)
  }

  /** A rejection on the login path never raises the session-expired signal,
      whatever the code. */
  lemma LoginPathNeverSignals(e: HttpError, rest: string)
    ensures !Settle<int>(LoginPath + rest, Failed(e)).sessionExpired
  {
    assert OccursAt(LoginPath + rest, LoginPath, 0);
  }

  /** A `/login` anywhere in a request's endpoint text, even inside a value
      the client splices into it, suppresses the session-expired signal. */
  lemma LoginInEndPointNeverSignals<T>(before: string, value: string, after: string, e: HttpError)
    requires Contains(value, LoginPath)
    ensures !Settle<T>(before + value + after, Failed(e)).sessionExpired
  {
    ContainsIffOccurs(value, LoginPath);
    var i :| OccursAt(value, LoginPath, i);
    OccursInConcat(before, value, after, LoginPath, i);
  }
}
