/**
 * The HTTP client core of pkg/api: it builds one JSON request against the
 * configured base URL and turns the server's answer into an envelope or a
 * classified error. The network itself is a parameter: `transport` gives the
 * exchange that a request produces.
 */
module Api {
  import opened Wrappers
  import opened JsonValue

  /** The two settings the client reads: the bearer token and the base URL. */
  datatype Config = Config(token: string, baseURL: string)

  datatype Verb = GET | POST | PUT | DELETE

  /** The request handed to the transport. */
  datatype HttpRequest = HttpRequest(
    verb: Verb,
    url: string,
    body: Option<Json>,
    headers: map<string, string>)

  /**
   * The envelope every endpoint answers with. `data` is kept as raw JSON;
   * None stands for a body without a "data" member (an empty RawMessage).
   */
  datatype Response = Response(success: bool, message: string, data: Option<Json>)

  /**
   * What came back for one request: no answer at all (connection failure,
   * timeout, unreadable body), or a status code with the body decoded as an
   * envelope, None when it does not decode.
   */
  datatype Exchange =
    | TransportFailure
    | Received(status: int, envelope: Option<Response>)

  datatype ApiError =
    | BuildFailed           // http.NewRequest rejected the URL; nothing was sent
    | RequestFailed         // the transport could not complete the exchange
    | Unauthorized          // HTTP 401
    | RateLimited           // HTTP 429
    | MalformedResponse     // the body is not an envelope
    | ApiFailure(message: string)  // an envelope with success = false
    | DataError             // ParseData could not decode the payload

  const ApiErrorPrefix := "API error: "

  /** The text each error carries (wrapped Go error details are not modelled). */
  function ErrorText(e: ApiError): (t: string)
    ensures e.ApiFailure? ==> |t| == |ApiErrorPrefix| + |e.message| && t[..|ApiErrorPrefix|] == ApiErrorPrefix
    ensures e.ApiFailure? ==> t[|ApiErrorPrefix|..] == e.message
  {
    match e
    case BuildFailed => "error creating request"
    case RequestFailed => "error making request"
    case Unauthorized => "unauthorized: please login again using 'mizban login'"
    case RateLimited => "rate limited: please wait and try again"
    case MalformedResponse => "error parsing response"
    case ApiFailure(m) => ApiErrorPrefix + m
    case DataError => "error parsing data"
  }

  const ContentType := "Content-Type"
  const Accept := "Accept"
  const Authorization := "Authorization"
  const ApplicationJson := "application/json"

  /**
   * What every request the client hands to the transport looks like: the
   * URL is the base URL followed by the endpoint, the body goes along only
   * when one is given, both JSON headers are always set and the bearer
   * header only with a token.
   */
  predicate WellFormed(req: HttpRequest, c: Config, verb: Verb, endpoint: string, body: Option<Json>)
  {
    && req.verb == verb
    && req.url == c.baseURL + endpoint
    && req.body == body
    && req.headers.Keys == {ContentType, Accept} + (if c.token != "" then {Authorization} else {})
    && req.headers[ContentType] == ApplicationJson
    && req.headers[Accept] == ApplicationJson
    && (Authorization in req.headers <==> c.token != "")
    && (Authorization in req.headers ==> req.headers[Authorization] == "Bearer " + c.token)
  }

  /**
   * The request-building half of `request`. `urlValid` stands for whether
   * `http.NewRequest` accepts the URL (it rejects, for instance, a bad
   * percent-escape or a control character); a rejected URL is the build
   * error and no request exists. Otherwise the headers are set one by one.
   */
  method NewRequest(c: Config, verb: Verb, endpoint: string, body: Option<Json>, urlValid: string -> bool)
    returns (r: Result<HttpRequest, ApiError>)
    ensures r.Failure? <==> !urlValid(c.baseURL + endpoint)
    ensures r.Failure? ==> r.error == BuildFailed
    ensures r.Success? ==> WellFormed(r.value, c, verb, endpoint, body)
  {
    var url := c.baseURL + endpoint;
    if !urlValid(url) {
      return Failure(BuildFailed);
    }
    var headers: map<string, string> := map[];
    headers := headers[ContentType := ApplicationJson];
    headers := headers[Accept := ApplicationJson];
    if c.token != "" {
      headers := headers[Authorization := "Bearer " + c.token];
    }
    r := Success(HttpRequest(verb, url, body, headers));
  }

  /**
   * The response half of `request`. 401 and 429 are decided on the status
   * alone, before the body is looked at; any other status is not inspected:
   * the body must be an envelope, and one with success = false becomes an
   * error carrying its message.
   */
  function Classify(x: Exchange): (r: Result<Response, ApiError>)
    ensures x.TransportFailure? ==> r == Failure(RequestFailed)
    ensures x.Received? && x.status == 401 ==> r == Failure(Unauthorized)
    ensures x.Received? && x.status == 429 ==> r == Failure(RateLimited)
    ensures x.Received? && x.status != 401 && x.status != 429 ==>
      (x.envelope.None? ==> r == Failure(MalformedResponse)) &&
      (x.envelope.Some? && !x.envelope.value.success ==> r == Failure(ApiFailure(x.envelope.value.message))) &&
      (x.envelope.Some? && x.envelope.value.success ==> r == Success(x.envelope.value))
    ensures r.Success? ==> x.Received? && x.envelope == Some(r.value) && r.value.success
  {
    match x
    case TransportFailure => Failure(RequestFailed)
    case Received(status, envelope) =>
      if status == 401 then Failure(Unauthorized)
      else if status == 429 then Failure(RateLimited)
      else match envelope
        case None => Failure(MalformedResponse)
        case Some(resp) =>
          if !resp.success then Failure(ApiFailure(resp.message)) else Success(resp)
  }

  /**
   * `request`: build the request; when that fails nothing is sent and the
   * build error is returned; otherwise the request, shaped as WellFormed
   * states, goes to the transport and the answer is classified.
   */
  method Request(c: Config, verb: Verb, endpoint: string, body: Option<Json>,
                 urlValid: string -> bool, transport: HttpRequest -> Exchange)
    returns (sent: Option<HttpRequest>, r: Result<Response, ApiError>)
    ensures sent.None? <==> !urlValid(c.baseURL + endpoint)
    ensures sent.None? ==> r == Failure(BuildFailed)
    ensures sent.Some? ==> WellFormed(sent.value, c, verb, endpoint, body) && r == Classify(transport(sent.value))
  {
    var built := NewRequest(c, verb, endpoint, body, urlValid);
    if built.Failure? {
      return None, Failure(built.error);
    }
    sent := Some(built.value);
    r := Classify(transport(built.value));
  }

  /** `Get`: a GET without a body. */
  method Get(c: Config, endpoint: string, urlValid: string -> bool, transport: HttpRequest -> Exchange)
    returns (sent: Option<HttpRequest>, r: Result<Response, ApiError>)
    ensures sent.None? <==> !urlValid(c.baseURL + endpoint)
    ensures sent.None? ==> r == Failure(BuildFailed)
    ensures sent.Some? ==> WellFormed(sent.value, c, GET, endpoint, None) && r == Classify(transport(sent.value))
  {
    sent, r := Request(c, GET, endpoint, None, urlValid, transport);
  }

  /** `Post`: a POST carrying the body it is given (none when given none). */
  method Post(c: Config, endpoint: string, body: Option<Json>, urlValid: string -> bool, transport: HttpRequest -> Exchange)
    returns (sent: Option<HttpRequest>, r: Result<Response, ApiError>)
    ensures sent.None? <==> !urlValid(c.baseURL + endpoint)
    ensures sent.None? ==> r == Failure(BuildFailed)
    ensures sent.Some? ==> WellFormed(sent.value, c, POST, endpoint, body) && r == Classify(transport(sent.value))
  {
    sent, r := Request(c, POST, endpoint, body, urlValid, transport);
  }

  /** `Put`: a PUT carrying the body it is given. */
  method Put(c: Config, endpoint: string, body: Option<Json>, urlValid: string -> bool, transport: HttpRequest -> Exchange)
    returns (sent: Option<HttpRequest>, r: Result<Response, ApiError>)
    ensures sent.None? <==> !urlValid(c.baseURL + endpoint)
    ensures sent.None? ==> r == Failure(BuildFailed)
    ensures sent.Some? ==> WellFormed(sent.value, c, PUT, endpoint, body) && r == Classify(transport(sent.value))
  {
    sent, r := Request(c, PUT, endpoint, body, urlValid, transport);
  }

  /** `Delete`: a DELETE without a body. */
  method Delete(c: Config, endpoint: string, urlValid: string -> bool, transport: HttpRequest -> Exchange)
    returns (sent: Option<HttpRequest>, r: Result<Response, ApiError>)
    ensures sent.None? <==> !urlValid(c.baseURL + endpoint)
    ensures sent.None? ==> r == Failure(BuildFailed)
    ensures sent.Some? ==> WellFormed(sent.value, c, DELETE, endpoint, None) && r == Classify(transport(sent.value))
  {
    sent, r := Request(c, DELETE, endpoint, None, urlValid, transport);
  }

  /**
   * `ParseData`: decode the envelope's payload with the caller's decoder.
   * A missing payload and a payload of the wrong shape are both errors.
   */
  function ParseData<T>(resp: Response, decode: Json -> Option<T>): (r: Result<T, ApiError>)
    ensures r.Success? <==> resp.data.Some? && decode(resp.data.value).Some?
    ensures r.Success? ==> r.value == decode(resp.data.value).value
    ensures r.Failure? ==> r.error == DataError
  {
    match resp.data
    case None => Failure(DataError)
    case Some(d) =>
      match decode(d)
      case None => Failure(DataError)
      case Some(v) => Success(v)
  }

  /**
   * An exchange with status 401 or 429 fails the same way whatever body came
   * with it, a success envelope included.
   */
  lemma StatusBeforeBody(status: int, e1: Option<Response>, e2: Option<Response>)
    requires status == 401 || status == 429
    ensures Classify(Received(status, e1)) == Classify(Received(status, e2))
    ensures Classify(Received(status, e1)).Failure?
  {
  }

  /**
   * For every status other than 401 and 429 the status does not matter:
   * 200, 404 and 500 with the same body are classified alike.
   */
  lemma OtherStatusesNotInspected(s1: int, s2: int, e: Option<Response>)
    requires s1 != 401 && s1 != 429 && s2 != 401 && s2 != 429
    ensures Classify(Received(s1, e)) == Classify(Received(s2, e))
  {
  }
}
