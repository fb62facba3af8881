/**
 * The profile-aware client's `APIService`: one `request` routine that builds
 * the `fetch` call from a base URL, an endpoint and caller options, and maps
 * the reply to the data or to a thrown `{error, message, status}` record;
 * and the endpoint methods built on it.
 */
module ApiService {
  import opened Wrappers
  import opened Json
  import opened Http

  const RequestFailed := "Request failed"
  const NetworkError := "Network error"
  const UnableToConnect := "Unable to connect to the server. Please check your connection."

  /** The part of `RequestInit` the endpoints use; a missing method is `fetch`'s default `GET`. */
  datatype RequestOptions = RequestOptions(verb: Option<string>, headers: map<string, string>, body: Option<string>)

  /**
   * What `request` throws: the `APIError` record it builds (`status` only for
   * an error reply), or the `SyntaxError` of a reply body that is not JSON,
   * which it rethrows unchanged.
   */
  datatype ServiceError = ApiFailure(error: string, message: string, status: Option<int>) | SyntaxFailure

  /** The error thrown when `fetch` rejects with a `TypeError`. */
  const Disconnected: ServiceError := ApiFailure(NetworkError, UnableToConnect, None)

  /** The default JSON content type with the caller's headers laid over it: the caller's headers win. */
  function MergeHeaders(caller: map<string, string>): (h: map<string, string>)
    ensures h.Keys == caller.Keys + {ContentTypeHeader}
    ensures forall k :: k in caller ==> h[k] == caller[k]
    ensures ContentTypeHeader !in caller ==> h[ContentTypeHeader] == JsonContentType
  {
    map[ContentTypeHeader := JsonContentType] + caller
  }

  /** The record thrown for an error reply whose JSON data is `data`. */
  function FailureOf(resp: Response, data: Json): ServiceError {
    ApiFailure(StringOr(Get(data, "error"), RequestFailed), StringOr(Get(data, "message"), resp.statusText), Some(resp.status))
  }

  /**
   * How `request` maps a reply, as written.  A 204 gives `{}` before `ok` is
   * looked at; the body is then read as JSON.  For an error reply whose data
   * is `null`, reading `data.error` throws a `TypeError`, which the `catch`
   * meant for the transport turns into the network error.
   */
  function OutcomeAsWritten(reply: Reply): Result<Json, ServiceError> {
    match reply
    case Unreachable(_) => Err(Disconnected)
    case Received(resp) =>
      if resp.status == NoContent then Ok(EmptyObject)
      else if resp.body.None? then Err(SyntaxFailure)
      else if !resp.ok then
        if resp.body.value == JNull then Err(Disconnected) else Err(FailureOf(resp, resp.body.value))
      else Ok(resp.body.value)
  }

  /**
   * The mapping as intended: an error reply whose data is `null` is reported
   * like one with no `error` or `message` member, with its status.
   */
  function Outcome(reply: Reply): Result<Json, ServiceError> {
    match reply
    case Unreachable(_) => Err(Disconnected)
    case Received(resp) =>
      if resp.status == NoContent then Ok(EmptyObject)
      else if resp.body.None? then Err(SyntaxFailure)
      else if !resp.ok then
        Err(FailureOf(resp, if resp.body.value == JNull then EmptyObject else resp.body.value))
      else Ok(resp.body.value)
  }

  /** The two mappings differ only on an error reply (other than 204) whose JSON data is `null`. */
  lemma OutcomeAsWrittenDiffersOnlyOnNullData(reply: Reply)
    ensures OutcomeAsWritten(reply) != Outcome(reply) <==>
      reply.Received? && reply.response.status != NoContent && !reply.response.ok && reply.response.body == Some(JNull)
  {
  }

  /** A concrete reply the code misreports: a 500 with the JSON body `null` comes out as a network error. */
  lemma NullErrorDataReportedAsNetworkError()
    ensures OutcomeAsWritten(Received(Response(false, 500, "Internal Server Error", Some(JNull)))) == Err(Disconnected)
    ensures Outcome(Received(Response(false, 500, "Internal Server Error", Some(JNull)))) ==
      Err(ApiFailure(RequestFailed, "Internal Server Error", Some(500)))
  {
  }

  /**
   * As intended, an error without a status is reported exactly when no reply
   * arrived, and every error reply with a JSON body is reported with its own
   * status.
   */
  lemma StatusMissingOnlyWhenUnreachable(reply: Reply)
    ensures (Outcome(reply).Err? && Outcome(reply).error.ApiFailure? && Outcome(reply).error.status.None?) <==>
      reply.Unreachable?
    ensures reply.Received? && !reply.response.ok && reply.response.status != NoContent && reply.response.body.Some? ==>
      Outcome(reply).Err? && Outcome(reply).error.ApiFailure? && Outcome(reply).error.status == Some(reply.response.status)
  {
  }

  /** The `Authorization` header of an authenticated endpoint. */
  function AuthHeaders(token: string): (h: map<string, string>)
    ensures h.Keys == {AuthorizationHeader}
    ensures BearerToken(h[AuthorizationHeader]) == Some(token)
  {
    BearerRoundTrip(token);
    map[AuthorizationHeader := BearerCredentials(token)]
  }

  /** One endpoint method of the service, with its arguments (`data` is the JSON value it sends). */
  datatype ServiceCall =
    | Signup(data: Json)
    | Login(data: Json)
    | Logout(refreshToken: string)
    | RefreshToken(data: Json)
    | GetAllProfiles(token: string)
    | GetProfile(profileId: string, token: string)
    | CreateProfile(data: Json, token: string)
    | UpdateProfile(profileId: string, data: Json, token: string)
    | DeleteProfile(profileId: string, token: string)

  function LogoutBody(refreshToken: string): Json {
    JObj([Member("refresh_token", JStr(refreshToken))])
  }

  /** The endpoint path and options each endpoint method passes to `request`. */
  function Endpoint(call: ServiceCall): (string, RequestOptions) {
    match call
    case Signup(data) => ("/user", RequestOptions(Some("POST"), map[], Some(Serialize(data))))
    case Login(data) => ("/login", RequestOptions(Some("POST"), map[], Some(Serialize(data))))
    case Logout(refreshToken) => ("/logout", RequestOptions(Some("DELETE"), map[], Some(Serialize(LogoutBody(refreshToken)))))
    case RefreshToken(data) => ("/refresh", RequestOptions(Some("POST"), map[], Some(Serialize(data))))
    case GetAllProfiles(token) => ("/profiles", RequestOptions(Some("GET"), AuthHeaders(token), None))
    case GetProfile(id, token) => ("/profiles/" + id, RequestOptions(Some("GET"), AuthHeaders(token), None))
    case CreateProfile(data, token) => ("/profiles", RequestOptions(Some("POST"), AuthHeaders(token), Some(Serialize(data))))
    case UpdateProfile(id, data, token) =>
      ("/profiles/" + id, RequestOptions(Some("PUT"), AuthHeaders(token), Some(Serialize(data))))
    case DeleteProfile(id, token) => ("/profiles/" + id, RequestOptions(Some("DELETE"), AuthHeaders(token), None))
  }

  /** The `fetch` call `request` makes: `baseURL + endpoint`, the caller's options and the merged headers. */
  function RequestFor(baseUrl: string, endpoint: string, options: RequestOptions): (req: HttpRequest)
    ensures req.url == baseUrl + endpoint && req.body == options.body
    ensures req.headers == MergeHeaders(options.headers)
  {
    HttpRequest(options.verb.GetOr("GET"), baseUrl + endpoint, MergeHeaders(options.headers), options.body)
  }

  /**
   * The server's reading of a request as one of the endpoint calls; the
   * independent partner of `Endpoint` and `RequestFor`.
   */
  function DecodeServiceRequest(baseUrl: string, req: HttpRequest): Option<ServiceCall> {
    match StripPrefix(req.url, baseUrl)
    case None => None
    case Some(path) =>
      var data := if req.body.Some? then Parse(req.body.value) else None;
      var token := if AuthorizationHeader in req.headers then BearerToken(req.headers[AuthorizationHeader]) else None;
      var id := StripPrefix(path, "/profiles/");
      if req.verb == "POST" && token.None? && data.Some? && path == "/user" then Some(Signup(data.value))
      else if req.verb == "POST" && token.None? && data.Some? && path == "/login" then Some(Login(data.value))
      else if req.verb == "POST" && token.None? && data.Some? && path == "/refresh" then Some(RefreshToken(data.value))
      else if req.verb == "DELETE" && token.None? && data.Some? && path == "/logout" then
        match GetString(data.value, "refresh_token")
        case Some(t) => Some(Logout(t))
        case None => None
      else if token.None? then None
      else if req.verb == "GET" && path == "/profiles" && req.body.None? then Some(GetAllProfiles(token.value))
      else if req.verb == "POST" && path == "/profiles" && data.Some? then Some(CreateProfile(data.value, token.value))
      else if id.None? then None
      else if req.verb == "GET" && req.body.None? then Some(GetProfile(id.value, token.value))
      else if req.verb == "PUT" && data.Some? then Some(UpdateProfile(id.value, data.value, token.value))
      else if req.verb == "DELETE" && req.body.None? then Some(DeleteProfile(id.value, token.value))
      else None
  }

  lemma ProfilePath(id: string)
    ensures StripPrefix("/profiles/" + id, "/profiles/") == Some(id)
    ensures "/profiles/" + id != "/profiles"
  {
    StripPrefixOf("/profiles/", id);
    assert |"/profiles/" + id| > |"/profiles"|;
  }

  /** The bearer token, read back from the merged headers. */
  lemma MergedToken(token: string)
    ensures AuthorizationHeader in MergeHeaders(AuthHeaders(token))
    ensures BearerToken(MergeHeaders(AuthHeaders(token))[AuthorizationHeader]) == Some(token)
  {
  }

  lemma UnauthenticatedRequest(baseUrl: string, path: string, options: RequestOptions)
    requires options.headers == map[]
    ensures AuthorizationHeader !in RequestFor(baseUrl, path, options).headers
  {
  }

  /** Every endpoint call is read back, arguments included, from the request `request` sends for it. */
  lemma DecodeEndpointRequest(baseUrl: string, call: ServiceCall)
    ensures DecodeServiceRequest(baseUrl, RequestFor(baseUrl, Endpoint(call).0, Endpoint(call).1)) == Some(call)
  {
    var (path, options) := Endpoint(call);
    StripPrefixOf(baseUrl, path);
    match call {
      case Signup(data) =>
        ParseSerialize(data);
        UnauthenticatedRequest(baseUrl, path, options);
      case Login(data) =>
        ParseSerialize(data);
        UnauthenticatedRequest(baseUrl, path, options);
      case RefreshToken(data) =>
        ParseSerialize(data);
        UnauthenticatedRequest(baseUrl, path, options);
      case Logout(t) =>
        ParseSerialize(LogoutBody(t));
        LookupLast(LogoutBody(t).members, 0, "refresh_token");
        UnauthenticatedRequest(baseUrl, path, options);
      case GetAllProfiles(token) =>
        MergedToken(token);
      case CreateProfile(data, token) =>
        ParseSerialize(data);
        MergedToken(token);
      case GetProfile(id, token) =>
        ProfilePath(id);
        MergedToken(token);
      case UpdateProfile(id, data, token) =>
        ProfilePath(id);
        ParseSerialize(data);
        MergedToken(token);
      case DeleteProfile(id, token) =>
        ProfilePath(id);
        MergedToken(token);
    }
  }

  /** `APIService`: its only state is the base URL, set once by the constructor. */
  class Service {
    const baseUrl: string

    constructor (baseUrl: string)
      ensures this.baseUrl == baseUrl
    {
      this.baseUrl := baseUrl;
    }

    /**
     * `request`: sends `RequestFor(baseUrl, endpoint, options)` and maps the
     * reply, branch by branch, to the data or to the error thrown.
     */
    method Request(endpoint: string, options: RequestOptions, reply: Reply)
      returns (sent: HttpRequest, r: Result<Json, ServiceError>)
      ensures sent == RequestFor(baseUrl, endpoint, options)
      ensures r == Outcome(reply)
      ensures reply.Unreachable? ==> r == Err(Disconnected)
      ensures reply.Received? && reply.response.status == NoContent ==> r == Ok(EmptyObject)
      ensures reply.Received? && reply.response.status != NoContent && reply.response.ok && reply.response.body.Some? ==>
        r == Ok(reply.response.body.value)
      ensures reply.Received? && reply.response.status != NoContent && reply.response.body.None? ==> r == Err(SyntaxFailure)
      ensures reply.Received? && reply.response.status != NoContent && !reply.response.ok && reply.response.body.Some? ==>
        r.Err? && r.error.ApiFailure? && r.error.status == Some(reply.response.status) &&
        r.error.error != "" &&
        (r.error.message == "" ==> reply.response.statusText == "")
    {
      sent := RequestFor(baseUrl, endpoint, options);
      match reply {
        case Unreachable(_) =>
          return sent, Err(Disconnected);
        case Received(response) =>
          if response.status == NoContent {
            return sent, Ok(EmptyObject);
          }
          if response.body.None? {
            return sent, Err(SyntaxFailure);
          }
          var data := response.body.value;
          if !response.ok {
            var fields := if data == JNull then EmptyObject else data;
            return sent, Err(FailureOf(response, fields));
          }
          r := Ok(data);
      }
    }

    /** An endpoint method: `request` with the endpoint's path and options. */
    method Call(call: ServiceCall, reply: Reply) returns (sent: HttpRequest, r: Result<Json, ServiceError>)
      ensures sent == RequestFor(baseUrl, Endpoint(call).0, Endpoint(call).1)
      ensures DecodeServiceRequest(baseUrl, sent) == Some(call)
      ensures r == Outcome(reply)
    {
      var (endpoint, options) := Endpoint(call);
      sent, r := Request(endpoint, options, reply);
      DecodeEndpointRequest(baseUrl, call);
    }
  }
}
