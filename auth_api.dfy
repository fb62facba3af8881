/**
 * The role-aware client's API module: the error type it throws, the mapping of
 * a response to a result, the requests each endpoint sends, and the reshaping
 * of the fetched user record.
 */
module AuthApi {
  import opened Wrappers
  import opened Json
  import opened Http
  import opened AuthUtils

  const DefaultErrorMessage := "An error occurred"

  /** `AuthAPIError`: a message, the response status and the server's `details`, when given. */
  datatype AuthApiError = AuthApiError(message: string, statusCode: Option<int>, details: Option<Json>)

  /**
   * What an API call can throw: an `AuthAPIError`, the `SyntaxError` of
   * reading a success body that is not JSON, or another `Error` with its
   * message (the transport's `TypeError`, or one the caller raises).
   */
  datatype Thrown = AuthApi(error: AuthApiError) | BadJson | Plain(message: string)

  /** The `SyntaxError` text; the real text is engine-specific. */
  const SyntaxErrorMessage := "Unexpected token in JSON"

  /** `err.message`: every value thrown here is an `Error`. */
  function MessageOf(thrown: Thrown): string {
    match thrown
    case AuthApi(e) => e.message
    case BadJson => SyntaxErrorMessage
    case Plain(m) => m
  }

  /**
   * Reference definition of `handleResponse`.  On failure the body is read as
   * JSON: a non-empty string `error` member becomes the message and `details`
   * is copied; a body that is not JSON, or is `null` (reading `null.error`
   * throws), falls back to the status text.  On success a 204 gives `{}`
   * without touching the body; anything else is the parsed body.
   */
  function Handled(resp: Response): Result<Json, Thrown> {
    if !resp.ok then
      if resp.body.Some? && resp.body.value != JNull then
        Err(AuthApi(AuthApiError(StringOr(Get(resp.body.value, "error"), DefaultErrorMessage),
                                 Some(resp.status), Get(resp.body.value, "details"))))
      else
        Err(AuthApi(AuthApiError(if resp.statusText != "" then resp.statusText else DefaultErrorMessage,
                                 Some(resp.status), None)))
    else if resp.status == NoContent then Ok(EmptyObject)
    else if resp.body.Some? then Ok(resp.body.value)
    else Err(BadJson)
  }

  /** `handleResponse`, step by step on its `errorMessage` and `details` locals. */
  method HandleResponse(resp: Response) returns (r: Result<Json, Thrown>)
    ensures r == Handled(resp)
    ensures r.Ok? <==> resp.ok && (resp.status == NoContent || resp.body.Some?)
    ensures !resp.ok ==> r.Err? && r.error.AuthApi? && r.error.error.statusCode == Some(resp.status)
    ensures r.Err? && r.error.AuthApi? ==> r.error.error.message != ""
    ensures !resp.ok && resp.body.Some? && resp.body.value != JNull ==>
      r.error.error.message == StringOr(Get(resp.body.value, "error"), DefaultErrorMessage) &&
      r.error.error.details == Get(resp.body.value, "details")
    ensures !resp.ok && (resp.body.None? || resp.body == Some(JNull)) ==>
      r.error.error.details.None? &&
      r.error.error.message == (if resp.statusText != "" then resp.statusText else DefaultErrorMessage)
    ensures resp.ok && resp.status == NoContent ==> r == Ok(EmptyObject)
    ensures resp.ok && resp.status != NoContent && resp.body.Some? ==> r == Ok(resp.body.value)
  {
    if !resp.ok {
      var errorMessage := DefaultErrorMessage;
      var details: Option<Json> := None;
      if resp.body.Some? && resp.body.value != JNull {
        errorMessage := StringOr(Get(resp.body.value, "error"), errorMessage);
        details := Get(resp.body.value, "details");
      } else {
        errorMessage := if resp.statusText != "" then resp.statusText else errorMessage;
      }
      return Err(AuthApi(AuthApiError(errorMessage, Some(resp.status), details)));
    }
    if resp.status == NoContent {
      return Ok(EmptyObject);
    }
    match resp.body
    case Some(data) => r := Ok(data);
    case None => r := Err(BadJson);
  }

  // ---------------------------------------------------------------------------
  // Endpoints

  /** One call of the API module, with its arguments. */
  datatype AuthCall =
    | Signup(username: string, email: string, password: string)
    | Login(email: string, password: string)
    | Logout(refreshToken: string)
    | Refresh(refreshToken: string)
    | UserProfile(userId: string, accessToken: string)
    | CurrentUser(userId: string, accessToken: string)

  const JsonHeaders: map<string, string> := map[ContentTypeHeader := JsonContentType]

  function AuthorizedHeaders(accessToken: string): map<string, string> {
    map[AuthorizationHeader := BearerCredentials(accessToken), ContentTypeHeader := JsonContentType]
  }

  function SignupBody(username: string, email: string, password: string): Json {
    JObj([Member("username", JStr(username)), Member("email", JStr(email)), Member("password", JStr(password))])
  }

  function LoginBody(email: string, password: string): Json {
    JObj([Member("email", JStr(email)), Member("password", JStr(password))])
  }

  function RefreshTokenBody(refreshToken: string): Json {
    JObj([Member("refresh_token", JStr(refreshToken))])
  }

  /** The `fetch` request each endpoint function sends to the API at `apiUrl`. */
  function BuildRequest(apiUrl: string, call: AuthCall): (req: HttpRequest)
    ensures ContentTypeHeader in req.headers && req.headers[ContentTypeHeader] == JsonContentType
    ensures req.verb == "GET" <==> req.body.None?
    ensures (req.verb == "GET") == (AuthorizationHeader in req.headers)
  {
    match call
    case Signup(username, email, password) =>
      HttpRequest("POST", apiUrl + "/api/user", JsonHeaders, Some(Serialize(SignupBody(username, email, password))))
    case Login(email, password) =>
      HttpRequest("POST", apiUrl + "/api/login", JsonHeaders, Some(Serialize(LoginBody(email, password))))
    case Logout(refreshToken) =>
      HttpRequest("DELETE", apiUrl + "/api/logout", JsonHeaders, Some(Serialize(RefreshTokenBody(refreshToken))))
    case Refresh(refreshToken) =>
      HttpRequest("POST", apiUrl + "/api/refresh", JsonHeaders, Some(Serialize(RefreshTokenBody(refreshToken))))
    case UserProfile(userId, accessToken) =>
      HttpRequest("GET", apiUrl + "/api/profiles/" + userId, AuthorizedHeaders(accessToken), None)
    case CurrentUser(userId, accessToken) =>
      HttpRequest("GET", apiUrl + "/api/users/" + userId, AuthorizedHeaders(accessToken), None)
  }

  /** The parsed request body, if there is one. */
  function BodyOf(req: HttpRequest): Option<Json> {
    if req.body.Some? then Parse(req.body.value) else None
  }

  /** The bearer token of the `Authorization` header, if there is one. */
  function TokenOf(req: HttpRequest): Option<string> {
    if AuthorizationHeader in req.headers then BearerToken(req.headers[AuthorizationHeader]) else None
  }

  /**
   * The server's reading of a request: which endpoint it addresses and with
   * which arguments.  It is the independent partner of `BuildRequest`.
   */
  function DecodeRequest(apiUrl: string, req: HttpRequest): Option<AuthCall> {
    match StripPrefix(req.url, apiUrl)
    case None => None
    case Some(path) =>
      var body := BodyOf(req);
      if req.verb == "POST" && path == "/api/user" && body.Some? then
        var u := GetString(body.value, "username");
        var e := GetString(body.value, "email");
        var p := GetString(body.value, "password");
        if u.Some? && e.Some? && p.Some? then Some(Signup(u.value, e.value, p.value)) else None
      else if req.verb == "POST" && path == "/api/login" && body.Some? then
        var e := GetString(body.value, "email");
        var p := GetString(body.value, "password");
        if e.Some? && p.Some? then Some(Login(e.value, p.value)) else None
      else if (req.verb == "DELETE" && path == "/api/logout") || (req.verb == "POST" && path == "/api/refresh") then
        if body.None? then None
        else
          var t := GetString(body.value, "refresh_token");
          if t.None? then None
          else if req.verb == "DELETE" then Some(Logout(t.value))
          else Some(Refresh(t.value))
      else if req.verb == "GET" && TokenOf(req).Some? then
        match StripPrefix(path, "/api/users/")
        case Some(id) => Some(CurrentUser(id, TokenOf(req).value))
        case None =>
          match StripPrefix(path, "/api/profiles/")
          case Some(id) => Some(UserProfile(id, TokenOf(req).value))
          case None => None
      else None
  }

  lemma SignupBodyFields(username: string, email: string, password: string)
    ensures GetString(SignupBody(username, email, password), "username") == Some(username)
    ensures GetString(SignupBody(username, email, password), "email") == Some(email)
    ensures GetString(SignupBody(username, email, password), "password") == Some(password)
  {
    var ms := SignupBody(username, email, password).members;
    LookupLast(ms, 0, "username");
    LookupLast(ms, 1, "email");
    LookupLast(ms, 2, "password");
  }

  lemma LoginBodyFields(email: string, password: string)
    ensures GetString(LoginBody(email, password), "email") == Some(email)
    ensures GetString(LoginBody(email, password), "password") == Some(password)
  {
    var ms := LoginBody(email, password).members;
    LookupLast(ms, 0, "email");
    LookupLast(ms, 1, "password");
  }

  lemma RefreshTokenBodyField(refreshToken: string)
    ensures GetString(RefreshTokenBody(refreshToken), "refresh_token") == Some(refreshToken)
  {
    LookupLast(RefreshTokenBody(refreshToken).members, 0, "refresh_token");
  }

  /** The two `GET` paths are told apart by their prefixes. */
  lemma GetPathsDistinct(userId: string)
    ensures StripPrefix("/api/profiles/" + userId, "/api/users/").None?
  {
    var path := "/api/profiles/" + userId;
    assert path[5] == 'p';
  }

  /**
   * Every request the module sends names its endpoint and arguments
   * unambiguously: the server reads back exactly the call that was made.
   */
  lemma DecodeBuildRequest(apiUrl: string, call: AuthCall)
    ensures DecodeRequest(apiUrl, BuildRequest(apiUrl, call)) == Some(call)
  {
    var req := BuildRequest(apiUrl, call);
    match call
    case Signup(username, email, password) =>
      StripPrefixOf(apiUrl, "/api/user");
      ParseSerialize(SignupBody(username, email, password));
      SignupBodyFields(username, email, password);
    case Login(email, password) =>
      StripPrefixOf(apiUrl, "/api/login");
      ParseSerialize(LoginBody(email, password));
      LoginBodyFields(email, password);
    case Logout(refreshToken) =>
      StripPrefixOf(apiUrl, "/api/logout");
      ParseSerialize(RefreshTokenBody(refreshToken));
      RefreshTokenBodyField(refreshToken);
    case Refresh(refreshToken) =>
      StripPrefixOf(apiUrl, "/api/refresh");
      ParseSerialize(RefreshTokenBody(refreshToken));
      RefreshTokenBodyField(refreshToken);
    case UserProfile(userId, accessToken) =>
      assert apiUrl + "/api/profiles/" + userId == apiUrl + ("/api/profiles/" + userId);
      StripPrefixOf(apiUrl, "/api/profiles/" + userId);
      StripPrefixOf("/api/profiles/", userId);
      GetPathsDistinct(userId);
      BearerRoundTrip(accessToken);
    case CurrentUser(userId, accessToken) =>
      assert apiUrl + "/api/users/" + userId == apiUrl + ("/api/users/" + userId);
      StripPrefixOf(apiUrl, "/api/users/" + userId);
      StripPrefixOf("/api/users/", userId);
      BearerRoundTrip(accessToken);
  }

  /** One call: the request sent, and the outcome of the reply as `handleResponse` reports it. */
  method Send(apiUrl: string, call: AuthCall, reply: Reply) returns (sent: HttpRequest, r: Result<Json, Thrown>)
    ensures sent == BuildRequest(apiUrl, call)
    ensures reply.Unreachable? ==> r == Err(Plain(reply.message))
    ensures reply.Received? ==> r == Handled(reply.response)
  {
    sent := BuildRequest(apiUrl, call);
    match reply
    case Unreachable(message) => r := Err(Plain(message));
    case Received(response) => r := HandleResponse(response);
  }

  // ---------------------------------------------------------------------------
  // The fetched user record

  /** `getCurrentUser`: the request, then the reply read as a user record (`AuthUtils.UserFromJson`, which applies `roles || []`). */
  method GetCurrentUser(apiUrl: string, userId: string, accessToken: string, reply: Reply)
    returns (sent: HttpRequest, r: Result<UserData, Thrown>)
    ensures sent == BuildRequest(apiUrl, CurrentUser(userId, accessToken))
    ensures reply.Unreachable? ==> r == Err(Plain(reply.message))
    ensures reply.Received? && Handled(reply.response).Err? ==> r == Err(Handled(reply.response).error)
    ensures reply.Received? && Handled(reply.response).Ok? && UserFromJson(Handled(reply.response).value).Some? ==>
      r == Ok(UserFromJson(Handled(reply.response).value).value)
    ensures reply.Received? && Handled(reply.response).Ok? && UserFromJson(Handled(reply.response).value).None? ==>
      r == Err(Plain(UnexpectedShapeMessage))
  {
    var data;
    sent, data := Send(apiUrl, CurrentUser(userId, accessToken), reply);
    match data
    case Err(e) => r := Err(e);
    case Ok(j) =>
      match UserFromJson(j)
      case Some(u) => r := Ok(u);
      case None => r := Err(Plain(UnexpectedShapeMessage));
  }

  const UnexpectedShapeMessage := "Unexpected response shape"
}
