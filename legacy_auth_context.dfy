/**
 * The earlier session manager, built on the `storage` helper and `APIService`:
 * in-memory `token`, `refreshToken`, `user`, `profile`, `isLoading` and
 * `error`.  Login failure rolls everything back, signup logs in at once, and
 * the user record is made up from the email address.  `user` and `profile`
 * hold JSON values, `JNull` standing for `null`.
 */
module LegacyAuthContext {
  import opened Wrappers
  import opened Json
  import opened Http
  import opened Navigation
  import opened WebStorage
  import Storage
  import ApiService

  const InitFailedMessage := "Failed to initialize authentication"
  const NoRefreshTokenMessage := "No refresh token available"
  const NoAuthTokenMessage := "No authentication token"

  /** What an operation throws: the service's error unchanged, or an `Error` raised here. */
  datatype Failure = Service(error: ApiService.ServiceError) | Plain(message: string)

  /** The username `login` derives: the text before the first `@`, or all of it when there is none. */
  function UsernameOf(email: string): (name: string)
    ensures |name| <= |email| && name == email[..|name|]
    ensures '@' !in name
    ensures |name| < |email| ==> email[|name|] == '@'
  {
    if email == [] || email[0] == '@' then []
    else
      var rest := UsernameOf(email[1..]);
      assert email[1..][..|rest|] == email[1..|rest| + 1];
      [email[0]] + rest
  }

  /** The username is the whole text before the first `@`, so `name + "@" + domain` gives back `name`. */
  lemma {:induction false} UsernameOfAddress(name: string, domain: string)
    requires '@' !in name
    ensures UsernameOf(name + "@" + domain) == name
  {
    if name != [] {
      assert (name + "@" + domain)[1..] == name[1..] + "@" + domain;
      UsernameOfAddress(name[1..], domain);
    }
  }

  /** The user record `login` builds: an empty `id`, the email's local part and the email. */
  function LoginUser(email: string): Json {
    JObj([Member("id", JStr("")), Member("username", JStr(UsernameOf(email))), Member("email", JStr(email))])
  }

  /** The login request data: email and password. */
  function LoginData(email: string, password: string): Json {
    JObj([Member("email", JStr(email)), Member("password", JStr(password))])
  }

  /** The registration data: username, email and password. */
  function SignupData(username: string, email: string, password: string): Json {
    JObj([Member("username", JStr(username)), Member("email", JStr(email)), Member("password", JStr(password))])
  }

  /** The refresh request data: the refresh token. */
  function RefreshData(refreshToken: string): Json {
    JObj([Member("refresh_token", JStr(refreshToken))])
  }

  lemma LoginUserFields(email: string)
    ensures GetString(LoginUser(email), "id") == Some("")
    ensures GetString(LoginUser(email), "username") == Some(UsernameOf(email))
    ensures GetString(LoginUser(email), "email") == Some(email)
  {
    var ms := LoginUser(email).members;
    LookupLast(ms, 0, "id");
    LookupLast(ms, 1, "username");
    LookupLast(ms, 2, "email");
  }

  class LegacyAuthProvider {
    const storage: LocalStorage
    var user: Json
    var profile: Json
    var token: Option<string>
    var refreshToken: Option<string>
    var isLoading: bool
    var error: Option<string>

    /** Every non-null in-memory value is the value persisted under its key. */
    predicate Valid()
      reads this, storage
    {
      (token.Some? ==> Storage.GetAccessToken(storage) == token) &&
      (refreshToken.Some? ==> Storage.GetRefreshToken(storage) == refreshToken) &&
      (user != JNull ==> Storage.GetUser(storage) == Some(user)) &&
      (profile != JNull ==> Storage.GetProfile(storage) == Some(profile))
    }

    /** The state before the mount effect: everything `null`, and loading. */
    predicate Initial()
      reads this
    {
      token.None? && refreshToken.None? && user == JNull && profile == JNull && isLoading && error.None?
    }

    constructor (storage: LocalStorage)
      ensures this.storage == storage && Initial() && Valid()
    {
      this.storage := storage;
      user := JNull;
      profile := JNull;
      token := None;
      refreshToken := None;
      isLoading := true;
      error := None;
    }

    /** `isAuthenticated`: a non-empty token and a truthy user are both held. */
    function IsAuthenticated(): (authenticated: bool)
      reads this
      ensures authenticated <==> token.Some? && token.value != "" && Truthy(user)
    {
      NonEmpty(token) && Truthy(user)
    }

    /** Everything in memory is `null` and the four entries are gone. */
    predicate SignedOut(before: map<string, string>)
      reads this, storage
    {
      storage.items == before - Storage.Keys && token.None? && refreshToken.None? && user == JNull && profile == JNull
    }

    /** Clears the four entries and every in-memory value. */
    method Reset()
      modifies this, storage
      ensures SignedOut(old(storage.items)) && Valid()
      ensures isLoading == old(isLoading) && error == old(error)
    {
      Storage.ClearAll(storage);
      token := None;
      refreshToken := None;
      user := JNull;
      profile := JNull;
    }

    /**
     * `initAuth`, the mount effect: the stored session is restored only when
     * both a token and a user are stored.  `readFault` stands for the storage
     * reads throwing: the error is set and the four entries cleared.
     */
    method InitAuth(readFault: bool)
      requires Initial()
      modifies this, storage
      ensures Valid() && !isLoading
      ensures readFault ==>
        error == Some(InitFailedMessage) && storage.items == old(storage.items) - Storage.Keys &&
        token.None? && refreshToken.None? && user == JNull && profile == JNull
      ensures !readFault ==> error.None? && storage.items == old(storage.items)
      ensures !readFault && NonEmpty(old(Storage.GetAccessToken(storage))) &&
              old(Storage.GetUser(storage)).Some? && Truthy(old(Storage.GetUser(storage)).value) ==>
        token == old(Storage.GetAccessToken(storage)) && refreshToken == old(Storage.GetRefreshToken(storage)) &&
        user == old(Storage.GetUser(storage)).value && profile == old(Storage.GetProfile(storage)).GetOr(JNull)
      ensures !readFault && !(NonEmpty(old(Storage.GetAccessToken(storage))) &&
              old(Storage.GetUser(storage)).Some? && Truthy(old(Storage.GetUser(storage)).value)) ==>
        token.None? && refreshToken.None? && user == JNull && profile == JNull
    {
      if readFault {
        error := Some(InitFailedMessage);
        Storage.ClearAll(storage);
      } else {
        var storedToken := Storage.GetAccessToken(storage);
        var storedRefreshToken := Storage.GetRefreshToken(storage);
        var storedUser := Storage.GetUser(storage).GetOr(JNull);
        var storedProfile := Storage.GetProfile(storage).GetOr(JNull);
        if NonEmpty(storedToken) && Truthy(storedUser) {
          token := storedToken;
          refreshToken := storedRefreshToken;
          user := storedUser;
          profile := storedProfile;
        }
      }
      isLoading := false;
    }

    /**
     * `login`: on success both tokens and the made-up user record are stored
     * and held in memory; on failure everything is cleared and the error
     * rethrown.  `error` is left alone either way.
     */
    method Login(email: string, password: string, loggedIn: Result<TokenPair, ApiService.ServiceError>)
      returns (issued: seq<ApiService.ServiceCall>, thrown: Option<Failure>)
      requires Valid()
      modifies this, storage
      ensures Valid() && !isLoading && error == old(error)
      ensures issued == [ApiService.Login(LoginData(email, password))]
      ensures loggedIn.Err? ==> thrown == Some(Service(loggedIn.error)) && SignedOut(old(storage.items))
      ensures loggedIn.Ok? ==>
        var pair := loggedIn.value;
        thrown.None? &&
        storage.items == old(storage.items)[Storage.AccessTokenKey := pair.token][Storage.RefreshTokenKey := pair.refreshToken]
                                           [Storage.UserKey := Serialize(LoginUser(email))] &&
        token == Some(pair.token) && refreshToken == Some(pair.refreshToken) &&
        user == LoginUser(email) && profile == old(profile) &&
        (IsAuthenticated() <==> pair.token != "")
    {
      isLoading := true;
      issued := [ApiService.Login(LoginData(email, password))];
      match loggedIn {
        case Ok(pair) =>
          Storage.SetAccessToken(storage, pair.token);
          Storage.SetRefreshToken(storage, pair.refreshToken);
          token := Some(pair.token);
          refreshToken := Some(pair.refreshToken);
          var userData := LoginUser(email);
          Storage.SetUser(storage, userData);
          user := userData;
          thrown := None;
        case Err(e) =>
          Reset();
          thrown := Some(Service(e));
      }
      isLoading := false;
    }

    /** `signup`: registration, then `login` with the same email and password. */
    method Signup(username: string, email: string, password: string,
                  registered: Result<Json, ApiService.ServiceError>, loggedIn: Result<TokenPair, ApiService.ServiceError>)
      returns (issued: seq<ApiService.ServiceCall>, thrown: Option<Failure>)
      requires Valid()
      modifies this, storage
      ensures Valid() && !isLoading && error == old(error)
      ensures registered.Err? ==>
        issued == [ApiService.Signup(SignupData(username, email, password))] &&
        thrown == Some(Service(registered.error)) && storage.items == old(storage.items) &&
        token == old(token) && refreshToken == old(refreshToken) && user == old(user) && profile == old(profile)
      ensures registered.Ok? ==>
        issued == [ApiService.Signup(SignupData(username, email, password)), ApiService.Login(LoginData(email, password))] &&
        (loggedIn.Err? ==> thrown == Some(Service(loggedIn.error)) && SignedOut(old(storage.items))) &&
        (loggedIn.Ok? ==>
           thrown.None? && token == Some(loggedIn.value.token) && refreshToken == Some(loggedIn.value.refreshToken) &&
           user == LoginUser(email) &&
           storage.items == old(storage.items)[Storage.AccessTokenKey := loggedIn.value.token]
                                              [Storage.RefreshTokenKey := loggedIn.value.refreshToken]
                                              [Storage.UserKey := Serialize(LoginUser(email))])
    {
      isLoading := true;
      issued := [ApiService.Signup(SignupData(username, email, password))];
      if registered.Err? {
        thrown := Some(Service(registered.error));
      } else {
        var more;
        more, thrown := Login(email, password, loggedIn);
        issued := issued + more;
      }
      isLoading := false;
    }

    /**
     * `logout`: the server is told only when a refresh token is held in
     * memory; whatever it answers, everything is cleared and the router sent
     * to `/login`, replacing the history entry.
     */
    method Logout() returns (issued: seq<ApiService.ServiceCall>, nav: Navigate)
      requires Valid()
      modifies this, storage
      ensures Valid() && SignedOut(old(storage.items))
      ensures isLoading == old(isLoading) && error == old(error)
      ensures NonEmpty(old(refreshToken)) ==> issued == [ApiService.Logout(old(refreshToken).value)]
      ensures !NonEmpty(old(refreshToken)) ==> issued == []
      ensures nav == Navigate(LoginPath, true, None)
      ensures !IsAuthenticated()
    {
      issued := if NonEmpty(refreshToken) then [ApiService.Logout(refreshToken.value)] else [];
      Reset();
      nav := Navigate(LoginPath, true, None);
    }

    /**
     * `refreshAccessToken`: throws without a refresh token.  On success only
     * the access token is replaced and returned; on failure `logout` runs
     * and the error is rethrown.
     */
    method RefreshAccessToken(refreshed: Result<string, ApiService.ServiceError>)
      returns (issued: seq<ApiService.ServiceCall>, newToken: Option<string>, thrown: Option<Failure>, nav: Option<Navigate>)
      requires Valid()
      modifies this, storage
      ensures Valid() && isLoading == old(isLoading) && error == old(error)
      ensures !NonEmpty(old(refreshToken)) ==>
        issued == [] && newToken.None? && thrown == Some(Plain(NoRefreshTokenMessage)) && nav.None? &&
        storage.items == old(storage.items) && token == old(token) && user == old(user) && profile == old(profile)
      ensures NonEmpty(old(refreshToken)) && refreshed.Ok? ==>
        issued == [ApiService.RefreshToken(RefreshData(old(refreshToken).value))] &&
        newToken == Some(refreshed.value) && thrown.None? && nav.None? &&
        storage.items == old(storage.items)[Storage.AccessTokenKey := refreshed.value] &&
        token == Some(refreshed.value) && refreshToken == old(refreshToken) && user == old(user) && profile == old(profile)
      ensures NonEmpty(old(refreshToken)) && refreshed.Err? ==>
        var rt := old(refreshToken).value;
        issued == [ApiService.RefreshToken(RefreshData(rt)), ApiService.Logout(rt)] &&
        newToken.None? && thrown == Some(Service(refreshed.error)) && nav == Some(Navigate(LoginPath, true, None)) &&
        SignedOut(old(storage.items))
    {
      if !NonEmpty(refreshToken) {
        return [], None, Some(Plain(NoRefreshTokenMessage)), None;
      }
      issued := [ApiService.RefreshToken(RefreshData(refreshToken.value))];
      match refreshed {
        case Ok(t) =>
          Storage.SetAccessToken(storage, t);
          token := Some(t);
          newToken, thrown, nav := Some(t), None, None;
        case Err(e) =>
          var more, n := Logout();
          issued := issued + more;
          newToken, thrown, nav := None, Some(Service(e)), Some(n);
      }
    }

    /** `fetchProfile`: throws without a token; otherwise it does nothing yet. */
    method FetchProfile() returns (thrown: Option<Failure>)
      ensures thrown.Some? <==> !NonEmpty(token)
      ensures thrown.Some? ==> thrown == Some(Plain(NoAuthTokenMessage))
    {
      thrown := if NonEmpty(token) then None else Some(Plain(NoAuthTokenMessage));
    }

    /**
     * `updateProfile`: throws without a token; on success the returned
     * profile is persisted, held in memory and returned; a failure is
     * rethrown with nothing changed.
     */
    method UpdateProfile(profileId: string, data: Json, updated: Result<Json, ApiService.ServiceError>)
      returns (issued: seq<ApiService.ServiceCall>, result: Option<Json>, thrown: Option<Failure>)
      requires Valid()
      modifies this, storage
      ensures Valid()
      ensures token == old(token) && refreshToken == old(refreshToken) && user == old(user)
      ensures isLoading == old(isLoading) && error == old(error)
      ensures !NonEmpty(token) ==>
        issued == [] && result.None? && thrown == Some(Plain(NoAuthTokenMessage)) &&
        storage.items == old(storage.items) && profile == old(profile)
      ensures NonEmpty(token) ==> issued == [ApiService.UpdateProfile(profileId, data, token.value)]
      ensures NonEmpty(token) && updated.Err? ==>
        result.None? && thrown == Some(Service(updated.error)) && storage.items == old(storage.items) && profile == old(profile)
      ensures NonEmpty(token) && updated.Ok? ==>
        result == Some(updated.value) && thrown.None? && profile == updated.value &&
        storage.items == old(storage.items)[Storage.ProfileKey := Serialize(updated.value)]
    {
      if !NonEmpty(token) {
        return [], None, Some(Plain(NoAuthTokenMessage));
      }
      issued := [ApiService.UpdateProfile(profileId, data, token.value)];
      match updated {
        case Ok(p) =>
          Storage.SetProfile(storage, p);
          profile := p;
          result, thrown := Some(p), None;
        case Err(e) =>
          result, thrown := None, Some(Service(e));
      }
    }
  }
}
