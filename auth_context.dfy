/**
 * The role-aware session manager: the in-memory `user`, `isLoading` and
 * `error` state over the persisted token store, and the mount, login, signup,
 * logout and refresh operations.  Each remote call's outcome is an input; the
 * calls made are returned in order.
 */
module AuthContext {
  import opened Wrappers
  import opened Json
  import opened Http
  import opened WebStorage
  import opened AuthUtils
  import opened AuthApi

  const LoginFailedMessage := "Login failed. Please try again."
  const SignupFailedMessage := "Signup failed. Please try again."
  const InvalidTokenMessage := "Invalid token: unable to extract user ID"
  const NoRefreshTokenMessage := "No refresh token available"

  /** The message shown for a failure: an `AuthAPIError`'s own message, or the fixed fallback. */
  function ErrorMessage(thrown: Thrown, fallback: string): (m: string)
    ensures thrown.AuthApi? ==> m == thrown.error.message
    ensures !thrown.AuthApi? ==> m == fallback
  {
    if thrown.AuthApi? then thrown.error.message else fallback
  }

  /** The store with the three auth entries removed (what `clearTokens` leaves). */
  function Cleared(items: map<string, string>): map<string, string> {
    items - AuthKeys
  }

  class AuthProvider {
    const storage: LocalStorage
    /** The JWT decoder (`jwtDecode`). */
    const decode: Decoder
    var user: Option<UserData>
    var isLoading: bool
    var error: Option<string>

    /**
     * The in-memory user is always the persisted user record, and a signed-in
     * user always has an access token stored.
     */
    predicate Valid()
      reads this, storage
    {
      user.Some? ==> GetUserData(storage) == user && GetAccessToken(storage).Some?
    }

    /** `isAuthenticated`: a user is held. */
    function IsAuthenticated(): (authenticated: bool)
      reads this
      ensures authenticated <==> user.Some?
    {
      user.Some?
    }

    /** The provider's initial state, before the mount effect runs. */
    constructor (storage: LocalStorage, decode: Decoder)
      ensures this.storage == storage && this.decode == decode
      ensures user.None? && isLoading && error.None?
      ensures Valid()
    {
      this.storage := storage;
      this.decode := decode;
      user := None;
      isLoading := true;
      error := None;
    }

    /**
     * The shared middle of the mount effect and of `refreshToken`: refresh
     * with `rt`, save the new access token beside it and, when the new token
     * names a user, fetch that user and persist the record.  `thrown` is the
     * failure of either call; a token without a user id is not a failure here.
     */
    method RefreshSession(rt: string, refreshed: Result<string, Thrown>, fetched: Result<UserData, Thrown>)
      returns (issued: seq<AuthCall>, thrown: Option<Thrown>)
      requires Valid() && GetRefreshToken(storage) == Some(rt)
      modifies this, storage
      ensures Valid()
      ensures isLoading == old(isLoading) && error == old(error)
      ensures refreshed.Err? ==>
        issued == [Refresh(rt)] && thrown == Some(refreshed.error) &&
        storage.items == old(storage.items) && user == old(user)
      ensures refreshed.Ok? ==>
        var saved := old(storage.items)[AccessTokenKey := refreshed.value][RefreshTokenKey := rt];
        var userId := GetUserIdFromToken(decode, refreshed.value);
        (userId.None? ==> issued == [Refresh(rt)] && thrown.None? && storage.items == saved && user == old(user)) &&
        (userId.Some? ==>
           issued == [Refresh(rt), CurrentUser(userId.value, refreshed.value)] &&
           (fetched.Err? ==> thrown == Some(fetched.error) && storage.items == saved && user == old(user)) &&
           (fetched.Ok? ==>
              thrown.None? && user == Some(fetched.value) &&
              storage.items == saved[UserDataKey := Serialize(UserToJson(fetched.value))]))
    {
      issued := [Refresh(rt)];
      thrown := None;
      match refreshed {
      case Err(e) =>
        thrown := Some(e);
      case Ok(newAccessToken) =>
        SaveTokens(storage, newAccessToken, rt);
        var userId := GetUserIdFromToken(decode, newAccessToken);
        if userId.Some? {
          issued := issued + [CurrentUser(userId.value, newAccessToken)];
          match fetched {
          case Err(e) =>
            thrown := Some(e);
          case Ok(userData) =>
            user := Some(userData);
            SaveUserData(storage, userData);
          }
        }
      }
    }

    /**
     * The expired-token branch of the mount effect: without a refresh token,
     * or when the refresh or the fetch fails, or when the new token names no
     * user, local auth is cleared and the user signed out.
     */
    method RestoreExpiredSession(refreshed: Result<string, Thrown>, fetched: Result<UserData, Thrown>)
      returns (issued: seq<AuthCall>)
      requires Valid()
      modifies this, storage
      ensures Valid()
      ensures isLoading == old(isLoading) && error == old(error)
      ensures !NonEmpty(old(GetRefreshToken(storage))) ==>
        issued == [] && user.None? && storage.items == Cleared(old(storage.items))
      ensures NonEmpty(old(GetRefreshToken(storage))) ==>
        var rt := old(storage.items[RefreshTokenKey]);
        |issued| >= 1 && issued[0] == Refresh(rt) &&
        (refreshed.Err? ==> issued == [Refresh(rt)] && user.None? && storage.items == Cleared(old(storage.items))) &&
        (refreshed.Ok? && GetUserIdFromToken(decode, refreshed.value).None? ==>
           issued == [Refresh(rt)] && user.None? && storage.items == Cleared(old(storage.items))) &&
        (refreshed.Ok? && GetUserIdFromToken(decode, refreshed.value).Some? ==>
           issued == [Refresh(rt), CurrentUser(GetUserIdFromToken(decode, refreshed.value).value, refreshed.value)] &&
           (fetched.Err? ==> user.None? && storage.items == Cleared(old(storage.items))) &&
           (fetched.Ok? ==>
              user == Some(fetched.value) &&
              storage.items == old(storage.items)[AccessTokenKey := refreshed.value][RefreshTokenKey := rt]
                                                 [UserDataKey := Serialize(UserToJson(fetched.value))]))
    {
      var refreshTokenValue := GetRefreshToken(storage);
      if !NonEmpty(refreshTokenValue) {
        ClearTokens(storage);
        user := None;
        return [];
      }
      var thrown;
      issued, thrown := RefreshSession(refreshTokenValue.value, refreshed, fetched);
      if thrown.Some? || GetUserIdFromToken(decode, refreshed.value).None? {
        ghost var before := storage.items;
        ClearTokens(storage);
        assert Cleared(before) == Cleared(old(storage.items));
        user := None;
      }
    }

    /**
     * `loadUserFromStorage`, the mount effect.  `readFault` stands for the
     * storage reads throwing; `refreshed` and `fetched` are the outcomes of the
     * token refresh and of the user fetch, used only if those calls are made.
     */
    method LoadUserFromStorage(nowMs: int, readFault: bool,
                               refreshed: Result<string, Thrown>, fetched: Result<UserData, Thrown>)
      returns (issued: seq<AuthCall>)
      requires Valid()
      modifies this, storage
      ensures Valid()
      ensures !isLoading && error == old(error)
      // The reads throw: local auth is cleared.
      ensures readFault ==> issued == [] && user.None? && storage.items == Cleared(old(storage.items))
      // No access token or no stored user: nothing changes.
      ensures !readFault && !(NonEmpty(old(GetAccessToken(storage))) && old(GetUserData(storage)).Some?) ==>
        issued == [] && user == old(user) && storage.items == old(storage.items)
      // A live token: the stored user is restored; nothing is fetched or written.
      ensures !readFault && NonEmpty(old(GetAccessToken(storage))) && old(GetUserData(storage)).Some? &&
              !IsTokenExpired(decode, old(storage.items[AccessTokenKey]), nowMs) ==>
        issued == [] && user == old(GetUserData(storage)) && storage.items == old(storage.items)
      // An expired token and no refresh token: local auth is cleared.
      ensures !readFault && NonEmpty(old(GetAccessToken(storage))) && old(GetUserData(storage)).Some? &&
              IsTokenExpired(decode, old(storage.items[AccessTokenKey]), nowMs) &&
              !NonEmpty(old(GetRefreshToken(storage))) ==>
        issued == [] && user.None? && storage.items == Cleared(old(storage.items))
      // An expired token and a refresh token: the refresh is attempted.
      ensures !readFault && NonEmpty(old(GetAccessToken(storage))) && old(GetUserData(storage)).Some? &&
              IsTokenExpired(decode, old(storage.items[AccessTokenKey]), nowMs) &&
              NonEmpty(old(GetRefreshToken(storage))) ==>
        var rt := old(storage.items[RefreshTokenKey]);
        |issued| >= 1 && issued[0] == Refresh(rt) &&
        (refreshed.Err? ==> issued == [Refresh(rt)] && user.None? && storage.items == Cleared(old(storage.items))) &&
        (refreshed.Ok? && GetUserIdFromToken(decode, refreshed.value).None? ==>
           issued == [Refresh(rt)] && user.None? && storage.items == Cleared(old(storage.items))) &&
        (refreshed.Ok? && GetUserIdFromToken(decode, refreshed.value).Some? ==>
           issued == [Refresh(rt), CurrentUser(GetUserIdFromToken(decode, refreshed.value).value, refreshed.value)] &&
           (fetched.Err? ==> user.None? && storage.items == Cleared(old(storage.items))) &&
           (fetched.Ok? ==>
              user == Some(fetched.value) &&
              storage.items == old(storage.items)[AccessTokenKey := refreshed.value][RefreshTokenKey := rt]
                                                 [UserDataKey := Serialize(UserToJson(fetched.value))]))
    {
      isLoading := true;
      issued := [];
      if readFault {
        ClearTokens(storage);
        user := None;
      } else {
        var accessToken := GetAccessToken(storage);
        var storedUser := GetUserData(storage);
        if NonEmpty(accessToken) && storedUser.Some? {
          if IsTokenExpired(decode, accessToken.value, nowMs) {
            issued := RestoreExpiredSession(refreshed, fetched);
          } else {
            user := storedUser;
          }
        }
      }
      isLoading := false;
    }

    /**
     * `login`: the token pair is persisted before the user is fetched, so a
     * token without a user id, or a failed fetch, leaves the new tokens stored.
     * A failure sets `error` and is rethrown (`thrown`).
     */
    method Login(email: string, password: string,
                 loggedIn: Result<TokenPair, Thrown>, fetched: Result<UserData, Thrown>)
      returns (issued: seq<AuthCall>, thrown: Option<Thrown>)
      requires Valid()
      modifies this, storage
      ensures Valid()
      ensures !isLoading
      ensures |issued| >= 1 && issued[0] == AuthApi.Login(email, password)
      ensures thrown.None? <==> error.None?
      ensures thrown.Some? ==> error == Some(ErrorMessage(thrown.value, LoginFailedMessage)) && user == old(user)
      ensures loggedIn.Err? ==>
        issued == [AuthApi.Login(email, password)] && thrown == Some(loggedIn.error) && storage.items == old(storage.items)
      ensures loggedIn.Ok? ==>
        var pair := loggedIn.value;
        var stored := old(storage.items)[AccessTokenKey := pair.token][RefreshTokenKey := pair.refreshToken];
        (GetUserIdFromToken(decode, pair.token).None? ==>
           issued == [AuthApi.Login(email, password)] && thrown == Some(Plain(InvalidTokenMessage)) &&
           storage.items == stored) &&
        (GetUserIdFromToken(decode, pair.token).Some? ==>
           issued == [AuthApi.Login(email, password), CurrentUser(GetUserIdFromToken(decode, pair.token).value, pair.token)] &&
           (fetched.Err? ==> thrown == Some(fetched.error) && storage.items == stored) &&
           (fetched.Ok? ==>
              thrown.None? && user == Some(fetched.value) &&
              storage.items == stored[UserDataKey := Serialize(UserToJson(fetched.value))]))
    {
      isLoading := true;
      error := None;
      issued := [AuthApi.Login(email, password)];
      thrown := None;
      match loggedIn {
      case Err(e) =>
        thrown := Some(e);
      case Ok(pair) =>
        SaveTokens(storage, pair.token, pair.refreshToken);
        var userId := GetUserIdFromToken(decode, pair.token);
        if userId.None? {
          thrown := Some(Plain(InvalidTokenMessage));
        } else {
          issued := issued + [CurrentUser(userId.value, pair.token)];
          match fetched {
          case Err(e) =>
            thrown := Some(e);
          case Ok(userData) =>
            user := Some(userData);
            SaveUserData(storage, userData);
          }
        }
      }
      if thrown.Some? {
        error := Some(ErrorMessage(thrown.value, LoginFailedMessage));
      }
      isLoading := false;
    }

    /** `signup`: registration only; no token or user data is written and the user is unchanged. */
    method Signup(username: string, email: string, password: string, registered: Result<Json, Thrown>)
      returns (issued: seq<AuthCall>, thrown: Option<Thrown>)
      requires Valid()
      modifies this
      ensures Valid()
      ensures issued == [AuthApi.Signup(username, email, password)]
      ensures !isLoading && user == old(user)
      ensures registered.Ok? ==> thrown.None? && error.None?
      ensures registered.Err? ==> thrown == Some(registered.error) &&
                                  error == Some(ErrorMessage(registered.error, SignupFailedMessage))
    {
      isLoading := true;
      error := None;
      issued := [AuthApi.Signup(username, email, password)];
      thrown := None;
      if registered.Err? {
        thrown := Some(registered.error);
        error := Some(ErrorMessage(registered.error, SignupFailedMessage));
      }
      isLoading := false;
    }

    /**
     * `logout`: the server is told only when a refresh token is stored, and
     * whatever it answers local auth is cleared and the user signed out.
     */
    method Logout() returns (issued: seq<AuthCall>)
      requires Valid()
      modifies this, storage
      ensures Valid()
      ensures NonEmpty(old(GetRefreshToken(storage))) ==> issued == [AuthApi.Logout(old(storage.items[RefreshTokenKey]))]
      ensures !NonEmpty(old(GetRefreshToken(storage))) ==> issued == []
      ensures storage.items == Cleared(old(storage.items))
      ensures user.None? && !isLoading && error.None?
      ensures !IsAuthenticated()
    {
      isLoading := true;
      error := None;
      var refreshTokenValue := GetRefreshToken(storage);
      issued := if NonEmpty(refreshTokenValue) then [AuthApi.Logout(refreshTokenValue.value)] else [];
      ClearTokens(storage);
      user := None;
      isLoading := false;
    }

    /**
     * `refreshToken`: without a refresh token it throws and changes nothing.
     * Otherwise the new access token is saved beside the same refresh token
     * and, when it names a user, the user is fetched again; any failure runs
     * `logout` and is rethrown.
     */
    method RefreshToken(refreshed: Result<string, Thrown>, fetched: Result<UserData, Thrown>)
      returns (issued: seq<AuthCall>, thrown: Option<Thrown>)
      requires Valid()
      modifies this, storage
      ensures Valid()
      ensures !NonEmpty(old(GetRefreshToken(storage))) ==>
        issued == [] && thrown == Some(Plain(NoRefreshTokenMessage)) &&
        storage.items == old(storage.items) && user == old(user) && isLoading == old(isLoading) && error == old(error)
      ensures NonEmpty(old(GetRefreshToken(storage))) ==>
        var rt := old(storage.items[RefreshTokenKey]);
        |issued| >= 1 && issued[0] == Refresh(rt) &&
        (thrown.Some? ==> storage.items == Cleared(old(storage.items)) && user.None? && !isLoading && error.None?) &&
        (refreshed.Err? ==> thrown == Some(refreshed.error) && issued == [Refresh(rt), AuthApi.Logout(rt)]) &&
        (refreshed.Ok? && GetUserIdFromToken(decode, refreshed.value).None? ==>
           thrown.None? && issued == [Refresh(rt)] && user == old(user) &&
           isLoading == old(isLoading) && error == old(error) &&
           storage.items == old(storage.items)[AccessTokenKey := refreshed.value][RefreshTokenKey := rt]) &&
        (refreshed.Ok? && GetUserIdFromToken(decode, refreshed.value).Some? ==>
           var call := CurrentUser(GetUserIdFromToken(decode, refreshed.value).value, refreshed.value);
           (fetched.Err? ==> thrown == Some(fetched.error) && issued == [Refresh(rt), call, AuthApi.Logout(rt)]) &&
           (fetched.Ok? ==>
              thrown.None? && issued == [Refresh(rt), call] && user == Some(fetched.value) &&
              isLoading == old(isLoading) && error == old(error) &&
              storage.items == old(storage.items)[AccessTokenKey := refreshed.value][RefreshTokenKey := rt]
                                                 [UserDataKey := Serialize(UserToJson(fetched.value))]))
    {
      var refreshTokenValue := GetRefreshToken(storage);
      if !NonEmpty(refreshTokenValue) {
        return [], Some(Plain(NoRefreshTokenMessage));
      }
      var rt := refreshTokenValue.value;
      issued, thrown := RefreshSession(rt, refreshed, fetched);
      if thrown.Some? {
        ghost var before := storage.items;
        var more := Logout();
        assert Cleared(before) == Cleared(old(storage.items));
        issued := issued + more;
      }
    }

    /** `clearError`. */
    method ClearError()
      modifies this
      ensures error.None? && user == old(user) && isLoading == old(isLoading)
    {
      error := None;
    }
  }
}
