/**
 * Token and user-record persistence, JWT claim checks and the role-based
 * landing route used by the role-aware session manager.
 */
module AuthUtils {
  import opened Wrappers
  import opened Json
  import opened WebStorage

  const AccessTokenKey := "steam_buds_access_token"
  const RefreshTokenKey := "steam_buds_refresh_token"
  const UserDataKey := "steam_buds_user_data"

  /** Every entry `clearTokens` removes. */
  const AuthKeys: set<string> := {AccessTokenKey, RefreshTokenKey, UserDataKey}

  // Roles the backend assigns (`UserRole`); roles are compared as plain strings.
  const Admin := "admin"
  const SchoolAdmin := "school_admin"
  const SystemUser := "system_user"
  const Instructor := "instructor"
  const Facilitator := "facilitator"
  const Student := "student"
  const Guardian := "guardian"

  const AdminDashboard := "/admin/dashboard"
  const StudentDashboard := "/student/dashboard"
  const TeacherDashboard := "/teacher/dashboard"
  const SchoolDashboard := "/school/dashboard"
  const GuardianDashboard := "/guardian/dashboard"
  const DashboardRoutes: set<string> :=
    {AdminDashboard, StudentDashboard, TeacherDashboard, SchoolDashboard, GuardianDashboard}

  /** `UserData`: the cached identity; `profile` is an opaque attribute bag. */
  datatype UserData = UserData(id: string, username: string, email: string, roles: seq<string>, profile: Option<Json>)

  /** The claims read from a decoded access token: `user_id` and `exp` (seconds since the epoch). */
  datatype Claims = Claims(userId: Option<string>, exp: Option<int>)

  /** `jwtDecode`: `None` when the token cannot be decoded. */
  type Decoder = string -> Option<Claims>

  // ---------------------------------------------------------------------------
  // Tokens

  method SaveTokens(ls: LocalStorage, accessToken: string, refreshToken: string)
    modifies ls
    ensures ls.items == old(ls.items)[AccessTokenKey := accessToken][RefreshTokenKey := refreshToken]
    ensures GetAccessToken(ls) == Some(accessToken) && GetRefreshToken(ls) == Some(refreshToken)
  {
    ls.SetItem(AccessTokenKey, accessToken);
    ls.SetItem(RefreshTokenKey, refreshToken);
  }

  function GetAccessToken(ls: LocalStorage): (r: Option<string>)
    reads ls
    ensures r.Some? <==> AccessTokenKey in ls.items
    ensures r.Some? ==> r.value == ls.items[AccessTokenKey]
  {
    ls.GetItem(AccessTokenKey)
  }

  function GetRefreshToken(ls: LocalStorage): (r: Option<string>)
    reads ls
    ensures r.Some? <==> RefreshTokenKey in ls.items
    ensures r.Some? ==> r.value == ls.items[RefreshTokenKey]
  {
    ls.GetItem(RefreshTokenKey)
  }

  method ClearTokens(ls: LocalStorage)
    modifies ls
    ensures ls.items == old(ls.items) - AuthKeys
    ensures GetAccessToken(ls).None? && GetRefreshToken(ls).None? && GetUserData(ls).None?
  {
    ls.RemoveItem(AccessTokenKey);
    ls.RemoveItem(RefreshTokenKey);
    ls.RemoveItem(UserDataKey);
  }

  /**
   * `isTokenExpired`: a token that does not decode counts as expired;
   * otherwise it is expired when its `exp` (seconds) lies strictly before the
   * current time, written here with the clock in integer milliseconds as
   * `exp * 1000 < nowMs`.  A missing
   * `exp` compares as `undefined < n`, which is false.
   */
  function IsTokenExpired(decode: Decoder, token: string, nowMs: int): (expired: bool)
    ensures decode(token).None? ==> expired
    ensures decode(token).Some? && decode(token).value.exp.Some? ==>
      (expired <==> decode(token).value.exp.value * 1000 < nowMs)
    ensures decode(token).Some? && decode(token).value.exp.None? ==> !expired
  {
    match decode(token)
    case None => true
    case Some(claims) => claims.exp.Some? && claims.exp.value * 1000 < nowMs
  }

  /** Section 4.1.4 of RFC 7519: a token must not be accepted on or after its `exp` time. */
  predicate ExpiredPerRfc7519(claims: Claims, nowMs: int) {
    claims.exp.Some? && nowMs >= claims.exp.value * 1000
  }

  /**
   * The comparison is strict: for a decodable token with an `exp` claim the
   * source agrees with RFC 7519 except at the instant `exp` itself, where the
   * token still counts as valid.
   */
  lemma ExpiryAgainstRfc7519(decode: Decoder, token: string, nowMs: int)
    requires decode(token).Some? && decode(token).value.exp.Some?
    ensures IsTokenExpired(decode, token, nowMs) <==>
      ExpiredPerRfc7519(decode(token).value, nowMs) && nowMs != decode(token).value.exp.value * 1000
    ensures nowMs == decode(token).value.exp.value * 1000 ==> !IsTokenExpired(decode, token, nowMs)
  {
  }

  /** Once expired, a token stays expired as the clock advances. */
  lemma ExpiryIsMonotone(decode: Decoder, token: string, nowMs: int, laterMs: int)
    requires nowMs <= laterMs && IsTokenExpired(decode, token, nowMs)
    ensures IsTokenExpired(decode, token, laterMs)
  {
  }

  /** `getUserIdFromToken`: the `user_id` claim, or `None` when decoding fails or the claim is missing or empty. */
  function GetUserIdFromToken(decode: Decoder, token: string): (id: Option<string>)
    ensures id.Some? <==> decode(token).Some? && NonEmpty(decode(token).value.userId)
    ensures id.Some? ==> id == decode(token).value.userId
  {
    match decode(token)
    case None => None
    case Some(claims) => if NonEmpty(claims.userId) then claims.userId else None
  }

  // ---------------------------------------------------------------------------
  // The user record as JSON

  function StringItems(ss: seq<string>): (items: seq<Json>)
    ensures |items| == |ss|
  {
    if ss == [] then [] else [JStr(ss[0])] + StringItems(ss[1..])
  }

  /** The strings of an array whose items are all strings. */
  function StringsOf(items: seq<Json>): Option<seq<string>> {
    if items == [] then Some([])
    else if !items[0].JStr? then None
    else
      match StringsOf(items[1..])
      case None => None
      case Some(rest) => Some([items[0].s] + rest)
  }

  lemma {:induction false} StringsOfItems(ss: seq<string>)
    ensures StringsOf(StringItems(ss)) == Some(ss)
  {
    if ss != [] {
      StringsOfItems(ss[1..]);
      assert StringItems(ss)[1..] == StringItems(ss[1..]);
      assert [ss[0]] + ss[1..] == ss;
    }
  }

  /** `JSON.stringify(userData)`'s object: `profile` is omitted when undefined. */
  function UserToJson(u: UserData): Json {
    JObj([Member("id", JStr(u.id)), Member("username", JStr(u.username)), Member("email", JStr(u.email)),
          Member("roles", JArr(StringItems(u.roles)))]
         + (if u.profile.Some? then [Member("profile", u.profile.value)] else []))
  }

  /**
   * Reads a parsed value as a `UserData` record, the way every consumer of the
   * record sees it: `id`, `username`, `email` and `profile` are copied and a
   * falsy `roles` is the empty list (`roles || []`).  A value without string
   * `id`/`username`/`email`, or with truthy `roles` that are not an array of
   * strings, is not a user record (`None`).
   */
  function UserFromJson(j: Json): (u: Option<UserData>)
    ensures u.Some? <==>
      GetString(j, "id").Some? && GetString(j, "username").Some? && GetString(j, "email").Some? &&
      (Get(j, "roles").None? || !Truthy(Get(j, "roles").value) ||
       (Get(j, "roles").value.JArr? && StringsOf(Get(j, "roles").value.items).Some?))
    ensures u.Some? ==> GetString(j, "id") == Some(u.value.id) && GetString(j, "username") == Some(u.value.username) &&
                        GetString(j, "email") == Some(u.value.email) && u.value.profile == Get(j, "profile")
    ensures u.Some? && !(Get(j, "roles").Some? && Truthy(Get(j, "roles").value)) ==> u.value.roles == []
    ensures u.Some? && Get(j, "roles").Some? && Truthy(Get(j, "roles").value) ==>
      Get(j, "roles") == Some(JArr(StringItems(u.value.roles)))
  {
    var id := GetString(j, "id");
    var name := GetString(j, "username");
    var email := GetString(j, "email");
    var roles := Get(j, "roles");
    if id.None? || name.None? || email.None? then None
    else if roles.None? || !Truthy(roles.value) then Some(UserData(id.value, name.value, email.value, [], Get(j, "profile")))
    else if !roles.value.JArr? then None
    else
      match StringsOf(roles.value.items)
      case Some(rs) =>
        StringsOfInverse(roles.value.items);
        Some(UserData(id.value, name.value, email.value, rs, Get(j, "profile")))
      case None => None
  }

  lemma {:induction false} StringsOfInverse(items: seq<Json>)
    requires StringsOf(items).Some?
    ensures StringItems(StringsOf(items).value) == items
  {
    if items != [] {
      StringsOfInverse(items[1..]);
      assert items == [items[0]] + items[1..];
    }
  }

  /** The four fixed members of a saved record are found under their own names. */
  lemma UserJsonFields(u: UserData)
    ensures Get(UserToJson(u), "id") == Some(JStr(u.id))
    ensures Get(UserToJson(u), "username") == Some(JStr(u.username))
    ensures Get(UserToJson(u), "email") == Some(JStr(u.email))
    ensures Get(UserToJson(u), "roles") == Some(JArr(StringItems(u.roles)))
  {
    var ms := UserToJson(u).members;
    assert ms[0].key == "id" && ms[1].key == "username" && ms[2].key == "email" && ms[3].key == "roles";
    assert |ms| <= 5 && (|ms| == 5 ==> ms[4].key == "profile");
    LookupLast(ms, 0, "id");
    LookupLast(ms, 1, "username");
    LookupLast(ms, 2, "email");
    LookupLast(ms, 3, "roles");
  }

  /** The optional `profile` member is found exactly when it was written. */
  lemma UserJsonProfile(u: UserData)
    ensures Get(UserToJson(u), "profile") == u.profile
  {
    var ms := UserToJson(u).members;
    assert ms[0].key == "id" && ms[1].key == "username" && ms[2].key == "email" && ms[3].key == "roles";
    if u.profile.Some? {
      assert |ms| == 5 && ms[4].key == "profile";
      LookupLast(ms, 4, "profile");
    } else {
      assert |ms| == 4;
      assert forall m :: m in ms ==> m.key != "profile";
    }
  }

  /** A saved user record reads back as the same record, field for field. */
  lemma UserJsonRoundTrip(u: UserData)
    ensures UserFromJson(UserToJson(u)) == Some(u)
  {
    UserJsonFields(u);
    UserJsonProfile(u);
    StringsOfItems(u.roles);
  }

  method SaveUserData(ls: LocalStorage, userData: UserData)
    modifies ls
    ensures ls.items == old(ls.items)[UserDataKey := Serialize(UserToJson(userData))]
    ensures GetUserData(ls) == Some(userData)
  {
    ls.SetItem(UserDataKey, Serialize(UserToJson(userData)));
    UserJsonRoundTrip(userData);
    ReadStoredSerialized(UserToJson(userData));
  }

  /** `getUserData`: `None` when the entry is absent or empty, does not parse, or is not shaped like a user record. */
  function GetUserData(ls: LocalStorage): (u: Option<UserData>)
    reads ls
    ensures (UserDataKey !in ls.items || ls.items[UserDataKey] == "") ==> u.None?
    ensures u.Some? ==> exists j :: Serialize(j) == ls.items[UserDataKey] && UserFromJson(j) == u
  {
    match ReadStored(ls.GetItem(UserDataKey))
    case None => None
    case Some(j) => UserFromJson(j)
  }

  // ---------------------------------------------------------------------------
  // Role-based landing route

  /**
   * `getRoleDefaultRoute`: the first rule that matches wins — `admin`, then
   * `student`, then `instructor` or `facilitator`, then `school_admin`;
   * everything else, the empty list included, lands on the guardian route.
   */
  function RoleDefaultRoute(roles: seq<string>): (route: string)
    ensures route in DashboardRoutes
    ensures Admin in roles ==> route == AdminDashboard
    ensures Admin !in roles && Student in roles ==> route == StudentDashboard
    ensures Admin !in roles && Student !in roles && (Instructor in roles || Facilitator in roles) ==>
      route == TeacherDashboard
    ensures (Admin !in roles && Student !in roles && Instructor !in roles && Facilitator !in roles &&
             SchoolAdmin in roles) ==> route == SchoolDashboard
    ensures (Admin !in roles && Student !in roles && Instructor !in roles && Facilitator !in roles &&
             SchoolAdmin !in roles) ==> route == GuardianDashboard
  {
    if |roles| == 0 then GuardianDashboard
    else if Admin in roles then AdminDashboard
    else if Student in roles then StudentDashboard
    else if Instructor in roles || Facilitator in roles then TeacherDashboard
    else if SchoolAdmin in roles then SchoolDashboard
    else GuardianDashboard
  }

  /** The landing route of a single role. */
  function RouteOfRole(role: string): string {
    if role == Admin then AdminDashboard
    else if role == Student then StudentDashboard
    else if role == Instructor || role == Facilitator then TeacherDashboard
    else if role == SchoolAdmin then SchoolDashboard
    else GuardianDashboard
  }

  /** Rank of a landing route in the priority order; 0 is the highest. */
  function RouteRank(route: string): nat {
    if route == AdminDashboard then 0
    else if route == StudentDashboard then 1
    else if route == TeacherDashboard then 2
    else if route == SchoolDashboard then 3
    else 4
  }

  /**
   * Reference definition: fold the roles one at a time, keeping the route of
   * higher priority; the fold starts from the guardian route.
   */
  function HighestPriorityRoute(roles: seq<string>): string {
    if roles == [] then GuardianDashboard
    else
      var here := RouteOfRole(roles[0]);
      var others := HighestPriorityRoute(roles[1..]);
      if RouteRank(here) <= RouteRank(others) then here else others
  }

  /** `getRoleDefaultRoute` picks the landing route of the user's highest-priority role. */
  lemma {:induction false} RoleDefaultRouteIsHighestPriority(roles: seq<string>)
    ensures RoleDefaultRoute(roles) == HighestPriorityRoute(roles)
  {
    if roles != [] {
      RoleDefaultRouteIsHighestPriority(roles[1..]);
      assert forall x :: x in roles <==> x == roles[0] || x in roles[1..];
    }
  }

  /**
   * The route depends only on which roles are held: reordering the list or
   * repeating a role does not change it.
   */
  lemma RoleDefaultRouteIgnoresOrder(a: seq<string>, b: seq<string>)
    requires forall x :: x in a <==> x in b
    ensures RoleDefaultRoute(a) == RoleDefaultRoute(b)
  {
  }

  /** In particular, any permutation of the role list gives the same route. */
  lemma RoleDefaultRoutePermutation(a: seq<string>, b: seq<string>)
    requires multiset(a) == multiset(b)
    ensures RoleDefaultRoute(a) == RoleDefaultRoute(b)
  {
    assert forall x :: x in a <==> x in multiset(a);
    assert forall x :: x in b <==> x in multiset(b);
    RoleDefaultRouteIgnoresOrder(a, b);
  }

  // ---------------------------------------------------------------------------
  // Session checks

  /** `hasAuthTokens`: both tokens are stored and non-empty. */
  function HasAuthTokens(ls: LocalStorage): (has: bool)
    reads ls
    ensures has <==> AccessTokenKey in ls.items && ls.items[AccessTokenKey] != "" &&
                     RefreshTokenKey in ls.items && ls.items[RefreshTokenKey] != ""
  {
    NonEmpty(GetAccessToken(ls)) && NonEmpty(GetRefreshToken(ls))
  }

  /** `isSessionValid`: a stored, non-empty access token that has not expired. */
  function IsSessionValid(decode: Decoder, ls: LocalStorage, nowMs: int): (valid: bool)
    reads ls
    ensures !NonEmpty(GetAccessToken(ls)) ==> !valid
    ensures NonEmpty(GetAccessToken(ls)) ==> (valid <==> !IsTokenExpired(decode, ls.items[AccessTokenKey], nowMs))
    ensures valid ==> decode(ls.items[AccessTokenKey]).Some?
  {
    var token := GetAccessToken(ls);
    if !NonEmpty(token) then false else !IsTokenExpired(decode, token.value, nowMs)
  }
}
