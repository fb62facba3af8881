/** The older single-entry session store: one JSON record under the key `auth`. */
module AuthStore {
  import opened Wrappers
  import opened Json
  import opened WebStorage

  const AuthKey := "auth"

  /** `UserRole` of the single-entry store (also the roles the demo login page infers). */
  datatype Role = StudentRole | TeacherRole | SchoolRole | GuardianRole

  function RoleName(role: Role): string {
    match role
    case StudentRole => "student"
    case TeacherRole => "teacher"
    case SchoolRole => "school"
    case GuardianRole => "guardian"
  }

  function RoleNamed(name: string): (r: Option<Role>)
    ensures r.Some? ==> RoleName(r.value) == name
  {
    if name == "student" then Some(StudentRole)
    else if name == "teacher" then Some(TeacherRole)
    else if name == "school" then Some(SchoolRole)
    else if name == "guardian" then Some(GuardianRole)
    else None
  }

  /** Role names are distinct: each name reads back as its role. */
  lemma RoleNameRoundTrip(role: Role)
    ensures RoleNamed(RoleName(role)) == Some(role)
  {
  }

  /** `UserAuth`: `name` is optional. */
  datatype UserAuth = UserAuth(email: string, role: Role, name: Option<string>)

  /** `JSON.stringify(auth)`'s object: `name` is omitted when undefined. */
  function AuthToJson(a: UserAuth): Json {
    JObj([Member("email", JStr(a.email)), Member("role", JStr(RoleName(a.role)))]
         + (if a.name.Some? then [Member("name", JStr(a.name.value))] else []))
  }

  /** Reads a parsed value as a `UserAuth` record; a value of another shape gives `None`. */
  function AuthFromJson(j: Json): Option<UserAuth> {
    var email := GetString(j, "email");
    var role := GetString(j, "role");
    var name := Get(j, "name");
    if email.None? || role.None? || RoleNamed(role.value).None? then None
    else if name.None? then Some(UserAuth(email.value, RoleNamed(role.value).value, None))
    else if name.value.JStr? then Some(UserAuth(email.value, RoleNamed(role.value).value, Some(name.value.s)))
    else None
  }

  lemma AuthJsonFields(a: UserAuth)
    ensures Get(AuthToJson(a), "email") == Some(JStr(a.email))
    ensures Get(AuthToJson(a), "role") == Some(JStr(RoleName(a.role)))
    ensures Get(AuthToJson(a), "name") == if a.name.Some? then Some(JStr(a.name.value)) else None
  {
    var ms := AuthToJson(a).members;
    assert ms[0].key == "email" && ms[1].key == "role";
    assert |ms| <= 3 && (|ms| == 3 ==> ms[2].key == "name");
    LookupLast(ms, 0, "email");
    LookupLast(ms, 1, "role");
    if a.name.Some? {
      LookupLast(ms, 2, "name");
    } else {
      assert forall m :: m in ms ==> m.key != "name";
    }
  }

  /** A stored record reads back as the same record. */
  lemma AuthJsonRoundTrip(a: UserAuth)
    ensures AuthFromJson(AuthToJson(a)) == Some(a)
  {
    AuthJsonFields(a);
    RoleNameRoundTrip(a.role);
  }

  /** `setAuth`: writes the `auth` entry only. */
  method SetAuth(ls: LocalStorage, auth: UserAuth)
    modifies ls
    ensures ls.items == old(ls.items)[AuthKey := Serialize(AuthToJson(auth))]
    ensures GetAuth(ls) == Some(auth)
  {
    ls.SetItem(AuthKey, Serialize(AuthToJson(auth)));
    AuthJsonRoundTrip(auth);
    ReadStoredSerialized(AuthToJson(auth));
  }

  /** `getAuth`: `None` when the entry is absent or empty, or does not parse (the parse error is caught). */
  function GetAuth(ls: LocalStorage): (a: Option<UserAuth>)
    reads ls
    ensures (AuthKey !in ls.items || ls.items[AuthKey] == "") ==> a.None?
    ensures AuthKey in ls.items && Parse(ls.items[AuthKey]).None? ==> a.None?
    ensures a.Some? ==> exists j :: Serialize(j) == ls.items[AuthKey] && AuthFromJson(j) == a
  {
    match ReadStored(ls.GetItem(AuthKey))
    case None => None
    case Some(j) => AuthFromJson(j)
  }

  /** `clearAuth`: removes the `auth` entry only. */
  method ClearAuth(ls: LocalStorage)
    modifies ls
    ensures ls.items == old(ls.items) - {AuthKey}
    ensures GetAuth(ls).None?
  {
    ls.RemoveItem(AuthKey);
  }
}
