/** The demo login page: it routes by a role guessed from the email address. */
module LoginPage {
  import opened Wrappers
  import opened Navigation
  import opened AuthStore

  const MissingFieldsMessage := "Please enter email and password."

  /** Lower-cases one character; only `A`..`Z` change. */
  function LowerChar(c: char): char {
    if 'A' <= c <= 'Z' then (c as int + 32) as char else c
  }

  /** `toLowerCase()`, character by character. */
  function ToLower(s: string): (r: string)
    ensures |r| == |s|
    ensures forall i :: 0 <= i < |s| ==> r[i] == LowerChar(s[i])
  {
    if s == [] then [] else [LowerChar(s[0])] + ToLower(s[1..])
  }

  /** Lower-casing twice is lower-casing once. */
  lemma ToLowerIdempotent(s: string)
    ensures ToLower(ToLower(s)) == ToLower(s)
  {
    assert forall i :: 0 <= i < |s| ==> LowerChar(LowerChar(s[i])) == LowerChar(s[i]);
  }

  /** `s.includes(sub)`, scanning from the front. */
  function Contains(s: string, sub: string): bool
    decreases |s|
  {
    (|sub| <= |s| && s[..|sub|] == sub) || (s != [] && Contains(s[1..], sub))
  }

  /** `sub` occurs in `s` starting at position `i`. */
  predicate OccursAt(s: string, sub: string, i: int) {
    0 <= i && i + |sub| <= |s| && s[i..i + |sub|] == sub
  }

  /** `includes` holds exactly when `sub` occurs at some position. */
  lemma {:induction false} ContainsIffOccurs(s: string, sub: string)
    ensures Contains(s, sub) <==> exists i :: OccursAt(s, sub, i)
    decreases |s|
  {
    if |sub| <= |s| && s[..|sub|] == sub {
      assert OccursAt(s, sub, 0);
    }
    if s != [] {
      ContainsIffOccurs(s[1..], sub);
      if Contains(s[1..], sub) {
        var j :| OccursAt(s[1..], sub, j);
        assert s[j + 1..j + 1 + |sub|] == s[1..][j..j + |sub|];
        assert OccursAt(s, sub, j + 1);
      }
      if exists i :: OccursAt(s, sub, i) {
        var i :| OccursAt(s, sub, i);
        if i > 0 {
          assert s[1..][i - 1..i - 1 + |sub|] == s[i..i + |sub|];
          assert OccursAt(s[1..], sub, i - 1);
        }
      }
    } else if exists i :: OccursAt(s, sub, i) {
      var i :| OccursAt(s, sub, i);
      assert |sub| == 0;
    }
  }

  /**
   * `inferRoleFromEmail`: on the lower-cased address, `student`, `.stu` or
   * `+stu` first, then `teacher` or `+tch`, then `school` or `+sch`;
   * anything else is a guardian.
   */
  function InferRoleFromEmail(email: string): (role: Role)
    ensures var e := ToLower(email);
      (Contains(e, "student") || Contains(e, ".stu") || Contains(e, "+stu") ==> role == StudentRole) &&
      (role == TeacherRole <==>
         !(Contains(e, "student") || Contains(e, ".stu") || Contains(e, "+stu")) &&
         (Contains(e, "teacher") || Contains(e, "+tch"))) &&
      (role == SchoolRole <==>
         !(Contains(e, "student") || Contains(e, ".stu") || Contains(e, "+stu")) &&
         !(Contains(e, "teacher") || Contains(e, "+tch")) && (Contains(e, "school") || Contains(e, "+sch"))) &&
      (role == GuardianRole <==>
         !(Contains(e, "student") || Contains(e, ".stu") || Contains(e, "+stu")) &&
         !(Contains(e, "teacher") || Contains(e, "+tch")) && !(Contains(e, "school") || Contains(e, "+sch")))
  {
    var e := ToLower(email);
    if Contains(e, "student") || Contains(e, ".stu") || Contains(e, "+stu") then StudentRole
    else if Contains(e, "teacher") || Contains(e, "+tch") then TeacherRole
    else if Contains(e, "school") || Contains(e, "+sch") then SchoolRole
    else GuardianRole
  }

  /** The guess ignores case: addresses equal up to case get the same role. */
  lemma InferRoleIgnoresCase(a: string, b: string)
    requires ToLower(a) == ToLower(b)
    ensures InferRoleFromEmail(a) == InferRoleFromEmail(b)
  {
  }

  /** In particular, lower-casing the address first changes nothing. */
  lemma InferRoleOfLowered(email: string)
    ensures InferRoleFromEmail(ToLower(email)) == InferRoleFromEmail(email)
  {
    ToLowerIdempotent(email);
    InferRoleIgnoresCase(ToLower(email), email);
  }

  /** Any address with `student` somewhere in it, in any case, is a student. */
  lemma StudentMarkerWins(local: string, domain: string)
    ensures InferRoleFromEmail(local + "student" + domain) == StudentRole
  {
    var email := local + "student" + domain;
    var e := ToLower(email);
    forall k | 0 <= k < 7
      ensures e[|local| + k] == "student"[k]
    {
      assert email[|local| + k] == "student"[k];
    }
    assert e[|local|..|local| + 7] == "student";
    assert OccursAt(e, "student", |local|);
    ContainsIffOccurs(e, "student");
  }

  /** `routeByRole`. */
  function RouteByRole(role: Role): (path: string)
    ensures path == "/" + RoleName(role)
  {
    match role
    case StudentRole => "/student"
    case TeacherRole => "/teacher"
    case SchoolRole => "/school"
    case GuardianRole => "/guardian"
  }

  /** Distinct roles go to distinct pages. */
  lemma RouteByRoleInjective(a: Role, b: Role)
    requires RouteByRole(a) == RouteByRole(b)
    ensures a == b
  {
    assert RoleName(a) == RouteByRole(a)[1..];
    RoleNameRoundTrip(a);
    RoleNameRoundTrip(b);
  }

  /** The login form's state. */
  class LoginForm {
    var email: string
    var password: string
    var error: Option<string>

    constructor ()
      ensures email == "" && password == "" && error.None?
    {
      email, password, error := "", "", None;
    }

    method SetEmail(value: string)
      modifies this
      ensures email == value && password == old(password) && error == old(error)
    {
      email := value;
    }

    method SetPassword(value: string)
      modifies this
      ensures password == value && email == old(email) && error == old(error)
    {
      password := value;
    }

    /**
     * `onSubmit`: the error is reset; an empty field sets the message and
     * nothing else happens; otherwise the router goes to the guessed role's
     * page, replacing the history entry.
     */
    method OnSubmit() returns (nav: Option<Navigate>)
      modifies this
      ensures email == old(email) && password == old(password)
      ensures (email == "" || password == "") ==> nav.None? && error == Some(MissingFieldsMessage)
      ensures email != "" && password != "" ==>
        error.None? && nav == Some(Navigate(RouteByRole(InferRoleFromEmail(email)), true, None))
    {
      error := None;
      if email == "" || password == "" {
        error := Some(MissingFieldsMessage);
        return None;
      }
      var role := InferRoleFromEmail(email);
      nav := Some(Navigate(RouteByRole(role), true, None));
    }
  }
}
