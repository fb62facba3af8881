/** The signup page: client-side validation, then the provider's `signup`. */
module SignupPage {
  import opened Wrappers
  import opened Json
  import opened Navigation
  import opened AuthApi
  import opened AuthContext

  const MissingFieldsMessage := "Please complete all fields."
  const ShortPasswordMessage := "Password must be at least 8 characters long."
  const MinPasswordLength := 8
  const AccountCreatedMessage := "Account created successfully! Please log in."

  /** The number of UTF-16 code units a character takes: two for one outside the Basic Multilingual Plane. */
  function Utf16Units(c: char): (n: nat)
    ensures n == 1 || n == 2
    ensures n == 2 <==> c >= '\U{10000}'
  {
    if c >= '\U{10000}' then 2 else 1
  }

  /** A JavaScript string's `length`: its UTF-16 code units, which is where it differs from `|s|`. */
  function Utf16Length(s: string): (n: nat)
    ensures |s| <= n <= 2 * |s|
    ensures n == |s| <==> forall i :: 0 <= i < |s| ==> s[i] < '\U{10000}'
  {
    if s == [] then 0 else Utf16Units(s[0]) + Utf16Length(s[1..])
  }

  /**
   * The form check: any empty field first, then a password shorter than
   * eight UTF-16 code units; `None` when the input may be sent.
   */
  function Validate(username: string, email: string, password: string): (problem: Option<string>)
    ensures problem.None? <==>
      username != "" && email != "" && password != "" && Utf16Length(password) >= MinPasswordLength
    ensures (username == "" || email == "" || password == "") ==> problem == Some(MissingFieldsMessage)
    ensures username != "" && email != "" && password != "" && Utf16Length(password) < MinPasswordLength ==>
      problem == Some(ShortPasswordMessage)
  {
    if username == "" || email == "" || password == "" then Some(MissingFieldsMessage)
    else if Utf16Length(password) < MinPasswordLength then Some(ShortPasswordMessage)
    else None
  }

  /** Four characters outside the Basic Multilingual Plane are eight code units: long enough. */
  lemma AstralPasswordAccepted(username: string, email: string)
    requires username != "" && email != ""
    ensures Validate(username, email, "\U{1F600}\U{1F600}\U{1F600}\U{1F600}").None?
  {
    var p := "\U{1F600}\U{1F600}\U{1F600}\U{1F600}";
    assert p[1..][1..][1..][1..] == [];
    assert Utf16Length(p[1..][1..][1..][1..]) == 0;
  }

  /** The empty-field check comes first: an empty password is reported as a missing field, not as too short. */
  lemma EmptyPasswordIsMissingField(username: string, email: string)
    ensures Validate(username, email, "") == Some(MissingFieldsMessage)
  {
  }

  /** The signup form's state, over the session provider it calls. */
  class SignupForm {
    const auth: AuthProvider
    var username: string
    var email: string
    var password: string
    var error: Option<string>
    var success: bool

    constructor (auth: AuthProvider)
      ensures this.auth == auth
      ensures username == "" && email == "" && password == "" && error.None? && !success
    {
      this.auth := auth;
      username, email, password := "", "", "";
      error, success := None, false;
    }

    method SetFields(username: string, email: string, password: string)
      modifies this
      ensures this.username == username && this.email == email && this.password == password
      ensures error == old(error) && success == old(success)
    {
      this.username, this.email, this.password := username, email, password;
    }

    /**
     * `onSubmit`: `error` and `success` are reset; input that fails the check
     * sets its message and calls nothing; otherwise `signup` is called once,
     * and on success `success` is set and a redirect to the login page is
     * scheduled (`scheduled`); a failure shows the error's message.
     */
    method OnSubmit(registered: Result<Json, Thrown>) returns (issued: seq<AuthCall>, scheduled: Option<Navigate>)
      requires auth.Valid()
      modifies this, auth
      ensures auth.Valid()
      ensures username == old(username) && email == old(email) && password == old(password)
      ensures Validate(username, email, password).Some? ==>
        issued == [] && scheduled.None? && !success && error == Validate(username, email, password) &&
        auth.user == old(auth.user) && auth.isLoading == old(auth.isLoading) && auth.error == old(auth.error)
      ensures Validate(username, email, password).None? ==>
        issued == [AuthApi.Signup(username, email, password)] && auth.user == old(auth.user)
      ensures Validate(username, email, password).None? && registered.Ok? ==>
        success && error.None? && scheduled == Some(Navigate(LoginPath, false, Some(AccountCreatedMessage)))
      ensures Validate(username, email, password).None? && registered.Err? ==>
        !success && error == Some(MessageOf(registered.error)) && scheduled.None?
    {
      error := None;
      success := false;
      var problem := Validate(username, email, password);
      if problem.Some? {
        error := problem;
        return [], None;
      }
      var thrown;
      issued, thrown := auth.Signup(username, email, password, registered);
      if thrown.None? {
        success := true;
        scheduled := Some(Navigate(LoginPath, false, Some(AccountCreatedMessage)));
      } else {
        error := Some(MessageOf(thrown.value));
        scheduled := None;
      }
    }
  }
}
