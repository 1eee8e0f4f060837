/** The sign-up screen (screens/Signup/Signup.js): the username, e-mail and
    password-length rules, the password/confirmation mismatch rule, the
    derived "submit disabled" flag, and the sign-up request.

    The handlers are pure transitions on `State`; `SignupScreen` holds the
    same fields and its methods are proved to perform those transitions.
    React's effect on `isButtonDisabled` is modelled as running at the end of
    a handler whenever one of its dependencies changed in that handler
    (`Settle`). */
module Signup {
  import opened Js
  import opened Http
  import Email

  const InvalidEmailMessage: string := "Invalid email format"
  const InvalidUsernameMessage: string := "Invalid username format"
  const MismatchMessage: string := "Passwords do not match"
  const ShortPasswordMessage: string := "Password must be 8 characters long."

  // ---------------------------------------------------------------------
  // Validators
  // ---------------------------------------------------------------------

  /** `/^[a-zA-Z0-9_]{4,16}$/` */
  predicate ValidUsername(u: string) {
    4 <= |u| <= 16 && All(u, Word)
  }

  lemma ValidUsernameIff(u: string)
    ensures ValidUsername(u) <==> 4 <= |u| <= 16 && forall i :: 0 <= i < |u| ==> IsWordChar(u[i])
  {
    AllIff(u, Word);
  }

  /** `/^.{8,}$/`: at least 8 UTF-16 code units and no line terminator. */
  predicate ValidPasswordStrength(p: string) {
    CodeUnits(p) >= 8 && !Contains(p, LineTerminator)
  }

  lemma ValidPasswordStrengthIff(p: string)
    ensures ValidPasswordStrength(p) <==> CodeUnits(p) >= 8 && forall i :: 0 <= i < |p| ==> !IsLineTerminator(p[i])
  {
    ContainsIff(p, LineTerminator);
  }

  /** `.` counts code units: four characters outside the Basic Multilingual
      Plane make a strong enough password, while four ASCII letters do not. */
  lemma AstralCharactersCountTwice()
    ensures ValidPasswordStrength("\U{1F600}\U{1F600}\U{1F600}\U{1F600}")
    ensures !ValidPasswordStrength("abcd")
  {
    var p := "\U{1F600}\U{1F600}\U{1F600}\U{1F600}";
    assert CodeUnits(p[3..]) == 2;
    assert CodeUnits(p[2..]) == 2 + CodeUnits(p[2..][1..]);
    assert p[2..][1..] == p[3..];
    assert p[1..][1..] == p[2..];
    assert p[1..] == p[1..][..] && CodeUnits(p[1..]) == 2 + CodeUnits(p[1..][1..]);
    assert CodeUnits(p) == 2 + CodeUnits(p[1..]);
    ContainsIff(p, LineTerminator);
  }

  /** The mismatch message when `typed` has just been entered and `other` is
      the other field: set only if the other field is non-empty and differs. */
  function MismatchError(other: string, typed: string): (e: string)
    ensures e != "" <==> other != "" && other != typed
    ensures e == "" || e == MismatchMessage
  {
    if other != "" && other != typed then MismatchMessage else ""
  }

  // ---------------------------------------------------------------------
  // Screen state and handlers
  // ---------------------------------------------------------------------

  datatype State = State(
    email: string, password: string, confirmPassword: string, username: string,
    passwordMatchError: string, passwordStrengthError: string,
    emailError: Option<string>, usernameError: string,
    isButtonDisabled: bool, isLoading: bool)

  /** The dependency list of the effect that computes `isButtonDisabled`. */
  datatype Deps = Deps(
    emailError: Option<string>, username: string, passwordMatchError: string,
    passwordStrengthError: string, email: string, password: string, confirmPassword: string)

  function DepsOf(s: State): Deps {
    Deps(s.emailError, s.username, s.passwordMatchError, s.passwordStrengthError,
         s.email, s.password, s.confirmPassword)
  }

  /** The effect's value: disabled when an e-mail, match or strength error is
      showing or a field is empty. `usernameError` is not among them. */
  predicate Disabled(d: Deps) {
    || Truthy(d.emailError)
    || d.passwordMatchError != ""
    || d.passwordStrengthError != ""
    || d.email == ""
    || d.password == ""
    || d.confirmPassword == ""
    || d.username == ""
  }

  /** The end of a handler: the effect runs if a dependency changed. */
  function Settle(before: State, after: State): (r: State)
    ensures r == after.(isButtonDisabled := r.isButtonDisabled)
    ensures DepsOf(after) != DepsOf(before) ==> r.isButtonDisabled == Disabled(DepsOf(after))
    ensures DepsOf(after) == DepsOf(before) ==> r.isButtonDisabled == after.isButtonDisabled
  {
    if DepsOf(after) != DepsOf(before) then after.(isButtonDisabled := Disabled(DepsOf(after))) else after
  }

  /** Once no request is pending the button shows the effect's value; while
      one is pending the button is disabled and the form (which the handlers
      do not change while loading) is complete and error-free. */
  ghost predicate Valid(s: State) {
    && (!s.isLoading ==> s.isButtonDisabled == Disabled(DepsOf(s)))
    && (s.isLoading ==> s.isButtonDisabled && !Disabled(DepsOf(s)))
  }

  function Initial(): (s: State)
    ensures Valid(s) && s.isButtonDisabled && !s.isLoading
  {
    State("", "", "", "", "", "", Some(""), "", true, false)
  }

  function EmailChanged(s: State, email: string): (r: State)
    requires Valid(s)
    ensures Valid(r)
    ensures s.isLoading ==> r == s
    ensures !s.isLoading ==> r.email == email && (r.emailError == Some("") <==> Email.ValidEmail(email))
    ensures !s.isLoading ==> r == s.(email := email, emailError := r.emailError, isButtonDisabled := r.isButtonDisabled)
  {
    if s.isLoading then s
    else Settle(s, s.(email := email, emailError := Some(if Email.ValidEmail(email) then "" else InvalidEmailMessage)))
  }

  function UsernameChanged(s: State, username: string): (r: State)
    requires Valid(s)
    ensures Valid(r)
    ensures s.isLoading ==> r == s
    ensures !s.isLoading ==> r.username == username && (r.usernameError == "" <==> ValidUsername(username))
    ensures !s.isLoading ==> r == s.(username := username, usernameError := r.usernameError, isButtonDisabled := r.isButtonDisabled)
  {
    if s.isLoading then s
    else Settle(s, s.(username := username, usernameError := if ValidUsername(username) then "" else InvalidUsernameMessage))
  }

  function PasswordChanged(s: State, password: string): (r: State)
    requires Valid(s)
    ensures Valid(r)
    ensures s.isLoading ==> r == s
    ensures !s.isLoading ==> r.password == password
    ensures !s.isLoading ==> (r.passwordMatchError != "" <==> s.confirmPassword != "" && s.confirmPassword != password)
    ensures !s.isLoading ==> (r.passwordStrengthError == "" <==> ValidPasswordStrength(password))
    ensures !s.isLoading ==> r == s.(password := password, passwordMatchError := r.passwordMatchError,
                                     passwordStrengthError := r.passwordStrengthError, isButtonDisabled := r.isButtonDisabled)
  {
    if s.isLoading then s
    else Settle(s, s.(password := password,
                      passwordMatchError := MismatchError(s.confirmPassword, password),
                      passwordStrengthError := if ValidPasswordStrength(password) then "" else ShortPasswordMessage))
  }

  function ConfirmChanged(s: State, confirmPassword: string): (r: State)
    requires Valid(s)
    ensures Valid(r)
    ensures s.isLoading ==> r == s
    ensures !s.isLoading ==> r.confirmPassword == confirmPassword
    ensures !s.isLoading ==> (r.passwordMatchError != "" <==> s.password != "" && s.password != confirmPassword)
    ensures !s.isLoading ==> r == s.(confirmPassword := confirmPassword, passwordMatchError := r.passwordMatchError,
                                     isButtonDisabled := r.isButtonDisabled)
  {
    if s.isLoading then s
    else Settle(s, s.(confirmPassword := confirmPassword,
                      passwordMatchError := MismatchError(s.password, confirmPassword)))
  }

  /** A press on Sign Up: hidden while loading, inert while disabled. */
  function Pressed(s: State): (r: State)
    requires Valid(s)
    ensures Valid(r)
    ensures r.isLoading <==> (s.isLoading || !s.isButtonDisabled)
    ensures !s.isLoading && !s.isButtonDisabled ==> r == s.(isLoading := true, isButtonDisabled := true)
    ensures s.isLoading || s.isButtonDisabled ==> r == s
  {
    if s.isLoading || s.isButtonDisabled then s
    else s.(isLoading := true, isButtonDisabled := true)
  }

  /** The `catch` chain: 400 shows the server's message, otherwise a request
      gives the server-side message and anything else the generic one. */
  function FailureMessage(response: Option<Response>, hasRequest: bool): (m: Option<string>)
    ensures HasStatus(response, 400) ==> m == response.value.errorField
    ensures !HasStatus(response, 400) && hasRequest ==> m == Some(ServerSideError)
    ensures !HasStatus(response, 400) && !hasRequest ==> m == Some(GenericError)
  {
    if HasStatus(response, 400) then response.value.errorField
    else if hasRequest then Some(ServerSideError)
    else Some(GenericError)
  }

  /** The sign-up call settles: the new state and the route. */
  function Answered(s: State, o: Outcome<()>): (r: (State, Route))
    requires Valid(s) && s.isLoading
    ensures Valid(r.0)
    ensures !r.0.isLoading
    ensures r.1 == if o.Ok? && o.status == 200 then Verify(s.email, "signup") else Stay
    ensures r.0.emailError == if o.Failed? then FailureMessage(o.response, o.hasRequest) else s.emailError
    ensures r.0.isButtonDisabled <==> Truthy(r.0.emailError)
    ensures r.0 == s.(emailError := r.0.emailError, isLoading := false, isButtonDisabled := r.0.isButtonDisabled)
  {
    var emailError := if o.Failed? then FailureMessage(o.response, o.hasRequest) else s.emailError;
    var route := if o.Ok? && o.status == 200 then Verify(s.email, "signup") else Stay;
    (Settle(s, s.(emailError := emailError, isLoading := false, isButtonDisabled := false)), route)
  }

  /** Filling the four fields in the order the form shows them (username,
      e-mail, password, confirmation) enables the button exactly when the
      e-mail is valid, the password has at least 8 UTF-16 code units and no line
      terminator, the two passwords agree and the username is non-empty; the
      username's own format plays no part. */
  lemma FilledFormEnablesIff(username: string, email: string, password: string, confirm: string)
    ensures var s := ConfirmChanged(PasswordChanged(EmailChanged(UsernameChanged(Initial(), username), email), password), confirm);
      !s.isButtonDisabled <==>
        && username != "" && Email.ValidEmail(email) && ValidPasswordStrength(password)
        && confirm == password && email != ""
  {
    var s1 := UsernameChanged(Initial(), username);
    var s2 := EmailChanged(s1, email);
    var s3 := PasswordChanged(s2, password);
    var s4 := ConfirmChanged(s3, confirm);
    assert s1.username == username && s2.username == username && s3.username == username;
    assert s2.email == email && s3.email == email && s4.email == email;
    assert s3.password == password && s4.password == password;
    assert s3.passwordMatchError == "";
    assert s4.passwordStrengthError == s3.passwordStrengthError;
    assert s4.emailError == s3.emailError == s2.emailError;
    if email != "" && Email.ValidEmail(email) {
      assert s2.emailError == Some("");
    }
    if ValidPasswordStrength(password) {
      assert password != "";
    }
  }

  /** The e-mail of the example below passes the e-mail check. */
  lemma ExampleEmailValid()
    ensures Email.ValidEmail("a@b.co")
  {
    var e := "a@b.co";
    Email.ValidEmailIffPattern(e);
    assert e[..1] == "a" && e[2..3] == "b" && e[4..] == "co";
    assert Email.MatchesPattern(e);
  }

  /** The password of the example below passes the strength check. */
  lemma ExamplePasswordStrong()
    ensures ValidPasswordStrength("password")
  {
    var p := "password";
    assert CodeUnits(p) >= |p| == 8;
    ContainsIff(p, LineTerminator);
  }

  /** An invalid username does not keep the button disabled. */
  lemma InvalidUsernameCanSubmit()
    ensures var s := ConfirmChanged(PasswordChanged(EmailChanged(UsernameChanged(Initial(), "ab"), "a@b.co"), "password"), "password");
      !ValidUsername("ab") && s.usernameError == InvalidUsernameMessage && !s.isButtonDisabled
  {
    ExampleEmailValid();
    ExamplePasswordStrong();
    FilledFormEnablesIff("ab", "a@b.co", "password", "password");
  }

  // ---------------------------------------------------------------------
  // The screen as a mutable object
  // ---------------------------------------------------------------------

  class SignupScreen {
    var email: string
    var password: string
    var confirmPassword: string
    var username: string
    var passwordMatchError: string
    var passwordStrengthError: string
    var emailError: Option<string>
    var usernameError: string
    var isButtonDisabled: bool
    var isLoading: bool

    function Current(): State
      reads this
    {
      State(email, password, confirmPassword, username, passwordMatchError, passwordStrengthError,
            emailError, usernameError, isButtonDisabled, isLoading)
    }

    constructor ()
      ensures Current() == Initial()
    {
      email, password, confirmPassword, username := "", "", "", "";
      passwordMatchError, passwordStrengthError := "", "";
      emailError, usernameError := Some(""), "";
      isButtonDisabled, isLoading := true, false;
    }

    /** The effect on `isButtonDisabled`, run if a dependency changed since
      `before`. */
    method RunEffect(before: State)
      modifies this`isButtonDisabled
      ensures Current() == Settle(before, old(Current()))
    {
      if DepsOf(Current()) != DepsOf(before) {
        isButtonDisabled := Disabled(DepsOf(Current()));
      }
    }

    method HandleEmailChange(v: string)
      requires Valid(Current())
      modifies this
      ensures Current() == EmailChanged(old(Current()), v)
    {
      if !isLoading {
        var before := Current();
        email := v;
        if !Email.ValidEmail(v) {
          emailError := Some(InvalidEmailMessage);
        } else {
          emailError := Some("");
        }
        RunEffect(before);
      }
    }

    method HandleUsernameChange(v: string)
      requires Valid(Current())
      modifies this
      ensures Current() == UsernameChanged(old(Current()), v)
    {
      if !isLoading {
        var before := Current();
        username := v;
        if !ValidUsername(v) {
          usernameError := InvalidUsernameMessage;
        } else {
          usernameError := "";
        }
        RunEffect(before);
      }
    }

    method HandlePasswordChange(v: string)
      requires Valid(Current())
      modifies this
      ensures Current() == PasswordChanged(old(Current()), v)
    {
      if !isLoading {
        var before := Current();
        password := v;
        if confirmPassword != "" && confirmPassword != v {
          passwordMatchError := MismatchMessage;
        } else {
          passwordMatchError := "";
        }
        if !ValidPasswordStrength(v) {
          passwordStrengthError := ShortPasswordMessage;
        } else {
          passwordStrengthError := "";
        }
        RunEffect(before);
      }
    }

    method HandleConfirmPasswordChange(v: string)
      requires Valid(Current())
      modifies this
      ensures Current() == ConfirmChanged(old(Current()), v)
    {
      if !isLoading {
        var before := Current();
        confirmPassword := v;
        if password != "" && password != v {
          passwordMatchError := MismatchMessage;
        } else {
          passwordMatchError := "";
        }
        RunEffect(before);
      }
    }

    /** The first half of `handleSubmit`, up to the request. */
    method BeginSubmit() returns (issued: bool)
      requires Valid(Current())
      modifies this
      ensures issued == (!old(isLoading) && !old(isButtonDisabled))
      ensures Current() == Pressed(old(Current()))
    {
      issued := !isLoading && !isButtonDisabled;
      if issued {
        isLoading := true;
        isButtonDisabled := true;
      }
    }

    /** The rest of `handleSubmit`, once the request settles with `o`. */
    method FinishSubmit(o: Outcome<()>) returns (route: Route)
      requires Valid(Current()) && isLoading
      modifies this
      ensures (Current(), route) == Answered(old(Current()), o)
    {
      var before := Current();
      route := Stay;
      match o {
        case Ok(status, _) =>
          if status == 200 {
            isLoading := false;
            isButtonDisabled := false;
            route := Verify(email, "signup");
          }
        case Failed(response, hasRequest) =>
          emailError := FailureMessage(response, hasRequest);
      }
      // finally
      isLoading := false;
      isButtonDisabled := false;
      RunEffect(before);
    }
  }
}
