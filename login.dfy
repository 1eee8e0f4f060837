/** The log-in screen (screens/Login/Login.js): the e-mail and
    password-required rules, the derived "submit disabled" flag, the reset on
    losing focus, and the nested classification of a failed log-in.

    As in the Signup module, the handlers are pure transitions on `State`,
    React's effect on `isButtonDisabled` runs at the end of a handler whose
    dependencies changed, and `LoginScreen` is proved to perform the
    transitions. */
module Login {
  import opened Js
  import opened Http
  import Email

  const InvalidEmailMessage: string := "Invalid email format"
  const PasswordRequiredMessage: string := "Password is Required."

  /** The password rule: an error exactly when the password is empty. */
  function PasswordError(password: string): (e: string)
    ensures e == PasswordRequiredMessage <==> password == ""
    ensures e == "" <==> password != ""
  {
    if password == "" then PasswordRequiredMessage else ""
  }

  datatype State = State(
    email: string, password: string,
    emailError: Option<string>, passwordStrengthError: Option<string>,
    isButtonDisabled: bool, isLoading: bool)

  /** The dependency list of the effect that computes `isButtonDisabled`. */
  datatype Deps = Deps(emailError: Option<string>, email: string, passwordStrengthError: Option<string>, password: string)

  function DepsOf(s: State): Deps {
    Deps(s.emailError, s.email, s.passwordStrengthError, s.password)
  }

  /** The effect's value: disabled when either error shows or a field is empty. */
  predicate Disabled(d: Deps) {
    Truthy(d.emailError) || Truthy(d.passwordStrengthError) || d.email == "" || d.password == ""
  }

  function Settle(before: State, after: State): (r: State)
    ensures r == after.(isButtonDisabled := r.isButtonDisabled)
    ensures DepsOf(after) != DepsOf(before) ==> r.isButtonDisabled == Disabled(DepsOf(after))
    ensures DepsOf(after) == DepsOf(before) ==> r.isButtonDisabled == after.isButtonDisabled
  {
    if DepsOf(after) != DepsOf(before) then after.(isButtonDisabled := Disabled(DepsOf(after))) else after
  }

  /** A pending request always has its button disabled. */
  ghost predicate Valid(s: State) {
    s.isLoading ==> s.isButtonDisabled
  }

  /** The stronger invariant of a screen whose button matches its form. */
  ghost predicate Settled(s: State) {
    && (!s.isLoading ==> s.isButtonDisabled == Disabled(DepsOf(s)))
    && (s.isLoading ==> s.isButtonDisabled && !Disabled(DepsOf(s)))
  }

  function Initial(): (s: State)
    ensures Valid(s) && Settled(s) && s.isButtonDisabled && !s.isLoading
  {
    State("", "", Some(""), Some(""), true, false)
  }

  function EmailChanged(s: State, email: string): (r: State)
    requires Valid(s)
    ensures Valid(r) && (Settled(s) ==> Settled(r))
    ensures s.isLoading ==> r == s
    ensures !s.isLoading ==> r.email == email && (r.emailError == Some("") <==> Email.ValidEmail(email))
    ensures !s.isLoading ==> r == s.(email := email, emailError := r.emailError, isButtonDisabled := r.isButtonDisabled)
  {
    if s.isLoading then s
    else Settle(s, s.(email := email, emailError := Some(if Email.ValidEmail(email) then "" else InvalidEmailMessage)))
  }

  function PasswordChanged(s: State, password: string): (r: State)
    requires Valid(s)
    ensures Valid(r) && (Settled(s) ==> Settled(r))
    ensures s.isLoading ==> r == s
    ensures !s.isLoading ==> r.password == password && r.passwordStrengthError == Some(PasswordError(password))
    ensures !s.isLoading ==> r == s.(password := password, passwordStrengthError := r.passwordStrengthError,
                                     isButtonDisabled := r.isButtonDisabled)
  {
    if s.isLoading then s
    else Settle(s, s.(password := password, passwordStrengthError := Some(PasswordError(password))))
  }

  /** The 'blur' listener: both fields and both errors become empty, and the
      button is disabled unless the form was already blank. */
  function Blurred(s: State): (r: State)
    requires Valid(s)
    ensures Valid(r)
    ensures r.email == "" && r.password == "" && r.emailError == Some("") && r.passwordStrengthError == Some("")
    ensures r.isLoading == s.isLoading
    ensures DepsOf(s) != DepsOf(r) ==> r.isButtonDisabled
    ensures DepsOf(s) == DepsOf(r) ==> r == s
    ensures r == s.(email := "", password := "", emailError := Some(""), passwordStrengthError := Some(""),
                    isButtonDisabled := r.isButtonDisabled)
  {
    Settle(s, s.(email := "", password := "", emailError := Some(""), passwordStrengthError := Some("")))
  }

  /** A press on Log In: hidden while loading, inert while disabled. */
  function Pressed(s: State): (r: State)
    requires Valid(s)
    ensures Valid(r) && (Settled(s) ==> Settled(r))
    ensures r.isLoading <==> (s.isLoading || !s.isButtonDisabled)
    ensures s.isLoading || s.isButtonDisabled ==> r == s
    ensures !s.isLoading && !s.isButtonDisabled ==> r == s.(isLoading := true, isButtonDisabled := true)
  {
    if s.isLoading || s.isButtonDisabled then s
    else s.(isLoading := true, isButtonDisabled := true)
  }

  /** Which error field a failure writes, and what. */
  datatype ErrorUpdate = EmailField(msg: Option<string>) | PasswordField(msg: Option<string>)

  /** The nested chain: with a response, 404 puts the server message under
      the e-mail, 401 under the password, and any other status the generic
      message under the e-mail, without looking at the request; without a
      response, the request decides between the network message and the
      unexpected-error message. */
  function Classify(response: Option<Response>, hasRequest: bool): (u: ErrorUpdate)
    ensures u.PasswordField? <==> HasStatus(response, 401)
    ensures HasStatus(response, 404) ==> u == EmailField(response.value.errorField)
    ensures HasStatus(response, 401) ==> u == PasswordField(response.value.errorField)
    ensures response.Some? && response.value.status !in {404, 401} ==> u == EmailField(Some(GenericError))
    ensures response.None? && hasRequest ==> u == EmailField(Some(NetworkError))
    ensures response.None? && !hasRequest ==> u == EmailField(Some(UnexpectedError))
  {
    if response.Some? then
      if response.value.status == 404 then EmailField(response.value.errorField)
      else if response.value.status == 401 then PasswordField(response.value.errorField)
      else EmailField(Some(GenericError))
    else if hasRequest then EmailField(Some(NetworkError))
    else EmailField(Some(UnexpectedError))
  }

  /** The message `Classify` writes is the nested chain's; only the field
      differs, and it is the password field exactly on a 401. */
  lemma ClassifyFollowsNestedChain(response: Option<Response>, hasRequest: bool)
    ensures Classify(response, hasRequest).msg == NestedFailure(response, hasRequest)
  {
  }

  function Apply(s: State, u: ErrorUpdate): State {
    match u
    case EmailField(m) => s.(emailError := m)
    case PasswordField(m) => s.(passwordStrengthError := m)
  }

  /** The log-in call settles: loading ends, a failure writes one error
      field, and a 200 stores the token and goes Home. */
  function Answered(s: State, o: Outcome<string>): (r: (State, Route))
    requires Valid(s) && s.isLoading
    ensures Valid(r.0) && !r.0.isLoading
    ensures r.1 == if o.Ok? && o.status == 200 then Home(Some(o.data)) else Stay
    ensures o.Ok? ==> r.0 == s.(isLoading := false, isButtonDisabled := false)
    ensures o.Failed? ==> r.0 == Settle(s, Apply(s, Classify(o.response, o.hasRequest)).(isLoading := false, isButtonDisabled := false))
    ensures r.0.email == s.email && r.0.password == s.password
    ensures Settled(s) ==> Settled(r.0)
  {
    var t := if o.Failed? then Apply(s, Classify(o.response, o.hasRequest)) else s;
    var route := if o.Ok? && o.status == 200 then Home(Some(o.data)) else Stay;
    (Settle(s, t.(isLoading := false, isButtonDisabled := false)), route)
  }

  /** If the screen did not lose focus during the request, after it settles
      the button is enabled again exactly when no error is showing. */
  lemma ReenabledUnlessErrorShown(s: State, o: Outcome<string>)
    requires Settled(s) && s.isLoading
    ensures var r := Answered(s, o).0;
      !r.isButtonDisabled <==> !Truthy(r.emailError) && !Truthy(r.passwordStrengthError)
  {
    assert Valid(s);
  }

  /** Losing focus while a log-in is pending leaves, after any successful
      reply (which writes no error), an enabled button over an empty form. */
  lemma BlurDuringRequest(s: State, o: Outcome<string>)
    requires Settled(s) && s.isLoading && o.Ok?
    ensures var r := Answered(Blurred(s), o).0;
      r.email == "" && r.password == "" && !r.isButtonDisabled
  {
  }

  class LoginScreen {
    var email: string
    var password: string
    var emailError: Option<string>
    var passwordStrengthError: Option<string>
    var isButtonDisabled: bool
    var isLoading: bool

    function Current(): State
      reads this
    {
      State(email, password, emailError, passwordStrengthError, isButtonDisabled, isLoading)
    }

    constructor ()
      ensures Current() == Initial()
    {
      email, password := "", "";
      emailError, passwordStrengthError := Some(""), Some("");
      isButtonDisabled, isLoading := true, false;
    }

    method RunEffect(before: State)
      modifies this`isButtonDisabled
      ensures Current() == Settle(before, old(Current()))
    {
      if DepsOf(Current()) != DepsOf(before) {
        isButtonDisabled := Disabled(DepsOf(Current()));
      }
    }

    method HandleEmailChange(v: string)
      requires Valid(Current())
      modifies this
      ensures Current() == EmailChanged(old(Current()), v)
    {
      if !isLoading {
        var before := Current();
        email := v;
        if !Email.ValidEmail(v) {
          emailError := Some(InvalidEmailMessage);
        } else {
          emailError := Some("");
        }
        RunEffect(before);
      }
    }

    method HandlePasswordChange(v: string)
      requires Valid(Current())
      modifies this
      ensures Current() == PasswordChanged(old(Current()), v)
    {
      if !isLoading {
        var before := Current();
        password := v;
        if v == "" {
          passwordStrengthError := Some(PasswordRequiredMessage);
        } else {
          passwordStrengthError := Some("");
        }
        RunEffect(before);
      }
    }

    method Blur()
      requires Valid(Current())
      modifies this
      ensures Current() == Blurred(old(Current()))
    {
      var before := Current();
      email, password := "", "";
      emailError := Some("");
      passwordStrengthError := Some("");
      RunEffect(before);
    }

    method BeginSubmit() returns (issued: bool)
      requires Valid(Current())
      modifies this
      ensures issued == (!old(isLoading) && !old(isButtonDisabled))
      ensures Current() == Pressed(old(Current()))
    {
      issued := !isLoading && !isButtonDisabled;
      if issued {
        isLoading := true;
        isButtonDisabled := true;
      }
    }

    method FinishSubmit(o: Outcome<string>) returns (route: Route)
      requires Valid(Current()) && isLoading
      modifies this
      ensures (Current(), route) == Answered(old(Current()), o)
    {
      var before := Current();
      route := Stay;
      match o {
        case Ok(status, token) =>
          if status == 200 {
            route := Home(Some(token));
          }
        case Failed(response, hasRequest) =>
          if response.Some? {
            if response.value.status == 404 {
              emailError := response.value.errorField;
            } else if response.value.status == 401 {
              passwordStrengthError := response.value.errorField;
            } else {
              emailError := Some(GenericError);
            }
          } else if hasRequest {
            emailError := Some(NetworkError);
          } else {
            emailError := Some(UnexpectedError);
          }
      }
      // finally
      isLoading := false;
      isButtonDisabled := false;
      RunEffect(before);
    }
  }
}
