/** The password reset request screen (screens/Reset/Reset.js): the e-mail
    rule, the derived "submit disabled" flag, the reset on losing focus, the
    route to code verification, and the flat classification of a failure. */
module Reset {
  import opened Js
  import opened Http
  import Email

  const InvalidEmailMessage: string := "Invalid email format"

  datatype State = State(email: string, emailError: Option<string>, isButtonDisabled: bool, isLoading: bool)

  /** The effect: disabled when an e-mail error shows or the e-mail is empty. */
  predicate Disabled(emailError: Option<string>, email: string) {
    Truthy(emailError) || email == ""
  }

  /** The end of a handler: the effect runs if `emailError` or `email`
      changed. */
  function Settle(before: State, after: State): (r: State)
    ensures r == after.(isButtonDisabled := r.isButtonDisabled)
    ensures (after.emailError, after.email) != (before.emailError, before.email) ==>
      r.isButtonDisabled == Disabled(after.emailError, after.email)
    ensures (after.emailError, after.email) == (before.emailError, before.email) ==>
      r.isButtonDisabled == after.isButtonDisabled
  {
    if (after.emailError, after.email) != (before.emailError, before.email)
    then after.(isButtonDisabled := Disabled(after.emailError, after.email))
    else after
  }

  /** The handlers never set the flag themselves, so it always shows the
      effect's value. */
  ghost predicate Valid(s: State) {
    s.isButtonDisabled == Disabled(s.emailError, s.email)
  }

  function Initial(): (s: State)
    ensures Valid(s) && s.isButtonDisabled && !s.isLoading
  {
    State("", Some(""), true, false)
  }

  function EmailChanged(s: State, email: string): (r: State)
    requires Valid(s)
    ensures Valid(r)
    ensures s.isLoading ==> r == s
    ensures !s.isLoading ==> r.email == email && (r.emailError == Some("") <==> Email.ValidEmail(email))
    ensures !s.isLoading ==> (!r.isButtonDisabled <==> Email.ValidEmail(email))
    ensures !s.isLoading ==> r == s.(email := email, emailError := r.emailError, isButtonDisabled := r.isButtonDisabled)
  {
    if s.isLoading then s
    else
      assert Email.ValidEmail(email) ==> email != "";
      Settle(s, s.(email := email, emailError := Some(if Email.ValidEmail(email) then "" else InvalidEmailMessage)))
  }

  /** The 'blur' listener clears the e-mail and its error, which disables the
      button. */
  function Blurred(s: State): (r: State)
    requires Valid(s)
    ensures Valid(r) && r.isButtonDisabled
    ensures r == s.(email := "", emailError := Some(""), isButtonDisabled := true)
  {
    Settle(s, s.(email := "", emailError := Some("")))
  }

  /** A press on Send: hidden while loading, inert while disabled. */
  function Pressed(s: State): (r: State)
    requires Valid(s)
    ensures Valid(r)
    ensures r.isLoading <==> (s.isLoading || !s.isButtonDisabled)
    ensures s.isLoading || s.isButtonDisabled ==> r == s
    ensures !s.isLoading && !s.isButtonDisabled ==> r == s.(isLoading := true)
  {
    if s.isLoading || s.isButtonDisabled then s else s.(isLoading := true)
  }

  /** The reset call settles: loading ends; a 200 goes to code verification
      with the e-mail and kind 'reset'; a failure sets the e-mail error. */
  function Answered(s: State, o: Outcome<()>): (r: (State, Route))
    requires Valid(s)
    ensures Valid(r.0) && !r.0.isLoading
    ensures r.1 == if o.Ok? && o.status == 200 then Verify(s.email, "reset") else Stay
    ensures r.0.emailError == if o.Failed? then FlatFailure(o.response, o.hasRequest) else s.emailError
    ensures r.0.email == s.email
  {
    var t := if o.Failed? then s.(emailError := FlatFailure(o.response, o.hasRequest)) else s;
    var route := if o.Ok? && o.status == 200 then Verify(s.email, "reset") else Stay;
    (Settle(s, t.(isLoading := false)), route)
  }

  class ResetScreen {
    var email: string
    var emailError: Option<string>
    var isButtonDisabled: bool
    var isLoading: bool

    function Current(): State
      reads this
    {
      State(email, emailError, isButtonDisabled, isLoading)
    }

    constructor ()
      ensures Current() == Initial()
    {
      email, emailError := "", Some("");
      isButtonDisabled, isLoading := true, false;
    }

    method RunEffect(before: State)
      modifies this`isButtonDisabled
      ensures Current() == Settle(before, old(Current()))
    {
      if (emailError, email) != (before.emailError, before.email) {
        isButtonDisabled := Disabled(emailError, email);
      }
    }

    method HandleEmailChange(v: string)
      requires Valid(Current())
      modifies this
      ensures Current() == EmailChanged(old(Current()), v)
    {
      if !isLoading {
        var before := Current();
        email := v;
        if !Email.ValidEmail(v) {
          emailError := Some(InvalidEmailMessage);
        } else {
          emailError := Some("");
        }
        RunEffect(before);
      }
    }

    method Blur()
      requires Valid(Current())
      modifies this
      ensures Current() == Blurred(old(Current()))
    {
      var before := Current();
      email := "";
      emailError := Some("");
      RunEffect(before);
    }

    method BeginSubmit() returns (issued: bool)
      requires Valid(Current())
      modifies this
      ensures issued == (!old(isLoading) && !old(isButtonDisabled))
      ensures Current() == Pressed(old(Current()))
    {
      issued := !isLoading && !isButtonDisabled;
      if issued {
        isLoading := true;
      }
    }

    method FinishSubmit(o: Outcome<()>) returns (route: Route)
      requires Valid(Current())
      modifies this
      ensures (Current(), route) == Answered(old(Current()), o)
    {
      var before := Current();
      route := Stay;
      match o {
        case Ok(status, _) =>
          if status == 200 {
            route := Verify(email, "reset");
          }
        case Failed(response, hasRequest) =>
          if HasStatus(response, 404) {
            emailError := response.value.errorField;
          } else if HasStatus(response, 401) {
            emailError := response.value.errorField;
          } else if hasRequest {
            emailError := Some(ServerSideError);
          } else {
            emailError := Some(GenericError);
          }
      }
      // finally
      isLoading := false;
      RunEffect(before);
    }
  }
}
