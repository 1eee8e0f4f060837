/** The password change screen (screens/ChangePassword/change.js): the
    complex-password rule, the retype rule, the flags an effect derives from
    the two fields, and the outcome of the change request. */
module ChangePassword {
  import opened Js
  import opened Http

  const PasswordRuleMessage: string :=
    "Password must be at least 8 characters long and contain at least one uppercase letter, one lowercase letter, one number, and one special character."
  const MismatchMessage: string := "Passwords do not match."

  /** `validatePassword`, as a scan: at least 8 UTF-16 code units, none of
      them part of a line terminator, with a lower-case letter, an upper-case letter, a digit
      and a character that is none of these. */
  predicate ValidatePassword(p: string) {
    && CodeUnits(p) >= 8
    && !Contains(p, LineTerminator)
    && Contains(p, Lower)
    && Contains(p, Upper)
    && Contains(p, Digit)
    && Contains(p, NonAlnum)
  }

  /** `(?=.*C)` at the start of the string: a character of class C comes
      after a run of characters that `.` matches. */
  ghost predicate Lookahead(p: string, k: CharClass) {
    exists i :: 0 <= i < |p| && InClass(p[i], k) && forall j :: 0 <= j < i ==> !IsLineTerminator(p[j])
  }

  /** `/^(?=.*[a-z])(?=.*[A-Z])(?=.*\d)(?=.*[^\da-zA-Z]).{8,}$/` read
      literally. */
  ghost predicate MatchesPattern(p: string) {
    && Lookahead(p, Lower)
    && Lookahead(p, Upper)
    && Lookahead(p, Digit)
    && Lookahead(p, NonAlnum)
    && CodeUnits(p) >= 8
    && forall j :: 0 <= j < |p| ==> !IsLineTerminator(p[j])
  }

  lemma LookaheadWithoutTerminators(p: string, k: CharClass)
    requires forall j :: 0 <= j < |p| ==> !IsLineTerminator(p[j])
    ensures Lookahead(p, k) <==> Contains(p, k)
  {
    ContainsIff(p, k);
  }

  /** The scan accepts exactly the strings the pattern matches. */
  lemma ValidatePasswordIffPattern(p: string)
    ensures ValidatePassword(p) <==> MatchesPattern(p)
  {
    ContainsIff(p, LineTerminator);
    if forall j :: 0 <= j < |p| ==> !IsLineTerminator(p[j]) {
      LookaheadWithoutTerminators(p, Lower);
      LookaheadWithoutTerminators(p, Upper);
      LookaheadWithoutTerminators(p, Digit);
      LookaheadWithoutTerminators(p, NonAlnum);
    }
  }

  /** `validateRetypePassword`: plain string equality. */
  predicate ValidateRetype(password: string, retypePassword: string) {
    password == retypePassword
  }

  datatype Form = Form(password: string, retypePassword: string)

  /** What the effect on the two fields sets. */
  datatype Flags = Flags(passwordError: string, retypePasswordError: string, isButtonDisabled: bool)

  /** The effect: each error is empty when its rule holds, and the button is
      disabled unless both rules hold. */
  function DeriveFlags(f: Form): (r: Flags)
    ensures r.passwordError == "" <==> ValidatePassword(f.password)
    ensures r.retypePasswordError == "" <==> f.password == f.retypePassword
    ensures r.isButtonDisabled <==> !(ValidatePassword(f.password) && f.password == f.retypePassword)
    ensures r.isButtonDisabled <==> r.passwordError != "" || r.retypePasswordError != ""
  {
    var ok := ValidatePassword(f.password);
    var same := ValidateRetype(f.password, f.retypePassword);
    Flags(if ok then "" else PasswordRuleMessage,
          if same then "" else MismatchMessage,
          !(ok && same))
  }

  /** The 'blur' listener clears both fields, which disables the button. */
  function Blurred(): (f: Form)
    ensures f.password == "" && f.retypePassword == ""
    ensures DeriveFlags(f).isButtonDisabled
  {
    Form("", "")
  }

  /** `error.response?.data?.error || 'An error occurred. Please try again.'` */
  function FailureMessage(response: Option<Response>): (m: string)
    ensures m != ""
    ensures Truthy(ServerMessage(response)) ==> m == ServerMessage(response).value
    ensures !Truthy(ServerMessage(response)) ==> m == GenericError
  {
    var field := ServerMessage(response);
    if Truthy(field) then field.value else GenericError
  }

  /** What `handleSubmit` leaves behind: the route, and the message it puts
      into `error` while opening the modal (None: `error` and `isOpen` are
      not touched). Loading always ends. */
  datatype SubmitResult = SubmitResult(route: Route, reported: Option<string>, isLoading: bool)

  function AfterSubmit(o: Outcome<string>): (r: SubmitResult)
    ensures !r.isLoading
    ensures o.Ok? && o.status == 200 ==> r.route == Home(Some(o.data)) && r.reported == None
    ensures o.Ok? && o.status != 200 ==> r.route == Stay && r.reported == None
    ensures o.Failed? ==> r.route == Stay && r.reported == Some(FailureMessage(o.response))
  {
    match o
    case Ok(status, token) =>
      SubmitResult(if status == 200 then Home(Some(token)) else Stay, None, false)
    case Failed(response, _) =>
      SubmitResult(Stay, Some(FailureMessage(response)), false)
  }
}
