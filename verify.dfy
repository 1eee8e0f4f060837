/** The e-mail verification screen (screens/Verification/verify.js): a
    five-box one-time code editor and the submit handler that confirms the
    code and routes by the kind of verification ('signup' or 'reset'). */
module Verify {
  import opened Js
  import opened Http

  const CodeLength: nat := 5

  // ---------------------------------------------------------------------
  // The code editor: functional updates of the code string
  // ---------------------------------------------------------------------

  /** `/^[0-9]$/.test(text)` */
  predicate IsSingleDigit(text: string) {
    |text| == 1 && IsDigit(text[0])
  }

  /** The invariant of the code the editor maintains. */
  predicate WellFormedCode(code: string) {
    |code| <= CodeLength && forall i :: 0 <= i < |code| ==> IsDigit(code[i])
  }

  /** `handleTextInputChange(text, index)`: a single digit typed into box
      `index` (< 5) is spliced in with `substring(0, index) + text +
      substring(index + 1)`; anything else leaves the code as it is. */
  function EnterDigit(code: string, text: string, index: int): (r: string)
    ensures !IsSingleDigit(text) || index >= CodeLength ==> r == code
    ensures |r| <= |code| + 1
  {
    if IsSingleDigit(text) && index < CodeLength then
      Substring(code, 0, index) + text + Substring(code, index + 1, |code|)
    else
      code
  }

  /** A digit typed over an existing position replaces exactly that position. */
  lemma EnterDigitReplaces(code: string, text: string, index: int)
    requires IsSingleDigit(text) && 0 <= index < |code| && index < CodeLength
    ensures var r := EnterDigit(code, text, index);
      && |r| == |code|
      && r[index] == text[0]
      && forall j :: 0 <= j < |code| && j != index ==> r[j] == code[j]
  {
    var r := EnterDigit(code, text, index);
    assert r == code[..index] + text + code[index + 1..];
    forall j | 0 <= j < |code| && j != index ensures r[j] == code[j] {
      if j > index {
        assert r[j] == code[index + 1..][j - index - 1];
      }
    }
  }

  /** A digit typed at or beyond the end is appended, because `substring`
      clamps its arguments to the length of the code. */
  lemma EnterDigitAppends(code: string, text: string, index: int)
    requires IsSingleDigit(text) && |code| <= index < CodeLength
    ensures EnterDigit(code, text, index) == code + text
  {
    assert Substring(code, 0, index) == code;
    assert Substring(code, index + 1, |code|) == [];
  }

  /** A negative index (which no box passes) would prepend the digit. */
  lemma EnterDigitPrepends(code: string, text: string, index: int)
    requires IsSingleDigit(text) && index < 0
    ensures EnterDigit(code, text, index) == text + code
  {
    assert Substring(code, 0, index) == [];
    assert Substring(code, index + 1, |code|) == code;
  }

  /** Typing into a box (index 0..4) keeps the code digits-only and at most
      five characters long. */
  lemma EnterDigitKeepsWellFormed(code: string, text: string, index: int)
    requires WellFormedCode(code) && 0 <= index
    ensures WellFormedCode(EnterDigit(code, text, index))
  {
    if IsSingleDigit(text) && index < CodeLength {
      if index < |code| {
        EnterDigitReplaces(code, text, index);
      } else {
        EnterDigitAppends(code, text, index);
        assert |code| < CodeLength;
      }
    }
  }

  /** `handleBackspacePress(currentIndex)`: an index inside the code removes
      that character with `slice(0, i) + slice(i + 1)`; any other index
      leaves the code as it is. */
  function Backspace(code: string, currentIndex: int): (r: string)
    ensures !(0 <= currentIndex < |code|) ==> r == code
    ensures 0 <= currentIndex < |code| ==> |r| == |code| - 1
  {
    if 0 <= currentIndex < |code| then code[..currentIndex] + code[currentIndex + 1..] else code
  }

  /** Backspace removes exactly the character at the index and keeps the
      others in order. */
  lemma BackspaceRemoves(code: string, i: int)
    requires 0 <= i < |code|
    ensures var r := Backspace(code, i);
      && (forall j :: 0 <= j < i ==> r[j] == code[j])
      && (forall j :: i <= j < |r| ==> r[j] == code[j + 1])
      && multiset(r) + multiset{code[i]} == multiset(code)
  {
    var r := Backspace(code, i);
    assert code == code[..i] + [code[i]] + code[i + 1..];
    forall j | i <= j < |r| ensures r[j] == code[j + 1] {
      assert r[j] == code[i + 1..][j - i];
    }
  }

  lemma BackspaceKeepsWellFormed(code: string, i: int)
    requires WellFormedCode(code)
    ensures WellFormedCode(Backspace(code, i))
  {
    if 0 <= i < |code| {
      BackspaceRemoves(code, i);
    }
  }

  /** The submit button is disabled unless the code has exactly five
      characters. */
  predicate SubmitDisabled(code: string) {
    |code| != CodeLength
  }

  /** A well-formed code enables submit exactly when all five boxes hold a
      digit. */
  lemma SubmitEnabledIffFull(code: string)
    requires WellFormedCode(code)
    ensures !SubmitDisabled(code) <==> |code| == CodeLength && forall i :: 0 <= i < CodeLength ==> IsDigit(code[i])
  {
  }

  // ---------------------------------------------------------------------
  // The submit handler
  // ---------------------------------------------------------------------

  /** Where a confirmed code leads: 'signup' stores the token and goes Home,
      'reset' goes to the password change screen with the e-mail and the
      server token, and any other kind stays. */
  function RouteAfterConfirm(kind: string, email: string, token: string): (r: Route)
    ensures r.Home? <==> kind == "signup"
    ensures r.Home? ==> r.storedToken == Some(token)
    ensures r.Change? <==> kind == "reset"
    ensures r.Change? ==> r.email == email && r.serverToken == token
    ensures r.Stay? <==> kind != "signup" && kind != "reset"
  {
    if kind == "signup" then Home(Some(token))
    else if kind == "reset" then Change(email, token)
    else Stay
  }

  /** The screen's state. `email` and `kind` are the route parameters. */
  class VerifyScreen {
    const email: string
    const kind: string
    var code: string
    var isLoading: bool
    var error: Option<string>
    var isOpen: bool
    var isButtonDisabled: bool

    ghost predicate Valid()
      reads this
    {
      WellFormedCode(code)
    }

    constructor (email: string, kind: string)
      ensures Valid()
      ensures this.email == email && this.kind == kind
      ensures code == "" && !isLoading && error == None && !isOpen && isButtonDisabled
    {
      this.email, this.kind := email, kind;
      code := "";
      isLoading := false;
      error := None;
      isOpen := false;
      isButtonDisabled := true;
    }

    /** The effect on `form.code`: runs when the code changed in this step. */
    method CodeEffect(before: string)
      modifies this`isButtonDisabled
      ensures isButtonDisabled == if code != before then SubmitDisabled(code) else old(isButtonDisabled)
    {
      if code != before {
        isButtonDisabled := SubmitDisabled(code);
      }
    }

    /** `onChangeText` of box `index`; the boxes are not editable while
      loading. */
    method ChangeText(text: string, index: int)
      requires Valid() && 0 <= index
      modifies this`code, this`isButtonDisabled
      ensures Valid()
      ensures code == if old(isLoading) then old(code) else EnterDigit(old(code), text, index)
      ensures isButtonDisabled == if code != old(code) then SubmitDisabled(code) else old(isButtonDisabled)
    {
      if !isLoading {
        var before := code;
        EnterDigitKeepsWellFormed(code, text, index);
        code := EnterDigit(code, text, index);
        CodeEffect(before);
      }
    }

    /** `onKeyPress` of box `index`: Backspace in a box after the first. */
    method KeyPress(key: string, index: int)
      requires Valid()
      modifies this`code, this`isButtonDisabled
      ensures Valid()
      ensures code == if !old(isLoading) && key == "Backspace" && index > 0 then Backspace(old(code), index) else old(code)
      ensures isButtonDisabled == if code != old(code) then SubmitDisabled(code) else old(isButtonDisabled)
    {
      if !isLoading && key == "Backspace" && index > 0 {
        var before := code;
        BackspaceKeepsWellFormed(code, index);
        code := Backspace(code, index);
        CodeEffect(before);
      }
    }

    /** The 'blur' listener clears the code. */
    method Blur()
      requires Valid()
      modifies this`code, this`isButtonDisabled
      ensures Valid() && code == ""
      ensures isButtonDisabled == if old(code) != "" then true else old(isButtonDisabled)
    {
      var before := code;
      code := "";
      CodeEffect(before);
    }

    /** A press on Verify: the button is hidden while loading and inert while
      disabled; otherwise the confirmation request is sent. */
    method BeginSubmit() returns (issued: bool)
      requires Valid()
      modifies this`isLoading
      ensures Valid()
      ensures issued == (!old(isLoading) && !isButtonDisabled)
      ensures isLoading == (old(isLoading) || issued)
    {
      issued := !isLoading && !isButtonDisabled;
      if issued {
        isLoading := true;
      }
    }

    /** The confirmation call settles with outcome `o`. */
    method FinishSubmit(o: Outcome<string>) returns (route: Route)
      requires Valid() && isLoading
      modifies this`isLoading, this`error, this`isOpen, this`isButtonDisabled
      ensures Valid()
      ensures !isLoading && !isButtonDisabled
      ensures route == if o.Ok? && o.status == 200 then RouteAfterConfirm(kind, email, o.data) else Stay
      ensures o.Failed? ==> isOpen && error == NestedFailure(o.response, o.hasRequest)
      ensures o.Ok? ==> isOpen == old(isOpen) && error == old(error)
    {
      route := Stay;
      match o {
        case Ok(status, token) =>
          if status == 200 {
            isLoading := false;
            route := RouteAfterConfirm(kind, email, token);
          }
        case Failed(response, hasRequest) =>
          error := NestedFailure(response, hasRequest);
          isOpen := true;
      }
      // finally
      isLoading := false;
      isButtonDisabled := false;
    }

    method CloseError()
      modifies this`isOpen, this`error
      ensures !isOpen && error == None
    {
      isOpen := false;
      error := None;
    }
  }
}
