# ProfitPilot screens in Dafny

This project models the client-side logic of the ProfitPilot mobile app, a React
Native client for an automated forex trading service. The logic lives in seven
screens:

- **Home**: the trading controller. It holds the broker/server catalogue and the
  trading form, and its single Start/Stop button runs a subscription check before
  it starts or stops trading.
- **Verification**: the five-box one-time code editor and the code confirmation.
- **ChangePassword**: the strong-password rule and the retype rule.
- **Signup**, **Login** and **Reset**: the e-mail, username and password rules,
  the derived "submit disabled" flag, the reset when the screen loses focus, and
  each screen's own classification of a failed request.
- **Subscriptions**: the plan list localised by country, the per-plan loading
  flags of a checkout, and the shared error handler.

Files and modules:

- `js.dfy` (`Js`): the JavaScript semantics the screens rely on.
  - `undefined` is `None`, and string truthiness is `Truthy`.
  - `String.prototype.substring` clamps and swaps its arguments.
  - The regular-expression character classes: `\s`, line terminators,
    `[a-z]`, `[A-Z]`, `\d`, `\w`.
- `http.dfy` (`Http`): a remote call as an input value, the fixed messages, the
  navigation targets, and the two shared failure chains.
  - `Outcome` is `Ok(status, data)` when axios resolves. It is
    `Failed(response, hasRequest)` when axios rejects; the response and the
    request are not exclusive.
- `email.dfy` (`Email`): the e-mail pattern shared by three screens.
- One module per screen:
  - `home.dfy` (`Home`)
  - `verify.dfy` (`Verify`)
  - `change_password.dfy` (`ChangePassword`)
  - `signup.dfy` (`Signup`)
  - `login.dfy` (`Login`)
  - `reset.dfy` (`Reset`)
  - `subscriptions.dfy` (`Subscriptions`)

How the handlers are modelled:

- **Async handlers are split at their `await`.**
  - A `Begin…`/`Press` step runs up to the request.
  - A `Finish…`/`…Answered` step takes the call's `Outcome` and runs the rest,
    including `finally`.
  - So the state in which `isLoading` is on, and the button is replaced by a
    spinner, can be observed.
  - A press on a hidden or disabled button changes nothing.
- **Screens with several interacting fields** (Home, Signup, Login, Reset):
  - A pure `State` datatype with one transition function per handler, each with
    the invariant it keeps.
  - A class with the same fields, whose methods are proved to perform those
    transitions: `ensures Current() == Transition(old(Current()), …)`.
- **React's `isButtonDisabled` effect** is modelled as running once at the end of
  a handler, and only when one of its dependencies changed in that handler
  (`Settle`).
  - This assumes that React batches the state updates a handler makes after an
    `await` into one render, as React 18's automatic batching does.
  - Under that assumption a handler's own `setIsButtonDisabled(false)` in
    `finally` is overwritten by the effect when a dependency changed, and
    survives otherwise.
- **Regular expressions** are computed as scans over the string, using the
  character classes of `Js`.
  - The e-mail pattern and the change-password pattern are also written as the
    pattern read literally (ghost predicates `Email.MatchesPattern` and
    `ChangePassword.MatchesPattern`). A lemma proves that scan and pattern
    agree on every string.
  - The sign-up username and password-strength patterns are proved equal to
    quantified formulas over the characters (`Signup.ValidUsernameIff`,
    `Signup.ValidPasswordStrengthIff`).
  - The verification box pattern `/^[0-9]$/` is the predicate
    `Verify.IsSingleDigit` directly.
- **Characters** are Unicode scalar values, as Dafny's `char` is. Where a
  pattern's `.` counts length (`.{8,}`), the count is the UTF-16 length
  `Js.CodeUnits`, in which a character outside the Basic Multilingual Plane
  counts twice (`Signup.AstralCharactersCountTwice`).

Behaviour of the code that the proofs make explicit:

- **Home.**
  - Trading starts off with the label "Not Started", and nothing is persisted or
    restored.
  - The subscription check runs before a stop as well as before a start.
    - So a failed check leaves trading on (`FailedCheckCannotStop`).
  - A failed stop leaves trading on with the label "Starting , please wait..."
    (`FailedStopShowsStartingLabel`).
  - A failed start shows "Failed to start"; it does not go back to "Not Started".
  - A 2xx reply other than 200 only ends loading.
  - A failed catalogue fetch sets the error without opening the modal.
- **Signup.**
  - `usernameError` is not among the button's conditions, so an invalid username
    can be submitted (`InvalidUsernameCanSubmit`).
  - With the batching assumed above, the button stays disabled after a failed
    sign-up whose message is non-empty, because the changed `emailError` makes
    the effect override the `finally`.
- **Login and Verification.** Losing focus while a request is pending clears the
  form.
  - Login: once any successful reply arrives (a success writes no error), the
    button is enabled over the empty form (`BlurDuringRequest`).
  - Verification: once any reply arrives, `VerifyScreen.FinishSubmit` enables
    the button whatever the code holds.
- **Failure chains.** The flat chain (Home, Reset) and the nested chain
  (Verification, Login) report every failure other than 404 and 401 differently,
  whenever a request was sent or no response came (`FlatNestedAgreeIff`).

## Model

| member | source | states |
|---|---|---|
| Js.Substring | screens/Verification/verify.js:90 | the result is no longer than the string, and equals the slice `s[start..end]` whenever `0 <= start <= end <= length` |
| Js.ContainsIff | screens/ChangePassword/change.js:21 | the recursive scan `Contains(s, k)` holds iff some character of `s` is in class `k` (the form every `(?=.*C)` lookahead reduces to) |
| Js.AllIff | screens/Signup/Signup.js:53 | the recursive scan `All(s, k)` holds iff every character of `s` is in class `k` (the form a `[…]{m,n}` run reduces to) |
| Js.CodeUnits | screens/Signup/Signup.js:81 | the UTF-16 length, which `.` counts: between the number of characters and twice it, and zero only for the empty string |
| Http.FlatFailure | screens/Reset/Reset.js:58-68 | flat chain: 404 or 401 gives the server's `error` field; otherwise a request gives "Something went wrong on our side."; otherwise "An error occurred. Please try again." |
| Http.NestedFailure | screens/Verification/verify.js:62-80 | nested chain: with a response, 404 and 401 give the server's field and any other status the generic message, whether or not a request is present; without a response, the request decides between the network message and the unexpected-error message |
| Http.FlatNestedAgreeIff | screens/Login/Login.js:80-93 | the two chains give the same message iff the status is 404 or 401, or a response came without a request |
| Email.IndexOf | screens/Signup/Signup.js:61-64 | the first position of the character, or -1 exactly when it does not occur |
| Email.ValidEmailIffPattern | screens/Signup/Signup.js:61-64 | the scan accepts a string iff `/^[^\s@]+@[^\s@]+\.[^\s@]+$/` matches it: three non-empty runs free of white space and '@', joined by '@' and '.' |
| Email.ValidEmailMeans | screens/Login/Login.js:63-66 | an e-mail is valid iff it has no white space, exactly one '@', a non-empty part before it, and a '.' that is neither first nor last in the part after it |
| Verify.EnterDigit | screens/Verification/verify.js:87-98 | input that is not one ASCII digit, or an index of 5 or more, leaves the code unchanged; an edit adds at most one character |
| Verify.EnterDigitReplaces | screens/Verification/verify.js:90 | a digit at an index inside the code replaces exactly that position: same length, and every other character is kept |
| Verify.EnterDigitAppends | screens/Verification/verify.js:90 | a digit at an index at or past the end (below 5) is appended, because `substring` clamps |
| Verify.EnterDigitPrepends | screens/Verification/verify.js:88-90 | a negative index, which no box passes, would put the digit in front of the code |
| Verify.EnterDigitKeepsWellFormed | screens/Verification/verify.js:87-98 | typing into a box keeps the code all digits and at most 5 long |
| Verify.Backspace | screens/Verification/verify.js:100-112 | an index outside the code leaves it unchanged; an index inside shortens it by one |
| Verify.BackspaceRemoves | screens/Verification/verify.js:102-107 | backspace at `i` removes exactly the character at `i` and keeps the others in order: as multisets, the result plus that character is the old code |
| Verify.BackspaceKeepsWellFormed | screens/Verification/verify.js:100-112 | backspace keeps the code all digits and at most 5 long |
| Verify.SubmitEnabledIffFull | screens/Verification/verify.js:28-32 | for a well-formed code, Verify is enabled iff all five boxes hold a digit |
| Verify.RouteAfterConfirm | screens/Verification/verify.js:52-60 | 'signup' stores the token and goes Home; 'reset' goes to Change with the e-mail and the server token; any other kind stays |
| Verify.VerifyScreen.constructor | screens/Verification/verify.js:11-20 | empty code, not loading, no error, modal closed, button disabled |
| Verify.VerifyScreen.CodeEffect | screens/Verification/verify.js:28-32 | when the code changed, the button flag becomes "length is not 5"; otherwise it is kept |
| Verify.VerifyScreen.ChangeText | screens/Verification/verify.js:87-98 | while not loading, the code becomes `EnterDigit` of the old code; the code stays well-formed and the effect runs when it changed |
| Verify.VerifyScreen.KeyPress | screens/Verification/verify.js:144-148 | Backspace in a box after the first applies `Backspace` at that box; the code stays well-formed |
| Verify.VerifyScreen.Blur | screens/Verification/verify.js:34-40 | losing focus clears the code, which disables the button when the code was not already empty |
| Verify.VerifyScreen.BeginSubmit | screens/Verification/verify.js:42-43 | the request is issued iff the screen is not loading and the button is enabled, and loading starts |
| Verify.VerifyScreen.FinishSubmit | screens/Verification/verify.js:42-85 | loading ends and the button is enabled on every outcome; a 200 routes by kind; a failure opens the modal with the nested chain's message; a success leaves the error alone |
| Verify.VerifyScreen.CloseError | screens/Verification/verify.js:23-26 | the modal closes and the error is cleared |
| ChangePassword.ValidatePasswordIffPattern | screens/ChangePassword/change.js:21 | the scan (8 or more UTF-16 code units, no line terminator, a lower-case letter, an upper-case letter, a digit, and a character outside `[0-9A-Za-z]`) accepts exactly what the lookahead pattern matches |
| ChangePassword.LookaheadWithoutTerminators | screens/ChangePassword/change.js:21 | on a string without line terminators, a `(?=.*C)` lookahead holds iff the string contains a `C` |
| ChangePassword.DeriveFlags | screens/ChangePassword/change.js:25-33 | the password error is empty iff the password is valid; the retype error is empty iff the fields are equal; the button is disabled iff not both, that is, iff an error shows |
| ChangePassword.Blurred | screens/ChangePassword/change.js:35-40 | losing focus clears both fields, and that disables the button |
| ChangePassword.FailureMessage | screens/ChangePassword/change.js:56 | the server's `error` field when it is a non-empty string, else "An error occurred. Please try again." |
| ChangePassword.AfterSubmit | screens/ChangePassword/change.js:42-62 | loading ends; a 200 stores the token and goes Home; another success does nothing; a failure reports the message and stays |
| Signup.ValidUsernameIff | screens/Signup/Signup.js:52-55 | a username is valid iff it has 4 to 16 characters, all in `[A-Za-z0-9_]` |
| Signup.ValidPasswordStrengthIff | screens/Signup/Signup.js:80-83 | a password passes `/^.{8,}$/` iff it has 8 or more UTF-16 code units and no line terminator |
| Signup.AstralCharactersCountTwice | screens/Signup/Signup.js:80-83 | four characters outside the Basic Multilingual Plane pass `/^.{8,}$/`, while four ASCII letters do not |
| Signup.MismatchError | screens/Signup/Signup.js:66-72 | the mismatch message is set iff the other field is non-empty and differs from what was typed |
| Signup.Settle | screens/Signup/Signup.js:22-32 | the effect changes only the button flag, and recomputes it iff one of its seven dependencies changed |
| Signup.Initial | screens/Signup/Signup.js:8-20 | the empty form keeps the invariant, with the button disabled and nothing loading |
| Signup.EmailChanged | screens/Signup/Signup.js:34-41 | while editable, the e-mail is stored and its error is empty iff the e-mail is valid; no field other than these and the button changes; the invariant is kept |
| Signup.UsernameChanged | screens/Signup/Signup.js:43-50 | while editable, the username is stored and its error is empty iff it is valid; no field other than these and the button changes; the invariant is kept |
| Signup.PasswordChanged | screens/Signup/Signup.js:66-78 | while editable, the password is stored; the mismatch error is set iff the confirmation is non-empty and differs; the strength error is empty iff the strength rule holds; no other field but the button changes |
| Signup.ConfirmChanged | screens/Signup/Signup.js:85-92 | while editable, the confirmation is stored and the mismatch error is set iff the password is non-empty and differs; no other field but the button changes |
| Signup.Pressed | screens/Signup/Signup.js:207-213 | a press issues the request iff the screen is not loading and the button is enabled; the button is then disabled |
| Signup.FailureMessage | screens/Signup/Signup.js:108-115 | 400 gives the server's field; otherwise a request gives the server-side message; otherwise the generic message |
| Signup.Answered | screens/Signup/Signup.js:94-120 | loading ends; a 200 goes to Verify with the e-mail and 'signup'; a failure writes the classified e-mail error; afterwards the button is disabled iff an e-mail error shows |
| Signup.FilledFormEnablesIff | screens/Signup/Signup.js:22-32 | after filling the four fields, the button is enabled iff the username is non-empty, the e-mail is valid, the password passes the strength rule and the two passwords agree |
| Signup.InvalidUsernameCanSubmit | screens/Signup/Signup.js:22-32 | the username "ab" is rejected by its rule, yet the form with it is submittable |
| Signup.SignupScreen.constructor | screens/Signup/Signup.js:8-20 | the screen starts in the initial state |
| Signup.SignupScreen.RunEffect | screens/Signup/Signup.js:22-32 | the fields become `Settle` of the state before the handler and the current one |
| Signup.SignupScreen.HandleEmailChange | screens/Signup/Signup.js:34-41 | performs `EmailChanged` |
| Signup.SignupScreen.HandleUsernameChange | screens/Signup/Signup.js:43-50 | performs `UsernameChanged` |
| Signup.SignupScreen.HandlePasswordChange | screens/Signup/Signup.js:66-78 | performs `PasswordChanged` |
| Signup.SignupScreen.HandleConfirmPasswordChange | screens/Signup/Signup.js:85-92 | performs `ConfirmChanged` |
| Signup.SignupScreen.BeginSubmit | screens/Signup/Signup.js:94-96 | performs `Pressed` and reports whether the request was issued |
| Signup.SignupScreen.FinishSubmit | screens/Signup/Signup.js:97-119 | performs `Answered` and returns its route |
| Login.PasswordError | screens/Login/Login.js:41-48 | the error is "Password is Required." iff the password is empty, and empty otherwise |
| Login.Settle | screens/Login/Login.js:21-28 | the effect changes only the button flag, and recomputes it iff one of its four dependencies changed |
| Login.Initial | screens/Login/Login.js:10-18 | the empty form is settled, with the button disabled and nothing loading |
| Login.EmailChanged | screens/Login/Login.js:50-57 | while editable, the e-mail is stored and its error is empty iff it is valid; no field other than these and the button changes; a settled screen stays settled |
| Login.PasswordChanged | screens/Login/Login.js:41-48 | while editable, the password is stored with its required-error; no field other than these and the button changes; a settled screen stays settled |
| Login.Blurred | screens/Login/Login.js:30-39 | both fields and both errors become empty and nothing else but the button changes; the button is disabled unless the form was already blank, in which case the state is unchanged |
| Login.Pressed | screens/Login/Login.js:156-161 | a press issues the request iff the screen is not loading and the button is enabled; an issued press only sets loading and disables the button, otherwise nothing changes |
| Login.Classify | screens/Login/Login.js:80-93 | 404 writes the server's field to the e-mail error; 401 writes it to the password error, and only 401 does; any other status writes the generic message to the e-mail error; without a response, the network or unexpected-error message |
| Login.ClassifyFollowsNestedChain | screens/Login/Login.js:80-93 | the message written is the nested chain's |
| Login.Answered | screens/Login/Login.js:68-98 | loading ends; a 200 stores the token and goes Home; a success changes nothing else but enables the button; a failure writes one error field, then the effect runs; fields are kept; a settled screen stays settled |
| Login.ReenabledUnlessErrorShown | screens/Login/Login.js:94-97 | on a settled screen, after the reply the button is enabled iff neither error shows |
| Login.BlurDuringRequest | screens/Login/Login.js:30-39 | losing focus while a request is pending, then any successful reply, leaves an enabled button over an empty form |
| Login.LoginScreen.constructor | screens/Login/Login.js:10-18 | the screen starts in the initial state |
| Login.LoginScreen.RunEffect | screens/Login/Login.js:21-28 | the fields become `Settle` of the state before the handler and the current one |
| Login.LoginScreen.HandleEmailChange | screens/Login/Login.js:50-57 | performs `EmailChanged` |
| Login.LoginScreen.HandlePasswordChange | screens/Login/Login.js:41-48 | performs `PasswordChanged` |
| Login.LoginScreen.Blur | screens/Login/Login.js:30-36 | performs `Blurred` |
| Login.LoginScreen.BeginSubmit | screens/Login/Login.js:68-70 | performs `Pressed` and reports whether the request was issued |
| Login.LoginScreen.FinishSubmit | screens/Login/Login.js:71-97 | performs `Answered` and returns its route |
| Reset.Settle | screens/Reset/Reset.js:17-22 | the effect changes only the button flag, and recomputes it iff the e-mail or its error changed |
| Reset.Initial | screens/Reset/Reset.js:9-15 | the empty form has the button disabled and nothing loading |
| Reset.EmailChanged | screens/Reset/Reset.js:33-45 | while editable, the e-mail is stored, its error is empty iff it is valid, and the button is enabled iff it is valid; loading and every other field are kept |
| Reset.Blurred | screens/Reset/Reset.js:24-31 | the e-mail and its error are cleared and the button is disabled |
| Reset.Pressed | screens/Reset/Reset.js:111-116 | a press starts loading iff the screen is not loading and the button is enabled; nothing else changes |
| Reset.Answered | screens/Reset/Reset.js:47-72 | loading ends on every outcome; a 200 goes to Verify with the e-mail and 'reset'; a failure writes the flat chain's message to the e-mail error |
| Reset.ResetScreen.constructor | screens/Reset/Reset.js:9-15 | the screen starts in the initial state |
| Reset.ResetScreen.RunEffect | screens/Reset/Reset.js:17-22 | the fields become `Settle` of the state before the handler and the current one |
| Reset.ResetScreen.HandleEmailChange | screens/Reset/Reset.js:33-40 | performs `EmailChanged` |
| Reset.ResetScreen.Blur | screens/Reset/Reset.js:24-31 | performs `Blurred` |
| Reset.ResetScreen.BeginSubmit | screens/Reset/Reset.js:47-48 | performs `Pressed` and reports whether the request was issued |
| Reset.ResetScreen.FinishSubmit | screens/Reset/Reset.js:49-71 | performs `Answered` and returns its route |
| Subscriptions.HandleError | screens/Subscriptions/subscriptions.js:121-131 | a response gives its `error` field if it is a non-empty string, else the generic message; no response but a request gives the network message; otherwise "An unexpected error occurred." |
| Subscriptions.ConvertPrices | screens/Subscriptions/subscriptions.js:53-56 | same length and order; each plan keeps all its fields except the price, which is converted |
| Subscriptions.LocalisePlans | screens/Subscriptions/subscriptions.js:50-58 | for 'ZA' the plans are as fetched; otherwise each price is converted, with every other field, the order and the length kept |
| Subscriptions.SetLoading | screens/Subscriptions/subscriptions.js:96 | the plan's flag is set and every other plan's entry is untouched |
| Subscriptions.InitialLoadingStatesShape | screens/Subscriptions/subscriptions.js:20-24 | the initial map has exactly the keys '1', '2' and '3', and no plan is loading |
| Subscriptions.SubscriptionsScreen.constructor | screens/Subscriptions/subscriptions.js:20-31 | initial flags, no location, no plans, nothing loading, buttons enabled, modal closed |
| Subscriptions.SubscriptionsScreen.ReportError | screens/Subscriptions/subscriptions.js:121-131 | the error becomes `HandleError`'s message and the modal opens, on every branch |
| Subscriptions.SubscriptionsScreen.LoadPlans | screens/Subscriptions/subscriptions.js:44-66 | the location is stored; a 200 shows the localised plans; a failure reports the error; loading ends |
| Subscriptions.SubscriptionsScreen.BeginSubscribe | screens/Subscriptions/subscriptions.js:93-96 | a plan's button issues the request iff buttons are enabled and that plan is not loading; then buttons are disabled and only that plan's flag is set |
| Subscriptions.SubscriptionsScreen.FinishSubscribe | screens/Subscriptions/subscriptions.js:100-116 | on every outcome the plan's flag is cleared, no plan is loading and buttons are enabled; a 200 opens the payment link; a failure reports the error |
| Subscriptions.SubscriptionsScreen.CloseError | screens/Subscriptions/subscriptions.js:33-36 | the modal closes and the error is cleared |
| Home.Initial | screens/Home/Home.js:11-27 | not trading, label "Not Started", not loading, button disabled; the invariant holds |
| Home.CatalogRequested | screens/Home/Home.js:38-41 | loading starts while the catalogue is fetched |
| Home.CatalogAnswered | screens/Home/Home.js:42-51 | a catalogue replaces the old one; a failure sets "Failed to fetch broker servers" without opening the modal; loading ends; every other field (trading, label, form, server options, modals) is kept |
| Home.FieldEdited | screens/Home/Home.js:264-331 | a field changes only when neither trading nor loading, and, for account, password, profit and server, a broker is selected; otherwise nothing changes |
| Home.BrokerChanged | screens/Home/Home.js:69-73 | when editable, the broker is set, the server is cleared, the server options become the catalogue's entry (undefined if absent), nothing else changes, and the button is disabled |
| Home.Pressed | screens/Home/Home.js:58-67 | when idle, a press starts the subscription check iff account, broker, password, server, profit and pair are all non-empty; while loading or disabled it changes nothing |
| Home.SubscriptionAnswered | screens/Home/Home.js:195-226 | a 200 shows "Starting , please wait..." and sends a stop if trading, a start otherwise; anything else leaves trading and the label and ends loading; a failure opens the modal with the flat chain's message; trading, form, catalogue, server options and disclaimer are kept |
| Home.StartAnswered | screens/Home/Home.js:111-158 | trading comes on iff the start returned 200, with "In progress"; another success keeps the starting label; a failure shows "Failed to start" and opens the modal with the flat chain's message; loading ends; form, catalogue, server options and disclaimer are kept |
| Home.StopAnswered | screens/Home/Home.js:160-193 | trading goes off iff the stop returned 200, with "Stopped" and the modal saying "Trading has Stopped"; otherwise trading stays on under the starting label; a failure opens the modal; loading ends; form, catalogue, server options and disclaimer are kept |
| Home.ErrorClosed | components/ErrorModal.js:19-31 | the modal closes and the error is cleared; the plans screen opens iff the error was the no-subscription message |
| Home.DisclaimerClosed | screens/Home/Home.js:80-82 | only the disclaimer closes |
| Home.NoSecondRequestWhileLoading | screens/Home/Home.js:337-348 | while a reply is awaited, a press changes nothing, so at most one request is in flight |
| Home.StopAlwaysOffered | screens/Home/Home.js:337-348 | while trading and idle, a press always starts the check: the form cannot be incomplete while trading |
| Home.StartCycle | screens/Home/Home.js:111-158 | press, passed check, start reply: trading is on iff the start returned 200, then "In progress"; a failed start shows "Failed to start"; loading is off |
| Home.StopCycle | screens/Home/Home.js:160-193 | press while trading, passed check, accepted stop: trading off, "Stopped", the modal says "Trading has Stopped", loading off |
| Home.FailedStopShowsStartingLabel | screens/Home/Home.js:113 | a failed stop leaves trading on under "Starting , please wait...", which was set before the stop request, with the modal open |
| Home.FailedCheckCannotStop | screens/Home/Home.js:195-226 | when the check fails, a press while trading leaves trading and the label unchanged and opens the modal with the classified message |
| Home.Step | screens/Home/Home.js:10-27 | every handler, and every reply to the request being awaited, keeps the screen's invariant |
| Home.Run | screens/Home/Home.js:10-27 | every state reachable by a sequence of events keeps the invariant: loading is on exactly while a reply is awaited, the form is complete while trading, and the label is one of the five |
| Home.TradingOnlyStartsOnAcceptedStart | screens/Home/Home.js:130-134 | trading comes on only through a 200 reply to a start request |
| Home.TradingOnlyStopsOnAcceptedStop | screens/Home/Home.js:167-173 | trading goes off only through a 200 reply to a stop request |
| Home.HomeScreen.constructor | screens/Home/Home.js:11-27 | the screen starts in the initial state |
| Home.HomeScreen.IsButtonDisabled | screens/Home/Home.js:58-67 | the button flag is the effect's value over the current fields |
| Home.HomeScreen.FetchBrokerServers | screens/Home/Home.js:38-41 | performs `CatalogRequested` |
| Home.HomeScreen.BrokerServersFetched | screens/Home/Home.js:42-51 | performs `CatalogAnswered` |
| Home.HomeScreen.HandleBrokerChange | screens/Home/Home.js:69-73 | performs `BrokerChanged` |
| Home.HomeScreen.Edit | screens/Home/Home.js:264-331 | performs `FieldEdited` |
| Home.HomeScreen.Press | screens/Home/Home.js:195-198 | performs `Pressed` and reports whether the check was issued |
| Home.HomeScreen.CheckSubscriptionAnswered | screens/Home/Home.js:199-225 | performs `SubscriptionAnswered` |
| Home.HomeScreen.StartTradingAnswered | screens/Home/Home.js:119-157 | performs `StartAnswered` |
| Home.HomeScreen.StopTradingAnswered | screens/Home/Home.js:163-192 | performs `StopAnswered` |
| Home.HomeScreen.TradingStopped | screens/Home/Home.js:167-173 | the success branch of the stop: the new state is the old one with the error "Trading has Stopped", trading off, the "Stopped" label, loading off and the modal open |
| Home.HomeScreen.ShowFailure | screens/Home/Home.js:174-190 | the `catch` of each request: the new state is the old one with the flat chain's message as the error and the modal open |
| Home.HomeScreen.CloseError | screens/Home/Home.js:75-78 | performs `ErrorClosed` and returns whether the plans screen opens |
| Home.HomeScreen.CloseDisclaimer | screens/Home/Home.js:80-82 | performs `DisclaimerClosed` |

## Left out

- Network, secure store, async storage, location and navigation are not modelled
  as I/O.
  - Each remote call is an `Outcome` parameter.
  - Each navigation is a returned `Route`.
  - Reading the token from the secure store is assumed to succeed, and its
    failure is not modelled. `StopTrading` reads it inside `handleSubmit`'s
    `try` (screens/Home/Home.js:114-116, 162), so a failed read there would be
    caught and would show "Failed to start" with the generic message while
    trading stays on. The read in `CheckSubscription` (screens/Home/Home.js:198)
    precedes its `try` and would escape uncaught; `handleSubmit` receives that
    token as a parameter.
  - Storing the token after a successful log-in, sign-up confirmation or
    password change is assumed to succeed. Those writes sit inside the
    handlers' `try`, so a failed write would reach that handler's `catch`.
- Persisting and restoring the trading session is not modelled, because the code
  has no such persistence.
- The log-out handlers of Home, Profile and Signals (screens/Home/Home.js:88-110)
  are pure I/O and are left out.
- `convertToDollar` uses floating-point arithmetic (screens/Subscriptions/subscriptions.js:38-42).
  It is the parameter `convert`.
- The `paylinkUrl ||` choice of the payment link (screens/Subscriptions/subscriptions.js:108)
  is left out. The link arrives as the reply's data.
- Location permission and reverse geocoding (screens/Subscriptions/subscriptions.js:68-91)
  are left out. `LoadPlans` starts from the country code.
- Rendering, styles, animations, the password visibility toggles and input focus
  moves (screens/Verification/verify.js:92-94, 104-106) are left out.
- The Disclaimer modal's checkbox gate is left out; closing it is modelled
  unconditionally.
- The ErrorModal's only logic, the redirect on the no-subscription message, is
  modelled in `Home.ErrorClosed`.
- Welcome, Webview, Profile, Signals and App.js are not part of this model.
- Stale React closures are not modelled: every handler is assumed to see the
  current state.
- Reset.Answered routes with the e-mail held when the reply arrives. Reset.js
  sends and routes with the e-mail captured at the press
  (screens/Reset/Reset.js:51, 55). After a blur during the request the code
  goes to Verify with the typed e-mail, while the model goes with the empty one.
- The effect that computes Home's `isButtonDisabled` is modelled as the derived
  predicate `ButtonDisabled`. It recomputes from the same six fields on every
  change, and starts `true` over the empty form.
- Verify.VerifyScreen.ChangeText requires a non-negative index, as the five boxes
  pass 0 to 4. What a negative index would do is stated separately by
  `EnterDigitPrepends`.
- Home.ErrorClosed and Home.HomeScreen.CloseError do not require the modal to be
  open, although the OK button exists only while it is.
- Signup.Answered assumes that React batches the `catch` and `finally` updates
  made after the `await`. Under a legacy root, which does not batch them, the
  last update `setIsButtonDisabled(false)` would win, and the button would be
  enabled over a visible error.
- Login.Answered makes the same batching assumption. Without batching, the
  button would be enabled after every failure, over the error shown.
- Login.ReenabledUnlessErrorShown holds under that batching assumption only.
  Without batching, the button is enabled whether or not an error is showing.
- Js.Substring indexes characters, while JavaScript indexes UTF-16 code units.
  The two agree on the all-digit codes it is applied to.
