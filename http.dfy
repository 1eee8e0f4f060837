/** The outcome of one remote call as the screens see it, and the fixed
    user-facing messages they display. A call either resolves (axios gives a
    response with a 2xx status, `Ok`) or rejects (`Failed`), in which case the
    error object may carry a response, may carry a request, both, or neither. */
module Http {
  import opened Js

  /** `error.response`: its HTTP status and the `error` field of its body. */
  datatype Response = Response(status: int, errorField: Option<string>)

  /** One remote call. `data` is what the screen reads from a resolved body. */
  datatype Outcome<T> =
    | Ok(status: int, data: T)
    | Failed(response: Option<Response>, hasRequest: bool)

  /** `error.response && error.response.status === code` */
  predicate HasStatus(response: Option<Response>, code: int) {
    response.Some? && response.value.status == code
  }

  /** The server's `error` field of a present response (undefined otherwise). */
  function ServerMessage(response: Option<Response>): (m: Option<string>)
    ensures response.None? ==> m.None?
  {
    if response.Some? then response.value.errorField else None
  }

  const GenericError: string := "An error occurred. Please try again."
  const ServerSideError: string := "Something went wrong on our side."
  const NetworkError: string := "Network error. Please check your connection."
  const UnexpectedError: string := "An unexpected error occurred. Please try again."
  const UnexpectedErrorShort: string := "An unexpected error occurred."

  /** The flat `catch` chain of the reset and trading screens: 404 and 401
      give the server's message; otherwise a request (even one that got a
      response with another status) gives the server-side message, and
      anything else the generic message. */
  function FlatFailure(response: Option<Response>, hasRequest: bool): (m: Option<string>)
    ensures HasStatus(response, 404) || HasStatus(response, 401) ==> m == response.value.errorField
    ensures !(HasStatus(response, 404) || HasStatus(response, 401)) && hasRequest ==> m == Some(ServerSideError)
    ensures !(HasStatus(response, 404) || HasStatus(response, 401)) && !hasRequest ==> m == Some(GenericError)
  {
    if HasStatus(response, 404) then response.value.errorField
    else if HasStatus(response, 401) then response.value.errorField
    else if hasRequest then Some(ServerSideError)
    else Some(GenericError)
  }

  /** The nested `catch` chain of the verification and log-in screens: a
      response gives the server's message for 404 and 401 and the generic
      message for any other status; only without a response does the request
      decide between the network message and the unexpected-error message. */
  function NestedFailure(response: Option<Response>, hasRequest: bool): (m: Option<string>)
    ensures response.Some? && response.value.status in {404, 401} ==> m == response.value.errorField
    ensures response.Some? && response.value.status !in {404, 401} ==> m == Some(GenericError)
    ensures response.None? && hasRequest ==> m == Some(NetworkError)
    ensures response.None? && !hasRequest ==> m == Some(UnexpectedError)
  {
    if response.Some? then
      if response.value.status == 404 then response.value.errorField
      else if response.value.status == 401 then response.value.errorField
      else Some(GenericError)
    else if hasRequest then Some(NetworkError)
    else Some(UnexpectedError)
  }

  /** The two chains agree only on 404 and 401, and on a response that came
      without a request; a rejected call that sent a request and got another
      status, or got no response at all, is reported differently. */
  lemma FlatNestedAgreeIff(response: Option<Response>, hasRequest: bool)
    ensures FlatFailure(response, hasRequest) == NestedFailure(response, hasRequest) <==>
      HasStatus(response, 404) || HasStatus(response, 401) || (response.Some? && !hasRequest)
  {
  }

  /** Where a screen navigates after a call; `Home(token)` stores `token` in
      the secure store first when it is present. */
  datatype Route =
    | Stay
    | Home(storedToken: Option<string>)
    | Verify(email: string, kind: string)
    | Change(email: string, serverToken: string)
    | WebView(link: string)
}
