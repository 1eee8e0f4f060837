/** The subscription plans screen (screens/Subscriptions/subscriptions.js):
    the shared error handler, the per-plan loading flags of a subscribe
    request, and the localisation of fetched plan prices by country code.

    The price conversion `convertToDollar` works on floating point numbers
    and is a parameter here (`convert`). */
module Subscriptions {
  import opened Js
  import opened Http

  /** `handleError`: a response gives the server's message when it is truthy
      and the generic message otherwise; without a response, a request gives
      the network message; anything else the unexpected-error message. */
  function HandleError(response: Option<Response>, hasRequest: bool): (m: string)
    ensures m != ""
    ensures response.Some? && Truthy(response.value.errorField) ==> m == response.value.errorField.value
    ensures response.Some? && !Truthy(response.value.errorField) ==> m == GenericError
    ensures response.None? && hasRequest ==> m == NetworkError
    ensures response.None? && !hasRequest ==> m == UnexpectedErrorShort
  {
    if response.Some? then
      if Truthy(response.value.errorField) then response.value.errorField.value else GenericError
    else if hasRequest then NetworkError
    else UnexpectedErrorShort
  }

  datatype Plan = Plan(id: string, title: string, price: string, features: seq<string>)

  /** `plans.map(plan => ({ ...plan, price: convert(plan.price) }))` */
  function ConvertPrices(plans: seq<Plan>, convert: string -> string): (r: seq<Plan>)
    ensures |r| == |plans|
    ensures forall i :: 0 <= i < |plans| ==> r[i] == plans[i].(price := convert(plans[i].price))
  {
    if plans == [] then [] else [plans[0].(price := convert(plans[0].price))] + ConvertPrices(plans[1..], convert)
  }

  /** The plans shown for a country: as fetched for 'ZA', converted otherwise. */
  function LocalisePlans(plans: seq<Plan>, countryCode: string, convert: string -> string): (r: seq<Plan>)
    ensures countryCode == "ZA" ==> r == plans
    ensures |r| == |plans|
    ensures forall i :: 0 <= i < |plans| ==>
      && r[i].id == plans[i].id && r[i].title == plans[i].title && r[i].features == plans[i].features
      && r[i].price == (if countryCode == "ZA" then plans[i].price else convert(plans[i].price))
  {
    if countryCode != "ZA" then ConvertPrices(plans, convert) else plans
  }

  /** `{ ...prevState, [planId]: v }` */
  function SetLoading(states: map<string, bool>, planId: string, v: bool): (r: map<string, bool>)
    ensures r.Keys == states.Keys + {planId}
    ensures r[planId] == v
    ensures forall k :: k in states && k != planId ==> r[k] == states[k]
  {
    states[planId := v]
  }

  /** `loadingStates[id]` as a condition: an absent key reads as undefined. */
  predicate IsLoadingPlan(states: map<string, bool>, planId: string) {
    planId in states && states[planId]
  }

  const InitialLoadingStates: map<string, bool> := map["1" := false, "2" := false, "3" := false]

  lemma InitialLoadingStatesShape()
    ensures InitialLoadingStates.Keys == {"1", "2", "3"}
    ensures forall k :: !IsLoadingPlan(InitialLoadingStates, k)
  {
  }

  class SubscriptionsScreen {
    var loadingStates: map<string, bool>
    var location: string
    var plans: seq<Plan>
    var isLoading: bool
    var isButtonDisabled: bool
    var isOpen: bool
    var error: Option<string>
    /** The plan whose subscribe request is awaited, if any. */
    ghost var pending: Option<string>

    /** At most one subscribe request is pending; the buttons are disabled
      exactly while it is, and only its plan shows a spinner. */
    ghost predicate Valid()
      reads this
    {
      && (isButtonDisabled <==> pending.Some?)
      && (forall k :: IsLoadingPlan(loadingStates, k) ==> pending == Some(k))
    }

    constructor ()
      ensures Valid()
      ensures loadingStates == InitialLoadingStates && location == "" && plans == []
      ensures !isLoading && !isButtonDisabled && !isOpen && error == None
    {
      loadingStates := InitialLoadingStates;
      location, plans := "", [];
      isLoading, isButtonDisabled, isOpen := false, false, false;
      error := None;
      pending := None;
    }

    /** `handleError`, writing the message and opening the modal. */
    method ReportError(response: Option<Response>, hasRequest: bool)
      modifies this`error, this`isOpen
      ensures error == Some(HandleError(response, hasRequest)) && isOpen
    {
      if response.Some? {
        var message := if Truthy(response.value.errorField) then response.value.errorField.value else GenericError;
        error := Some(message);
      } else if hasRequest {
        error := Some(NetworkError);
      } else {
        error := Some(UnexpectedErrorShort);
      }
      isOpen := true;
    }

    /** The country code is known: it is stored and the plans are fetched
      with outcome `o`. */
    method LoadPlans(countryCode: string, o: Outcome<seq<Plan>>, convert: string -> string)
      requires Valid()
      modifies this`location, this`plans, this`isLoading, this`error, this`isOpen
      ensures Valid() && location == countryCode && !isLoading
      ensures plans == if o.Ok? && o.status == 200 then LocalisePlans(o.data, countryCode, convert) else old(plans)
      ensures o.Failed? ==> error == Some(HandleError(o.response, o.hasRequest)) && isOpen
      ensures o.Ok? ==> error == old(error) && isOpen == old(isOpen)
    {
      location := countryCode;
      isLoading := true;
      match o {
        case Ok(status, fetched) =>
          if status == 200 {
            var shown := fetched;
            if countryCode != "ZA" {
              shown := ConvertPrices(fetched, convert);
            }
            plans := shown;
          }
        case Failed(response, hasRequest) =>
          ReportError(response, hasRequest);
      }
      // finally
      isLoading := false;
    }

    /** A press on a plan's Subscribe button: it is replaced by a spinner
      while that plan is loading and inert while the buttons are disabled. */
    method BeginSubscribe(planId: string) returns (issued: bool)
      requires Valid()
      modifies this`isButtonDisabled, this`loadingStates, this`pending
      ensures Valid()
      ensures issued == (!old(isButtonDisabled) && !IsLoadingPlan(old(loadingStates), planId))
      ensures issued ==> isButtonDisabled && loadingStates == SetLoading(old(loadingStates), planId, true) && pending == Some(planId)
      ensures !issued ==> isButtonDisabled == old(isButtonDisabled) && loadingStates == old(loadingStates) && pending == old(pending)
    {
      issued := !isButtonDisabled && !IsLoadingPlan(loadingStates, planId);
      if issued {
        isButtonDisabled := true;
        loadingStates := SetLoading(loadingStates, planId, true);
        pending := Some(planId);
      }
    }

    /** The payment-link request for the pending plan settles with `o`. */
    method FinishSubscribe(planId: string, o: Outcome<string>) returns (route: Route)
      requires Valid() && pending == Some(planId)
      modifies this`isButtonDisabled, this`loadingStates, this`pending, this`error, this`isOpen
      ensures Valid() && pending == None && !isButtonDisabled
      ensures loadingStates == SetLoading(old(loadingStates), planId, false)
      ensures forall k :: !IsLoadingPlan(loadingStates, k)
      ensures route == if o.Ok? && o.status == 200 then WebView(o.data) else Stay
      ensures o.Failed? ==> error == Some(HandleError(o.response, o.hasRequest)) && isOpen
      ensures o.Ok? ==> error == old(error) && isOpen == old(isOpen)
    {
      route := Stay;
      match o {
        case Ok(status, link) =>
          if status == 200 {
            route := WebView(link);
          }
        case Failed(response, hasRequest) =>
          ReportError(response, hasRequest);
      }
      // finally
      loadingStates := SetLoading(loadingStates, planId, false);
      isButtonDisabled := false;
      pending := None;
    }

    method CloseError()
      modifies this`isOpen, this`error
      ensures !isOpen && error == None
    {
      isOpen := false;
      error := None;
    }
  }
}
