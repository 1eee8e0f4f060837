/** The trading screen (screens/Home/Home.js): the broker/server catalogue,
    the trading form, and the single Start/Stop button that runs a
    subscription check and then starts or stops automated trading.

    The asynchronous handlers are split at their `await`s. `Phase` records
    which reply the screen is waiting for; each reply is an input `Outcome`.
    The handlers are pure transitions on `HomeState`, and `HomeScreen` holds
    the same fields and is proved to perform them step by step. */
module Home {
  import opened Js
  import opened Http

  const NotStarted: string := "Not Started"
  const StartingLabel: string := "Starting , please wait..."
  const InProgress: string := "In progress"
  const FailedToStart: string := "Failed to start"
  const Stopped: string := "Stopped"
  const StoppedMessage: string := "Trading has Stopped"
  const CatalogError: string := "Failed to fetch broker servers"
  /** The message on which closing the error modal opens the plans screen. */
  const NoSubscriptionMessage: string := "You have no subscription with us, please subscribe."

  /** The reply the screen is waiting for (none when Idle). */
  datatype Phase = Idle | FetchingCatalog | CheckingSubscription | Starting | Stopping

  datatype Form = Form(
    selectedBroker: string, account: string, password: string,
    server: string, profit: string, selectedPair: string)

  datatype HomeState = HomeState(
    form: Form,
    serverOptions: Option<seq<string>>,       // brokerServers[selectedBroker]; None when undefined
    brokerServers: map<string, seq<string>>,  // the broker -> servers catalogue
    trading: bool,
    tradingStatus: string,
    isLoading: bool,
    isOpen: bool,
    isOpenDisclaimer: bool,
    error: Option<string>,
    phase: Phase)

  /** The fields the enable effect looks at are all non-empty. */
  predicate FormComplete(f: Form) {
    f.account != "" && f.selectedBroker != "" && f.password != "" &&
    f.server != "" && f.profit != "" && f.selectedPair != ""
  }

  /** `isButtonDisabled`, as the effect computes it. */
  predicate ButtonDisabled(s: HomeState) {
    !FormComplete(s.form)
  }

  /** The status labels the screen ever shows. */
  predicate IsStatusLabel(l: string) {
    l == NotStarted || l == StartingLabel || l == InProgress || l == FailedToStart || l == Stopped
  }

  /** The screen's invariant. Loading is on exactly while a reply is awaited;
      a start is only awaited while not trading and a stop only while
      trading; the form is complete whenever a request is in flight or
      trading is on (the form is frozen then); while trading, or while a
      start or stop is awaited, the label is the in-progress or the starting
      label. */
  ghost predicate Valid(s: HomeState) {
    && (s.phase == Idle <==> !s.isLoading)
    && (s.phase == Starting ==> !s.trading)
    && (s.phase == Stopping ==> s.trading)
    && (s.trading || s.phase in {CheckingSubscription, Starting, Stopping} ==> FormComplete(s.form))
    && (s.trading ==> s.tradingStatus == InProgress || s.tradingStatus == StartingLabel)
    && (s.phase in {Starting, Stopping} ==> s.tradingStatus == StartingLabel)
    && IsStatusLabel(s.tradingStatus)
  }

  function Initial(): (s: HomeState)
    ensures Valid(s)
    ensures !s.trading && s.tradingStatus == NotStarted && !s.isLoading && ButtonDisabled(s)
  {
    HomeState(Form("", "", "", "", "", ""), Some([]), map[], false, NotStarted,
              false, false, false, None, Idle)
  }

  // ---------------------------------------------------------------------
  // Catalogue
  // ---------------------------------------------------------------------

  /** `fetchBrokerServers`, up to the request. */
  function CatalogRequested(s: HomeState): (r: HomeState)
    requires Valid(s) && s.phase == Idle
    ensures Valid(r) && r.isLoading && r.phase == FetchingCatalog
    ensures r == s.(isLoading := true, phase := FetchingCatalog)
  {
    s.(isLoading := true, phase := FetchingCatalog)
  }

  /** The catalogue request settles: a catalogue replaces the old one; any
      failure records the catalogue error (without opening the modal). */
  function CatalogAnswered(s: HomeState, catalog: Option<map<string, seq<string>>>): (r: HomeState)
    requires Valid(s) && s.phase == FetchingCatalog
    ensures Valid(r) && !r.isLoading && r.phase == Idle
    ensures catalog.Some? ==> r.brokerServers == catalog.value && r.error == s.error
    ensures catalog.None? ==> r.brokerServers == s.brokerServers && r.error == Some(CatalogError)
    ensures r == s.(brokerServers := r.brokerServers, error := r.error, isLoading := false, phase := Idle)
  {
    match catalog
    case Some(m) => s.(brokerServers := m, isLoading := false, phase := Idle)
    case None => s.(error := Some(CatalogError), isLoading := false, phase := Idle)
  }

  // ---------------------------------------------------------------------
  // Form
  // ---------------------------------------------------------------------

  datatype Field = Account | Password | Profit | Server | Pair

  /** The pickers and inputs are enabled only while neither trading nor
      loading; account, password, profit and server are rendered only once a
      broker is selected. */
  predicate Editable(s: HomeState, f: Field) {
    !s.trading && !s.isLoading && (f == Pair || s.form.selectedBroker != "")
  }

  function SetField(form: Form, f: Field, value: string): Form {
    match f
    case Account => form.(account := value)
    case Password => form.(password := value)
    case Profit => form.(profit := value)
    case Server => form.(server := value)
    case Pair => form.(selectedPair := value)
  }

  function FieldEdited(s: HomeState, f: Field, value: string): (r: HomeState)
    requires Valid(s)
    ensures Valid(r)
    ensures Editable(s, f) ==> r == s.(form := SetField(s.form, f, value))
    ensures !Editable(s, f) ==> r == s
  {
    if Editable(s, f) then s.(form := SetField(s.form, f, value)) else s
  }

  /** `handleBrokerChange`: the broker is set, the server is cleared and the
      server options become the catalogue's entry for that broker; nothing
      else changes. The cleared server disables the button. */
  function BrokerChanged(s: HomeState, value: string): (r: HomeState)
    requires Valid(s)
    ensures Valid(r)
    ensures !s.trading && !s.isLoading ==>
      && r.form == s.form.(selectedBroker := value, server := "")
      && r.serverOptions == (if value in s.brokerServers then Some(s.brokerServers[value]) else None)
      && r == s.(form := r.form, serverOptions := r.serverOptions)
      && ButtonDisabled(r)
    ensures s.trading || s.isLoading ==> r == s
  {
    if !s.trading && !s.isLoading then
      s.(form := s.form.(selectedBroker := value, server := ""),
         serverOptions := if value in s.brokerServers then Some(s.brokerServers[value]) else None)
    else s
  }

  // ---------------------------------------------------------------------
  // Start / Stop
  // ---------------------------------------------------------------------

  /** A press on Start/Stop runs `CheckSubscription` up to its request. The
      button is not rendered while loading and is inert while disabled. */
  function Pressed(s: HomeState): (r: HomeState)
    requires Valid(s)
    ensures Valid(r)
    ensures s.phase == Idle ==> (r.phase == CheckingSubscription <==> FormComplete(s.form))
    ensures !s.isLoading && FormComplete(s.form) ==>
      r == s.(isOpenDisclaimer := true, isLoading := true, phase := CheckingSubscription)
    ensures s.isLoading || !FormComplete(s.form) ==> r == s
  {
    if s.isLoading || ButtonDisabled(s) then s
    else s.(isOpenDisclaimer := true, isLoading := true, phase := CheckingSubscription)
  }

  /** The subscription check settles. A 200 runs `handleSubmit`, which shows
      the starting label and sends the stop request when trading, the start
      request otherwise. Anything else ends the press: a failure reports its
      message in the modal; trading and the label stay as they were. */
  function SubscriptionAnswered(s: HomeState, o: Outcome<()>): (r: HomeState)
    requires Valid(s) && s.phase == CheckingSubscription
    ensures Valid(r)
    ensures r == s.(isLoading := r.isLoading, tradingStatus := r.tradingStatus, phase := r.phase,
                    error := r.error, isOpen := r.isOpen)
    ensures o.Ok? && o.status == 200 ==>
      && r.isLoading && r.tradingStatus == StartingLabel
      && r.phase == (if s.trading then Stopping else Starting)
      && r.error == s.error && r.isOpen == s.isOpen
    ensures !(o.Ok? && o.status == 200) ==> !r.isLoading && r.phase == Idle && r.tradingStatus == s.tradingStatus
    ensures o.Ok? && o.status != 200 ==> r.error == s.error && r.isOpen == s.isOpen
    ensures o.Failed? ==> r.error == FlatFailure(o.response, o.hasRequest) && r.isOpen
  {
    match o
    case Ok(status, _) =>
      if status == 200 then
        s.(isLoading := true, tradingStatus := StartingLabel, phase := if s.trading then Stopping else Starting)
      else
        s.(isLoading := false, phase := Idle)
    case Failed(response, hasRequest) =>
      s.(error := FlatFailure(response, hasRequest), isOpen := true, isLoading := false, phase := Idle)
  }

  /** The start request settles. A 200 turns trading on with the
      in-progress label; another success status changes nothing more; a
      failure leaves trading off, shows the failed label and reports its
      message in the modal. Loading ends in every case. */
  function StartAnswered(s: HomeState, o: Outcome<()>): (r: HomeState)
    requires Valid(s) && s.phase == Starting
    ensures Valid(r) && !r.isLoading && r.phase == Idle
    ensures r.form == s.form && r.serverOptions == s.serverOptions && r.brokerServers == s.brokerServers
    ensures r.isOpenDisclaimer == s.isOpenDisclaimer
    ensures r.trading <==> o.Ok? && o.status == 200
    ensures o.Ok? && o.status == 200 ==> r.tradingStatus == InProgress
    ensures o.Ok? && o.status != 200 ==> r.tradingStatus == StartingLabel
    ensures o.Ok? ==> r.error == s.error && r.isOpen == s.isOpen
    ensures o.Failed? ==>
      r.tradingStatus == FailedToStart && r.isOpen && r.error == FlatFailure(o.response, o.hasRequest)
  {
    match o
    case Ok(status, _) =>
      if status == 200 then s.(trading := true, tradingStatus := InProgress, isLoading := false, phase := Idle)
      else s.(isLoading := false, phase := Idle)
    case Failed(response, hasRequest) =>
      s.(error := FlatFailure(response, hasRequest), isOpen := true, tradingStatus := FailedToStart,
         isLoading := false, phase := Idle)
  }

  /** The stop request settles. A 200 turns trading off with the stopped
      label and opens the modal on "Trading has Stopped"; anything else
      leaves trading on and the starting label in place (a failure reports
      its message in the modal). Loading ends in every case. */
  function StopAnswered(s: HomeState, o: Outcome<()>): (r: HomeState)
    requires Valid(s) && s.phase == Stopping
    ensures Valid(r) && !r.isLoading && r.phase == Idle
    ensures r.form == s.form && r.serverOptions == s.serverOptions && r.brokerServers == s.brokerServers
    ensures r.isOpenDisclaimer == s.isOpenDisclaimer
    ensures r.trading <==> !(o.Ok? && o.status == 200)
    ensures o.Ok? && o.status == 200 ==> r.tradingStatus == Stopped && r.error == Some(StoppedMessage) && r.isOpen
    ensures !(o.Ok? && o.status == 200) ==> r.tradingStatus == StartingLabel
    ensures o.Ok? && o.status != 200 ==> r.error == s.error && r.isOpen == s.isOpen
    ensures o.Failed? ==> r.isOpen && r.error == FlatFailure(o.response, o.hasRequest)
  {
    match o
    case Ok(status, _) =>
      if status == 200 then
        s.(error := Some(StoppedMessage), trading := false, tradingStatus := Stopped,
           isLoading := false, isOpen := true, phase := Idle)
      else s.(isLoading := false, phase := Idle)
    case Failed(response, hasRequest) =>
      s.(error := FlatFailure(response, hasRequest), isOpen := true, isLoading := false, phase := Idle)
  }

  /** Closing the error modal clears it; the returned flag says whether the
      modal then opens the plans screen (it does for the no-subscription
      message only). */
  function ErrorClosed(s: HomeState): (r: (HomeState, bool))
    requires Valid(s)
    ensures Valid(r.0)
    ensures r.0 == s.(isOpen := false, error := None)
    ensures r.1 <==> s.error == Some(NoSubscriptionMessage)
  {
    (s.(isOpen := false, error := None), s.error == Some(NoSubscriptionMessage))
  }

  function DisclaimerClosed(s: HomeState): (r: HomeState)
    requires Valid(s)
    ensures Valid(r) && r == s.(isOpenDisclaimer := false)
  {
    s.(isOpenDisclaimer := false)
  }

  // ---------------------------------------------------------------------
  // Whole presses
  // ---------------------------------------------------------------------

  /** While a reply is awaited the button is gone, so a press does nothing:
      at most one check, start or stop request is in flight. */
  lemma NoSecondRequestWhileLoading(s: HomeState)
    requires Valid(s) && s.phase != Idle
    ensures Pressed(s) == s
  {
  }

  /** While trading and idle, the Stop button is always enabled. */
  lemma StopAlwaysOffered(s: HomeState)
    requires Valid(s) && s.trading && s.phase == Idle
    ensures Pressed(s).phase == CheckingSubscription
  {
  }

  /** A press with a complete form while not trading, a passed check and an
      accepted start: trading is on with the in-progress label. */
  lemma StartCycle(s: HomeState, start: Outcome<()>)
    requires Valid(s) && s.phase == Idle && !s.trading && FormComplete(s.form)
    ensures var r := StartAnswered(SubscriptionAnswered(Pressed(s), Ok(200, ())), start);
      && (r.trading <==> start.Ok? && start.status == 200)
      && (r.trading ==> r.tradingStatus == InProgress)
      && (start.Failed? ==> r.tradingStatus == FailedToStart && r.isOpen)
      && !r.isLoading
  {
  }

  /** A press while trading, a passed check and an accepted stop: trading is
      off with the stopped label and the modal says so. */
  lemma StopCycle(s: HomeState)
    requires Valid(s) && s.phase == Idle && s.trading
    ensures var r := StopAnswered(SubscriptionAnswered(Pressed(s), Ok(200, ())), Ok(200, ()));
      && !r.trading && r.tradingStatus == Stopped && r.error == Some(StoppedMessage) && r.isOpen && !r.isLoading
  {
  }

  /** A failed stop keeps trading on under the starting label that the
      press put up before the stop request. */
  lemma FailedStopShowsStartingLabel(s: HomeState, response: Option<Response>, hasRequest: bool)
    requires Valid(s) && s.phase == Idle && s.trading
    ensures var r := StopAnswered(SubscriptionAnswered(Pressed(s), Ok(200, ())), Failed(response, hasRequest));
      && r.trading && r.tradingStatus == StartingLabel && r.isOpen
  {
  }

  /** The subscription check gates stopping as well as starting: when the
      check fails, a press while trading leaves trading on and the label
      unchanged. */
  lemma FailedCheckCannotStop(s: HomeState, response: Option<Response>, hasRequest: bool)
    requires Valid(s) && s.phase == Idle && s.trading
    ensures var r := SubscriptionAnswered(Pressed(s), Failed(response, hasRequest));
      && r.trading && r.tradingStatus == s.tradingStatus && r.isOpen
      && r.error == FlatFailure(response, hasRequest) && !r.isLoading
  {
  }

  /** A state is reachable when a sequence of events leads to it from the
      initial state. */
  datatype Event =
    | RequestCatalog
    | CatalogReply(catalog: Option<map<string, seq<string>>>)
    | ChangeBroker(broker: string)
    | Edit(field: Field, value: string)
    | Press
    | CheckReply(check: Outcome<()>)
    | StartReply(start: Outcome<()>)
    | StopReply(stop: Outcome<()>)
    | CloseError
    | CloseDisclaimer

  /** The effect of one event; an event that cannot happen in the current
      phase (a reply nobody awaits) is ignored. */
  function Step(s: HomeState, e: Event): (r: HomeState)
    requires Valid(s)
    ensures Valid(r)
  {
    match e
    case RequestCatalog => if s.phase == Idle then CatalogRequested(s) else s
    case CatalogReply(c) => if s.phase == FetchingCatalog then CatalogAnswered(s, c) else s
    case ChangeBroker(b) => BrokerChanged(s, b)
    case Edit(f, v) => FieldEdited(s, f, v)
    case Press => Pressed(s)
    case CheckReply(o) => if s.phase == CheckingSubscription then SubscriptionAnswered(s, o) else s
    case StartReply(o) => if s.phase == Starting then StartAnswered(s, o) else s
    case StopReply(o) => if s.phase == Stopping then StopAnswered(s, o) else s
    case CloseError => ErrorClosed(s).0
    case CloseDisclaimer => DisclaimerClosed(s)
  }

  /** The state a sequence of events leads to. Every state reachable from
      a valid one (the initial state among them) keeps the invariant: in
      particular trading is only ever on with a complete form, and loading is
      on exactly while a reply is awaited. */
  function Run(s: HomeState, events: seq<Event>): (r: HomeState)
    requires Valid(s)
    ensures Valid(r)
    decreases |events|
  {
    if events == [] then s else Run(Step(s, events[0]), events[1..])
  }

  /** Trading only comes on through an accepted start request: a single
      event turns trading on only if it is a 200 reply to a start request. */
  lemma TradingOnlyStartsOnAcceptedStart(s: HomeState, e: Event)
    requires Valid(s) && !s.trading
    ensures Step(s, e).trading ==> s.phase == Starting && e.StartReply? && e.start.Ok? && e.start.status == 200
  {
  }

  /** Trading only goes off through an accepted stop request. */
  lemma TradingOnlyStopsOnAcceptedStop(s: HomeState, e: Event)
    requires Valid(s) && s.trading
    ensures !Step(s, e).trading ==> s.phase == Stopping && e.StopReply? && e.stop.Ok? && e.stop.status == 200
  {
  }

  // ---------------------------------------------------------------------
  // The screen as a mutable object
  // ---------------------------------------------------------------------

  class HomeScreen {
    var selectedBroker: string
    var account: string
    var password: string
    var server: string
    var profit: string
    var selectedPair: string
    var serverOptions: Option<seq<string>>
    var brokerServers: map<string, seq<string>>
    var trading: bool
    var tradingStatus: string
    var isLoading: bool
    var isOpen: bool
    var isOpenDisclaimer: bool
    var error: Option<string>
    /** Which `await` the screen's handlers are suspended at. */
    ghost var phase: Phase

    ghost function State(): HomeState
      reads this
    {
      HomeState(Form(selectedBroker, account, password, server, profit, selectedPair),
                serverOptions, brokerServers, trading, tradingStatus,
                isLoading, isOpen, isOpenDisclaimer, error, phase)
    }

    constructor ()
      ensures State() == Initial()
    {
      selectedBroker, account, password, server, profit, selectedPair := "", "", "", "", "", "";
      serverOptions := Some([]);
      brokerServers := map[];
      trading := false;
      tradingStatus := NotStarted;
      isLoading, isOpen, isOpenDisclaimer := false, false, false;
      error := None;
      phase := Idle;
    }

    /** `isButtonDisabled` */
    function IsButtonDisabled(): (d: bool)
      reads this
      ensures d == ButtonDisabled(State())
    {
      account == "" || selectedBroker == "" || password == "" || server == "" || profit == "" || selectedPair == ""
    }

    method FetchBrokerServers()
      requires Valid(State()) && phase == Idle
      modifies this
      ensures State() == CatalogRequested(old(State()))
    {
      isLoading := true;
      phase := FetchingCatalog;
    }

    method BrokerServersFetched(catalog: Option<map<string, seq<string>>>)
      requires Valid(State()) && phase == FetchingCatalog
      modifies this
      ensures State() == CatalogAnswered(old(State()), catalog)
    {
      match catalog {
        case Some(m) =>
          brokerServers := m;
          isLoading := false;
        case None =>
          error := Some(CatalogError);
          isLoading := false;
      }
      phase := Idle;
    }

    method HandleBrokerChange(value: string)
      requires Valid(State())
      modifies this
      ensures State() == BrokerChanged(old(State()), value)
    {
      if !trading && !isLoading {
        selectedBroker := value;
        server := "";
        serverOptions := if value in brokerServers then Some(brokerServers[value]) else None;
      }
    }

    method Edit(f: Field, value: string)
      requires Valid(State())
      modifies this
      ensures State() == FieldEdited(old(State()), f, value)
    {
      if !trading && !isLoading && (f == Pair || selectedBroker != "") {
        match f {
          case Account => account := value;
          case Password => password := value;
          case Profit => profit := value;
          case Server => server := value;
          case Pair => selectedPair := value;
        }
      }
    }

    /** The `catch` that each of the three requests repeats: the response's
        `error` field for a 404 or a 401, the server-side message when a
        request went out without a response, the generic message otherwise;
        the error modal opens. */
    method ShowFailure(response: Option<Response>, hasRequest: bool)
      modifies this
      ensures State() == old(State()).(error := FlatFailure(response, hasRequest), isOpen := true)
    {
      if HasStatus(response, 404) {
        error := response.value.errorField;
      } else if HasStatus(response, 401) {
        error := response.value.errorField;
      } else if hasRequest {
        error := Some(ServerSideError);
      } else {
        error := Some(GenericError);
      }
      isOpen := true;
    }

    /** A press on Start/Stop: `CheckSubscription` up to its request. */
    method Press() returns (issued: bool)
      requires Valid(State())
      modifies this
      ensures issued == (!old(isLoading) && !old(IsButtonDisabled()))
      ensures State() == Pressed(old(State()))
    {
      issued := !isLoading && !IsButtonDisabled();
      if issued {
        isOpenDisclaimer := true;
        isLoading := true;
        phase := CheckingSubscription;
      }
    }

    /** `CheckSubscription` resumes with the check's outcome; on a 200 it
      runs `handleSubmit` up to the start request, or, when trading, up to
      the stop request inside `StopTrading`. */
    method CheckSubscriptionAnswered(o: Outcome<()>)
      requires Valid(State()) && phase == CheckingSubscription
      modifies this
      ensures State() == SubscriptionAnswered(old(State()), o)
    {
      match o {
        case Ok(status, _) =>
          if status == 200 {
            // handleSubmit
            isLoading := true;
            tradingStatus := StartingLabel;
            if trading {
              // StopTrading
              isLoading := true;
              phase := Stopping;
            } else {
              phase := Starting;
            }
            return;
          }
        case Failed(response, hasRequest) =>
          ShowFailure(response, hasRequest);
      }
      // finally of CheckSubscription
      isLoading := false;
      phase := Idle;
    }

    /** `handleSubmit` resumes with the start request's outcome. */
    method StartTradingAnswered(o: Outcome<()>)
      requires Valid(State()) && phase == Starting
      modifies this
      ensures State() == StartAnswered(old(State()), o)
    {
      match o {
        case Ok(status, _) =>
          if status == 200 {
            trading := true;
            tradingStatus := InProgress;
            isLoading := false;
          }
        case Failed(response, hasRequest) =>
          ShowFailure(response, hasRequest);
          tradingStatus := FailedToStart;
      }
      // the finally blocks of handleSubmit and CheckSubscription each clear
      // loading
      isLoading := false;
      phase := Idle;
    }

    /** The success branch of `StopTrading`: trading is off, the label says
        so, loading ends and the modal reports that trading has stopped. */
    method TradingStopped()
      modifies this
      ensures State() == old(State()).(error := Some(StoppedMessage), trading := false, tradingStatus := Stopped,
                                       isLoading := false, isOpen := true)
    {
      error := Some(StoppedMessage);
      trading := false;
      tradingStatus := Stopped;
      isLoading := false;
      isOpen := true;
    }

    /** `StopTrading` resumes with the stop request's outcome. */
    method StopTradingAnswered(o: Outcome<()>)
      requires Valid(State()) && phase == Stopping
      modifies this
      ensures State() == StopAnswered(old(State()), o)
    {
      match o {
        case Ok(status, _) =>
          if status == 200 {
            TradingStopped();
          }
        case Failed(response, hasRequest) =>
          ShowFailure(response, hasRequest);
      }
      // the finally blocks of StopTrading, handleSubmit and CheckSubscription
      // each clear loading
      isLoading := false;
      phase := Idle;
    }

    /** `handleCloseError`, and whether the modal then opens the plans screen. */
    method CloseError() returns (toSubscriptions: bool)
      requires Valid(State())
      modifies this
      ensures (State(), toSubscriptions) == ErrorClosed(old(State()))
    {
      toSubscriptions := error == Some(NoSubscriptionMessage);
      isOpen := false;
      error := None;
    }

    method CloseDisclaimer()
      requires Valid(State())
      modifies this
      ensures State() == DisclaimerClosed(old(State()))
    {
      isOpenDisclaimer := false;
    }
  }
}
