/** The checkout page: it resolves a payment session from the query parameters, keeps the
    create view only for a pending (`Created`) session and sends every other session to the
    result view, builds the wallet-payment URI shown as a QR code, and handles the confirm,
    timer-expired and cancel actions. */
module Checkout {
  import opened Common
  import opened Session
  import opened Effects

  datatype CheckoutState = Loading | Loaded(session: PaymentSession) | Error(error: string)

  datatype DisplayMode = Create | Result

  /** The `currentSession` computed signal: present exactly in the loaded state, and then
      that state's session. */
  function CurrentSession(st: CheckoutState): (r: Option<PaymentSession>)
    ensures r.Some? <==> st.Loaded?
    ensures r.Some? ==> r.value == st.session
  {
    if st.Loaded? then Some(st.session) else None
  }

  /** `updatePageTitle`'s choice of document title: each view has its own. */
  function PageTitle(mode: DisplayMode): (t: string)
    ensures t == "Pay with Crypto" <==> mode.Create?
    ensures t == "Payment Result" <==> mode.Result?
  {
    if mode == Create then "Pay with Crypto" else "Payment Result"
  }

  const PENDING_STATE: string := "Created"
  const CONFIRM_REDIRECT_DELAY_MS: nat := 1500
  const EXPIRY_REDIRECT_DELAY_MS: nat := 5000

  // ---------------------------------------------------------------- the QR payload

  /** The three fields the payment URI needs are all there: a non-empty blockchain, a
      non-empty receiving address and a defined amount. */
  predicate HasQrInputs(s: PaymentSession) {
    s.cryptoAmount.Some? && s.cryptoAmount.value.cryptoNetwork.Some?
    && Truthy(s.cryptoAmount.value.cryptoNetwork.value.blockchain)
    && Truthy(s.receiverWalletAddress)
    && s.cryptoAmount.value.amount.Some?
  }

  /** The page's fallback when the URI cannot be built: the bare address, or `''`. */
  function QrFallback(s: PaymentSession): string {
    if Truthy(s.receiverWalletAddress) then s.receiverWalletAddress.value else ""
  }

  /** `generateStandardQrCode`: `scheme:address?amount=value` with the lower-cased blockchain
      as scheme; any missing piece (including a missing `cryptoAmount`, whose destructuring
      throws) falls back instead of failing. Without all inputs it is that fallback; it is
      empty exactly when there is no usable address. */
  function GenerateStandardQrCode(s: PaymentSession): (u: string)
    ensures !HasQrInputs(s) ==> u == QrFallback(s)
    ensures u == "" <==> !Truthy(s.receiverWalletAddress)
  {
    if !HasQrInputs(s) then QrFallback(s)
    else
      var ca := s.cryptoAmount.value;
      var scheme := ToLower(ca.cryptoNetwork.value.blockchain.value);
      scheme + ":" + s.receiverWalletAddress.value + "?amount=" + ca.amount.value
  }

  /** The `qrCodeData` computed signal: empty unless a session with a usable address is loaded. */
  function QrCodeData(st: CheckoutState): (r: string)
    ensures r != "" <==> st.Loaded? && Truthy(st.session.receiverWalletAddress)
  {
    if !st.Loaded? then "" else GenerateStandardQrCode(st.session)
  }

  datatype PaymentUri = PaymentUri(scheme: string, address: string, amount: string)

  /** Splits at the first occurrence of `c`. */
  function SplitAt(s: string, c: char): Option<(string, string)> {
    if s == [] then None
    else if s[0] == c then Some(([], s[1..]))
    else
      match SplitAt(s[1..], c)
      case None => None
      case Some(parts) => Some(([s[0]] + parts.0, parts.1))
  }

  lemma {:induction false} SplitAtFirst(a: string, c: char, b: string)
    requires c !in a
    ensures SplitAt(a + [c] + b, c) == Some((a, b))
  {
    if a != [] {
      SplitAtFirst(a[1..], c, b);
      assert (a + [c] + b)[0] == a[0] != c;
      assert (a + [c] + b)[1..] == a[1..] + [c] + b;
      assert [a[0]] + a[1..] == a;
    } else {
      assert (a + [c] + b)[1..] == b;
    }
  }

  /** Reads a wallet payment URI `scheme:address?amount=value` as a wallet would. */
  function ParsePaymentUri(u: string): Option<PaymentUri> {
    match SplitAt(u, ':')
    case None => None
    case Some(head) =>
      match SplitAt(head.1, '?')
      case None => None
      case Some(tail) =>
        if |tail.1| >= 7 && tail.1[..7] == "amount=" then Some(PaymentUri(head.0, tail.0, tail.1[7..]))
        else None
  }

  /** With all three inputs present, a wallet reading the QR payload gets back the lower-cased
      blockchain, the address and the amount, provided the blockchain holds no `:` and the
      address no `?`. */
  lemma QrPayloadRoundTrip(s: PaymentSession)
    requires HasQrInputs(s)
    requires ':' !in s.cryptoAmount.value.cryptoNetwork.value.blockchain.value
    requires '?' !in s.receiverWalletAddress.value
    ensures ParsePaymentUri(GenerateStandardQrCode(s)) ==
      Some(PaymentUri(ToLower(s.cryptoAmount.value.cryptoNetwork.value.blockchain.value),
                      s.receiverWalletAddress.value, s.cryptoAmount.value.amount.value))
  {
    var ca := s.cryptoAmount.value;
    var scheme := ToLower(ca.cryptoNetwork.value.blockchain.value);
    var address := s.receiverWalletAddress.value;
    var rest := address + "?amount=" + ca.amount.value;
    assert ':' !in scheme;
    assert GenerateStandardQrCode(s) == scheme + [':'] + rest;
    SplitAtFirst(scheme, ':', rest);
    assert rest == address + ['?'] + ("amount=" + ca.amount.value);
    SplitAtFirst(address, '?', "amount=" + ca.amount.value);
    assert ("amount=" + ca.amount.value)[..7] == "amount=";
    assert ("amount=" + ca.amount.value)[7..] == ca.amount.value;
  }

  /** The URI scheme is the blockchain in lower case, followed by `:`. */
  lemma QrPayloadShape(s: PaymentSession)
    requires HasQrInputs(s)
    ensures var u := GenerateStandardQrCode(s);
      var b := s.cryptoAmount.value.cryptoNetwork.value.blockchain.value;
      |u| > |b| && u[..|b|] == ToLower(b) && IsLower(u[..|b|]) && u[|b|] == ':'
  {
    var b := s.cryptoAmount.value.cryptoNetwork.value.blockchain.value;
    var u := GenerateStandardQrCode(s);
    assert u[..|b|] == ToLower(b);
  }

  // ---------------------------------------------------------------- the page

  /** Which asynchronous result the page still listens for. Every request is numbered; a
      result is taken only while its number is the one awaited, which models switchMap's
      cancelling of the previous fetch and `unsubscribe` as discarding interest. */
  datatype Awaiting = Nothing | SessionFetch(gen: nat, params: Params) | RefreshCall(gen: nat)

  class CheckoutPage {
    var state: CheckoutState
    var displayMode: DisplayMode
    var isTimerExpired: bool
    var isConfirming: bool
    /** The query-parameter subscription held in `paymentSubscription` is still open. */
    var paramStreamLive: bool
    var awaiting: Awaiting
    /** Number of requests issued so far. */
    var generation: nat
    var effects: seq<Effect>

    /** No handler ever enters the error variant; a loaded session is on the create view with
        its timestamps turned into `Date`s; a session fetch is awaited only through the open
        parameter stream while loading; confirming happens only on a loaded page whose
        parameter stream has been unsubscribed, and confirming stays on while a refresh is
        awaited. */
    ghost predicate Valid()
      reads this
    {
      !state.Error?
      && (state.Loaded? ==> displayMode == Create && Normalized(state.session))
      && (awaiting.SessionFetch? ==> paramStreamLive && state.Loading? && awaiting.gen < generation)
      && (awaiting.RefreshCall? ==> !paramStreamLive && state.Loaded? && awaiting.gen < generation)
      && (isConfirming ==> state.Loaded? && !paramStreamLive)
      && (awaiting.RefreshCall? ==> isConfirming)
    }

    constructor ()
      ensures Valid()
      ensures state == Loading && !isTimerExpired && !isConfirming && displayMode == Create
      ensures !paramStreamLive && awaiting == Nothing && generation == 0 && effects == []
    {
      state := Loading;
      displayMode := Create;
      isTimerExpired, isConfirming := false, false;
      paramStreamLive, awaiting, generation := false, Nothing, 0;
      effects := [];
    }

    /** `ngOnInit`: subscribe to the query parameters, whose current value is delivered at once. */
    method NgOnInit(appId: Option<string>, paymentKey: Option<string>)
      requires Valid() && !paramStreamLive && awaiting == Nothing && !isConfirming
      modifies this
      ensures Valid()
      ensures var p := ParseParams(appId, paymentKey);
        if p.None? then
          !paramStreamLive && awaiting == Nothing && state == old(state) && generation == old(generation)
          && effects == old(effects) + [Log(LogError, "Critical error in checkout stream"), Navigate(NOT_FOUND_ROUTE, None, false)]
        else
          paramStreamLive && state == Loading && generation == old(generation) + 1
          && awaiting == SessionFetch(old(generation), p.value)
          && effects == old(effects) + [RequestSession(old(generation), p.value)]
      ensures displayMode == old(displayMode) && isConfirming == old(isConfirming)
      ensures isTimerExpired == old(isTimerExpired)
    {
      paramStreamLive := true;
      OnQueryParams(appId, paymentKey);
    }

    /** The query-parameter stream emits. Missing parameters are a stream error: logged, sent to
        the not-found page, and the stream (with any fetch in flight) ends. Valid parameters reset
        the state to loading and request the session, superseding any earlier request. */
    method OnQueryParams(appId: Option<string>, paymentKey: Option<string>)
      requires Valid()
      modifies this
      ensures Valid()
      ensures !old(paramStreamLive) ==>
        paramStreamLive == old(paramStreamLive) && awaiting == old(awaiting) && state == old(state)
        && generation == old(generation) && effects == old(effects)
      ensures old(paramStreamLive) ==>
        var p := ParseParams(appId, paymentKey);
        if p.None? then
          !paramStreamLive && awaiting == Nothing && state == old(state) && generation == old(generation)
          && effects == old(effects) + [Log(LogError, "Critical error in checkout stream"), Navigate(NOT_FOUND_ROUTE, None, false)]
        else
          paramStreamLive && state == Loading && generation == old(generation) + 1
          && awaiting == SessionFetch(old(generation), p.value)
          && effects == old(effects) + [RequestSession(old(generation), p.value)]
      ensures displayMode == old(displayMode) && isConfirming == old(isConfirming)
      ensures isTimerExpired == old(isTimerExpired)
    {
      if !paramStreamLive {
        return;
      }
      var p := ParseParams(appId, paymentKey);
      if p.None? {
        effects := effects + [Log(LogError, "Critical error in checkout stream"), Navigate(NOT_FOUND_ROUTE, None, false)];
        paramStreamLive := false;
        awaiting := Nothing;
        return;
      }
      state := Loading;
      awaiting := SessionFetch(generation, p.value);
      effects := effects + [RequestSession(generation, p.value)];
      generation := generation + 1;
    }

    /** Session fetch number `gen` succeeds. Only an exactly `"Created"` session stays: its
        timestamps become `Date`s with the given instants and the page shows it. Any other state
        switches to the result view and navigates there with the same parameters, replacing the
        history entry; the page stays loading. A superseded result changes nothing. */
    method OnSessionFetched(gen: nat, session: PaymentSession, createdMs: Option<int>, expireMs: Option<int>)
      requires Valid()
      modifies this
      ensures Valid()
      ensures !(old(awaiting).SessionFetch? && old(awaiting).gen == gen) ==>
        state == old(state) && displayMode == old(displayMode) && awaiting == old(awaiting)
        && effects == old(effects)
      ensures old(awaiting).SessionFetch? && old(awaiting).gen == gen ==>
        awaiting == Nothing
        && if session.paymentState == Some(PENDING_STATE) then
             displayMode == Create && state == Loaded(NormalizeTimes(session, createdMs, expireMs))
             && effects == old(effects) + [SetTitle("Pay with Crypto")]
           else
             displayMode == Result && state == Loading
             && effects == old(effects) + [SetTitle("Payment Result"),
                                           Navigate(RESULT_ROUTE, Some(old(awaiting).params), true)]
      ensures paramStreamLive == old(paramStreamLive) && generation == old(generation)
      ensures isConfirming == old(isConfirming) && isTimerExpired == old(isTimerExpired)
    {
      if !(awaiting.SessionFetch? && awaiting.gen == gen) {
        return;
      }
      var params := awaiting.params;
      awaiting := Nothing;
      if session.paymentState != Some(PENDING_STATE) {
        displayMode := Result;
        effects := effects + [SetTitle(PageTitle(displayMode))];
        effects := effects + [Navigate(RESULT_ROUTE, Some(params), true)];
      } else {
        var normalized := NormalizeTimes(session, createdMs, expireMs);
        displayMode := Create;
        effects := effects + [SetTitle(PageTitle(displayMode))];
        state := Loaded(normalized);
      }
    }

    /** Session fetch number `gen` fails: logged and sent to the not-found page; the state is
        left as it is and the parameter stream stays open. */
    method OnSessionFetchFailed(gen: nat)
      requires Valid()
      modifies this
      ensures Valid()
      ensures old(awaiting).SessionFetch? && old(awaiting).gen == gen ==>
        awaiting == Nothing
        && effects == old(effects) + [Log(LogError, "Critical error in checkout stream"), Navigate(NOT_FOUND_ROUTE, None, false)]
      ensures !(old(awaiting).SessionFetch? && old(awaiting).gen == gen) ==>
        awaiting == old(awaiting) && effects == old(effects)
      ensures state == old(state) && displayMode == old(displayMode) && paramStreamLive == old(paramStreamLive)
      ensures generation == old(generation) && isConfirming == old(isConfirming)
      ensures isTimerExpired == old(isTimerExpired)
    {
      if awaiting.SessionFetch? && awaiting.gen == gen {
        effects := effects + [Log(LogError, "Critical error in checkout stream"), Navigate(NOT_FOUND_ROUTE, None, false)];
        awaiting := Nothing;
      }
    }

    /** `onDepositConfirmed` with the route snapshot's parameters: nothing unless loaded; an
        error toast if a parameter is missing; otherwise confirming starts, the previous
        subscription (the parameter stream or an earlier refresh) is dropped and a refresh is
        requested. */
    method OnDepositConfirmed(appIdParam: Option<string>, paymentKeyParam: Option<string>)
      requires Valid()
      modifies this
      ensures Valid()
      ensures !old(state).Loaded? ==>
        isConfirming == old(isConfirming) && paramStreamLive == old(paramStreamLive)
        && awaiting == old(awaiting) && generation == old(generation) && effects == old(effects)
      ensures old(state).Loaded? && !(Truthy(appIdParam) && Truthy(paymentKeyParam)) ==>
        isConfirming == old(isConfirming) && paramStreamLive == old(paramStreamLive)
        && awaiting == old(awaiting) && generation == old(generation)
        && effects == old(effects) + [ToastError("An error occurred. Cannot refresh status.")]
      ensures old(state).Loaded? && Truthy(appIdParam) && Truthy(paymentKeyParam) ==>
        isConfirming && !paramStreamLive && awaiting == RefreshCall(old(generation))
        && generation == old(generation) + 1
        && effects == old(effects) + [RequestRefresh(old(generation), Params(appIdParam.value, paymentKeyParam.value))]
      ensures state == old(state) && displayMode == old(displayMode) && isTimerExpired == old(isTimerExpired)
    {
      if !state.Loaded? {
        return;
      }
      if !Truthy(appIdParam) || !Truthy(paymentKeyParam) {
        effects := effects + [ToastError("An error occurred. Cannot refresh status.")];
        return;
      }
      isConfirming := true;
      paramStreamLive := false;
      awaiting := RefreshCall(generation);
      effects := effects + [RequestRefresh(generation, Params(appIdParam.value, paymentKeyParam.value))];
      generation := generation + 1;
    }

    /** Refresh number `gen` delivers (possibly an empty body): with a return URL the browser is
        sent there after 1500 ms and confirming stays on; otherwise confirming ends. The refreshed
        session is not stored. A superseded refresh changes nothing. */
    method OnRefreshSucceeded(gen: nat, refreshed: Option<PaymentSession>)
      requires Valid()
      modifies this
      ensures Valid()
      ensures old(awaiting) == RefreshCall(gen) ==>
        awaiting == Nothing
        && if refreshed.Some? && Truthy(refreshed.value.returnUrl) then
             isConfirming
             && effects == old(effects) + [ScheduleRedirect(refreshed.value.returnUrl.value, CONFIRM_REDIRECT_DELAY_MS)]
           else
             !isConfirming && effects == old(effects)
      ensures old(awaiting) != RefreshCall(gen) ==>
        awaiting == old(awaiting) && isConfirming == old(isConfirming) && effects == old(effects)
      ensures state == old(state) && displayMode == old(displayMode) && paramStreamLive == old(paramStreamLive)
      ensures generation == old(generation) && isTimerExpired == old(isTimerExpired)
    {
      if awaiting != RefreshCall(gen) {
        return;
      }
      awaiting := Nothing;
      if refreshed.Some? && Truthy(refreshed.value.returnUrl) {
        effects := effects + [ScheduleRedirect(refreshed.value.returnUrl.value, CONFIRM_REDIRECT_DELAY_MS)];
      } else {
        isConfirming := false;
      }
    }

    /** Refresh number `gen` fails: logged, confirming ends, the state is kept so the payer can
        confirm again. */
    method OnRefreshFailed(gen: nat)
      requires Valid()
      modifies this
      ensures Valid()
      ensures old(awaiting) == RefreshCall(gen) ==>
        awaiting == Nothing && !isConfirming
        && effects == old(effects) + [Log(LogError, "Failed to refresh status")]
      ensures old(awaiting) != RefreshCall(gen) ==>
        awaiting == old(awaiting) && isConfirming == old(isConfirming) && effects == old(effects)
      ensures state == old(state) && displayMode == old(displayMode) && paramStreamLive == old(paramStreamLive)
      ensures generation == old(generation) && isTimerExpired == old(isTimerExpired)
    {
      if awaiting == RefreshCall(gen) {
        effects := effects + [Log(LogError, "Failed to refresh status")];
        isConfirming := false;
        awaiting := Nothing;
      }
    }

    /** `onTimerExpired`: flag and warn; a loaded session with a return URL is left for after 5 s. */
    method OnTimerExpired()
      requires Valid()
      modifies this`isTimerExpired, this`effects
      ensures Valid() && isTimerExpired
      ensures state.Loaded? && Truthy(state.session.returnUrl) ==>
        effects == old(effects) + [ToastError("Payment time has expired. You will be redirected."),
                                   ScheduleRedirect(state.session.returnUrl.value, EXPIRY_REDIRECT_DELAY_MS)]
      ensures !(state.Loaded? && Truthy(state.session.returnUrl)) ==>
        effects == old(effects) + [ToastError("Payment time has expired. You will be redirected."),
                                   Log(LogError, "Timer expired but no returnUrl was found in the session.")]
    {
      isTimerExpired := true;
      effects := effects + [ToastError("Payment time has expired. You will be redirected.")];
      if state.Loaded? && Truthy(state.session.returnUrl) {
        effects := effects + [ScheduleRedirect(state.session.returnUrl.value, EXPIRY_REDIRECT_DELAY_MS)];
      } else {
        effects := effects + [Log(LogError, "Timer expired but no returnUrl was found in the session.")];
      }
    }

    /** `onCancel`: straight to the return URL of a loaded session, else one step back. */
    method OnCancel()
      modifies this`effects
      ensures state.Loaded? && Truthy(state.session.returnUrl) ==>
        effects == old(effects) + [Redirect(state.session.returnUrl.value)]
      ensures !(state.Loaded? && Truthy(state.session.returnUrl)) ==>
        effects == old(effects) + [Log(LogWarn, "Return to store clicked, but no returnUrl found. Falling back to location.back()."), GoBack]
    {
      if state.Loaded? && Truthy(state.session.returnUrl) {
        effects := effects + [Redirect(state.session.returnUrl.value)];
      } else {
        effects := effects + [Log(LogWarn, "Return to store clicked, but no returnUrl found. Falling back to location.back()."), GoBack];
      }
    }

    /** `ngOnDestroy`: the held subscription is dropped, so no later result reaches the page. */
    method NgOnDestroy()
      requires Valid()
      modifies this`paramStreamLive, this`awaiting
      ensures Valid() && !paramStreamLive && awaiting == Nothing
    {
      paramStreamLive := false;
      awaiting := Nothing;
    }
  }
}
