/** The payment session as the hosted-page client delivers it, the timestamp values the
    pages and the countdown see, and the two query parameters both pages require. */
module Session {
  import opened Common

  /** A timestamp-typed property as JavaScript holds it at run time: absent
      (`null`/`undefined`), raw text from the JSON body, or a `Date` object whose
      time value is `None` for an Invalid Date (`getTime()` is `NaN`). */
  datatype Stamp = Missing | Text(raw: string) | Date(time: Option<int>)

  /** JavaScript truthiness of a stamp: every `Date` object is truthy, text only when non-empty. */
  predicate StampTruthy(s: Stamp) {
    match s
    case Missing => false
    case Text(raw) => raw != ""
    case Date(_) => true
  }

  /** A `Date` whose time value is a number: `instanceof Date && !isNaN(getTime())`. */
  predicate ValidDate(s: Stamp) {
    s.Date? && s.time.Some?
  }

  datatype CryptoNetwork = CryptoNetwork(blockchain: Option<string>)

  /** `amount` is carried as the text `Number(amount).toString()` yields for it;
      `None` stands for an `undefined` amount. */
  datatype CryptoAmount = CryptoAmount(amount: Option<string>, cryptoNetwork: Option<CryptoNetwork>)

  datatype PaymentSession = PaymentSession(
    paymentState: Option<string>,
    createdTime: Stamp,
    expireAt: Stamp,
    receiverWalletAddress: Option<string>,
    cryptoAmount: Option<CryptoAmount>,
    returnUrl: Option<string>)

  /** The validated query parameters. `appId` is kept as the text of the parameter;
      the numeric conversion `Number(appId)` is not modelled. */
  datatype Params = Params(appId: string, paymentKey: string)

  /** The `map` step both pages apply to the route's query parameters: both must be present
      and non-empty (`!appId || !paymentKey` throws), and then they are passed on unchanged. */
  function ParseParams(appId: Option<string>, paymentKey: Option<string>): (r: Option<Params>)
    ensures r.Some? <==> Truthy(appId) && Truthy(paymentKey)
    ensures r.Some? ==> r.value.appId == appId.value && r.value.paymentKey == paymentKey.value
    ensures r.Some? ==> r.value.appId != "" && r.value.paymentKey != ""
  {
    if !Truthy(appId) || !Truthy(paymentKey) then None
    else Some(Params(appId.value, paymentKey.value))
  }

  /** A session whose two timestamps have been replaced by `Date` objects, as the checkout
      page does before it shows a pending session. */
  predicate Normalized(s: PaymentSession) {
    s.createdTime.Date? && s.expireAt.Date?
  }

  /** The in-place rewrite `session.createdTime = new Date(session.createdTime + 'Z')` and the
      same for `expireAt`; the instants the parser yields are inputs here. */
  function NormalizeTimes(s: PaymentSession, createdMs: Option<int>, expireMs: Option<int>): (r: PaymentSession)
    ensures Normalized(r)
    ensures r.createdTime.time == createdMs && r.expireAt.time == expireMs
    ensures r.(createdTime := s.createdTime, expireAt := s.expireAt) == s
  {
    s.(createdTime := Date(createdMs), expireAt := Date(expireMs))
  }
}

/** The side effects the pages perform: navigation, requests to the hosted-page client,
    the document title, toasts, log lines and browser redirects, recorded in order. */
module Effects {
  import opened Common
  import opened Session

  datatype LogLevel = LogError | LogWarn

  datatype Effect =
    | Navigate(path: string, query: Option<Params>, replaceUrl: bool)
    | RequestSession(gen: nat, params: Params)  // getPaymentSession(appId, paymentKey)
    | RequestRefresh(gen: nat, params: Params)  // refreshStatus(appId, paymentKey)
    | SetTitle(title: string)
    | ToastError(text: string)
    | Log(level: LogLevel, text: string)
    | ScheduleRedirect(url: string, delayMs: nat)  // setTimeout(() => location.href = url, delayMs)
    | Redirect(url: string)  // window.location.href = url
    | GoBack  // location.back()

  const NOT_FOUND_ROUTE := "/not-found"
  const RESULT_ROUTE := "/result"
}
