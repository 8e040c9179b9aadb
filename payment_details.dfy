/** The payment-details view: the presentation decisions it takes from the bound session
    (payment classification, title and message, timer colour) and its `isLoading` flag. */
module PaymentDetails {
  import opened Common
  import opened Session

  datatype PaymentState = Paid | Failed | InProgress

  /** The spellings, after lower-casing, the view takes for a paid and for a failed payment. */
  const PAID_WORDS: set<string> := {"paid", "success", "completed"}
  const FAILED_WORDS: set<string> := {"failed", "error", "rejected"}

  /** The `paymentState` getter on the session's raw state: absent or empty is in progress;
      otherwise the lower-cased text is matched against the paid and the failed spellings. */
  function Classify(paymentState: Option<string>): (r: PaymentState)
    ensures r == Paid <==> Truthy(paymentState) && ToLower(paymentState.value) in PAID_WORDS
    ensures r == Failed <==> Truthy(paymentState) && ToLower(paymentState.value) in FAILED_WORDS
  {
    if !Truthy(paymentState) then InProgress
    else
      var state := ToLower(paymentState.value);
      if state == "paid" || state == "success" || state == "completed" then Paid
      else if state == "failed" || state == "error" || state == "rejected" then Failed
      else InProgress
  }

  /** The getter on the bound session: without a session, or without a payment state on it,
      the payment is in progress. */
  function PaymentStateOf(session: Option<PaymentSession>): (r: PaymentState)
    ensures session.None? ==> r == InProgress
    ensures r != InProgress ==> session.Some? && Truthy(session.value.paymentState)
  {
    match session
    case None => InProgress
    case Some(s) => Classify(s.paymentState)
  }

  /** The classification ignores letter case: a state and its lower-cased form agree. */
  lemma ClassifyIgnoresCase(s: string)
    ensures Classify(Some(s)) == Classify(Some(ToLower(s)))
  {
    ToLowerIdempotent(s);
  }

  /** Any two spellings that differ only in letter case are classified alike. */
  lemma ClassifySameLowerCase(s: string, t: string)
    requires ToLower(s) == ToLower(t)
    ensures Classify(Some(s)) == Classify(Some(t))
  {
    ClassifyIgnoresCase(s);
    ClassifyIgnoresCase(t);
  }

  /** The pending state the checkout page keeps on its create view counts as in progress here. */
  lemma CreatedIsInProgress()
    ensures Classify(Some("Created")) == InProgress
  {
    ToLowerIs("Created", "created");
  }

  /** The `statusTitle` getter: each title belongs to exactly one classification. */
  function StatusTitle(p: PaymentState): (t: string)
    ensures t == "Success" <==> p == Paid
    ensures t == "Failed" <==> p == Failed
    ensures t == "Processing" <==> p == InProgress
  {
    match p
    case Paid => "Success"
    case Failed => "Failed"
    case InProgress => "Processing"
  }

  /** The `statusMessage` getter: each message belongs to exactly one classification. */
  function StatusMessage(p: PaymentState): (m: string)
    ensures m == "Payment Successful" <==> p == Paid
    ensures m == "Payment Failed" <==> p == Failed
    ensures m == "Your payment is being processed" <==> p == InProgress
  {
    match p
    case Paid => "Payment Successful"
    case Failed => "Payment Failed"
    case InProgress => "Your payment is being processed"
  }

  /** Each table gives every classification its own text, so the title alone, and the
      message alone, tell which classification is shown. */
  lemma TablesDistinguishStates(a: PaymentState, b: PaymentState)
    ensures StatusTitle(a) == StatusTitle(b) ==> a == b
    ensures StatusMessage(a) == StatusMessage(b) ==> a == b
  {
  }

  /** The three CSS classes `timerStatus` returns: `status-ok`, `status-warning` and
      `status-danger`. */
  datatype TimerStatus = StatusOk | StatusWarning | StatusDanger

  function TimerRank(t: TimerStatus): nat {
    match t
    case StatusOk => 0
    case StatusWarning => 1
    case StatusDanger => 2
  }

  /** `new Date(value).getTime()` for a stamp, `None` for `NaN`; parsing of raw text is the
      given `parseDate`. */
  function InstantOf(s: Stamp, parseDate: string -> Option<int>): Option<int> {
    match s
    case Missing => None
    case Text(raw) => parseDate(raw)
    case Date(t) => t
  }

  /** The `timerStatus` getter: danger without a session or once the timer has expired;
      otherwise more than 300 s left is ok, more than 60 s is warning, else danger. The
      seconds `(expireAt - now) / 1000` are compared as milliseconds; an Invalid Date (`NaN`)
      fails both comparisons. */
  function TimerStatusOf(session: Option<PaymentSession>, isTimerExpired: bool, nowMs: int,
                         parseDate: string -> Option<int>): (t: TimerStatus)
    ensures t != StatusDanger ==>
      session.Some? && !isTimerExpired && InstantOf(session.value.expireAt, parseDate).Some?
      && InstantOf(session.value.expireAt, parseDate).value - nowMs > 60_000
    ensures t == StatusOk ==> InstantOf(session.value.expireAt, parseDate).value - nowMs > 300_000
  {
    if session.None? || isTimerExpired then StatusDanger
    else
      match InstantOf(session.value.expireAt, parseDate)
      case None => StatusDanger
      case Some(expireMs) =>
        if expireMs - nowMs > 300_000 then StatusOk
        else if expireMs - nowMs > 60_000 then StatusWarning
        else StatusDanger
  }

  /** The millisecond comparison is the source's comparison of fractional seconds, with both
      bounds exclusive. */
  lemma TimerStatusMatchesSeconds(s: PaymentSession, nowMs: int, parseDate: string -> Option<int>)
    requires InstantOf(s.expireAt, parseDate).Some?
    ensures var left := (InstantOf(s.expireAt, parseDate).value - nowMs) as real / 1000.0;
      TimerStatusOf(Some(s), false, nowMs, parseDate) ==
        if left > 300.0 then StatusOk else if left > 60.0 then StatusWarning else StatusDanger
  {
  }

  /** The colour never becomes less urgent as time passes. */
  lemma TimerStatusMonotone(session: Option<PaymentSession>, isTimerExpired: bool,
                            now1: int, now2: int, parseDate: string -> Option<int>)
    requires now1 <= now2
    ensures TimerRank(TimerStatusOf(session, isTimerExpired, now1, parseDate))
         <= TimerRank(TimerStatusOf(session, isTimerExpired, now2, parseDate))
  {
  }

  /** A flagged expiry, a missing session or an unreadable expiry is always danger. */
  lemma TimerStatusDangerCases(session: Option<PaymentSession>, isTimerExpired: bool, nowMs: int,
                               parseDate: string -> Option<int>)
    requires session.None? || isTimerExpired || InstantOf(session.value.expireAt, parseDate).None?
    ensures TimerStatusOf(session, isTimerExpired, nowMs, parseDate) == StatusDanger
  {
  }

  /** The component's own state: the bound session and the loading flag, with the pending
      1500 ms timers that will clear it. */
  class PaymentDetailsComponent {
    var session: Option<PaymentSession>
    var isLoading: bool
    var pendingLoadingTimers: nat

    constructor ()
      ensures session == None && isLoading && pendingLoadingTimers == 0
    {
      session, isLoading, pendingLoadingTimers := None, true, 0;
    }

    /** `ngOnChanges` for a new value of the `session` input: loading while there is no
        session; a first session after none also shows loading and schedules the reset. */
    method NgOnChanges(current: Option<PaymentSession>)
      modifies this
      ensures session == current
      ensures isLoading == (current.None? || old(session).None?)
      ensures pendingLoadingTimers == old(pendingLoadingTimers) + if old(session).None? && current.Some? then 1 else 0
    {
      var previous := session;
      session := current;
      isLoading := current.None?;
      var wasLoading := previous.None? && current.Some?;
      if wasLoading {
        isLoading := true;
        pendingLoadingTimers := pendingLoadingTimers + 1;
      }
    }

    /** One of the scheduled 1500 ms timers fires and clears the flag, whatever the session is by then. */
    method LoadingTimerFires()
      requires pendingLoadingTimers > 0
      modifies this`isLoading, this`pendingLoadingTimers
      ensures !isLoading && pendingLoadingTimers == old(pendingLoadingTimers) - 1
    {
      isLoading := false;
      pendingLoadingTimers := pendingLoadingTimers - 1;
    }
  }
}
