# Hosted crypto checkout: payment-session lifecycle

A Dafny model of the payment-session lifecycle of a hosted cryptocurrency checkout page
(an Angular application). The model covers four parts:

- **The checkout page** (`Checkout.CheckoutPage`). It reads `appId` and `paymentKey` from the
  query parameters and fetches the session. It keeps the create view only for a session whose
  `paymentState` is exactly `"Created"`; any other session is sent to `/result`. It also handles
  the confirm/refresh, timer-expired and cancel actions. Beside it sit the pure `currentSession`
  and `qrCodeData` computeds and the wallet-payment URI generator (`scheme:address?amount=value`).
- **The countdown directive** (`Countdown.CountdownDirective`). It shows the remaining time as
  `MM:SS` and colours a status dot by the share of the whole duration that is left (inclusive
  thresholds at 20 % and 50 %). It emits `timerExpired` at most once.
- **The payment-details view logic** (`PaymentDetails`). It classifies `paymentState` into
  paid, failed or in progress, ignoring case. It holds the title and message tables, the
  absolute 300 s / 60 s timer colour, and the `isLoading` rule.
- **The result page** (`Results.ResultPage`). It shows whatever session it fetches and offers
  the way back to the merchant.

How the model stands in for the browser:

- Every asynchronous boundary is an input event: the fetch and refresh results, a new value of
  the query parameters, and an interval tick carrying `now` in milliseconds.
- Each request is numbered with a generation. A result is taken only while its number is the
  one the page awaits. This models both switchMap's cancelling of an earlier fetch and
  `unsubscribe` as losing interest in a result.
- Side effects are appended to an `effects` trace: navigation, requests, the title, toasts,
  log lines, `setTimeout` redirects with their delay, immediate redirects and `location.back()`.
- Timestamps are `Stamp` values: absent, raw text, or a `Date` whose time value is `None` for
  an Invalid Date.

Properties proved:

- The checkout page keeps an invariant, `CheckoutPage.Valid`, that every handler preserves:
  - the `error` variant is never entered;
  - a loaded session is on the create view and has `Date` timestamps;
  - a session fetch is awaited only while loading;
  - confirming happens only on a loaded page whose parameter stream has been dropped;
  - while a refresh is awaited, confirming is on, so it stays on through the 1500 ms before
    the redirect.
- The countdown's invariant says that `timerExpired` has emitted once exactly when `isExpired`
  is set. Since `isExpired` is never reset, the signal goes out at most once.
- The `MM:SS` text reads back as the number of seconds it came from (`Countdown.Clock`).
- The integer thresholds are exactly the source's fractional comparisons. Urgency and the
  timer colour are monotone in time.
- A wallet parsing the QR payload gets back the lower-cased chain, the address and the amount,
  provided the blockchain name holds no `:` and the address no `?`.
- Client methods in `Scenarios` replay the main payment flows against the contracts alone.

Behaviour of the code worth knowing:

- `isExpired` is set once and never reset (src/app/directives/countdown.ts:17, 101-104), so
  `timerExpired` fires at most once in a directive's lifetime. A new valid expiry after an
  emission restarts the display and the interval but emits nothing
  (`CountdownDirective.NgOnChanges`, `Scenarios.ExpiryFiresOnce`).
- `startCountdown` runs the first tick and then arms the interval whatever that tick found
  (src/app/directives/countdown.ts:90-93). When the expiry has already passed, the interval is
  armed after the expired path ran, and the next tick clears it
  (`CountdownDirective.StartCountdown`, `Scenarios.ExpiryFiresOnce`).
- `Number(amount).toString()` does not throw (src/app/features/checkout/checkout.page.ts:75).
  A defined but malformed amount therefore gives its text (for instance `NaN`) in the URI,
  not the bare-address fallback.
- On the checkout page, a failed session fetch is caught inside the switchMap
  (src/app/features/checkout/checkout.page.ts:131-135). The query-parameter stream stays open;
  only missing parameters end it (src/app/features/checkout/checkout.page.ts:104-106, 139-143).
- Both error paths navigate to `/not-found` and leave the state as it was. Nothing is cleared.
- Confirming unsubscribes `paymentSubscription` (src/app/features/checkout/checkout.page.ts:172).
  That field then holds the query-parameter stream, so confirming ends that stream as well as
  any earlier refresh.

## Model

| member | source | states |
|---|---|---|
| Common.ToLower | src/app/components/payment-details/payment-details.component.ts:59 | lower-casing keeps the length, maps each character on its own, and leaves no upper-case letter |
| Common.ToLowerIdempotent | src/app/components/payment-details/payment-details.component.ts:59 | lower-casing an already lower-cased text changes nothing |
| Common.NatToStringValue | src/app/directives/countdown.ts:119-120 | the decimal text `toString()` gives for a whole number reads back as that number |
| Common.Pad2Value | src/app/directives/countdown.ts:119-120 | `padStart(2, '0')` keeps the digits' value and makes at least two of them |
| Session.ParseParams | src/app/features/checkout/checkout.page.ts:101-107 | the parameters are accepted exactly when both are present and non-empty, and are then passed on unchanged |
| Session.NormalizeTimes | src/app/features/checkout/checkout.page.ts:123-124 | both timestamps become `Date`s holding the parsed instants, and no other field of the session changes |
| Countdown.RemainingSeconds | src/app/directives/countdown.ts:79 | the remaining seconds are the floor of the millisecond difference over 1000, also for negative differences |
| Countdown.TotalDuration | src/app/directives/countdown.ts:54-67 | the total is 0 unless both inputs are valid `Date`s, and otherwise the floored seconds between them |
| Countdown.Clock | src/app/directives/countdown.ts:118-121 | the `MM:SS` text has at least two minute digits, a colon and two second digits below 60, and reads back as the seconds it was made from |
| Countdown.Urgency | src/app/directives/countdown.ts:123-130 | with a positive total the dot is never neutral; with no positive total the status is kept |
| Countdown.ClockAtZero | src/app/directives/countdown.ts:99 | the expired display `00:00` is the clock text of zero seconds |
| Countdown.UrgencyMatchesFractions | src/app/directives/countdown.ts:123-130 | with a positive total, danger means at most 20 % left and warning at most 50 % (both inclusive), else ok; with no positive total the status is kept |
| Countdown.UrgencyMonotone | src/app/directives/countdown.ts:123-130 | with a positive total, less time left never gives a less urgent status, and never neutral |
| Countdown.CountdownDirective.constructor | src/app/directives/countdown.ts:17-35 | a new directive shows `--:--`, neutral, has no interval, a zero total, and has not emitted |
| Countdown.CountdownDirective.InitializeDisplay | src/app/directives/countdown.ts:32-35 | the display becomes `--:--` and the status neutral |
| Countdown.CountdownDirective.Cleanup | src/app/directives/countdown.ts:143-148 | afterwards no interval is set, whatever was set before, so a second call changes nothing |
| Countdown.CountdownDirective.NgOnDestroy | src/app/directives/countdown.ts:150-152 | destruction leaves no interval running |
| Countdown.CountdownDirective.CalculateTotalDuration | src/app/directives/countdown.ts:54-67 | the stored total is `TotalDuration` of the current inputs |
| Countdown.CountdownDirective.HandleExpiredState | src/app/directives/countdown.ts:97-116 | stops the interval, shows `00:00` in danger, and emitted goes up by one only if no emission happened before |
| Countdown.CountdownDirective.UpdateDisplayAndDot | src/app/directives/countdown.ts:118-131 | the display is the `MM:SS` clock of the remaining seconds and the status is the urgency rule applied to the old status |
| Countdown.CountdownDirective.Tick | src/app/directives/countdown.ts:77-88 | at zero or fewer seconds left the expired path runs; otherwise display and status follow the clock and urgency and nothing else changes |
| Countdown.CountdownDirective.StartCountdown | src/app/directives/countdown.ts:70-94 | an invalid expiry takes the expired path with no interval; a valid one ticks once and then arms the interval on that expiry |
| Countdown.CountdownDirective.NgOnChanges | src/app/directives/countdown.ts:37-52 | a new `Date` expiry recomputes the total and restarts; a falsy expiry stops the timer and restores the placeholder without emitting; anything else changes nothing; emissions never go back |
| Countdown.CountdownDirective.IntervalTick | src/app/directives/countdown.ts:90-92 | a firing of the armed interval is one tick on the expiry it captured |
| PaymentDetails.Classify | src/app/components/payment-details/payment-details.component.ts:56-68 | paid exactly when the state is present and lower-cases to `paid`, `success` or `completed`; failed exactly when it lower-cases to `failed`, `error` or `rejected`; in progress otherwise |
| PaymentDetails.PaymentStateOf | src/app/components/payment-details/payment-details.component.ts:56-57 | without a session the payment is in progress; paid or failed needs a session with a non-empty state |
| PaymentDetails.ClassifyIgnoresCase | src/app/components/payment-details/payment-details.component.ts:56-68 | a payment state and its lower-cased form get the same classification |
| PaymentDetails.ClassifySameLowerCase | src/app/components/payment-details/payment-details.component.ts:56-68 | two spellings that differ only in letter case get the same classification |
| PaymentDetails.CreatedIsInProgress | src/app/components/payment-details/payment-details.component.ts:65-66 | the pending state `Created` is shown as in progress |
| PaymentDetails.StatusTitle | src/app/components/payment-details/payment-details.component.ts:70-81 | `Success`, `Failed` and `Processing` each belong to exactly one classification |
| PaymentDetails.StatusMessage | src/app/components/payment-details/payment-details.component.ts:82-93 | `Payment Successful`, `Payment Failed` and `Your payment is being processed` each belong to exactly one classification |
| PaymentDetails.TablesDistinguishStates | src/app/components/payment-details/payment-details.component.ts:70-93 | the title table, and likewise the message table, gives each classification a different text |
| PaymentDetails.TimerStatusOf | src/app/components/payment-details/payment-details.component.ts:112-127 | anything but danger needs a session, no expiry flag and a readable expiry more than 60 s away; ok needs more than 300 s |
| PaymentDetails.TimerStatusMatchesSeconds | src/app/components/payment-details/payment-details.component.ts:117-127 | with a readable expiry, the colour is ok above 300 s left, warning above 60 s, else danger, with both bounds exclusive on fractional seconds |
| PaymentDetails.TimerStatusMonotone | src/app/components/payment-details/payment-details.component.ts:112-127 | a later clock reading never gives a less urgent colour |
| PaymentDetails.TimerStatusDangerCases | src/app/components/payment-details/payment-details.component.ts:113-115 | no session, an expired timer or an Invalid Date expiry is always danger |
| PaymentDetails.PaymentDetailsComponent.constructor | src/app/components/payment-details/payment-details.component.ts:37-46 | a new view has no session and is loading |
| PaymentDetails.PaymentDetailsComponent.NgOnChanges | src/app/components/payment-details/payment-details.component.ts:95-110 | loading unless both the previous and the new session exist; a first session after none schedules one reset timer |
| PaymentDetails.PaymentDetailsComponent.LoadingTimerFires | src/app/components/payment-details/payment-details.component.ts:102-105 | a scheduled reset clears loading whatever the session is by then |
| Checkout.QrPayloadRoundTrip | src/app/features/checkout/checkout.page.ts:65-79 | with chain, address and amount present, and no `:` in the chain nor `?` in the address, parsing the payload gives back the lower-cased chain, the address and the amount text |
| Checkout.GenerateStandardQrCode | src/app/features/checkout/checkout.page.ts:65-84 | with any input missing the payload is the bare address or `''`; the payload is empty exactly when there is no usable address |
| Checkout.QrPayloadShape | src/app/features/checkout/checkout.page.ts:75-79 | with all inputs present the payload starts with the blockchain in lower case, followed by `:` |
| Checkout.CurrentSession | src/app/features/checkout/checkout.page.ts:45-48 | `currentSession` is present exactly when the state is loaded, and is then that session |
| Checkout.QrCodeData | src/app/features/checkout/checkout.page.ts:57-63 | `qrCodeData` is non-empty exactly when a session with a usable address is loaded |
| Checkout.PageTitle | src/app/features/checkout/checkout.page.ts:90-96 | the create view is titled `Pay with Crypto` and the result view `Payment Result`, and no other way round |
| Checkout.CheckoutPage.constructor | src/app/features/checkout/checkout.page.ts:41-55 | the page starts loading on the create view, not confirming, not expired, with nothing subscribed and no effects |
| Checkout.CheckoutPage.NgOnInit | src/app/features/checkout/checkout.page.ts:86-145 | on the first parameters, missing ones log and go to `/not-found` with no request; valid ones set loading and issue exactly one session request |
| Checkout.CheckoutPage.OnQueryParams | src/app/features/checkout/checkout.page.ts:100-111 | while the stream is open, missing parameters end it and go to `/not-found` with the state kept; valid ones reset to loading and supersede any earlier request |
| Checkout.CheckoutPage.OnSessionFetched | src/app/features/checkout/checkout.page.ts:112-130 | for the awaited fetch, exactly `"Created"` loads the normalized session on the create view with its title; any other state sets the result view and title, navigates to `/result` with the same parameters and `replaceUrl`, and stays loading; a superseded fetch changes nothing |
| Checkout.CheckoutPage.OnSessionFetchFailed | src/app/features/checkout/checkout.page.ts:131-135 | the awaited fetch's failure logs and goes to `/not-found`, leaving the state and the parameter stream as they were |
| Checkout.CheckoutPage.OnDepositConfirmed | src/app/features/checkout/checkout.page.ts:160-173 | nothing unless loaded; missing snapshot parameters give an error toast with confirming unchanged; otherwise confirming starts, the prior subscription is dropped and one refresh is requested |
| Checkout.CheckoutPage.OnRefreshSucceeded | src/app/features/checkout/checkout.page.ts:174-182 | for the awaited refresh, a return URL schedules one redirect after 1500 ms and confirming is on; otherwise confirming ends; the state is never changed and a superseded refresh changes nothing |
| Checkout.CheckoutPage.OnRefreshFailed | src/app/features/checkout/checkout.page.ts:183-186 | the awaited refresh's failure logs and ends confirming, leaving the state as it was |
| Checkout.CheckoutPage.OnTimerExpired | src/app/features/checkout/checkout.page.ts:149-158 | always flags the expiry and shows an error toast; schedules a redirect after 5000 ms only for a loaded session with a return URL, otherwise logs |
| Checkout.CheckoutPage.OnCancel | src/app/features/checkout/checkout.page.ts:192-200 | redirects at once to the loaded session's return URL, otherwise logs a warning and goes back |
| Checkout.CheckoutPage.NgOnDestroy | src/app/features/checkout/checkout.page.ts:202-206 | after destruction no fetch or refresh result is awaited and the parameter stream is closed |
| Results.ResultPage.constructor | src/app/features/results/results.component.ts:27-28 | the page starts with no session and loading |
| Results.ResultPage.NgOnInit | src/app/features/results/results.component.ts:30-48 | sets the result title; missing parameters then log and clear loading with no request and no session; valid ones issue one session request |
| Results.ResultPage.OnQueryParams | src/app/features/results/results.component.ts:36-47 | while subscribed, missing parameters end loading and the stream and keep the session; valid ones supersede any earlier fetch |
| Results.ResultPage.OnSessionFetched | src/app/features/results/results.component.ts:49-52 | the awaited fetch's session is shown, whatever its payment state, and loading ends |
| Results.ResultPage.OnSessionFetchFailed | src/app/features/results/results.component.ts:53-57 | the awaited fetch's failure logs, ends loading and the stream, and leaves the session unchanged |
| Results.ResultPage.OnCancel | src/app/features/results/results.component.ts:61-68 | redirects to the session's return URL when there is one, otherwise goes back |
| Scenarios.EthereumScheme | src/app/features/checkout/checkout.page.ts:76 | the chain `ETHEREUM` becomes the scheme `ethereum` |
| Scenarios.UpperCasePaid | src/app/components/payment-details/payment-details.component.ts:59-62 | `PAID` is recognised as paid |
| Scenarios.CapitalisedFailed | src/app/components/payment-details/payment-details.component.ts:59-64 | `Rejected` is recognised as failed |
| Scenarios.FifteenMinutes | src/app/directives/countdown.ts:119-121 | fifteen minutes left reads `15:00` |

## Left out

- The hosted-page client, RxJS and `Subscription` are not modelled. Fetch and refresh results
  arrive as events tagged with their request number.
- `Number(appId)` is not modelled. The two parameters travel as the text they were given.
- Date parsing is not modelled. The fetch-success event carries the instants that
  `new Date(raw + 'Z')` yields. `timerStatus` takes the parsing of a raw text stamp
  (`new Date(text)`) as a function parameter. `new Date(null)` (which is time 0) is not
  distinguished from an absent value.
- Float formatting is not modelled. The amount is carried as the text `Number(amount).toString()`
  gives. `formatAmount` (`toLocaleString`) is not modelled.
- Countdown.UrgencyMatchesFractions: the double-precision products `0.2 * total` and `0.5 * total` are taken
  as exact, which is what the cross-multiplied comparison states.
- Common.ToLower: only ASCII letters are lower-cased. `toLowerCase` also maps other Unicode
  letters.
- The countdown assumes the `.dot` sibling element exists. When it is missing, the source skips
  status writes. DOM writes are kept only as the last display text and status.
- `handleInvalidState` also writes a console line. It is modelled by the same method as
  `handleExpiredState`.
- Timers are only recorded. A scheduled redirect appears as a `ScheduleRedirect(url, delay)`
  effect; its firing (the browser leaving the page) is outside the model. `ngOnDestroy` does
  not cancel these timeouts in the source either.
- Checkout.CheckoutPage.NgOnInit requires a freshly constructed page: nothing subscribed and
  not confirming. That is how Angular calls `ngOnInit`. A second, direct call of the public
  `fetchPaymentSessionFromQueryParams` while a refresh is in flight would hold two live
  subscriptions, and that case is not modelled.
- Results.ResultPage.NgOnInit requires the same freshly constructed state, for the same reason.
- The session object is mutated in place and shared with the client's result. The model stores
  the normalized copy in the state, so aliasing is not captured.
- Toast and log presentation, the `Title` service, `window.location` and `Location.back` appear
  only as effects.
- The clipboard and skeleton directives, `onTextCopied`, `isCopied`, the interceptor, the
  global error handler, routing and app configuration, translations, the auth stub and the
  unused `TOKEN_INFO_MAP` table are not part of this model. They are wiring or DOM handling
  with no decision logic.
