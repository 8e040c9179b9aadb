/** Client code driving the pages through whole payment flows and checking, from the
    contracts alone, what the payer sees. */
module Scenarios {
  import opened Common
  import opened Session
  import opened Effects
  import opened Countdown
  import opened Checkout
  import opened Results
  import PaymentDetails

  const CREATED_MS: int := 1_704_067_200_000  // 2024-01-01T00:00:00Z
  const EXPIRE_MS: int := 1_704_068_100_000   // 2024-01-01T00:15:00Z

  function PendingSession(state: string, returnUrl: Option<string>): PaymentSession {
    PaymentSession(Some(state), Text("2024-01-01T00:00:00"), Text("2024-01-01T00:15:00"), Some("X"),
                   Some(CryptoAmount(Some("1"), Some(CryptoNetwork(Some("ETHEREUM"))))), returnUrl)
  }

  lemma EthereumScheme()
    ensures ToLower("ETHEREUM") == "ethereum"
  {
    ToLowerIs("ETHEREUM", "ethereum");
  }

  /** An upper-case spelling of a paid word is recognised. */
  lemma UpperCasePaid()
    ensures PaymentDetails.Classify(Some("PAID")) == PaymentDetails.Paid
  {
    ToLowerIs("PAID", "paid");
  }

  /** A capitalised failed word is recognised. */
  lemma CapitalisedFailed()
    ensures PaymentDetails.Classify(Some("Rejected")) == PaymentDetails.Failed
  {
    ToLowerIs("Rejected", "rejected");
  }

  /** The decimal text of fifteen. */
  lemma FifteenText()
    ensures NatToString(15) == "15"
  {
    assert NatToString(1) == [DigitChar(1)] == "1";
    assert DigitChar(5) == '5';
  }

  /** Fifteen minutes left reads `15:00`. */
  lemma FifteenMinutes()
    ensures Clock(900) == "15:00"
  {
    assert 900 / 60 == 15 && 900 % 60 == 0;
    FifteenText();
    assert NatToString(0) == [DigitChar(0)] == "0";
    assert Pad2("15") == "15";
    assert Pad2("0") == "00";
  }

  /** The QR payload of the pending session names the lower-cased chain. */
  lemma PendingSessionPayload(shown: PaymentSession)
    requires shown.receiverWalletAddress == Some("X")
    requires shown.cryptoAmount == Some(CryptoAmount(Some("1"), Some(CryptoNetwork(Some("ETHEREUM")))))
    ensures QrCodeData(Loaded(shown)) == "ethereum:X?amount=1"
  {
    assert HasQrInputs(shown);
    EthereumScheme();
    assert "ethereum" + ":" + "X" + "?amount=" + "1" == "ethereum:X?amount=1";
  }

  /** A pending session is shown, and its QR payload names the lower-cased chain. */
  method PendingSessionIsShown() {
    var page := new CheckoutPage();
    page.NgOnInit(Some("7"), Some("abc"));
    assert page.awaiting == SessionFetch(0, Params("7", "abc"));
    var fetched := PendingSession("Created", None);
    page.OnSessionFetched(0, fetched, Some(CREATED_MS), Some(EXPIRE_MS));
    var shown := NormalizeTimes(fetched, Some(CREATED_MS), Some(EXPIRE_MS));
    assert page.state == Loaded(shown) && page.displayMode == Create;
    PendingSessionPayload(shown);
    assert QrCodeData(page.state) == "ethereum:X?amount=1";
  }

  /** A countdown started at creation shows fifteen minutes in the ok colour. */
  method FreshCountdown() {
    var countdown := new CountdownDirective();
    assert RemainingSeconds(EXPIRE_MS, CREATED_MS) == 900;
    countdown.NgOnChanges(Date(Some(EXPIRE_MS)), Date(Some(CREATED_MS)), true, CREATED_MS);
    assert countdown.totalDurationSeconds == 900;
    FifteenMinutes();
    assert countdown.display == Clock(900) == "15:00";
    assert countdown.status == Ok && !countdown.isExpired;
  }

  /** A paid session never reaches the loaded state: one navigation to the result view with
      the same parameters, replacing the history entry. */
  method PaidSessionGoesToResult() {
    var page := new CheckoutPage();
    page.NgOnInit(Some("7"), Some("abc"));
    page.OnSessionFetched(0, PendingSession("Paid", None), Some(CREATED_MS), Some(EXPIRE_MS));
    assert page.state == Loading && page.displayMode == Result;
    assert page.effects == [RequestSession(0, Params("7", "abc")), SetTitle("Payment Result"),
                            Navigate(RESULT_ROUTE, Some(Params("7", "abc")), true)];

    var result := new ResultPage();
    result.NgOnInit(Some("7"), Some("abc"));
    result.OnSessionFetched(0, PendingSession("Paid", Some("https://shop.example/done")));
    assert result.session.Some? && !result.isLoading;
    result.OnCancel();
    assert result.effects[|result.effects| - 1] == Redirect("https://shop.example/done");
  }

  /** Without a payment key no request is made and the payer lands on the not-found page. */
  method MissingKeyIsNotFound() {
    var page := new CheckoutPage();
    page.NgOnInit(Some("7"), None);
    assert page.effects == [Log(LogError, "Critical error in checkout stream"), Navigate(NOT_FOUND_ROUTE, None, false)];
    assert page.state == Loading && !page.paramStreamLive;
  }

  /** Two confirmations in a row: the first refresh's late answer is ignored, the second one's
      return URL is scheduled after 1.5 s and confirming stays on until the redirect. */
  method SecondConfirmWins() {
    var page := new CheckoutPage();
    page.NgOnInit(Some("7"), Some("abc"));
    page.OnSessionFetched(0, PendingSession("Created", None), Some(CREATED_MS), Some(EXPIRE_MS));
    page.OnDepositConfirmed(Some("7"), Some("abc"));
    assert page.awaiting == RefreshCall(1) && page.isConfirming && !page.paramStreamLive;
    page.OnDepositConfirmed(Some("7"), Some("abc"));
    assert page.awaiting == RefreshCall(2);
    page.OnRefreshFailed(1);
    assert page.isConfirming;
    page.OnRefreshSucceeded(2, Some(PendingSession("Paid", Some("https://shop.example/done"))));
    assert page.isConfirming;
    assert page.effects[|page.effects| - 1] == ScheduleRedirect("https://shop.example/done", 1500);
  }

  /** The expiry signal goes out once, however many ticks follow; a new valid expiry restarts
      the display without bringing the signal back. */
  method ExpiryFiresOnce() {
    var countdown := new CountdownDirective();
    countdown.NgOnChanges(Date(Some(EXPIRE_MS)), Date(Some(CREATED_MS)), true, EXPIRE_MS + 10);
    assert countdown.emitted == 1 && countdown.display == EXPIRED_DISPLAY && countdown.status == Danger;
    assert countdown.timerId.Some?;
    countdown.IntervalTick(EXPIRE_MS + 1010);
    assert countdown.emitted == 1 && countdown.timerId == None;
    countdown.NgOnChanges(Date(None), Date(Some(CREATED_MS)), true, EXPIRE_MS);
    assert countdown.emitted == 1;
    countdown.NgOnChanges(Missing, Date(Some(CREATED_MS)), true, EXPIRE_MS);
    assert countdown.display == PLACEHOLDER && countdown.status == Neutral && countdown.emitted == 1;
    assert RemainingSeconds(EXPIRE_MS + 60_000, EXPIRE_MS) == 60;
    countdown.NgOnChanges(Date(Some(EXPIRE_MS + 60_000)), Date(Some(CREATED_MS)), true, EXPIRE_MS);
    assert countdown.display == Clock(60) && countdown.timerId == Some(EXPIRE_MS + 60_000);
    assert countdown.isExpired && countdown.emitted == 1;
  }
}
