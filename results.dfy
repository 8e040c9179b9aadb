/** The result page: it loads the session named by the query parameters whatever its
    payment state, and offers the way back to the merchant. */
module Results {
  import opened Common
  import opened Session
  import opened Effects

  class ResultPage {
    var session: Option<PaymentSession>
    var isLoading: bool
    /** The subscription to the query parameters is still open (an error ends it). */
    var paramStreamLive: bool
    /** The number of the session fetch still awaited, if any. */
    var inFlight: Option<nat>
    var generation: nat
    var effects: seq<Effect>

    ghost predicate Valid()
      reads this
    {
      inFlight.Some? ==> paramStreamLive && inFlight.value < generation
    }

    constructor ()
      ensures Valid() && session == None && isLoading
      ensures !paramStreamLive && inFlight == None && generation == 0 && effects == []
    {
      session, isLoading := None, true;
      paramStreamLive, inFlight, generation := false, None, 0;
      effects := [];
    }

    /** `ngOnInit`: set the title and subscribe to the query parameters, whose current value is
        delivered at once. */
    method NgOnInit(appId: Option<string>, paymentKey: Option<string>)
      requires Valid() && !paramStreamLive && inFlight == None
      modifies this
      ensures Valid() && session == old(session)
      ensures var p := ParseParams(appId, paymentKey);
        if p.None? then
          !isLoading && !paramStreamLive && inFlight == None && generation == old(generation)
          && effects == old(effects) + [SetTitle("Payment Result"),
                                        Log(LogError, "Error fetching payment session in result page")]
        else
          isLoading == old(isLoading) && paramStreamLive && inFlight == Some(old(generation))
          && generation == old(generation) + 1
          && effects == old(effects) + [SetTitle("Payment Result"), RequestSession(old(generation), p.value)]
    {
      effects := effects + [SetTitle("Payment Result")];
      paramStreamLive := true;
      OnQueryParams(appId, paymentKey);
    }

    /** The query-parameter stream emits. Missing parameters are a stream error: logged, loading
        ends, the session is kept and the stream is over. Valid parameters request the session,
        superseding any earlier fetch. */
    method OnQueryParams(appId: Option<string>, paymentKey: Option<string>)
      requires Valid()
      modifies this
      ensures Valid() && session == old(session)
      ensures !old(paramStreamLive) ==>
        isLoading == old(isLoading) && paramStreamLive == old(paramStreamLive) && inFlight == old(inFlight)
        && generation == old(generation) && effects == old(effects)
      ensures old(paramStreamLive) ==>
        var p := ParseParams(appId, paymentKey);
        if p.None? then
          !isLoading && !paramStreamLive && inFlight == None && generation == old(generation)
          && effects == old(effects) + [Log(LogError, "Error fetching payment session in result page")]
        else
          isLoading == old(isLoading) && paramStreamLive && inFlight == Some(old(generation))
          && generation == old(generation) + 1
          && effects == old(effects) + [RequestSession(old(generation), p.value)]
    {
      if !paramStreamLive {
        return;
      }
      var p := ParseParams(appId, paymentKey);
      if p.None? {
        effects := effects + [Log(LogError, "Error fetching payment session in result page")];
        isLoading := false;
        paramStreamLive := false;
        inFlight := None;
        return;
      }
      inFlight := Some(generation);
      effects := effects + [RequestSession(generation, p.value)];
      generation := generation + 1;
    }

    /** Fetch number `gen` delivers: the session is shown whatever its payment state. */
    method OnSessionFetched(gen: nat, fetched: PaymentSession)
      requires Valid()
      modifies this
      ensures Valid()
      ensures old(inFlight) == Some(gen) ==>
        session == Some(fetched) && !isLoading && inFlight == None
      ensures old(inFlight) != Some(gen) ==>
        session == old(session) && isLoading == old(isLoading) && inFlight == old(inFlight)
      ensures paramStreamLive == old(paramStreamLive) && generation == old(generation) && effects == old(effects)
    {
      if inFlight == Some(gen) {
        session := Some(fetched);
        isLoading := false;
        inFlight := None;
      }
    }

    /** Fetch number `gen` fails: logged, loading ends, the session is kept, and the error ends
        the stream. */
    method OnSessionFetchFailed(gen: nat)
      requires Valid()
      modifies this
      ensures Valid() && session == old(session) && generation == old(generation)
      ensures old(inFlight) == Some(gen) ==>
        !isLoading && !paramStreamLive && inFlight == None
        && effects == old(effects) + [Log(LogError, "Error fetching payment session in result page")]
      ensures old(inFlight) != Some(gen) ==>
        isLoading == old(isLoading) && paramStreamLive == old(paramStreamLive) && inFlight == old(inFlight)
        && effects == old(effects)
    {
      if inFlight == Some(gen) {
        effects := effects + [Log(LogError, "Error fetching payment session in result page")];
        isLoading := false;
        paramStreamLive := false;
        inFlight := None;
      }
    }

    /** `onCancel`: to the session's return URL when there is one, else one step back. */
    method OnCancel()
      modifies this`effects
      ensures session.Some? && Truthy(session.value.returnUrl) ==>
        effects == old(effects) + [Redirect(session.value.returnUrl.value)]
      ensures !(session.Some? && Truthy(session.value.returnUrl)) ==>
        effects == old(effects) + [GoBack]
    {
      if session.Some? && Truthy(session.value.returnUrl) {
        effects := effects + [Redirect(session.value.returnUrl.value)];
      } else {
        effects := effects + [GoBack];
      }
    }
  }
}
