/** The countdown directive: it watches an expiry instant (and the session's creation
    instant), shows the remaining time as `MM:SS` on every tick of a one-second interval,
    colours a status dot by how much of the whole duration is left, and signals expiry. */
module Countdown {
  import opened Common
  import opened Session

  datatype Status = Neutral | Ok | Warning | Danger

  /** How urgent a status is; `Neutral` is the value before any countdown has run. */
  function Severity(s: Status): nat {
    match s
    case Neutral => 0
    case Ok => 1
    case Warning => 2
    case Danger => 3
  }

  const PLACEHOLDER: string := "--:--"
  const EXPIRED_DISPLAY: string := "00:00"

  // ---------------------------------------------------------------- pure sub-steps

  /** `Math.floor((expiry - now) / 1000)`: whole seconds left, rounded towards minus infinity. */
  function RemainingSeconds(expiryMs: int, nowMs: int): (r: int)
    ensures r * 1000 <= expiryMs - nowMs < r * 1000 + 1000
  {
    (expiryMs - nowMs) / 1000
  }

  /** `calculateTotalDuration`: the whole seconds between the two instants when both are
      valid `Date` objects, and 0 otherwise. */
  function TotalDuration(created: Stamp, expiry: Stamp): (t: int)
    ensures !ValidDate(created) || !ValidDate(expiry) ==> t == 0
    ensures ValidDate(created) && ValidDate(expiry) ==>
              t * 1000 <= expiry.time.value - created.time.value < t * 1000 + 1000
  {
    if ValidDate(created) && ValidDate(expiry) then RemainingSeconds(expiry.time.value, created.time.value)
    else 0
  }

  /** The text `updateDisplayAndDot` writes for `r` seconds left:
      `pad2(floor(r / 60)) + ":" + pad2(r % 60)`. It is well formed (minutes at least two
      digits, seconds exactly two and at most 59) and reads back as `r`. */
  function Clock(r: nat): (c: string)
    ensures ClockValue(c) == Some(r)
  {
    var q, s := r / 60, r % 60;
    var mm, ss := Pad2(NatToString(q)), Pad2(NatToString(s));
    PaddedDigits(q);
    PaddedDigits(s);
    SecondsWidth(s);
    ClockParts(mm, ss, q, s);
    mm + ":" + ss
  }

  /** A seconds value is written with exactly two digits. */
  lemma SecondsWidth(s: nat)
    requires s < 60
    ensures |Pad2(NatToString(s))| == 2
  {
    if s >= 10 {
      assert NatToString(s) == NatToString(s / 10) + [DigitChar(s % 10)];
    }
  }

  /** Reads an `MM:SS` text back: at least two minute digits, a colon, and two second
      digits below 60. */
  function ClockValue(t: string): Option<nat> {
    if |t| >= 5 && t[|t| - 3] == ':' then ClockPartsValue(t[..|t| - 3], t[|t| - 2..]) else None
  }

  /** The seconds a minutes part and a seconds part stand for, if both are digits and the
      seconds are below 60. */
  function ClockPartsValue(mm: string, ss: string): Option<nat> {
    if AllDigits(mm) && AllDigits(ss) && DigitsValue(ss) < 60
    then Some(DigitsValue(mm) * 60 + DigitsValue(ss))
    else None
  }

  /** Splitting `mm + ":" + ss` at its third-last character gives the two parts back, so the
      text reads back as `q * 60 + s` when the parts read as `q` and `s`. */
  lemma ClockParts(mm: string, ss: string, q: nat, s: nat)
    requires |mm| >= 2 && |ss| == 2 && AllDigits(mm) && AllDigits(ss)
    requires DigitsValue(mm) == q && DigitsValue(ss) == s && s < 60
    ensures ClockValue(mm + ":" + ss) == Some(q * 60 + s)
  {
    var c := mm + ":" + ss;
    assert c[|mm|] == ':';
    assert c[..|c| - 3] == mm;
    assert c[|c| - 2..] == ss;
    assert ClockPartsValue(mm, ss) == Some(q * 60 + s);
  }

  /** A number written in decimal and padded to two places is all digits, at least two of
      them, and reads back as the number. */
  lemma PaddedDigits(n: nat)
    ensures var t := Pad2(NatToString(n)); |t| >= 2 && AllDigits(t) && DigitsValue(t) == n
  {
    NatToStringValue(n);
    Pad2Value(NatToString(n));
  }

  /** The expired display coincides with the clock at zero seconds. */
  lemma ClockAtZero()
    ensures Clock(0) == EXPIRED_DISPLAY
  {
    assert NatToString(0) == "0";
  }

  /** The urgency rule of `updateDisplayAndDot` with the fractional thresholds
      `0.2 * total` and `0.5 * total` cross-multiplied; nothing changes unless `total > 0`. */
  function Urgency(total: int, r: int, current: Status): (s: Status)
    ensures total <= 0 ==> s == current
    ensures total > 0 ==> s != Neutral
  {
    if total > 0 then
      if 5 * r <= total then Danger
      else if 2 * r <= total then Warning
      else Ok
    else current
  }

  /** The integer thresholds are exactly the source's comparisons against 20% and 50% of the
      total, both inclusive. */
  lemma UrgencyMatchesFractions(total: int, r: int, current: Status)
    ensures total > 0 ==>
      Urgency(total, r, current) ==
        if r as real <= 0.2 * total as real then Danger
        else if r as real <= 0.5 * total as real then Warning
        else Ok
    ensures total <= 0 ==> Urgency(total, r, current) == current
  {
  }

  /** Less time left never means a less urgent status. */
  lemma UrgencyMonotone(total: int, r1: int, r2: int, current: Status)
    requires total > 0 && r1 <= r2
    ensures Severity(Urgency(total, r1, current)) >= Severity(Urgency(total, r2, current))
    ensures Urgency(total, r1, current) != Neutral
  {
  }

  // ---------------------------------------------------------------- the directive

  class CountdownDirective {
    /** The `appCountdown` and `createdDate` inputs, as last bound. */
    var expiryDate: Stamp
    var createdDate: Stamp
    /** Host-bound `class.expired`; guards the single emission of `timerExpired`. */
    var isExpired: bool
    /** The running `setInterval` handle, identified with the expiry instant its tick closure
        captured; `None` is `timerId === undefined`. */
    var timerId: Option<int>
    var totalDurationSeconds: int
    /** The host element's `textContent` and the status class of the `.dot` element. */
    var display: string
    var status: Status
    /** How many times `timerExpired` has emitted. */
    var emitted: nat

    /** `timerExpired` has emitted exactly once if `isExpired` is set, and never otherwise. */
    ghost predicate Valid()
      reads this
    {
      emitted == if isExpired then 1 else 0
    }

    constructor ()
      ensures Valid() && !isExpired && emitted == 0
      ensures timerId == None && totalDurationSeconds == 0
      ensures display == PLACEHOLDER && status == Neutral
      ensures expiryDate == Missing && createdDate == Missing
    {
      expiryDate, createdDate := Missing, Missing;
      isExpired, emitted := false, 0;
      timerId, totalDurationSeconds := None, 0;
      display, status := PLACEHOLDER, Neutral;
    }

    method InitializeDisplay()
      modifies this`display, this`status
      ensures display == PLACEHOLDER && status == Neutral
    {
      display := PLACEHOLDER;
      status := Neutral;
    }

    /** Clears the interval; calling it again changes nothing. */
    method Cleanup()
      modifies this`timerId
      ensures timerId == None
    {
      if timerId.Some? {
        timerId := None;
      }
    }

    method NgOnDestroy()
      modifies this`timerId
      ensures timerId == None
    {
      Cleanup();
    }

    method CalculateTotalDuration()
      modifies this`totalDurationSeconds
      ensures totalDurationSeconds == TotalDuration(createdDate, expiryDate)
    {
      totalDurationSeconds := 0;
      if ValidDate(createdDate) && ValidDate(expiryDate) {
        var createdUtc := createdDate.time.value;
        var expiryUtc := expiryDate.time.value;
        totalDurationSeconds := (expiryUtc - createdUtc) / 1000;
      }
    }

    /** `handleExpiredState` (and `handleInvalidState`, which also writes a console line):
        stop ticking, show `00:00` in danger, and emit only if no emission has happened yet. */
    method HandleExpiredState()
      requires Valid()
      modifies this`timerId, this`display, this`status, this`isExpired, this`emitted
      ensures Valid() && isExpired && emitted == 1
      ensures emitted == old(emitted) + if old(isExpired) then 0 else 1
      ensures timerId == None && display == EXPIRED_DISPLAY && status == Danger
    {
      Cleanup();
      display := EXPIRED_DISPLAY;
      status := Danger;
      if !isExpired {
        isExpired := true;
        emitted := emitted + 1;
      }
    }

    method UpdateDisplayAndDot(remaining: int)
      requires remaining > 0
      modifies this`display, this`status
      ensures display == Clock(remaining)
      ensures status == Urgency(totalDurationSeconds, remaining, old(status))
    {
      var minutes := Pad2(NatToString(remaining / 60));
      var seconds := Pad2(NatToString(remaining % 60));
      display := minutes + ":" + seconds;
      if totalDurationSeconds > 0 {
        if 5 * remaining <= totalDurationSeconds {
          status := Danger;
        } else if 2 * remaining <= totalDurationSeconds {
          status := Warning;
        } else {
          status := Ok;
        }
      }
    }

    /** One run of the tick closure for the captured expiry instant at time `nowMs`. */
    method Tick(expiryUtc: int, nowMs: int)
      requires Valid()
      modifies this`timerId, this`display, this`status, this`isExpired, this`emitted
      ensures Valid() && (old(isExpired) ==> isExpired)
      ensures var r := RemainingSeconds(expiryUtc, nowMs);
        if r <= 0 then
          timerId == None && display == EXPIRED_DISPLAY && status == Danger && isExpired && emitted == 1
        else
          timerId == old(timerId) && display == Clock(r)
          && status == Urgency(totalDurationSeconds, r, old(status))
          && isExpired == old(isExpired) && emitted == old(emitted)
    {
      var remaining := (expiryUtc - nowMs) / 1000;
      if remaining <= 0 {
        HandleExpiredState();
      } else {
        UpdateDisplayAndDot(remaining);
      }
    }

    /** `startCountdown`: an invalid expiry is handled as expiry; otherwise one immediate tick,
        after which the interval is armed (even when that first tick already expired). */
    method StartCountdown(nowMs: int)
      requires Valid()
      modifies this`timerId, this`display, this`status, this`isExpired, this`emitted
      ensures Valid() && (old(isExpired) ==> isExpired)
      ensures !ValidDate(expiryDate) ==>
        timerId == None && display == EXPIRED_DISPLAY && status == Danger && isExpired && emitted == 1
      ensures ValidDate(expiryDate) ==>
        var e := expiryDate.time.value;
        var r := RemainingSeconds(e, nowMs);
        timerId == Some(e)
        && (r <= 0 ==> display == EXPIRED_DISPLAY && status == Danger && isExpired && emitted == 1)
        && (r > 0 ==> display == Clock(r) && status == Urgency(totalDurationSeconds, r, old(status))
                      && isExpired == old(isExpired) && emitted == old(emitted))
    {
      if !ValidDate(expiryDate) {
        HandleExpiredState();
        return;
      }
      var expiryUtc := expiryDate.time.value;
      Tick(expiryUtc, nowMs);
      timerId := Some(expiryUtc);
    }

    /** `ngOnChanges`: the inputs are bound, then a new `Date` expiry restarts the countdown
        and a falsy expiry stops it and restores the placeholder; anything else (no change to
        the expiry, or a truthy non-`Date` value) leaves the countdown alone. */
    method NgOnChanges(expiry: Stamp, created: Stamp, expiryChanged: bool, nowMs: int)
      requires Valid()
      modifies this
      ensures Valid() && (old(isExpired) ==> isExpired) && emitted >= old(emitted)
      ensures expiryDate == expiry && createdDate == created
      ensures expiryChanged && expiry.Date? ==>
        totalDurationSeconds == TotalDuration(created, expiry)
        && (expiry.time.None? ==>
              timerId == None && display == EXPIRED_DISPLAY && status == Danger && isExpired && emitted == 1)
        && (expiry.time.Some? ==>
              var r := RemainingSeconds(expiry.time.value, nowMs);
              timerId == Some(expiry.time.value)
              && (r <= 0 ==> display == EXPIRED_DISPLAY && status == Danger && isExpired && emitted == 1)
              && (r > 0 ==> display == Clock(r) && status == Urgency(totalDurationSeconds, r, old(status))
                            && isExpired == old(isExpired) && emitted == old(emitted)))
      ensures expiryChanged && !expiry.Date? && !StampTruthy(expiry) ==>
        timerId == None && display == PLACEHOLDER && status == Neutral
        && totalDurationSeconds == old(totalDurationSeconds)
        && isExpired == old(isExpired) && emitted == old(emitted)
      ensures !expiryChanged || (!expiry.Date? && StampTruthy(expiry)) ==>
        timerId == old(timerId) && display == old(display) && status == old(status)
        && totalDurationSeconds == old(totalDurationSeconds)
        && isExpired == old(isExpired) && emitted == old(emitted)
    {
      expiryDate, createdDate := expiry, created;
      if expiryChanged && expiry.Date? {
        Cleanup();
        CalculateTotalDuration();
        StartCountdown(nowMs);
      } else if expiryChanged && !StampTruthy(expiry) {
        Cleanup();
        InitializeDisplay();
      }
    }

    /** The interval fires: the tick closure runs with the expiry instant it captured. */
    method IntervalTick(nowMs: int)
      requires Valid() && timerId.Some?
      modifies this`timerId, this`display, this`status, this`isExpired, this`emitted
      ensures Valid() && (old(isExpired) ==> isExpired)
      ensures var r := RemainingSeconds(old(timerId).value, nowMs);
        if r <= 0 then
          timerId == None && display == EXPIRED_DISPLAY && status == Danger && isExpired && emitted == 1
        else
          timerId == old(timerId) && display == Clock(r)
          && status == Urgency(totalDurationSeconds, r, old(status))
          && isExpired == old(isExpired) && emitted == old(emitted)
    {
      Tick(timerId.value, nowMs);
    }
  }
}
