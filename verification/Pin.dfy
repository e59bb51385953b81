/**
 * The creditor's Personal Identification Number. The HMAC of the salted value stands for the value
 * itself: two values have the same HMAC when they are the same.
 */
module Pin {
  import opened Options

  datatype Status = Off | On | Blocked

  /** A row of `pin_info`, and the update ids that have been queued for the log. */
  datatype PinData = PinData(
    status: Status, cfa: int, afa: int, afaLastResetTs: int, pinLength: int, pin: Option<string>, latestUpdateId: int,
    announced: seq<int>)

  datatype Outcome = UpdateConflict | WrongPinValue | Updated

  /** Values come in digits, four to ten of them. */
  predicate IsPin(value: Option<string>) {
    value.Some? ==> 4 <= |value.value| <= 10
  }

  function LengthOf(pin: Option<string>): nat {
    if pin.None? then 0 else |pin.value|
  }

  predicate IsLength(n: int) { n == 0 || 4 <= n <= 10 }

  /** The limit of consecutive failures. Python's `int` truncates towards zero. */
  function MaxCfa(n: nat): int {
    if 3 * n >= 6 then (3 * n - 6) / 2 else -((6 - 3 * n) / 2)
  }

  /** The limit of accumulated failures, for the lengths that occur. */
  function MaxAfa(n: nat): nat
    requires IsLength(n)
  {
    match n
    case 0 => 0
    case 4 => 10
    case 5 => 31
    case 6 => 100
    case 7 => 316
    case 8 => 1000
    case 9 => 3162
    case _ => 10000
  }

  function TenTo(n: nat): nat { if n == 0 then 1 else 10 * TenTo(n - 1) }

  /** The limit of accumulated failures is the root of a power of ten. */
  lemma LimitsOfLengths(n: nat)
    requires 4 <= n <= 10
    ensures MaxAfa(n) * MaxAfa(n) <= TenTo(n - 2) < (MaxAfa(n) + 1) * (MaxAfa(n) + 1)
    ensures MaxCfa(n) == [3, 4, 6, 7, 9, 10, 12][n - 4]
  {
    assert TenTo(2) == 100 && TenTo(3) == 1000;
    assert TenTo(4) == 10000 && TenTo(5) == 100000;
    assert TenTo(6) == 1000000 && TenTo(7) == 10000000 && TenTo(8) == 100000000;
  }

  /**
   * A PIN that is "on" has a value, and has not reached its limit of consecutive failures. Each
   * change has been announced, with consecutive ids.
   */
  predicate ValidPin(s: PinData) {
    && s.cfa >= 0
    && 0 <= s.afa < 10000
    && IsPin(s.pin)
    && s.pinLength == LengthOf(s.pin)
    && (s.status == On ==> s.pin.Some? && s.cfa < MaxCfa(s.pinLength))
    && |s.announced| == s.latestUpdateId - 1
    && (forall i :: 0 <= i < |s.announced| ==> s.announced[i] == i + 2)
  }

  // ---------- Attempts and changes ----------

  function Block(s: PinData, now: int): PinData {
    s.(status := Blocked, pinLength := 0, pin := None, afa := 0, afaLastResetTs := now)
  }

  function ResetAfaIfNecessary(s: PinData, interval: int, now: int): PinData {
    if s.afaLastResetTs + interval <= now then s.(afa := 0, afaLastResetTs := now) else s
  }

  function IncrementCfa(s: PinData, now: int): PinData
    requires s.pinLength >= 0
  {
    var s1 := s.(cfa := s.cfa + 1);
    if s1.cfa >= MaxCfa(s1.pinLength) then Block(s1, now) else s1
  }

  function IncrementAfa(s: PinData, interval: int, now: int): PinData
    requires IsLength(s.pinLength)
  {
    var s1 := ResetAfaIfNecessary(s, interval, now);
    var s2 := s1.(afa := s1.afa + 1);
    if s2.afa >= MaxAfa(s2.pinLength) then Block(s2, now) else s2
  }

  /** A missing value fails without being counted. */
  function TryValue(s: PinData, value: Option<string>, interval: int, now: int): (PinData, bool)
    requires IsLength(s.pinLength)
  {
    if s.status == Blocked then (s, false)
    else if s.status == On && value.None? then (s, false)
    else if s.status == On && value != s.pin then (IncrementAfa(IncrementCfa(s, now), interval, now), false)
    else (s.(cfa := 0), true)
  }

  function UpdatePin(s: PinData, status: Status, newPin: Option<string>, updateId: int, resetMode: bool,
                     value: Option<string>, interval: int, now: int): (PinData, Outcome)
    requires IsLength(s.pinLength)
  {
    if updateId != s.latestUpdateId + 1 then (s, UpdateConflict)
    else
      var (s1, ok) := if resetMode then (s, true) else TryValue(s, value, interval, now);
      if ok
      then (s1.(status := status, cfa := 0, pin := newPin, pinLength := LengthOf(newPin), latestUpdateId := updateId,
                announced := s1.announced + [updateId]), Updated)
      else (s1, WrongPinValue)
  }

  class PinInfo {
    var status: Status
    var cfa: int
    var afa: int
    var afaLastResetTs: int
    var pinLength: int
    var pinHmac: Option<string>
    var latestUpdateId: int
    var pendingLogEntries: seq<int>

    ghost function View(): PinData
      reads this
    {
      PinData(status, cfa, afa, afaLastResetTs, pinLength, pinHmac, latestUpdateId, pendingLogEntries)
    }

    constructor (now: int)
      ensures ValidPin(View()) && status == Off && latestUpdateId == 1
    {
      status, cfa, afa, afaLastResetTs, pinLength, pinHmac, latestUpdateId := Off, 0, 0, now, 0, None, 1;
      pendingLogEntries := [];
    }

    method SetBlocked(now: int)
      modifies this
      ensures View() == Block(old(View()), now)
    {
      status := Blocked;
      pinLength := 0;
      pinHmac := None;
      ResetAfa(now);
    }

    method ResetAfa(now: int)
      modifies this`afa, this`afaLastResetTs
      ensures afa == 0 && afaLastResetTs == now
    {
      afa := 0;
      afaLastResetTs := now;
    }

    /** Both limits apply to one failure; after the first block the second limit is zero. */
    method RegisterFailedAttempt(interval: int, now: int)
      requires IsLength(pinLength)
      modifies this
      ensures View() == IncrementAfa(IncrementCfa(old(View()), now), interval, now)
    {
      cfa := cfa + 1;
      if cfa >= MaxCfa(pinLength) {
        SetBlocked(now);
      }
      if afaLastResetTs + interval <= now {
        ResetAfa(now);
      }
      afa := afa + 1;
      if afa >= MaxAfa(pinLength) {
        SetBlocked(now);
      }
    }

    method TryThe(value: Option<string>, interval: int, now: int) returns (ok: bool)
      requires ValidPin(View()) && IsPin(value)
      modifies this
      ensures (View(), ok) == TryValue(old(View()), value, interval, now)
      ensures ValidPin(View())
    {
      AttemptsKeepValid(View(), value, interval, now);
      if status == Blocked {
        return false;
      }
      if status != Off {
        if value.None? {
          return false;
        }
        if value != pinHmac {
          RegisterFailedAttempt(interval, now);
          return false;
        }
      }
      cfa := 0;
      return true;
    }

    method SetValue(value: Option<string>)
      modifies this`cfa, this`pinLength, this`pinHmac
      ensures cfa == 0 && pinHmac == value && pinLength == LengthOf(value)
    {
      cfa := 0;
      if value.None? {
        pinLength, pinHmac := 0, None;
      } else {
        pinHmac := value;
        pinLength := |value.value|;
      }
    }

    method UpdatePinInfo(newStatus: Status, newPin: Option<string>, updateId: int, resetMode: bool,
                         value: Option<string>, interval: int, now: int) returns (outcome: Outcome)
      requires ValidPin(View()) && IsPin(value) && IsPin(newPin) && (newStatus == On ==> newPin.Some?)
      modifies this
      ensures (View(), outcome) == UpdatePin(old(View()), newStatus, newPin, updateId, resetMode, value, interval, now)
      ensures ValidPin(View())
    {
      if updateId != latestUpdateId + 1 {
        return UpdateConflict;
      }
      var ok := true;
      if !resetMode {
        ok := TryThe(value, interval, now);
      }
      if !ok {
        return WrongPinValue;
      }
      status := newStatus;
      SetValue(newPin);
      latestUpdateId := updateId;
      pendingLogEntries := pendingLogEntries + [updateId];
      return Updated;
    }
  }

  lemma AttemptsKeepValid(s: PinData, value: Option<string>, interval: int, now: int)
    requires ValidPin(s)
    ensures ValidPin(TryValue(s, value, interval, now).0)
  {
  }

  // ---------- Runs ----------

  datatype Event =
    | Attempt(now: int, value: Option<string>)
    | Change(now: int, status: Status, newPin: Option<string>, updateId: int, resetMode: bool, value: Option<string>)

  predicate ValidEvent(e: Event) {
    && IsPin(e.value)
    && (e.Change? ==> IsPin(e.newPin) && (e.status == On ==> e.newPin.Some?))
  }

  function Apply(s: PinData, e: Event, interval: int): PinData
    requires IsLength(s.pinLength)
  {
    match e
    case Attempt(now, value) => TryValue(s, value, interval, now).0
    case Change(now, status, newPin, updateId, resetMode, value) =>
      UpdatePin(s, status, newPin, updateId, resetMode, value, interval, now).0
  }

  lemma StepKeepsValid(s: PinData, e: Event, interval: int)
    requires ValidPin(s) && ValidEvent(e)
    ensures ValidPin(Apply(s, e, interval))
  {
  }

  ghost predicate ValidEvents(events: seq<Event>) {
    forall e :: e in events ==> ValidEvent(e)
  }

  ghost function Run(s: PinData, events: seq<Event>, interval: int): (s': PinData)
    requires ValidPin(s) && ValidEvents(events)
    ensures ValidPin(s')
    decreases |events|
  {
    if events == [] then s
    else
      StepKeepsValid(s, events[0], interval);
      Run(Apply(s, events[0], interval), events[1..], interval)
  }

  /** The event tries a wrong value while the PIN is on. */
  predicate Fails(s: PinData, e: Event) {
    && s.status == On
    && e.value.Some? && e.value != s.pin
    && (e.Change? ==> e.updateId == s.latestUpdateId + 1 && !e.resetMode)
  }

  predicate Survives(s: PinData, e: Event, interval: int)
    requires IsLength(s.pinLength)
  {
    Fails(s, e) && Apply(s, e, interval).status == On
  }

  predicate GetsBlocked(s: PinData, e: Event, interval: int)
    requires IsLength(s.pinLength)
  {
    Fails(s, e) && Apply(s, e, interval).status != On
  }

  ghost function Survived(s: PinData, events: seq<Event>, interval: int): nat
    requires ValidPin(s) && ValidEvents(events)
    decreases |events|
  {
    if events == [] then 0
    else
      StepKeepsValid(s, events[0], interval);
      (if Survives(s, events[0], interval) then 1 else 0) + Survived(Apply(s, events[0], interval), events[1..], interval)
  }

  ghost function Blocks(s: PinData, events: seq<Event>, interval: int): nat
    requires ValidPin(s) && ValidEvents(events)
    decreases |events|
  {
    if events == [] then 0
    else
      StepKeepsValid(s, events[0], interval);
      (if GetsBlocked(s, events[0], interval) then 1 else 0) + Blocks(Apply(s, events[0], interval), events[1..], interval)
  }

  /** Every event happens between the two moments, in order. */
  ghost predicate During(events: seq<Event>, start: int, end: int)
    decreases |events|
  {
    start <= end && (events == [] || (start <= events[0].now <= end && During(events[1..], events[0].now, end)))
  }

  /** Whenever the PIN is turned on, it gets a value with that many digits. */
  ghost predicate FixedLength(events: seq<Event>, n: nat) {
    forall e :: e in events && e.Change? && e.status == On ==> LengthOf(e.newPin) == n
  }

  // ---------- Blocked stays blocked ----------

  /** Once blocked, every attempt fails, and nothing changes until the PIN is set in the reset mode. */
  lemma {:induction false} BlockedStaysBlocked(s: PinData, events: seq<Event>, interval: int, value: Option<string>, now: int)
    requires ValidPin(s) && ValidEvents(events) && s.status == Blocked
    requires NoResets(events)
    ensures Run(s, events, interval) == s
    ensures TryValue(Run(s, events, interval), value, interval, now) == (s, false)
  {
    if events != [] {
      BlockedStaysBlocked(s, events[1..], interval, value, now);
    }
  }

  /** A failure leaves the PIN on exactly when neither limit has been reached; else it gets blocked. */
  lemma FailureBlocksAtEitherLimit(s: PinData, value: string, interval: int, now: int)
    requires ValidPin(s) && s.status == On && Some(value) != s.pin
    ensures var s' := TryValue(s, Some(value), interval, now).0;
            var afa := if s.afaLastResetTs + interval <= now then 0 else s.afa;
            && (s'.status == On <==> s.cfa + 1 < MaxCfa(s.pinLength) && afa + 1 < MaxAfa(s.pinLength))
            && (s'.status == On ==> s'.cfa == s.cfa + 1 && s'.afa == afa + 1 && s'.pin == s.pin)
            && (s'.status != On ==> s'.status == Blocked && s'.pin.None? && s'.afa == 0 && s'.afaLastResetTs == now)
  {
  }

  /**
   * An attempt succeeds exactly if the PIN is off, or is on and the value is the right one. A success
   * forgets the consecutive failures, and changes nothing else; without a value, nothing changes.
   */
  lemma AttemptOutcome(s: PinData, value: Option<string>, interval: int, now: int)
    requires ValidPin(s)
    ensures var (s', ok) := TryValue(s, value, interval, now);
            && (ok <==> s.status == Off || (s.status == On && value.Some? && s.pin == Some(value.value)))
            && (ok ==> s' == s.(cfa := 0))
            && (value.None? && s.status == On ==> s' == s)
            && (s.status == Blocked ==> s' == s)
            && s'.latestUpdateId == s.latestUpdateId && s'.announced == s.announced
  {
  }

  /**
   * A change needs the next update id, and the PIN's value unless the PIN is off or the change is made
   * in the reset mode. Then the new status and value are in force, and the change is announced; else
   * only the failure is counted.
   */
  lemma ChangeOutcome(s: PinData, status: Status, newPin: Option<string>, updateId: int, resetMode: bool,
                      value: Option<string>, interval: int, now: int)
    requires ValidPin(s)
    ensures var (s', outcome) := UpdatePin(s, status, newPin, updateId, resetMode, value, interval, now);
            && (outcome == UpdateConflict <==> updateId != s.latestUpdateId + 1)
            && (outcome == Updated <==>
                  && updateId == s.latestUpdateId + 1
                  && (resetMode || s.status == Off || (s.status == On && value.Some? && s.pin == Some(value.value))))
            && (outcome == UpdateConflict ==> s' == s)
            && (outcome == WrongPinValue ==> s' == TryValue(s, value, interval, now).0)
            && (outcome == Updated ==>
                  && s'.status == status && s'.pin == newPin && s'.pinLength == LengthOf(newPin) && s'.cfa == 0
                  && s'.latestUpdateId == updateId && s'.announced == s.announced + [updateId]
                  && s'.afa == s.afa && s'.afaLastResetTs == s.afaLastResetTs)
  {
  }

  /** Nobody quotes the value, or changes the PIN in the reset mode. */
  ghost predicate NobodyKnows(events: seq<Event>, pin: Option<string>) {
    forall e :: e in events ==> e.value != pin && (e.Change? ==> !e.resetMode)
  }

  /**
   * Without its value and without the reset mode, a PIN that is on stays as it is, or gets blocked;
   * it is never turned off, never replaced, and never passed.
   */
  lemma {:induction false} OnlyItsValueOpens(s: PinData, events: seq<Event>, interval: int, value: Option<string>, now: int)
    requires ValidPin(s) && s.status == On && ValidEvents(events) && NobodyKnows(events, s.pin) && value != s.pin
    ensures var s' := Run(s, events, interval);
            && (s'.status == Blocked || (s'.status == On && s'.pin == s.pin))
            && s'.latestUpdateId == s.latestUpdateId && s'.announced == s.announced
            && !TryValue(s', value, interval, now).1
    decreases |events|
  {
    if events != [] {
      var s1 := Apply(s, events[0], interval);
      StepKeepsValid(s, events[0], interval);
      UnknownStays(s, events[0], interval);
      var rest := events[1..];
      assert forall e :: e in rest ==> e in events;
      if s1.status == On {
        hide Apply, TryValue;
        OnlyItsValueOpens(s1, rest, interval, value, now);
      } else {
        BlockedStaysBlocked(s1, rest, interval, value, now);
      }
    }
  }

  lemma UnknownStays(s: PinData, e: Event, interval: int)
    requires ValidPin(s) && s.status == On && ValidEvent(e) && e.value != s.pin && (e.Change? ==> !e.resetMode)
    ensures var s' := Apply(s, e, interval);
            && (s'.status == Blocked || (s'.status == On && s'.pin == s.pin))
            && s'.latestUpdateId == s.latestUpdateId && s'.announced == s.announced
  {
  }

  // ---------- How many failures can be survived ----------

  /** How many more times the accumulated failures can be forgotten because time has passed. */
  function ResetsLeft(t: int, lastReset: int, interval: int, end: int): nat
    requires interval > 0
  {
    var next := Max(t, lastReset + interval);
    if end < next then 0 else (end - next) / interval + 1
  }

  lemma DivisionIsMonotone(x: int, y: int, d: int)
    requires x <= y && d > 0
    ensures x / d <= y / d
  {
    var q, p := x / d, y / d;
    assert x == q * d + x % d && y == p * d + y % d;
    if p < q {
      DivisionGap(p, q, d);
    }
  }

  lemma DivisionStep(x: int, d: int)
    requires d > 0
    ensures (x + d) / d == x / d + 1
  {
    assert x + d == (x / d + 1) * d + x % d;
    var q := (x + d) / d;
    assert x + d == q * d + (x + d) % d;
    if q < x / d + 1 {
      DivisionGap(q, x / d + 1, d);
    } else if q > x / d + 1 {
      DivisionGap(x / d + 1, q, d);
    }
  }

  lemma DivisionGap(q: int, p: int, d: int)
    requires q < p && d > 0
    ensures p * d >= q * d + d
  {
    assert (p - q - 1) * d >= 0;
    assert (p - q - 1) * d == p * d - q * d - d;
  }

  lemma ResetsLeftLater(t: int, t': int, lastReset: int, interval: int, end: int)
    requires interval > 0 && t <= t'
    ensures ResetsLeft(t', lastReset, interval, end) <= ResetsLeft(t, lastReset, interval, end)
  {
    var next, next' := Max(t, lastReset + interval), Max(t', lastReset + interval);
    DivisionIsMonotone(end - next', end - next, interval);
    if end >= next { DivisionIsMonotone(0, end - next, interval); }
  }

  lemma ResetsLeftAfterReset(now: int, interval: int, end: int)
    requires interval > 0 && now <= end
    ensures ResetsLeft(now, now, interval, end) == (end - now) / interval
  {
    DivisionStep(end - now - interval, interval);
    if end < now + interval {
      DivisionIsMonotone(end - now - interval, -1, interval);
      DivisionIsMonotone(0, end - now, interval);
      DivisionStep(-1, interval);
      DivisionIsMonotone(-1 + interval, interval, interval);
      SmallDivision(end - now, interval);
    }
  }

  lemma SmallDivision(x: int, d: int)
    requires 0 <= x < d
    ensures x / d == 0
  {
    var q := x / d;
    assert x == q * d + x % d;
    if q > 0 { DivisionGap(0, q, d); }
    if q < 0 { DivisionGap(q, 0, d); }
  }

  lemma ResetSpendsOne(t: int, lastReset: int, now: int, interval: int, end: int)
    requires interval > 0 && lastReset + interval <= now && t <= now <= end
    ensures ResetsLeft(now, now, interval, end) + 1 <= ResetsLeft(t, lastReset, interval, end)
  {
    ResetsLeftAfterReset(now, interval, end);
    DivisionIsMonotone(end - now, end - Max(t, lastReset + interval), interval);
  }

  lemma BlockSpendsNone(t: int, lastReset: int, now: int, interval: int, end: int)
    requires interval > 0 && lastReset <= t <= now <= end
    ensures ResetsLeft(now, now, interval, end) <= ResetsLeft(t, lastReset, interval, end)
  {
    ResetsLeftAfterReset(now, interval, end);
    var next := Max(t, lastReset + interval);
    if end < next {
      SmallDivision(end - now, interval);
    } else {
      DivisionIsMonotone(end - now, end - next + interval, interval);
      DivisionStep(end - next, interval);
    }
  }

  /** The failures that can still be survived without a block, `most` of them between two resets. */
  function Budget(s: PinData, most: nat, t: int, interval: int, end: int): int
    requires interval > 0
  {
    most - Min(s.afa, most) + most * ResetsLeft(t, s.afaLastResetTs, interval, end)
  }

  lemma Scales(m: nat, x: int, y: int)
    requires x <= y
    ensures m * x <= m * y
  {
    assert m * (y - x) >= 0;
    assert m * (y - x) == m * y - m * x;
  }

  /** A survived failure takes one from the budget; a block adds no more than one allowance. */
  lemma StepSpends(s: PinData, e: Event, n: nat, t: int, interval: int, end: int)
    requires 4 <= n <= 10 && interval > 0
    requires ValidPin(s) && ValidEvent(e) && s.afaLastResetTs <= t <= e.now <= end
    requires s.status == On ==> s.pinLength == n
    ensures var most := MaxAfa(n) - 1; var s' := Apply(s, e, interval);
            && s'.afaLastResetTs <= e.now
            && (if Survives(s, e, interval) then 1 else 0) + Budget(s', most, e.now, interval, end)
               <= Budget(s, most, t, interval, end) + (if GetsBlocked(s, e, interval) then most else 0)
  {
    var most := MaxAfa(n) - 1;
    var s', now := Apply(s, e, interval), e.now;
    var left, later := ResetsLeft(t, s.afaLastResetTs, interval, end), ResetsLeft(now, s'.afaLastResetTs, interval, end);
    if !Fails(s, e) {
      assert s'.afa == s.afa && s'.afaLastResetTs == s.afaLastResetTs;
      ResetsLeftLater(t, now, s.afaLastResetTs, interval, end);
      Scales(most, later, left);
    } else {
      FailureBlocksAtEitherLimit(s, e.value.value, interval, now);
      if s'.status != On {
        BlockSpendsNone(t, s.afaLastResetTs, now, interval, end);
        Scales(most, later, left);
      } else if s.afaLastResetTs + interval <= now {
        ResetSpendsOne(t, s.afaLastResetTs, now, interval, end);
        Scales(most, later + 1, left);
        assert most * (later + 1) == most * later + most;
      } else {
        ResetsLeftLater(t, now, s.afaLastResetTs, interval, end);
        Scales(most, later, left);
      }
    }
  }

  lemma {:induction false} RunSpends(s: PinData, events: seq<Event>, n: nat, t: int, interval: int, end: int)
    requires 4 <= n <= 10 && interval > 0
    requires ValidPin(s) && ValidEvents(events) && FixedLength(events, n)
    requires s.status == On ==> s.pinLength == n
    requires s.afaLastResetTs <= t && During(events, t, end)
    ensures var most := MaxAfa(n) - 1;
            Survived(s, events, interval) <= Budget(s, most, t, interval, end) + most * Blocks(s, events, interval)
    decreases |events|
  {
    var most := MaxAfa(n) - 1;
    if events == [] {
      Scales(most, 0, ResetsLeft(t, s.afaLastResetTs, interval, end));
    } else {
      var e := events[0];
      var s' := Apply(s, e, interval);
      StepKeepsValid(s, e, interval);
      StepSpends(s, e, n, t, interval, end);
      LengthStaysFixed(s, e, n, interval);
      hide Apply, Budget, Survives, GetsBlocked, ValidPin, ValidEvent;
      RunSpends(s', events[1..], n, e.now, interval, end);
      var blocks := Blocks(s', events[1..], interval);
      assert most * (1 + blocks) == most + most * blocks;
    }
  }

  lemma LengthStaysFixed(s: PinData, e: Event, n: nat, interval: int)
    requires ValidPin(s) && (s.status == On ==> s.pinLength == n)
    requires e.Change? && e.status == On ==> LengthOf(e.newPin) == n
    ensures Apply(s, e, interval).status == On ==> Apply(s, e, interval).pinLength == n
  {
  }

  /** A run within a span of time, with PINs of one length. */
  ghost predicate IsRun(s: PinData, events: seq<Event>, n: nat, start: int, end: int) {
    && ValidPin(s) && ValidEvents(events) && FixedLength(events, n)
    && (s.status == On ==> s.pinLength == n)
    && s.afaLastResetTs <= start && During(events, start, end)
  }

  lemma BudgetIsEnough(s: PinData, most: nat, start: int, end: int, interval: int)
    requires interval > 0 && s.afaLastResetTs <= start <= end && s.afa >= 0
    ensures Budget(s, most, start, interval, end) <= most * ((end - start) / interval + 2)
  {
    var whole, left := (end - start) / interval, ResetsLeft(start, s.afaLastResetTs, interval, end);
    DivisionIsMonotone(end - Max(start, s.afaLastResetTs + interval), end - start, interval);
    DivisionIsMonotone(0, end - start, interval);
    SmallDivision(0, interval);
    Scales(most, left, whole + 1);
    assert most * (whole + 2) == most + most * (whole + 1);
  }

  /**
   * During `end - start`, with PINs of one length, the failures survived while the PIN is on are
   * fewer than the limit for each reset interval, for the two cut ones, and for each block.
   */
  lemma FailuresAreBounded(s: PinData, events: seq<Event>, n: nat, start: int, end: int, interval: int)
    requires 4 <= n <= 10 && interval > 0 && IsRun(s, events, n, start, end)
    ensures Survived(s, events, interval)
            <= (MaxAfa(n) - 1) * ((end - start) / interval + 2 + Blocks(s, events, interval))
  {
    var most := MaxAfa(n) - 1;
    var whole, blocks := (end - start) / interval, Blocks(s, events, interval);
    RunSpends(s, events, n, start, interval, end);
    BudgetIsEnough(s, most, start, end, interval);
    assert most * (whole + 2 + blocks) == most * (whole + 2) + most * blocks;
  }

  // ---------- Without changes in the reset mode ----------

  ghost predicate NoResets(events: seq<Event>) {
    forall e :: e in events && e.Change? ==> !e.resetMode
  }

  lemma {:induction false} BlockedSurvivesNothing(s: PinData, events: seq<Event>, interval: int)
    requires ValidPin(s) && ValidEvents(events) && NoResets(events) && s.status == Blocked
    ensures Survived(s, events, interval) == 0
  {
    if events != [] {
      assert events[0] in events;
      BlockedSurvivesNothing(s, events[1..], interval);
    }
  }

  /** After a block nothing more is survived, so that the block adds no allowance. */
  lemma {:induction false} RunSpendsWithoutResets(s: PinData, events: seq<Event>, n: nat, t: int, interval: int, end: int)
    requires 4 <= n <= 10 && interval > 0 && IsRun(s, events, n, t, end) && NoResets(events)
    ensures Survived(s, events, interval) <= Budget(s, MaxAfa(n) - 1, t, interval, end)
    decreases |events|
  {
    var most := MaxAfa(n) - 1;
    Scales(most, 0, ResetsLeft(t, s.afaLastResetTs, interval, end));
    if events != [] {
      var e := events[0];
      assert e in events;
      var s' := Apply(s, e, interval);
      StepKeepsValid(s, e, interval);
      StepSpends(s, e, n, t, interval, end);
      LengthStaysFixed(s, e, n, interval);
      if GetsBlocked(s, e, interval) {
        FailureBlocksAtEitherLimit(s, e.value.value, interval, e.now);
        BlockedSurvivesNothing(s', events[1..], interval);
      } else {
        hide Apply, Budget, Survives, GetsBlocked, ValidPin, ValidEvent;
        RunSpendsWithoutResets(s', events[1..], n, e.now, interval, end);
      }
    }
  }

  /** The bound for one creditor who never resets his PIN: no blocks to count. */
  lemma FailuresAreBoundedWithoutResets(s: PinData, events: seq<Event>, n: nat, start: int, end: int, interval: int)
    requires 4 <= n <= 10 && interval > 0 && IsRun(s, events, n, start, end) && NoResets(events)
    ensures Survived(s, events, interval) <= (MaxAfa(n) - 1) * ((end - start) / interval + 2)
  {
    RunSpendsWithoutResets(s, events, n, start, interval, end);
    BudgetIsEnough(s, MaxAfa(n) - 1, start, end, interval);
  }

  // ---------- With them, there is no bound ----------

  function Guesses(now: int, wrong: string, k: nat): seq<Event> {
    if k == 0 then [] else [Attempt(now, Some(wrong))] + Guesses(now, wrong, k - 1)
  }

  /** As many wrong guesses as it takes to block the PIN, and the same PIN set again in the reset mode. */
  function Round(now: int, pin: string, wrong: string, updateId: int): seq<Event>
    requires 4 <= |pin|
  {
    Guesses(now, wrong, MaxCfa(|pin|)) + [Change(now, On, Some(pin), updateId, true, None)]
  }

  function Rounds(now: int, pin: string, wrong: string, updateId: int, k: nat): seq<Event>
    requires 4 <= |pin|
    decreases k
  {
    if k == 0 then [] else Round(now, pin, wrong, updateId) + Rounds(now, pin, wrong, updateId + 1, k - 1)
  }

  /** A fresh PIN after some wrong guesses. */
  ghost predicate IsGuessed(s: PinData, now: int, pin: string, j: int) {
    ValidPin(s) && s.status == On && s.cfa == j && s.afa == j && s.afaLastResetTs == now && s.pin == Some(pin)
  }

  lemma {:induction false} SurvivedTwice(s: PinData, xs: seq<Event>, ys: seq<Event>, interval: int)
    requires ValidPin(s) && ValidEvents(xs) && ValidEvents(ys)
    ensures ValidEvents(xs + ys)
    ensures Run(s, xs + ys, interval) == Run(Run(s, xs, interval), ys, interval)
    ensures Survived(s, xs + ys, interval) == Survived(s, xs, interval) + Survived(Run(s, xs, interval), ys, interval)
    decreases |xs|
  {
    if xs == [] {
      assert xs + ys == ys;
    } else {
      assert xs[0] in xs && (xs + ys)[1..] == xs[1..] + ys;
      StepKeepsValid(s, xs[0], interval);
      SurvivedTwice(Apply(s, xs[0], interval), xs[1..], ys, interval);
    }
  }

  lemma {:induction false} AllNow(xs: seq<Event>, now: int)
    requires forall e :: e in xs ==> e.now == now
    ensures During(xs, now, now)
  {
    if xs != [] {
      assert xs[0] in xs;
      AllNow(xs[1..], now);
    }
  }

  lemma {:induction false} GuessesAre(now: int, wrong: string, k: nat)
    ensures |Guesses(now, wrong, k)| == k && forall e :: e in Guesses(now, wrong, k) ==> e == Attempt(now, Some(wrong))
  {
    if k > 0 { GuessesAre(now, wrong, k - 1); }
  }

  lemma {:induction false} GuessesBlock(s: PinData, now: int, pin: string, wrong: string, interval: int, j: nat)
    requires 4 <= |pin| <= 10 && |wrong| == |pin| && wrong != pin && interval > 0
    requires j < MaxCfa(|pin|) && IsGuessed(s, now, pin, j)
    ensures var xs := Guesses(now, wrong, MaxCfa(|pin|) - j);
            && ValidEvents(xs)
            && Survived(s, xs, interval) == MaxCfa(|pin|) - 1 - j
            && var s' := Run(s, xs, interval);
               s'.status == Blocked && s'.afa == 0 && s'.afaLastResetTs == now && s'.latestUpdateId == s.latestUpdateId
    decreases MaxCfa(|pin|) - j
  {
    var xs := Guesses(now, wrong, MaxCfa(|pin|) - j);
    GuessesAre(now, wrong, MaxCfa(|pin|) - j);
    FailureBlocksAtEitherLimit(s, wrong, interval, now);
    assert MaxCfa(|pin|) <= MaxAfa(|pin|);
    var s1 := Apply(s, xs[0], interval);
    StepKeepsValid(s, xs[0], interval);
    assert s1.latestUpdateId == s.latestUpdateId;
    assert xs[1..] == Guesses(now, wrong, MaxCfa(|pin|) - (j + 1));
    GuessesAre(now, wrong, MaxCfa(|pin|) - (j + 1));
    hide Apply, MaxAfa;
    if j + 1 < MaxCfa(|pin|) {
      GuessesBlock(s1, now, pin, wrong, interval, j + 1);
    } else {
      assert xs[1..] == [];
    }
  }

  lemma RoundSurvives(s: PinData, now: int, pin: string, wrong: string, interval: int)
    requires 4 <= |pin| <= 10 && |wrong| == |pin| && wrong != pin && interval > 0 && IsGuessed(s, now, pin, 0)
    ensures var xs := Round(now, pin, wrong, s.latestUpdateId + 1);
            && ValidEvents(xs) && FixedLength(xs, |pin|) && (forall e :: e in xs ==> e.now == now)
            && Survived(s, xs, interval) == MaxCfa(|pin|) - 1
            && IsGuessed(Run(s, xs, interval), now, pin, 0)
            && Run(s, xs, interval).latestUpdateId == s.latestUpdateId + 1
  {
    var guesses, reset := Guesses(now, wrong, MaxCfa(|pin|)), [Change(now, On, Some(pin), s.latestUpdateId + 1, true, None)];
    GuessesAre(now, wrong, MaxCfa(|pin|));
    GuessesBlock(s, now, pin, wrong, interval, 0);
    SurvivedTwice(s, guesses, reset, interval);
    var s1 := Run(s, guesses, interval);
    assert Run(s1, reset, interval) == Apply(s1, reset[0], interval);
    assert Survived(s1, reset, interval) == 0;
  }

  /** At a single moment any number of failures can be survived, when the PIN is reset after each block. */
  lemma {:induction false} ResetsDefeatTheClock(s: PinData, now: int, pin: string, wrong: string, k: nat, interval: int)
    requires 4 <= |pin| <= 10 && |wrong| == |pin| && wrong != pin && interval > 0 && IsGuessed(s, now, pin, 0)
    ensures var events := Rounds(now, pin, wrong, s.latestUpdateId + 1, k);
            && (forall e :: e in events ==> e.now == now)
            && IsRun(s, events, |pin|, now, now)
            && Survived(s, events, interval) == k * (MaxCfa(|pin|) - 1)
    decreases k
  {
    var events := Rounds(now, pin, wrong, s.latestUpdateId + 1, k);
    if k > 0 {
      var round, rest := Round(now, pin, wrong, s.latestUpdateId + 1), Rounds(now, pin, wrong, s.latestUpdateId + 2, k - 1);
      RoundSurvives(s, now, pin, wrong, interval);
      var s1 := Run(s, round, interval);
      ResetsDefeatTheClock(s1, now, pin, wrong, k - 1, interval);
      SurvivedTwice(s, round, rest, interval);
      assert k * (MaxCfa(|pin|) - 1) == (k - 1) * (MaxCfa(|pin|) - 1) + (MaxCfa(|pin|) - 1);
      assert forall e :: e in events ==> e in round || e in rest;
    }
    AllNow(events, now);
  }

  /** The bound without blocks, for all runs, with changes in the reset mode or without them. */
  ghost predicate BoundHolds(resetsAllowed: bool, n: nat, interval: int)
    requires 4 <= n <= 10 && interval > 0
  {
    forall s: PinData, events: seq<Event>, start: int, end: int ::
      IsRun(s, events, n, start, end) && (resetsAllowed || NoResets(events)) ==>
        Survived(s, events, interval) <= (MaxAfa(n) - 1) * ((end - start) / interval + 2)
  }

  /** The bound holds exactly for those who may not change their PIN in the reset mode. */
  lemma BoundHoldsExactlyWithoutResets(resetsAllowed: bool, n: nat, interval: int)
    requires 4 <= n <= 10 && interval > 0
    ensures BoundHolds(resetsAllowed, n, interval) <==> !resetsAllowed
  {
    if resetsAllowed {
      var pin, wrong := seq(n, _ => '0'), seq(n, _ => '1');
      assert pin[0] != wrong[0];
      var s := PinData(On, 0, 0, 0, n, Some(pin), 1, []);
      var most := MaxAfa(n) - 1;
      var k := 2 * most + 1;
      var events := Rounds(0, pin, wrong, 2, k);
      ResetsDefeatTheClock(s, 0, pin, wrong, k, interval);
      Scales(k, 1, MaxCfa(n) - 1);
      SmallDivision(0, interval);
      assert Survived(s, events, interval) > most * ((0 - 0) / interval + 2);
      assert !BoundHolds(true, n, interval) by { assert IsRun(s, events, n, 0, 0); }
    } else {
      forall s: PinData, events: seq<Event>, start: int, end: int | IsRun(s, events, n, start, end) && NoResets(events)
        ensures Survived(s, events, interval) <= (MaxAfa(n) - 1) * ((end - start) / interval + 2)
      {
        FailuresAreBoundedWithoutResets(s, events, n, start, end, interval);
      }
    }
  }
}
