/**
 * What has happened before: every request, payment and outcome in a state goes back to a request of
 * the creditor or to a message of the server, and says what that said.
 */
module PaymentHistory {
  import opened Options
  import opened DirectTransfers
  import opened PaymentSafety
  import CreditorLog

  // ---------- Initiations ----------

  ghost predicate IsInUse(rows: seq<RunningTransfer>, creditorId: int, uuid: int) {
    exists r :: r in rows && r.request.creditorId == creditorId && r.request.uuid == uuid
  }

  /** The message asks the server to prepare what the creditor has asked for. */
  predicate AsksFor(g: Signal, q: Request) {
    && g.Prepare? && g.creditorId == q.creditorId && g.requestId == q.requestId
    && g.debtorId == q.data.debtorId && g.recipient == q.data.recipient && g.lockedAmount == q.data.lockedAmount
    && g.finalInterestRateTs == q.data.finalInterestRateTs
  }

  /** The promised delay ends before the deadline, and fits 32 bits. */
  predicate IsInTime(g: Signal, q: Request, now: int)
    requires g.Prepare?
  {
    && 0 <= g.maxCommitDelay <= 0x7FFF_FFFF
    && (g.maxCommitDelay > 0 && q.data.deadline.Some? ==> now + g.maxCommitDelay * 1000000 <= q.data.deadline.value)
    && (g.maxCommitDelay < 0x7FFF_FFFF ==>
          q.data.deadline.Some? && q.data.deadline.value < now + (g.maxCommitDelay + 1) * 1000000)
  }

  /** An open row for a request that nobody has made before, announced and sent to the server. */
  ghost predicate HasBegun(s: State, s': State, now: int, creditorId: int, uuid: int, data: TransferData) {
    && |s'.initiated| == |s.initiated| + 1 && s.initiated <= s'.initiated
    && var q := s'.initiated[|s.initiated|];
       q.creditorId == creditorId && q.uuid == uuid && q.data == data && q.requestId > s.lastRequestId
       && s'.lastRequestId == q.requestId
       && s'.rows == s.rows + [RunningTransfer(q, None, None, None, None, 1, now)]
       && s'.log == s.log + [TransferUpdated(creditorId, uuid, 1, None, None)]
       && |s'.signals| == |s.signals| + 1 && s.signals <= s'.signals
       && AsksFor(s'.signals[|s.signals|], q) && IsInTime(s'.signals[|s.signals|], q, now)
       && s'.active == s.active
  }

  /** When a request is refused, and for which reason; a refused request changes nothing. */
  lemma InitiationOutcome(s: State, now: int, creditorId: int, uuid: int, data: TransferData, skipped: nat)
    ensures var (s', error) := Initiate(s, now, creditorId, uuid, data, skipped);
            && (error == Some(CreditorDoesNotExist) <==> creditorId !in s.active)
            && (error.None? <==> creditorId in s.active && !IsInUse(s.rows, creditorId, uuid))
            && (error.None? ==> HasBegun(s, s', now, creditorId, uuid, data))
            && (error.Some? ==> s' == s)
            && (Unique(s.rows) && creditorId in s.active ==>
                  forall r :: r in s.rows && r.request.creditorId == creditorId && r.request.uuid == uuid ==>
                    error == Some(if r.request.data == data then TransferExists else UpdateConflict))
  {
    CommitDelayMeetsTheDeadline(now, data.deadline);
    if Unique(s.rows) {
      forall i, j | 0 <= i < j < |s.rows|
        ensures s.rows[i].request.creditorId != s.rows[j].request.creditorId || s.rows[i].request.uuid != s.rows[j].request.uuid
      {
      }
    }
  }

  // ---------- Endings ----------

  /** The row has been finalized, now. */
  predicate HasEnded(r: RunningTransfer, r': RunningTransfer, now: int) {
    r' == r.(finalizedAt := Some(now), errorCode := r'.errorCode, totalLocked := r'.totalLocked,
             latestUpdateId := r.latestUpdateId + 1, latestUpdateTs := now)
  }

  /** One announcement for each row that has ended, and nothing is sent. */
  ghost predicate EndsRows(s: State, s': State, now: int) {
    && s' == s.(rows := s'.rows, log := s'.log) && |s'.rows| == |s.rows|
    && (s'.log == s.log ==> s'.rows == s.rows)
    && (s'.log != s.log ==>
          exists k: nat :: k < |s.rows| && EndsRow(s, s', now, k))
  }

  ghost predicate EndsRow(s: State, s': State, now: int, k: nat)
    requires k < |s.rows|
  {
    && k < |s'.rows| && s.rows[k].finalizedAt.None? && HasEnded(s.rows[k], s'.rows[k], now)
    && s'.rows == s.rows[k := s'.rows[k]]
    && var q := s.rows[k].request;
       s'.log == s.log + [TransferUpdated(q.creditorId, q.uuid, s'.rows[k].latestUpdateId, Some(now), s'.rows[k].errorCode)]
  }

  /** The message is about the transfer that the row has committed. */
  predicate IsAbout(m: FinalizedMsg, r: RunningTransfer) {
    && r.request.creditorId == m.coordinatorId && r.request.requestId == m.requestId
    && r.request.data.debtorId == m.debtorId && r.request.creditorId == m.creditorId
    && r.transferId == Some(m.transferId)
  }

  /**
   * A success is what the server has called a success, for the whole amount. A failure that has not
   * cost anything is reported with the server's reason; everything else is unexpected.
   */
  predicate ReportsFinalized(m: FinalizedMsg, r: RunningTransfer) {
    && (r.errorCode.None? <==> m.statusCode == "OK" && m.committedAmount == r.request.data.amount)
    && (m.statusCode != "OK" && m.committedAmount == 0 ==>
          r.errorCode == Some(m.statusCode) && r.totalLocked == Some(m.totalLocked))
    && (m.statusCode == "OK" || m.committedAmount != 0 ==>
          r.errorCode in {None, Some("UNEXPECTED_ERROR")} && r.totalLocked.None?)
  }

  predicate IsAboutRequest(m: RejectedMsg, r: RunningTransfer) {
    r.request.creditorId == m.coordinatorId && r.request.requestId == m.requestId
  }

  /** A rejection that makes sense is reported with the server's reason. */
  predicate ReportsRejected(m: RejectedMsg, r: RunningTransfer) {
    if m.statusCode != "OK" && r.request.data.debtorId == m.debtorId && r.request.creditorId == m.creditorId
    then r.errorCode == Some(m.statusCode) && r.totalLocked == Some(m.totalLocked)
    else r.errorCode == Some("UNEXPECTED_ERROR") && r.totalLocked.None?
  }

  predicate ReportsCancelled(r: RunningTransfer) {
    r.errorCode == Some("CANCELED_BY_THE_SENDER") && r.totalLocked.None?
  }

  /** The open row that a final message is about ends as the message says, and no other row changes. */
  lemma FinalizedOutcome(s: State, now: int, m: FinalizedMsg)
    requires Safe(s)
    ensures var s' := FinalizedByServer(s, now, m);
            && EndsRows(s, s', now)
            && forall k :: 0 <= k < |s.rows| ==>
                 if IsAbout(m, s.rows[k]) && s.rows[k].finalizedAt.None?
                 then HasEnded(s.rows[k], s'.rows[k], now) && ReportsFinalized(m, s'.rows[k])
                 else s'.rows[k] == s.rows[k]
  {
    var k := FindRequest(s.rows, m.coordinatorId, m.requestId);
    if k.Some? {
      TheRow(s, m.coordinatorId, m.requestId, k.value);
      var s' := FinalizedByServer(s, now, m);
      if s' != s {
        assert EndsRow(s, s', now, k.value);
      }
    }
    hide Safe;
  }

  /** The same for a rejection. */
  lemma RejectedOutcome(s: State, now: int, m: RejectedMsg)
    requires Safe(s)
    ensures var s' := Rejected(s, now, m);
            && EndsRows(s, s', now)
            && forall k :: 0 <= k < |s.rows| ==>
                 if IsAboutRequest(m, s.rows[k]) && s.rows[k].finalizedAt.None?
                 then HasEnded(s.rows[k], s'.rows[k], now) && ReportsRejected(m, s'.rows[k])
                 else s'.rows[k] == s.rows[k]
  {
    var k := FindRequest(s.rows, m.coordinatorId, m.requestId);
    if k.Some? {
      TheRow(s, m.coordinatorId, m.requestId, k.value);
      var s' := Rejected(s, now, m);
      if s' != s {
        assert EndsRow(s, s', now, k.value);
      }
    }
    hide Safe;
  }

  /** A cancellation ends the creditor's own open row, if no transfer has been committed for it. */
  lemma CancelledOutcome(s: State, now: int, creditorId: int, uuid: int)
    requires Safe(s)
    ensures var (s', error) := Cancel(s, now, creditorId, uuid);
            && (error == Some(TransferDoesNotExist) <==> !IsInUse(s.rows, creditorId, uuid))
            && (error.Some? ==> s' == s)
            && EndsRows(s, s', now)
            && forall k :: 0 <= k < |s.rows| ==>
                 if s.rows[k].request.creditorId == creditorId && s.rows[k].request.uuid == uuid
                    && s.rows[k].finalizedAt.None? && s.rows[k].transferId.None?
                 then HasEnded(s.rows[k], s'.rows[k], now) && ReportsCancelled(s'.rows[k])
                 else s'.rows[k] == s.rows[k]
  {
    var k := FindUuid(s.rows, creditorId, uuid);
    if k.Some? {
      var s' := Cancel(s, now, creditorId, uuid).0;
      if s' != s {
        assert EndsRow(s, s', now, k.value);
      }
      assert s.rows[k.value] in s.rows;
    }
    hide Safe;
  }

  /** A deletion removes the creditor's row, announces it, and touches no other. */
  lemma DeletionOutcome(s: State, creditorId: int, uuid: int)
    requires Safe(s)
    ensures var (s', error) := Delete(s, creditorId, uuid);
            && (error == Some(TransferDoesNotExist) <==> !IsInUse(s.rows, creditorId, uuid))
            && (error.Some? ==> error == Some(TransferDoesNotExist) && s' == s)
            && (error.None? ==> s' == s.(rows := s'.rows, log := s.log + [TransferDeleted(creditorId, uuid)]))
            && (forall r :: r in s'.rows <==> r in s.rows && !(r.request.creditorId == creditorId && r.request.uuid == uuid))
  {
    var k := FindUuid(s.rows, creditorId, uuid);
    if k.Some? {
      var i := k.value;
      assert s.rows == s.rows[..i] + [s.rows[i]] + s.rows[i + 1..];
      assert s.rows[i] in s.rows;
      forall r | r in s.rows && !(r.request.creditorId == creditorId && r.request.uuid == uuid)
        ensures r in s.rows[..i] + s.rows[i + 1..]
      {
      }
      forall r | r in s.rows[..i] + s.rows[i + 1..]
        ensures !(r.request.creditorId == creditorId && r.request.uuid == uuid)
      {
        var j :| 0 <= j < |s.rows| && j != i && s.rows[j] == r;
      }
    }
  }

  /** An active creditor who is deactivated loses all his rows; the others keep theirs, and nobody is told. */
  lemma DeactivationOutcome(s: State, creditorId: int)
    ensures var s' := Deactivate(s, creditorId);
            && s' == s.(active := s.active - {creditorId}, rows := s'.rows)
            && (forall r :: r in s'.rows <==> r in s.rows && !(creditorId in s.active && r.request.creditorId == creditorId))
  {
  }

  // ---------- Histories ----------

  /** The creditor has made the request. */
  ghost predicate WasMade(q: Request, events: seq<Event>) {
    exists e :: e in events && e.step.Initiation?
                && e.step.creditorId == q.creditorId && e.step.uuid == q.uuid && e.step.data == q.data
  }

  /** The server has prepared the transfer for the request. */
  ghost predicate WasPrepared(transferId: int, q: Request, events: seq<Event>) {
    exists e :: e in events && e.step.PreparedArrives? && e.step.prepared.transferId == transferId
                && Fits(e.step.prepared, q)
  }

  /** The event is the reason for the row's outcome. */
  predicate Explains(e: Event, r: RunningTransfer) {
    && r.finalizedAt == Some(e.now) && r.latestUpdateTs == e.now
    && match e.step
       case FinalizedArrives(m) => IsAbout(m, r) && ReportsFinalized(m, r)
       case RejectedArrives(m) => IsAboutRequest(m, r) && ReportsRejected(m, r)
       case Cancellation(creditorId, uuid) =>
         r.request.creditorId == creditorId && r.request.uuid == uuid && r.transferId.None? && ReportsCancelled(r)
       case _ => false
  }

  ghost predicate IsExplained(r: RunningTransfer, events: seq<Event>) {
    r.finalizedAt.Some? ==> exists e :: e in events && Explains(e, r)
  }

  /** The log has told the row's present outcome. */
  ghost predicate IsTold(log: seq<LogItem>, r: RunningTransfer) {
    TransferUpdated(r.request.creditorId, r.request.uuid, r.latestUpdateId, r.finalizedAt, r.errorCode) in log
  }

  ghost predicate IsEarned(g: Signal, initiated: seq<Request>, events: seq<Event>)
    requires g.Commit?
  {
    exists q :: q in initiated && Pays(g, q, g.transferId) && WasPrepared(g.transferId, q, events)
  }

  function PreparesOf(signals: seq<Signal>): seq<Signal> {
    if signals == [] then []
    else
      var last := signals[|signals| - 1];
      PreparesOf(signals[..|signals| - 1]) + if last.Prepare? then [last] else []
  }

  /** There is one message for each request, in the same order. */
  ghost predicate AskOnce(signals: seq<Signal>, initiated: seq<Request>) {
    && |PreparesOf(signals)| == |initiated|
    && forall i :: 0 <= i < |initiated| ==> AsksFor(PreparesOf(signals)[i], initiated[i])
  }

  ghost predicate IsAccounted(s: State, events: seq<Event>) {
    && (forall q :: q in s.initiated ==> WasMade(q, events))
    && (forall g :: g in s.signals && g.Commit? ==> IsEarned(g, s.initiated, events))
    && (forall r :: r in s.rows ==> IsExplained(r, events) && IsTold(s.log, r))
    && AskOnce(s.signals, s.initiated)
  }

  lemma PreparesGrow(signals: seq<Signal>, g: Signal)
    ensures PreparesOf(signals + [g]) == PreparesOf(signals) + if g.Prepare? then [g] else []
  {
    assert (signals + [g])[..|signals|] == signals;
  }

  /** More events explain more. */
  lemma MoreEvents(s: State, events: seq<Event>, e: Event)
    requires IsAccounted(s, events)
    ensures IsAccounted(s, events + [e])
  {
    hide AskOnce;
    forall q | q in s.initiated ensures WasMade(q, events + [e]) {
      var x :| x in events && x.step.Initiation?
               && x.step.creditorId == q.creditorId && x.step.uuid == q.uuid && x.step.data == q.data;
      assert x in events + [e];
    }
    forall g | g in s.signals && g.Commit? ensures IsEarned(g, s.initiated, events + [e]) {
      EarnedStill(g, s.initiated, events, e);
    }
    forall r | r in s.rows ensures IsExplained(r, events + [e]) {
      if r.finalizedAt.Some? {
        var x :| x in events && Explains(x, r);
        assert x in events + [e];
      }
    }
  }

  lemma EarnedStill(g: Signal, initiated: seq<Request>, events: seq<Event>, e: Event)
    requires g.Commit? && IsEarned(g, initiated, events)
    ensures IsEarned(g, initiated, events + [e])
  {
    var q :| q in initiated && Pays(g, q, g.transferId) && WasPrepared(g.transferId, q, events);
    var x :| x in events && x.step.PreparedArrives? && x.step.prepared.transferId == g.transferId
             && Fits(x.step.prepared, q);
    assert x in events + [e];
    assert WasPrepared(g.transferId, q, events + [e]);
  }

  /** Fewer rows, or other active creditors. */
  lemma FewerRowsAccounted(s: State, s': State, events: seq<Event>)
    requires IsAccounted(s, events) && s'.signals == s.signals && s'.initiated == s.initiated && s.log <= s'.log
    requires forall r :: r in s'.rows ==> r in s.rows
    ensures IsAccounted(s', events)
  {
    hide AskOnce, IsExplained, WasMade, IsEarned;
  }

  lemma EndedRowAccounted(s: State, s': State, e: Event, events: seq<Event>)
    requires IsAccounted(s, events) && e in events && EndsRows(s, s', e.now)
    requires forall k :: 0 <= k < |s.rows| && s'.rows[k] != s.rows[k] ==> Explains(e, s'.rows[k])
    ensures IsAccounted(s', events)
  {
    hide AskOnce, WasMade, IsEarned, Explains;
    if s'.log != s.log {
      var k: nat :| k < |s.rows| && EndsRow(s, s', e.now, k);
      forall r | r in s'.rows ensures IsExplained(r, events) && IsTold(s'.log, r) {
        var i :| 0 <= i < |s'.rows| && s'.rows[i] == r;
        if i != k { assert s.rows[i] == r && s.rows[i] in s.rows; }
      }
    }
  }

  lemma InitiationAccounted(s: State, now: int, step: Step, events: seq<Event>)
    requires IsAccounted(s, events) && step.Initiation? && Event(now, step) in events
    ensures IsAccounted(Initiate(s, now, step.creditorId, step.uuid, step.data, step.skipped).0, events)
  {
    var (s', error) := Initiate(s, now, step.creditorId, step.uuid, step.data, step.skipped);
    InitiationOutcome(s, now, step.creditorId, step.uuid, step.data, step.skipped);
    hide Initiate, IsExplained, WasPrepared;
    if error.None? {
      var q, g := s'.initiated[|s.initiated|], s'.signals[|s.signals|];
      assert WasMade(q, events);
      assert s'.initiated == s.initiated + [q] && s'.signals == s.signals + [g];
      PreparesGrow(s.signals, g);
      assert AskOnce(s'.signals, s'.initiated);
      forall h | h in s'.signals && h.Commit? ensures IsEarned(h, s'.initiated, events) {
        assert h in s.signals;
        var q' :| q' in s.initiated && Pays(h, q', h.transferId) && WasPrepared(h.transferId, q', events);
        assert q' in s'.initiated;
      }
      OpenIsExplained(s'.rows[|s.rows|], events);
    }
  }

  lemma OpenIsExplained(r: RunningTransfer, events: seq<Event>)
    requires r.finalizedAt.None?
    ensures IsExplained(r, events)
  {
  }

  lemma PreparedAccounted(s: State, now: int, m: PreparedMsg, events: seq<Event>)
    requires Safe(s) && IsAccounted(s, events) && Event(now, PreparedArrives(m)) in events
    ensures IsAccounted(Prepared(s, m), events)
  {
    hide Safe, IsExplained, IsEarned, WasMade, Prepared, IsPayable, IsAnswer, IsTold;
    var s' := Prepared(s, m);
    PreparedAnswer(s, m);
    PreparedKeepsRest(s, m);
    var g := s'.signals[|s.signals|];
    assert s'.signals == s.signals + [g];
    PreparesGrow(s.signals, g);
    if g.Commit? { CommitIsEarned(s, now, m, g, events); }
    PreparedRowsAccounted(s, m, events);
    AnswerAsksNothing(s, m, g);
  }

  lemma PreparedKeepsRest(s: State, m: PreparedMsg)
    ensures Prepared(s, m) == s.(rows := Prepared(s, m).rows, signals := Prepared(s, m).signals)
  {
  }

  lemma AnswerAsksNothing(s: State, m: PreparedMsg, g: Signal)
    requires IsAnswer(s, m, g)
    ensures !g.Prepare?
  {
  }

  lemma CommitIsEarned(s: State, now: int, m: PreparedMsg, g: Signal, events: seq<Event>)
    requires Safe(s) && Event(now, PreparedArrives(m)) in events && g.Commit? && IsAnswer(s, m, g)
    ensures IsEarned(g, s.initiated, events)
  {
    var r :| r in s.rows && Fits(m, r.request) && Pays(g, r.request, m.transferId);
    assert RowFits(s, r);
    assert WasPrepared(g.transferId, r.request, events);
  }

  lemma PreparedRowsAccounted(s: State, m: PreparedMsg, events: seq<Event>)
    requires Safe(s) && IsAccounted(s, events)
    ensures forall r :: r in Prepared(s, m).rows ==> IsExplained(r, events) && IsTold(s.log, r)
  {
    var rows := Prepared(s, m).rows;
    PreparedAnswer(s, m);
    forall r | r in rows ensures IsExplained(r, events) && IsTold(s.log, r) {
      var k :| 0 <= k < |rows| && rows[k] == r;
      assert s.rows[k] in s.rows;
      if Fits(m, s.rows[k].request) && IsPayable(s, m, s.rows[k]) { PayableRow(s, m, s.rows[k]); }
    }
  }

  lemma StepIsAccounted(s: State, before: seq<Event>, e: Event)
    requires Safe(s) && IsAccounted(s, before)
    ensures IsAccounted(Apply(s, e), before + [e])
  {
    hide Safe, IsAccounted, Initiate, Cancel, Delete, Prepared, Rejected, FinalizedByServer, EndsRows;
    var events := before + [e];
    MoreEvents(s, before, e);
    assert e in events;
    var s' := Apply(s, e);
    match e.step {
      case Activation(_) => FewerRowsAccounted(s, s', events);
      case Deactivation(_) => FewerRowsAccounted(s, s', events);
      case Initiation(_, _, _, _) => InitiationAccounted(s, e.now, e.step, events);
      case Cancellation(creditorId, uuid) =>
        CancelledOutcome(s, e.now, creditorId, uuid);
        EndedRowAccounted(s, s', e, events);
      case Deletion(creditorId, uuid) =>
        DeletionOutcome(s, creditorId, uuid);
        FewerRowsAccounted(s, s', events);
      case PreparedArrives(m) => PreparedAccounted(s, e.now, m, events);
      case RejectedArrives(m) =>
        RejectedOutcome(s, e.now, m);
        EndedRowAccounted(s, s', e, events);
      case FinalizedArrives(m) =>
        FinalizedOutcome(s, e.now, m);
        EndedRowAccounted(s, s', e, events);
    }
  }

  lemma {:induction false} RunIsAccounted(s: State, before: seq<Event>, events: seq<Event>)
    requires Safe(s) && IsAccounted(s, before)
    ensures IsAccounted(Run(s, events), before + events)
    decreases |events|
  {
    if events == [] {
      assert before + events == before;
    } else {
      StepIsSafe(s, events[0]);
      StepIsAccounted(s, before, events[0]);
      assert before + events == (before + [events[0]]) + events[1..];
      hide Apply, Safe, IsAccounted;
      RunIsAccounted(Apply(s, events[0]), before + [events[0]], events[1..]);
    }
  }

  // ---------- The theorems ----------

  /**
   * In every run: a commit pays a request that the creditor has made, exactly as he has made it, with
   * a transfer that the server has prepared for the same debtor, creditor, recipient and amount.
   */
  lemma CommitsAreEarned(lastRequestId: int, events: seq<Event>, g: Signal)
    requires g in Run(Start(lastRequestId), events).signals && g.Commit?
    ensures exists q :: q in Run(Start(lastRequestId), events).initiated
                        && Pays(g, q, g.transferId) && WasPrepared(g.transferId, q, events) && WasMade(q, events)
  {
    RunIsAccounted(Start(lastRequestId), [], events);
    var s := Run(Start(lastRequestId), events);
    assert [] + events == events;
    assert IsEarned(g, s.initiated, events);
    var q :| q in s.initiated && Pays(g, q, g.transferId) && WasPrepared(g.transferId, q, events);
  }

  /**
   * In every run: a finalized row ends as the message or the request that finalized it says. So a
   * payment is reported as successful only if the server has said so, for the whole amount; and the
   * log has told the outcome.
   */
  lemma OutcomesAreExplained(lastRequestId: int, events: seq<Event>, r: RunningTransfer)
    requires r in Run(Start(lastRequestId), events).rows && r.finalizedAt.Some?
    ensures exists e :: e in events && Explains(e, r)
    ensures r.errorCode.None? ==>
              exists e :: e in events && e.step.FinalizedArrives? && IsAbout(e.step.finalized, r)
                          && e.step.finalized.statusCode == "OK" && e.step.finalized.committedAmount == r.request.data.amount
    ensures IsTold(Run(Start(lastRequestId), events).log, r)
  {
    RunIsAccounted(Start(lastRequestId), [], events);
    assert [] + events == events;
    assert IsExplained(r, events);
  }

  /** In every run: the server is asked to prepare each request once, in the order of the requests, as it was made. */
  lemma PreparesQuoteRequests(lastRequestId: int, events: seq<Event>)
    ensures var s := Run(Start(lastRequestId), events);
            && AskOnce(s.signals, s.initiated)
            && (forall q :: q in s.initiated ==> WasMade(q, events))
            && (forall i, j :: 0 <= i < j < |s.initiated| ==> s.initiated[i].requestId < s.initiated[j].requestId)
  {
    RunIsSafe(Start(lastRequestId), events);
    RunIsAccounted(Start(lastRequestId), [], events);
    assert [] + events == events;
  }

  // ---------- The list of transfers ----------

  /** The log entry that a procedure queues. */
  function LineOf(item: LogItem, now: int): CreditorLog.Line {
    match item
    case TransferUpdated(_, uuid, updateId, finalizedAt, errorCode) =>
      CreditorLog.Line(None, Some(1), Some(updateId), None, now,
                       CreditorLog.NO_DETAILS.(transferUuid := Some(uuid), finalizedAt := finalizedAt, errorCode := errorCode))
    case TransferDeleted(_, uuid) =>
      CreditorLog.Line(None, Some(1), None, Some(true), now, CreditorLog.NO_DETAILS.(transferUuid := Some(uuid)))
  }

  /** How many transfers the creditor has. */
  function Listed(rows: seq<RunningTransfer>, creditorId: int): nat {
    if rows == [] then 0
    else Listed(rows[..|rows| - 1], creditorId) + if rows[|rows| - 1].request.creditorId == creditorId then 1 else 0
  }

  lemma {:induction false} ListedTwice(xs: seq<RunningTransfer>, ys: seq<RunningTransfer>, creditorId: int)
    ensures Listed(xs + ys, creditorId) == Listed(xs, creditorId) + Listed(ys, creditorId)
    decreases |ys|
  {
    if ys == [] {
      assert xs + ys == xs;
    } else {
      var init := ys[..|ys| - 1];
      assert (xs + ys)[..|xs + ys| - 1] == xs + init;
      ListedTwice(xs, init, creditorId);
    }
  }

  /** A creation or a deletion of a transfer, of which the creditor's log tells. */
  ghost predicate IsListed(s: State, s': State, creditorId: int, now: int) {
    && s.log <= s'.log && |s'.log| <= |s.log| + 1
    && (Listed(s'.rows, creditorId) != Listed(s.rows, creditorId) <==>
          && s'.log != s.log
          && s'.log[|s.log|].creditorId == creditorId
          && CreditorLog.ChangesTransfersList(LineOf(s'.log[|s.log|], now)))
  }

  lemma ListRule(item: LogItem, now: int)
    ensures CreditorLog.ChangesTransfersList(LineOf(item, now)) <==> item.TransferDeleted? || item.updateId == 1
  {
  }

  lemma {:induction false} SameRequestsListed(xs: seq<RunningTransfer>, ys: seq<RunningTransfer>, creditorId: int)
    requires |xs| == |ys| && forall k :: 0 <= k < |xs| ==> xs[k].request == ys[k].request
    ensures Listed(xs, creditorId) == Listed(ys, creditorId)
  {
    if xs != [] {
      SameRequestsListed(xs[..|xs| - 1], ys[..|ys| - 1], creditorId);
    }
  }

  lemma EndingIsListed(s: State, s': State, now: int, creditorId: int)
    requires Safe(s) && EndsRows(s, s', now)
    ensures IsListed(s, s', creditorId, now)
  {
    hide LineOf, CreditorLog.ChangesTransfersList;
    if s'.log != s.log {
      var k: nat :| k < |s.rows| && EndsRow(s, s', now, k);
      assert RowFits(s, s.rows[k]);
      ListRule(s'.log[|s.log|], now);
    }
    SameRequestsListed(s.rows, s'.rows, creditorId);
  }

  lemma OneRowListed(r: RunningTransfer, creditorId: int)
    ensures Listed([r], creditorId) == if r.request.creditorId == creditorId then 1 else 0
  {
    assert [r][..0] == [];
  }

  lemma InitiationIsListed(s: State, now: int, step: Step, creditorId: int)
    requires step.Initiation?
    ensures IsListed(s, Initiate(s, now, step.creditorId, step.uuid, step.data, step.skipped).0, creditorId, now)
  {
    hide LineOf, CreditorLog.ChangesTransfersList, Initiate, Listed;
    var (s', error) := Initiate(s, now, step.creditorId, step.uuid, step.data, step.skipped);
    InitiationOutcome(s, now, step.creditorId, step.uuid, step.data, step.skipped);
    if error.None? {
      var r := s'.rows[|s.rows|];
      ListRule(s'.log[|s.log|], now);
      ListedTwice(s.rows, [r], creditorId);
      OneRowListed(r, creditorId);
    }
  }

  lemma DeletionIsListed(s: State, now: int, owner: int, uuid: int, creditorId: int)
    ensures IsListed(s, Delete(s, owner, uuid).0, creditorId, now)
  {
    hide LineOf, CreditorLog.ChangesTransfersList, Listed;
    var k := FindUuid(s.rows, owner, uuid);
    if k.Some? {
      var i := k.value;
      assert s.rows == s.rows[..i] + ([s.rows[i]] + s.rows[i + 1..]);
      ListedTwice(s.rows[..i], [s.rows[i]] + s.rows[i + 1..], creditorId);
      ListedTwice([s.rows[i]], s.rows[i + 1..], creditorId);
      ListedTwice(s.rows[..i], s.rows[i + 1..], creditorId);
      OneRowListed(s.rows[i], creditorId);
      ListRule(Delete(s, owner, uuid).0.log[|s.log|], now);
    }
  }

  /**
   * As long as creditors are not deactivated, the number of a creditor's transfers changes exactly when
   * an entry is queued for his log that gives the list of transfers a new update id.
   */
  lemma ListChangesAreLogged(s: State, e: Event, creditorId: int)
    requires Safe(s) && !e.step.Deactivation?
    ensures IsListed(s, Apply(s, e), creditorId, e.now)
  {
    hide Safe, Initiate, Cancel, Delete, Prepared, Rejected, FinalizedByServer, EndsRows, IsListed;
    var s' := Apply(s, e);
    match e.step {
      case Activation(_) => SameRowsListed(s, s', creditorId, e.now);
      case Initiation(_, _, _, _) => InitiationIsListed(s, e.now, e.step, creditorId);
      case Cancellation(owner, uuid) =>
        CancelledOutcome(s, e.now, owner, uuid);
        EndingIsListed(s, s', e.now, creditorId);
      case Deletion(owner, uuid) => DeletionIsListed(s, e.now, owner, uuid, creditorId);
      case PreparedArrives(m) =>
        PreparedAnswer(s, m);
        PreparedTellsNothing(s, m);
        SameRowsListed(s, s', creditorId, e.now);
      case RejectedArrives(m) =>
        RejectedOutcome(s, e.now, m);
        EndingIsListed(s, s', e.now, creditorId);
      case FinalizedArrives(m) =>
        FinalizedOutcome(s, e.now, m);
        EndingIsListed(s, s', e.now, creditorId);
    }
  }

  lemma PreparedTellsNothing(s: State, m: PreparedMsg)
    ensures Prepared(s, m).log == s.log && |Prepared(s, m).rows| == |s.rows|
    ensures forall k :: 0 <= k < |s.rows| ==> Prepared(s, m).rows[k].request == s.rows[k].request
  {
  }

  lemma SameRowsListed(s: State, s': State, creditorId: int, now: int)
    requires s'.log == s.log && |s'.rows| == |s.rows|
    requires forall k :: 0 <= k < |s.rows| ==> s'.rows[k].request == s.rows[k].request
    ensures IsListed(s, s', creditorId, now)
  {
    SameRequestsListed(s.rows, s'.rows, creditorId);
  }
}
