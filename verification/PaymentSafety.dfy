/** What whole runs of the coordinator of direct transfers guarantee about payments. */
module PaymentSafety {
  import opened Options
  import opened DirectTransfers

  /** Messages may be lost, repeated, reordered or foreign; creditors come, go and come back. */
  datatype Step =
    | Activation(creditorId: int)
    | Deactivation(creditorId: int)
    | Initiation(creditorId: int, uuid: int, data: TransferData, skipped: nat)
    | Cancellation(creditorId: int, uuid: int)
    | Deletion(creditorId: int, uuid: int)
    | PreparedArrives(prepared: PreparedMsg)
    | RejectedArrives(rejected: RejectedMsg)
    | FinalizedArrives(finalized: FinalizedMsg)

  datatype Event = Event(now: int, step: Step)

  function Apply(s: State, e: Event): State {
    match e.step
    case Activation(creditorId) => s.(active := s.active + {creditorId})
    case Deactivation(creditorId) => Deactivate(s, creditorId)
    case Initiation(creditorId, uuid, data, skipped) => Initiate(s, e.now, creditorId, uuid, data, skipped).0
    case Cancellation(creditorId, uuid) => Cancel(s, e.now, creditorId, uuid).0
    case Deletion(creditorId, uuid) => Delete(s, creditorId, uuid).0
    case PreparedArrives(m) => Prepared(s, m)
    case RejectedArrives(m) => Rejected(s, e.now, m)
    case FinalizedArrives(m) => FinalizedByServer(s, e.now, m)
  }

  function Run(s: State, events: seq<Event>): State
    decreases |events|
  {
    if events == [] then s else Run(Apply(s, events[0]), events[1..])
  }

  function Start(lastRequestId: int): State { State({}, [], lastRequestId, [], [], []) }

  // ---------- The invariant ----------

  predicate IsCommitFor(g: Signal, requestId: int) {
    g.Commit? && g.requestId == requestId
  }

  /** The message pays what the creditor has asked for, with a prepared transfer. */
  predicate Pays(g: Signal, q: Request, transferId: int) {
    && g.Commit? && g.transferId == transferId
    && g.coordinatorId == q.creditorId && g.requestId == q.requestId
    && g.creditorId == q.creditorId && g.debtorId == q.data.debtorId
    && g.amount == q.data.amount && g.noteFormat == q.data.noteFormat && g.note == q.data.note
  }

  /** A settled row has been paid, a success is settled, and a row is finalized at most once. */
  ghost predicate RowFits(s: State, r: RunningTransfer) {
    && r.request in s.initiated
    && r.latestUpdateId == (if r.IsFinalized() then 2 else 1)
    && (r.errorCode.Some? ==> r.IsFinalized())
    && (r.IsFinalized() && r.errorCode.None? ==> r.IsSettled())
    && (r.transferId.Some? ==> IsPaid(s.signals, r.request, r.transferId.value))
  }

  ghost predicate IsPaid(signals: seq<Signal>, q: Request, transferId: int) {
    exists g :: g in signals && Pays(g, q, transferId)
  }

  ghost predicate Unique(rows: seq<RunningTransfer>) {
    forall i, j :: 0 <= i < j < |rows| ==>
      && rows[i].request.requestId != rows[j].request.requestId
      && (rows[i].request.creditorId != rows[j].request.creditorId || rows[i].request.uuid != rows[j].request.uuid)
  }

  ghost predicate RequestsFit(s: State) {
    && (forall i, j :: 0 <= i < j < |s.initiated| ==> s.initiated[i].requestId < s.initiated[j].requestId)
    && (forall q :: q in s.initiated ==> q.requestId <= s.lastRequestId)
  }

  /** A commit quotes its request, and a live row remembers its target. */
  ghost predicate CommitFits(s: State, g: Signal)
    requires g.Commit?
  {
    && (exists q :: q in s.initiated && Pays(g, q, g.transferId))
    && (forall r :: r in s.rows && r.request.requestId == g.requestId ==> r.transferId == Some(g.transferId))
  }

  ghost predicate OneTarget(signals: seq<Signal>) {
    forall g, h :: g in signals && h in signals && g.Commit? && IsCommitFor(h, g.requestId) ==> g.transferId == h.transferId
  }

  ghost predicate Safe(s: State) {
    && (forall r :: r in s.rows ==> RowFits(s, r))
    && Unique(s.rows)
    && RequestsFit(s)
    && (forall g :: g in s.signals && g.Commit? ==> CommitFits(s, g))
    && OneTarget(s.signals)
  }

  lemma {:induction false} OthersStayUnique(rows: seq<RunningTransfer>, creditorId: int)
    requires Unique(rows)
    ensures Unique(RowsOfOthers(rows, creditorId))
  {
    if rows != [] {
      OthersStayUnique(rows[1..], creditorId);
      assert forall r :: r in rows[1..] ==> exists j :: 1 <= j < |rows| && rows[j] == r;
    }
  }

  /** Fewer rows, and nothing else that matters. */
  lemma FewerRowsAreSafe(s: State, s': State)
    requires Safe(s) && Unique(s'.rows) && (forall r :: r in s'.rows ==> r in s.rows)
    requires s'.signals == s.signals && s'.initiated == s.initiated && s'.lastRequestId == s.lastRequestId
    ensures Safe(s')
  {
    forall r | r in s'.rows ensures RowFits(s', r) { assert RowFits(s, r); }
    forall g | g in s'.signals && g.Commit? ensures CommitFits(s', g) { assert CommitFits(s, g); }
  }

  lemma UpdatedRowStaysUnique(rows: seq<RunningTransfer>, k: nat, r: RunningTransfer)
    requires Unique(rows) && k < |rows| && r.request == rows[k].request
    ensures Unique(rows[k := r])
    ensures forall x :: x in rows[k := r] ==> x == r || (x in rows && x.request.requestId != r.request.requestId)
  {
    forall x | x in rows[k := r] && x != r ensures x in rows && x.request.requestId != r.request.requestId {
      var i :| 0 <= i < |rows| && rows[k := r][i] == x;
      assert rows[i] == x;
    }
  }

  lemma FinalizationIsSafe(s: State, k: nat, now: int, errorCode: Option<string>, totalLocked: Option<int>)
    requires Safe(s) && k < |s.rows|
    requires errorCode.Some? || s.rows[k].IsSettled()
    ensures Safe(FinalizeRow(s, k, now, errorCode, totalLocked))
  {
    var r := Finalized(s.rows[k], now, errorCode, totalLocked);
    var s' := FinalizeRow(s, k, now, errorCode, totalLocked);
    assert RowFits(s, s.rows[k]);
    UpdatedRowStaysUnique(s.rows, k, r);
    if s' != s {
      forall x | x in s'.rows ensures RowFits(s', x) {
        if x != r { assert RowFits(s, x); }
      }
      forall g | g in s'.signals && g.Commit? ensures CommitFits(s', g) {
        assert CommitFits(s, g);
      }
    }
  }

  lemma NewRowIsUnique(rows: seq<RunningTransfer>, row: RunningTransfer)
    requires Unique(rows) && FindUuid(rows, row.request.creditorId, row.request.uuid).None?
    requires forall r :: r in rows ==> r.request.requestId < row.request.requestId
    ensures Unique(rows + [row])
  {
  }

  lemma OldRowsFit(s: State, s': State)
    requires RequestsFit(s) && s.initiated <= s'.initiated && s.signals <= s'.signals
    requires forall r :: r in s.rows ==> RowFits(s, r)
    ensures forall r :: r in s.rows ==> RowFits(s', r) && r.request.requestId <= s.lastRequestId
  {
    forall r | r in s.rows ensures RowFits(s', r) && r.request.requestId <= s.lastRequestId { assert RowFits(s, r); }
  }

  lemma OldCommitsFit(s: State, s': State, row: RunningTransfer)
    requires RequestsFit(s) && s.initiated <= s'.initiated && s'.rows == s.rows + [row]
    requires row.request.requestId > s.lastRequestId
    requires forall g :: g in s.signals && g.Commit? ==> CommitFits(s, g)
    ensures forall g :: g in s.signals && g.Commit? ==> CommitFits(s', g)
  {
    forall g | g in s.signals && g.Commit? ensures CommitFits(s', g) {
      assert CommitFits(s, g);
      var q :| q in s.initiated && Pays(g, q, g.transferId);
      assert q in s'.initiated;
    }
  }

  lemma OneTargetStill(signals: seq<Signal>, g: Signal)
    requires OneTarget(signals) && !g.Commit?
    ensures OneTarget(signals + [g])
  {
  }

  lemma InitiationIsSafe(s: State, now: int, creditorId: int, uuid: int, data: TransferData, skipped: nat)
    requires Safe(s)
    ensures Safe(Initiate(s, now, creditorId, uuid, data, skipped).0)
  {
    var s' := Initiate(s, now, creditorId, uuid, data, skipped).0;
    if s' != s {
      hide CommitFits, OneTarget, Unique;
      var row := s'.rows[|s.rows|];
      OldRowsFit(s, s');
      NewRowIsUnique(s.rows, row);
      OldCommitsFit(s, s', row);
      OneTargetStill(s.signals, s'.signals[|s.signals|]);
      assert RowFits(s', row);
    }
  }

  lemma DismissalIsSafe(s: State, g: Signal)
    requires Safe(s) && !g.Commit?
    ensures Safe(s.(signals := s.signals + [g]))
  {
    hide OneTarget, Unique;
    var s' := s.(signals := s.signals + [g]);
    OldRowsFit(s, s');
    OneTargetStill(s.signals, g);
    forall h | h in s'.signals && h.Commit? ensures CommitFits(s', h) { assert CommitFits(s, h); }
  }

  /** A commit to the transfer that the row remembers, or remembers from now on. */
  lemma CommitIsSafe(s: State, k: nat, transferId: int)
    requires Safe(s) && k < |s.rows|
    requires var r := s.rows[k]; r.transferId == Some(transferId) || (!r.IsFinalized() && r.transferId.None?)
    ensures var r := s.rows[k];
            Safe(s.(rows := s.rows[k := r.(transferId := Some(transferId))],
                    signals := s.signals + [CommitOf(r.request, transferId)]))
  {
    hide Unique;
    var r := s.rows[k];
    var r', g := r.(transferId := Some(transferId)), CommitOf(r.request, transferId);
    var s' := s.(rows := s.rows[k := r'], signals := s.signals + [g]);
    assert RowFits(s, r) && r in s.rows;
    UpdatedRowStaysUnique(s.rows, k, r');
    assert s'.signals[|s.signals|] == g && Pays(g, r.request, transferId);
    assert IsPaid(s'.signals, r.request, transferId);
    OldRowsFit(s, s.(signals := s'.signals));
    forall x | x in s'.rows ensures RowFits(s', x) {
      if x != r' { assert RowFits(s.(signals := s'.signals), x); }
    }
    forall h | h in s'.signals && h.Commit? ensures CommitFits(s', h) && (h.requestId == g.requestId ==> h.transferId == transferId) {
      if h in s.signals {
        assert CommitFits(s, h);
      }
    }
  }

  lemma PreparedIsSafe(s: State, m: PreparedMsg)
    requires Safe(s)
    ensures Safe(Prepared(s, m))
  {
    hide Safe;
    var k := FindRequest(s.rows, m.coordinatorId, m.requestId);
    if k.Some? {
      var r := s.rows[k.value];
      if r.transferId == Some(m.transferId) || (!r.IsFinalized() && r.transferId.None?) {
        CommitIsSafe(s, k.value, m.transferId);
        assert r.transferId == Some(m.transferId) ==> r.(transferId := Some(m.transferId)) == r;
      }
      assert s.rows[k.value := r] == s.rows;
    }
    DismissalIsSafe(s, DismissOf(m));
  }

  lemma StepIsSafe(s: State, e: Event)
    requires Safe(s)
    ensures Safe(Apply(s, e))
  {
    hide Safe;
    match e.step {
      case Activation(creditorId) => ActivationIsSafe(s, creditorId);
      case Deactivation(creditorId) => DeactivationIsSafe(s, creditorId);
      case Initiation(creditorId, uuid, data, skipped) => InitiationIsSafe(s, e.now, creditorId, uuid, data, skipped);
      case Cancellation(creditorId, uuid) =>
        var k := FindUuid(s.rows, creditorId, uuid);
        if k.Some? { FinalizationIsSafe(s, k.value, e.now, Some(SC_CANCELED_BY_THE_SENDER), None); }
      case Deletion(creditorId, uuid) => DeletionIsSafe(s, creditorId, uuid);
      case PreparedArrives(m) => PreparedIsSafe(s, m);
      case RejectedArrives(m) =>
        var k := FindRequest(s.rows, m.coordinatorId, m.requestId);
        if k.Some? {
          FinalizationIsSafe(s, k.value, e.now, Some(m.statusCode), Some(m.totalLocked));
          FinalizationIsSafe(s, k.value, e.now, Some(SC_UNEXPECTED_ERROR), None);
        }
      case FinalizedArrives(m) => FinalizedIsSafe(s, e.now, m);
    }
  }

  lemma ActivationIsSafe(s: State, creditorId: int)
    requires Safe(s)
    ensures Safe(s.(active := s.active + {creditorId}))
  {
    FewerRowsAreSafe(s, s.(active := s.active + {creditorId}));
  }

  lemma DeactivationIsSafe(s: State, creditorId: int)
    requires Safe(s)
    ensures Safe(Deactivate(s, creditorId))
  {
    OthersStayUnique(s.rows, creditorId);
    FewerRowsAreSafe(s, Deactivate(s, creditorId));
  }

  lemma DeletionIsSafe(s: State, creditorId: int, uuid: int)
    requires Safe(s)
    ensures Safe(Delete(s, creditorId, uuid).0)
  {
    FewerRowsAreSafe(s, Delete(s, creditorId, uuid).0);
  }

  lemma FinalizedIsSafe(s: State, now: int, m: FinalizedMsg)
    requires Safe(s)
    ensures Safe(FinalizedByServer(s, now, m))
  {
    hide Safe;
    var k := FindRequest(s.rows, m.coordinatorId, m.requestId);
    if k.Some? && s.rows[k.value].transferId == Some(m.transferId) {
      FinalizationIsSafe(s, k.value, now, None, None);
      FinalizationIsSafe(s, k.value, now, Some(m.statusCode), Some(m.totalLocked));
      FinalizationIsSafe(s, k.value, now, Some(SC_UNEXPECTED_ERROR), None);
    }
  }

  lemma {:induction false} RunIsSafe(s: State, events: seq<Event>)
    requires Safe(s)
    ensures Safe(Run(s, events))
    decreases |events|
  {
    if events != [] {
      StepIsSafe(s, events[0]);
      hide Apply, Safe;
      RunIsSafe(Apply(s, events[0]), events[1..]);
    }
  }

  // ---------- Requests that are closed, rows that are frozen ----------

  /** No commit has been sent for the request, and none will be. */
  ghost predicate Closed(s: State, requestId: int) {
    && requestId <= s.lastRequestId
    && (forall g :: g in s.signals ==> !IsCommitFor(g, requestId))
    && (forall r :: r in s.rows && r.request.requestId == requestId ==> r.IsFinalized() && r.transferId.None?)
  }

  /** The row is as it was, if it still exists. */
  ghost predicate Frozen(s: State, r: RunningTransfer) {
    && r.request.requestId <= s.lastRequestId
    && (forall x :: x in s.rows && x.request.requestId == r.request.requestId ==> x == r)
  }

  /** Every row of an earlier request was there before, and is the same if it was finalized. */
  ghost predicate Descends(s: State, rows: seq<RunningTransfer>) {
    forall x :: x in rows && x.request.requestId <= s.lastRequestId ==> HasAncestor(s, x)
  }

  ghost predicate HasAncestor(s: State, x: RunningTransfer) {
    exists r :: r in s.rows && r.request == x.request && (r.IsFinalized() ==> x == r)
  }

  lemma UpdatedRowDescends(s: State, k: nat, r: RunningTransfer)
    requires k < |s.rows| && r.request == s.rows[k].request && (s.rows[k].IsFinalized() ==> r == s.rows[k])
    ensures Descends(s, s.rows[k := r])
  {
    forall x | x in s.rows[k := r] ensures HasAncestor(s, x) {
      var i :| 0 <= i < |s.rows| && s.rows[k := r][i] == x;
      assert s.rows[i] in s.rows;
    }
  }

  lemma FinalizedRowDescends(s: State, k: nat, now: int, errorCode: Option<string>, totalLocked: Option<int>)
    requires k < |s.rows|
    ensures Descends(s, FinalizeRow(s, k, now, errorCode, totalLocked).rows)
  {
    UpdatedRowDescends(s, k, Finalized(s.rows[k], now, errorCode, totalLocked));
    UpdatedRowDescends(s, k, s.rows[k]);
    assert s.rows[k := s.rows[k]] == s.rows;
  }

  lemma SomeRowsDescend(s: State, rows: seq<RunningTransfer>)
    requires forall r :: r in rows && r.request.requestId <= s.lastRequestId ==> r in s.rows
    ensures Descends(s, rows)
  {
  }

  lemma FinalizedStepDescends(s: State, now: int, m: FinalizedMsg)
    ensures Descends(s, FinalizedByServer(s, now, m).rows)
  {
    hide Descends;
    SomeRowsDescend(s, s.rows);
    var k := FindRequest(s.rows, m.coordinatorId, m.requestId);
    if k.Some? {
      FinalizedRowDescends(s, k.value, now, None, None);
      FinalizedRowDescends(s, k.value, now, Some(m.statusCode), Some(m.totalLocked));
      FinalizedRowDescends(s, k.value, now, Some(SC_UNEXPECTED_ERROR), None);
    }
  }

  lemma RowsDescend(s: State, e: Event)
    ensures Descends(s, Apply(s, e).rows)
  {
    hide Descends;
    SomeRowsDescend(s, s.rows);
    match e.step {
      case Activation(_) =>
      case Deactivation(creditorId) => SomeRowsDescend(s, RowsOfOthers(s.rows, creditorId));
      case Initiation(creditorId, uuid, data, skipped) =>
        SomeRowsDescend(s, Initiate(s, e.now, creditorId, uuid, data, skipped).0.rows);
      case Cancellation(creditorId, uuid) =>
        var k := FindUuid(s.rows, creditorId, uuid);
        if k.Some? { FinalizedRowDescends(s, k.value, e.now, Some(SC_CANCELED_BY_THE_SENDER), None); }
      case Deletion(creditorId, uuid) => SomeRowsDescend(s, Delete(s, creditorId, uuid).0.rows);
      case PreparedArrives(m) =>
        var k := FindRequest(s.rows, m.coordinatorId, m.requestId);
        if k.Some? {
          UpdatedRowDescends(s, k.value, if s.rows[k.value].IsFinalized() then s.rows[k.value] else Prepared(s, m).rows[k.value]);
        }
      case RejectedArrives(m) =>
        var k := FindRequest(s.rows, m.coordinatorId, m.requestId);
        if k.Some? {
          FinalizedRowDescends(s, k.value, e.now, Some(m.statusCode), Some(m.totalLocked));
          FinalizedRowDescends(s, k.value, e.now, Some(SC_UNEXPECTED_ERROR), None);
        }
      case FinalizedArrives(m) => FinalizedStepDescends(s, e.now, m);
    }
  }

  lemma StepKeepsFrozen(s: State, e: Event, r: RunningTransfer)
    requires r.IsFinalized() && Frozen(s, r)
    ensures Frozen(Apply(s, e), r)
  {
    RowsDescend(s, e);
    SequenceRises(s, e);
    hide Apply;
    forall x | x in Apply(s, e).rows && x.request.requestId == r.request.requestId ensures x == r {
      assert HasAncestor(s, x);
    }
  }

  lemma SequenceRises(s: State, e: Event)
    ensures s.lastRequestId <= Apply(s, e).lastRequestId
    ensures s.signals <= Apply(s, e).signals
  {
  }

  /** A commit goes only to a row that is settled afterwards, and was settled or open before. */
  lemma CommitsNeedARow(s: State, e: Event, g: Signal)
    requires g in Apply(s, e).signals && g !in s.signals && g.Commit?
    ensures exists r :: r in s.rows && r.request.requestId == g.requestId && !(r.IsFinalized() && r.transferId.None?)
  {
  }

  lemma StepKeepsClosed(s: State, e: Event, requestId: int)
    requires Closed(s, requestId)
    ensures Closed(Apply(s, e), requestId)
  {
    RowsDescend(s, e);
    SequenceRises(s, e);
    forall g | g in Apply(s, e).signals ensures !IsCommitFor(g, requestId) {
      if g !in s.signals && g.Commit? { CommitsNeedARow(s, e, g); }
    }
    hide Apply;
    forall x | x in Apply(s, e).rows && x.request.requestId == requestId ensures x.IsFinalized() && x.transferId.None? {
      assert HasAncestor(s, x);
    }
  }

  lemma {:induction false} RunKeepsClosed(s: State, events: seq<Event>, requestId: int)
    requires Safe(s) && Closed(s, requestId)
    ensures Closed(Run(s, events), requestId)
    decreases |events|
  {
    if events != [] {
      StepIsSafe(s, events[0]);
      StepKeepsClosed(s, events[0], requestId);
      hide Apply, Closed;
      RunKeepsClosed(Apply(s, events[0]), events[1..], requestId);
    }
  }

  lemma {:induction false} RunKeepsFrozen(s: State, events: seq<Event>, r: RunningTransfer)
    requires Safe(s) && r.IsFinalized() && Frozen(s, r)
    ensures Frozen(Run(s, events), r)
    decreases |events|
  {
    if events != [] {
      StepIsSafe(s, events[0]);
      StepKeepsFrozen(s, events[0], r);
      hide Apply, Frozen;
      RunKeepsFrozen(Apply(s, events[0]), events[1..], r);
    }
  }

  // ---------- The theorems ----------

  /**
   * In every run: all commits for one request go to one transfer, and each of them quotes the
   * request that the creditor made.
   */
  lemma OnePaymentPerRequest(lastRequestId: int, events: seq<Event>, g: Signal, h: Signal)
    requires var s := Run(Start(lastRequestId), events);
             g in s.signals && h in s.signals && g.Commit? && IsCommitFor(h, g.requestId)
    ensures g == h
    ensures exists q :: q in Run(Start(lastRequestId), events).initiated && Pays(g, q, g.transferId)
  {
    var s := Run(Start(lastRequestId), events);
    RunIsSafe(Start(lastRequestId), events);
    assert CommitFits(s, g) && CommitFits(s, h);
    var q :| q in s.initiated && Pays(g, q, g.transferId);
    var q' :| q' in s.initiated && Pays(h, q', h.transferId);
    var i :| 0 <= i < |s.initiated| && s.initiated[i] == q;
    var j :| 0 <= j < |s.initiated| && s.initiated[j] == q';
    assert i == j;
  }

  /**
   * A transfer can be cancelled exactly when no commit has been sent for it; and then, whatever
   * happens, none is ever sent.
   */
  lemma CancelledTransfersNeverPay(lastRequestId: int, before: seq<Event>, now: int, k: nat, after: seq<Event>)
    requires k < |Run(Start(lastRequestId), before).rows|
    ensures var s := Run(Start(lastRequestId), before);
            var q := s.rows[k].request;
            var (s', error) := Cancel(s, now, q.creditorId, q.uuid);
            && (error.None? <==> forall g :: g in s.signals ==> !IsCommitFor(g, q.requestId))
            && (error.None? ==> Closed(Run(s', after), q.requestId))
  {
    var s := Run(Start(lastRequestId), before);
    var q := s.rows[k].request;
    RunIsSafe(Start(lastRequestId), before);
    assert RowFits(s, s.rows[k]);
    assert FindUuid(s.rows, q.creditorId, q.uuid) == Some(k);
    forall g | g in s.signals && IsCommitFor(g, q.requestId) ensures s.rows[k].IsSettled() {
      assert CommitFits(s, g) && s.rows[k] in s.rows;
    }
    var e := Event(now, Cancellation(q.creditorId, q.uuid));
    if Cancel(s, now, q.creditorId, q.uuid).1.None? {
      CancellationCloses(s, now, k);
      StepIsSafe(s, e);
      RunKeepsClosed(Apply(s, e), after, q.requestId);
    }
  }

  lemma CancellationCloses(s: State, now: int, k: nat)
    requires Safe(s) && k < |s.rows| && s.rows[k].transferId.None?
    ensures var q := s.rows[k].request; Closed(Cancel(s, now, q.creditorId, q.uuid).0, q.requestId)
  {
    var r := s.rows[k];
    assert FindUuid(s.rows, r.request.creditorId, r.request.uuid) == Some(k);
    assert RowFits(s, r);
    UpdatedRowStaysUnique(s.rows, k, Finalized(r, now, Some(SC_CANCELED_BY_THE_SENDER), None));
    forall g | g in s.signals ensures !IsCommitFor(g, r.request.requestId) {
      if g.Commit? { assert CommitFits(s, g); }
    }
    forall x | x in s.rows && x.request.requestId == r.request.requestId ensures x == r {
      var i :| 0 <= i < |s.rows| && s.rows[i] == x;
    }
  }

  /** In every run: a transfer that is reported as successful has been committed, as requested. */
  lemma SuccessMeansCommitted(lastRequestId: int, events: seq<Event>, r: RunningTransfer)
    requires r in Run(Start(lastRequestId), events).rows && r.IsFinalized() && r.errorCode.None?
    ensures r.IsSettled() && IsPaid(Run(Start(lastRequestId), events).signals, r.request, r.transferId.value)
  {
    RunIsSafe(Start(lastRequestId), events);
    assert RowFits(Run(Start(lastRequestId), events), r);
  }

  /** A finalized transfer never changes again. */
  lemma OutcomesAreFinal(lastRequestId: int, before: seq<Event>, r: RunningTransfer, after: seq<Event>)
    requires r in Run(Start(lastRequestId), before).rows && r.IsFinalized()
    ensures Frozen(Run(Run(Start(lastRequestId), before), after), r)
  {
    var s := Run(Start(lastRequestId), before);
    RunIsSafe(Start(lastRequestId), before);
    assert RowFits(s, r);
    RunKeepsFrozen(s, after, r);
  }

  /** The message is about the request: same coordinator, debtor, creditor and recipient, and enough is locked. */
  predicate Fits(m: PreparedMsg, q: Request) {
    && q.creditorId == m.coordinatorId && q.requestId == m.requestId
    && q.data.debtorId == m.debtorId && q.creditorId == m.creditorId
    && q.data.recipient == m.recipient && q.data.lockedAmount <= m.lockedAmount
  }

  predicate Dismisses(g: Signal, m: PreparedMsg) {
    && g.Dismiss? && g.transferId == m.transferId && g.creditorId == m.creditorId && g.debtorId == m.debtorId
    && g.coordinatorId == m.coordinatorId && g.requestId == m.requestId
  }

  /** The transfer has been paid before, or nothing has been paid for an open request. */
  ghost predicate IsPayable(s: State, m: PreparedMsg, r: RunningTransfer) {
    if exists g :: g in s.signals && IsCommitFor(g, m.requestId) then IsPaid(s.signals, r.request, m.transferId)
    else r.finalizedAt.None?
  }

  /** What the row remembers agrees with what has been sent. */
  lemma PayableRow(s: State, m: PreparedMsg, r: RunningTransfer)
    requires Safe(s) && r in s.rows && r.request.requestId == m.requestId
    ensures IsPayable(s, m, r) <==> r.transferId == Some(m.transferId) || (r.finalizedAt.None? && r.transferId.None?)
  {
    assert RowFits(s, r);
    forall g | g in s.signals && IsCommitFor(g, m.requestId) ensures r.transferId == Some(g.transferId) {
      assert CommitFits(s, g);
    }
    if r.transferId.Some? {
      var g :| g in s.signals && Pays(g, r.request, r.transferId.value);
      assert IsCommitFor(g, m.requestId);
    }
  }

  /** There is only one row for a request. */
  lemma TheRow(s: State, coordinatorId: int, requestId: int, k: nat)
    requires Unique(s.rows) && k < |s.rows|
    requires s.rows[k].request.creditorId == coordinatorId && s.rows[k].request.requestId == requestId
    ensures FindRequest(s.rows, coordinatorId, requestId) == Some(k)
    ensures forall i :: 0 <= i < |s.rows| && i != k ==> s.rows[i].request.requestId != requestId
  {
    var j := FindRequest(s.rows, coordinatorId, requestId);
    assert s.rows[k] in s.rows;
    forall i | 0 <= i < |s.rows| && s.rows[i].request.requestId == requestId ensures i == k {
    }
  }

  /** The message has been answered by one commit or dismissal, and the row remembers a commit. */
  ghost predicate IsAnswered(s: State, m: PreparedMsg, s': State) {
    && |s'.signals| == |s.signals| + 1 && s.signals <= s'.signals && |s'.rows| == |s.rows|
    && IsAnswer(s, m, s'.signals[|s.signals|])
    && (forall k :: 0 <= k < |s.rows| ==>
          s'.rows[k] == if Fits(m, s.rows[k].request) && IsPayable(s, m, s.rows[k])
                        then s.rows[k].(transferId := Some(m.transferId)) else s.rows[k])
  }

  ghost predicate IsAnswer(s: State, m: PreparedMsg, g: Signal) {
    && (g.Commit? <==> exists r :: r in s.rows && Fits(m, r.request) && IsPayable(s, m, r))
    && (g.Commit? ==> exists r :: r in s.rows && Fits(m, r.request) && Pays(g, r.request, m.transferId))
    && (!g.Commit? ==> Dismisses(g, m))
  }

  /**
   * In every run: a prepared transfer is committed exactly if it fits the live request of its
   * coordinator, and is the one that has been committed before or, when there is none, the request
   * is still open. In all other cases it is dismissed. The row remembers what has been committed.
   */
  lemma CommittedOrDismissed(lastRequestId: int, events: seq<Event>, m: PreparedMsg)
    ensures var s := Run(Start(lastRequestId), events); IsAnswered(s, m, Prepared(s, m))
  {
    var s := Run(Start(lastRequestId), events);
    RunIsSafe(Start(lastRequestId), events);
    PreparedAnswer(s, m);
  }

  lemma PreparedAnswer(s: State, m: PreparedMsg)
    requires Safe(s)
    ensures IsAnswered(s, m, Prepared(s, m))
  {
    var k := FindRequest(s.rows, m.coordinatorId, m.requestId);
    if k.Some? {
      TheRow(s, m.coordinatorId, m.requestId, k.value);
      var r := s.rows[k.value];
      PayableRow(s, m, r);
      assert r in s.rows;
    }
    hide Safe, IsPayable;
  }

  /**
   * The message that led to a commit is answered with the same commit again exactly as long as the
   * row exists. Afterwards the answer is a dismissal.
   */
  lemma RepeatedPrepare(lastRequestId: int, events: seq<Event>, g: Signal, m: PreparedMsg)
    requires g in Run(Start(lastRequestId), events).signals && g.Commit?
    requires m.transferId == g.transferId && m.coordinatorId == g.coordinatorId && m.requestId == g.requestId
    requires m.creditorId == g.creditorId && m.debtorId == g.debtorId
    requires forall q :: q in Run(Start(lastRequestId), events).initiated && q.requestId == m.requestId ==>
               q.data.recipient == m.recipient && q.data.lockedAmount <= m.lockedAmount
    ensures var s := Run(Start(lastRequestId), events); var s' := Prepared(s, m);
            && |s'.signals| == |s.signals| + 1
            && (if exists r :: r in s.rows && r.request.requestId == m.requestId then s'.signals[|s.signals|] == g
                else Dismisses(s'.signals[|s.signals|], m))
  {
    RunIsSafe(Start(lastRequestId), events);
    RepeatedAnswer(Run(Start(lastRequestId), events), g, m);
  }

  lemma RepeatedAnswer(s: State, g: Signal, m: PreparedMsg)
    requires Safe(s) && g in s.signals && g.Commit?
    requires m.transferId == g.transferId && m.coordinatorId == g.coordinatorId && m.requestId == g.requestId
    requires m.creditorId == g.creditorId && m.debtorId == g.debtorId
    requires forall q :: q in s.initiated && q.requestId == m.requestId ==>
               q.data.recipient == m.recipient && q.data.lockedAmount <= m.lockedAmount
    ensures var s' := Prepared(s, m);
            && |s'.signals| == |s.signals| + 1
            && (if exists r :: r in s.rows && r.request.requestId == m.requestId then s'.signals[|s.signals|] == g
                else Dismisses(s'.signals[|s.signals|], m))
  {
    PreparedAnswer(s, m);
    if r :| r in s.rows && r.request.requestId == m.requestId {
      assert RowFits(s, r);
      assert CommitFits(s, g);
      PayableRow(s, m, r);
      SameRequest(s, g, r);
      hide Safe, IsPayable, RowFits, CommitFits;
      assert Fits(m, r.request);
      TheCommit(s, m, r, Prepared(s, m).signals[|s.signals|], g);
    }
  }

  /** An answer that is a commit says the same as the earlier one. */
  lemma TheCommit(s: State, m: PreparedMsg, r: RunningTransfer, h: Signal, g: Signal)
    requires Safe(s) && r in s.rows && Fits(m, r.request) && IsPayable(s, m, r) && IsAnswer(s, m, h)
    requires Pays(g, r.request, m.transferId)
    ensures h == g
  {
    var x :| x in s.rows && Fits(m, x.request) && Pays(h, x.request, m.transferId);
    var i :| 0 <= i < |s.rows| && s.rows[i] == x;
    var j :| 0 <= j < |s.rows| && s.rows[j] == r;
    assert i == j;
  }

  /** A live row's request is the one that its commits quote. */
  lemma SameRequest(s: State, g: Signal, r: RunningTransfer)
    requires Safe(s) && g in s.signals && g.Commit? && r in s.rows && r.request.requestId == g.requestId
    ensures Pays(g, r.request, g.transferId)
  {
    assert CommitFits(s, g) && RowFits(s, r);
    var q :| q in s.initiated && Pays(g, q, g.transferId);
    var i :| 0 <= i < |s.initiated| && s.initiated[i] == q;
    var j :| 0 <= j < |s.initiated| && s.initiated[j] == r.request;
    assert i == j;
  }

  const DATA := TransferData(5, 100, "", "recipient", "", "", None, 0, 0)
  const REQUEST := Request(1, 2, 1, DATA)
  const PREPARED := PreparedMsg(5, 1, 7, 1, 1, 0, "recipient")

  /** The row is deleted between a prepared message and its repetition. */
  const DELETED_TOO_EARLY := [
    Event(0, Activation(1)), Event(0, Initiation(1, 2, DATA, 0)), Event(0, PreparedArrives(PREPARED)),
    Event(0, Deletion(1, 2)), Event(0, PreparedArrives(PREPARED))]

  /** Then one transfer is first committed and then dismissed. */
  lemma CommittedThenDismissed()
    ensures var s := Run(Start(0), DELETED_TOO_EARLY);
            |s.signals| == 3 && s.signals[1..] == [CommitOf(REQUEST, 7), DismissOf(PREPARED)]
  {
    var es := DELETED_TOO_EARLY;
    var s1 := Apply(Start(0), es[0]);
    var s2 := Apply(s1, es[1]);
    var row := RunningTransfer(REQUEST, None, None, None, None, 1, 0);
    assert s1.rows == [] && s2.rows == [row] && |s2.signals| == 1;
    assert FindRequest([row], 1, 1) == Some(0);
    var s3 := Apply(s2, es[2]);
    assert s3.rows == [row.(transferId := Some(7))] && s3.signals == s2.signals + [CommitOf(REQUEST, 7)];
    assert FindUuid(s3.rows, 1, 2) == Some(0);
    var s4 := Apply(s3, es[3]);
    assert s4.rows == [] && s4.signals == s3.signals;
    var s5 := Apply(s4, es[4]);
    assert s5.signals == s4.signals + [DismissOf(PREPARED)];
    assert es[1..][0] == es[1] && es[1..][1..][0] == es[2] && es[1..][1..][1..][0] == es[3];
    assert es[1..][1..][1..][1..][0] == es[4] && es[1..][1..][1..][1..][1..] == [];
    hide Apply;
    assert Run(s4, es[1..][1..][1..][1..]) == Run(s5, []);
    assert Run(s3, es[1..][1..][1..]) == Run(s4, es[1..][1..][1..][1..]);
    assert Run(s2, es[1..][1..]) == Run(s3, es[1..][1..][1..]);
    assert Run(s1, es[1..]) == Run(s2, es[1..][1..]);
  }

  /** The delay never reaches past the deadline, and a whole second more would. */
  lemma CommitDelayMeetsTheDeadline(now: int, deadline: Option<int>)
    ensures var d := CalcMaxCommitDelay(now, deadline);
            && 0 <= d <= MAX_INT32
            && (deadline.None? ==> d == MAX_INT32)
            && (deadline.Some? && d > 0 ==> now + d * SECOND <= deadline.value)
            && (deadline.Some? && d < MAX_INT32 ==> deadline.value < now + (d + 1) * SECOND)
  {
  }
}
