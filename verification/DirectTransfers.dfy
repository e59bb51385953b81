/**
 * The coordinator of direct transfers: the rows of `running_transfer` of all creditors, the messages
 * sent to the accounting authority, and the procedures that change them.
 */
module DirectTransfers {
  import opened Options

  const SC_OK := "OK"
  const SC_UNEXPECTED_ERROR := "UNEXPECTED_ERROR"
  const SC_CANCELED_BY_THE_SENDER := "CANCELED_BY_THE_SENDER"
  const MAX_INT32 := 0x7FFF_FFFF
  const SECOND := 1000000

  /** What the creditor asked for; it never changes. */
  datatype TransferData = TransferData(
    debtorId: int, amount: int, recipientUri: string, recipient: string, noteFormat: string, note: string,
    deadline: Option<int>, finalInterestRateTs: int, lockedAmount: int)

  /** The creditor's request, as it was when the row was inserted. */
  datatype Request = Request(creditorId: int, uuid: int, requestId: int, data: TransferData)

  datatype RunningTransfer = RunningTransfer(
    request: Request, transferId: Option<int>, finalizedAt: Option<int>, errorCode: Option<string>,
    totalLocked: Option<int>, latestUpdateId: int, latestUpdateTs: int)
  {
    predicate IsFinalized() { finalizedAt.Some? }

    predicate IsSettled() { transferId.Some? }
  }

  datatype PreparedMsg = PreparedMsg(
    debtorId: int, creditorId: int, transferId: int, coordinatorId: int, requestId: int,
    lockedAmount: int, recipient: string)

  datatype FinalizedMsg = FinalizedMsg(
    debtorId: int, creditorId: int, transferId: int, coordinatorId: int, requestId: int,
    committedAmount: int, statusCode: string, totalLocked: int)

  datatype RejectedMsg = RejectedMsg(
    coordinatorId: int, requestId: int, statusCode: string, totalLocked: int, debtorId: int, creditorId: int)

  /**
   * Outgoing messages. `Commit` and `Dismiss` are both `FinalizeTransfer` messages, told apart by
   * the branch that sent them: the committed amount may be zero in both.
   */
  datatype Signal =
    | Prepare(creditorId: int, requestId: int, debtorId: int, recipient: string, lockedAmount: int,
              finalInterestRateTs: int, maxCommitDelay: int)
    | Commit(creditorId: int, debtorId: int, transferId: int, coordinatorId: int, requestId: int,
             amount: int, noteFormat: string, note: string)
    | Dismiss(creditorId: int, debtorId: int, transferId: int, coordinatorId: int, requestId: int)

  datatype LogItem =
    | TransferUpdated(creditorId: int, uuid: int, updateId: int, finalizedAt: Option<int>, errorCode: Option<string>)
    | TransferDeleted(creditorId: int, uuid: int)

  datatype Error =
    | CreditorDoesNotExist | TransferExists | UpdateConflict
    | TransferDoesNotExist | ForbiddenTransferCancellation

  /** `initiated` is the history of all requests. */
  datatype State = State(
    active: set<int>, rows: seq<RunningTransfer>, lastRequestId: int,
    log: seq<LogItem>, signals: seq<Signal>, initiated: seq<Request>)

  // ---------- Queries ----------

  function FindUuid(rows: seq<RunningTransfer>, creditorId: int, uuid: int): (k: Option<nat>)
    ensures k.Some? ==> k.value < |rows| && rows[k.value].request.creditorId == creditorId
                        && rows[k.value].request.uuid == uuid
    ensures k.None? ==> forall r :: r in rows ==> !(r.request.creditorId == creditorId && r.request.uuid == uuid)
  {
    if rows == [] then None
    else if rows[0].request.creditorId == creditorId && rows[0].request.uuid == uuid then Some(0)
    else
      var k := FindUuid(rows[1..], creditorId, uuid);
      if k.None? then None else Some(k.value + 1)
  }

  function FindRequest(rows: seq<RunningTransfer>, coordinatorId: int, requestId: int): (k: Option<nat>)
    ensures k.Some? ==> k.value < |rows| && rows[k.value].request.creditorId == coordinatorId
                        && rows[k.value].request.requestId == requestId
    ensures k.None? ==>
              forall r :: r in rows ==> !(r.request.creditorId == coordinatorId && r.request.requestId == requestId)
  {
    if rows == [] then None
    else if rows[0].request.creditorId == coordinatorId && rows[0].request.requestId == requestId then Some(0)
    else
      var k := FindRequest(rows[1..], coordinatorId, requestId);
      if k.None? then None else Some(k.value + 1)
  }

  /** The rows of the other creditors. */
  function RowsOfOthers(rows: seq<RunningTransfer>, creditorId: int): (others: seq<RunningTransfer>)
    ensures forall r :: r in others <==> r in rows && r.request.creditorId != creditorId
  {
    if rows == [] then []
    else if rows[0].request.creditorId == creditorId then RowsOfOthers(rows[1..], creditorId)
    else [rows[0]] + RowsOfOthers(rows[1..], creditorId)
  }

  // ---------- Steps ----------

  /** Whole seconds until the deadline, within the range of a 32-bit integer. */
  function CalcMaxCommitDelay(now: int, deadline: Option<int>): int {
    var seconds := if deadline.Some? then (deadline.value - now) / SECOND else MAX_INT32;
    Max(0, Min(seconds, MAX_INT32))
  }

  /** `skipped` counts the values of the sequence lost since the last insertion. */
  function Initiate(s: State, now: int, creditorId: int, uuid: int, data: TransferData, skipped: nat)
    : (State, Option<Error>)
  {
    if creditorId !in s.active then (s, Some(CreditorDoesNotExist))
    else
      var k := FindUuid(s.rows, creditorId, uuid);
      if k.Some? then
        (s, Some(if s.rows[k.value].request.data != data then UpdateConflict else TransferExists))
      else
        var request := Request(creditorId, uuid, s.lastRequestId + 1 + skipped, data);
        (s.(rows := s.rows + [RunningTransfer(request, None, None, None, None, 1, now)],
            lastRequestId := request.requestId,
            log := s.log + [TransferUpdated(creditorId, uuid, 1, None, None)],
            signals := s.signals + [Prepare(creditorId, request.requestId, data.debtorId, data.recipient,
                                            data.lockedAmount, data.finalInterestRateTs,
                                            CalcMaxCommitDelay(now, data.deadline))],
            initiated := s.initiated + [request]), None)
  }

  /** The row after finalization, unless it has been finalized already. */
  function Finalized(r: RunningTransfer, now: int, errorCode: Option<string>, totalLocked: Option<int>): RunningTransfer {
    if r.IsFinalized() then r
    else r.(finalizedAt := Some(now), errorCode := errorCode, totalLocked := totalLocked,
            latestUpdateId := r.latestUpdateId + 1, latestUpdateTs := now)
  }

  function FinalizeRow(s: State, k: nat, now: int, errorCode: Option<string>, totalLocked: Option<int>): State
    requires k < |s.rows|
  {
    var r := s.rows[k];
    var r' := Finalized(r, now, errorCode, totalLocked);
    if r.IsFinalized() then s
    else s.(rows := s.rows[k := r'],
            log := s.log + [TransferUpdated(r.request.creditorId, r.request.uuid, r'.latestUpdateId, Some(now), errorCode)])
  }

  function Cancel(s: State, now: int, creditorId: int, uuid: int): (State, Option<Error>) {
    var k := FindUuid(s.rows, creditorId, uuid);
    if k.None? then (s, Some(TransferDoesNotExist))
    else if s.rows[k.value].IsSettled() then (s, Some(ForbiddenTransferCancellation))
    else (FinalizeRow(s, k.value, now, Some(SC_CANCELED_BY_THE_SENDER), None), None)
  }

  function Delete(s: State, creditorId: int, uuid: int): (State, Option<Error>) {
    var k := FindUuid(s.rows, creditorId, uuid);
    if k.None? then (s, Some(TransferDoesNotExist))
    else (s.(rows := s.rows[..k.value] + s.rows[k.value + 1..],
             log := s.log + [TransferDeleted(creditorId, uuid)]), None)
  }

  /** The message fits the request: same debtor, creditor and recipient, and enough has been locked. */
  predicate PreparedMatches(m: PreparedMsg, q: Request) {
    && q.data.debtorId == m.debtorId
    && q.creditorId == m.creditorId
    && q.data.recipient == m.recipient
    && q.data.lockedAmount <= m.lockedAmount
  }

  function CommitOf(q: Request, transferId: int): Signal {
    Commit(q.creditorId, q.data.debtorId, transferId, q.creditorId, q.requestId,
           q.data.amount, q.data.noteFormat, q.data.note)
  }

  function DismissOf(m: PreparedMsg): Signal {
    Dismiss(m.creditorId, m.debtorId, m.transferId, m.coordinatorId, m.requestId)
  }

  function Prepared(s: State, m: PreparedMsg): State {
    var k := FindRequest(s.rows, m.coordinatorId, m.requestId);
    if k.Some? && PreparedMatches(m, s.rows[k.value].request) then
      var r := s.rows[k.value];
      var r' := if !r.IsFinalized() && r.transferId.None? then r.(transferId := Some(m.transferId)) else r;
      s.(rows := s.rows[k.value := r'],
         signals := s.signals + [if r'.transferId == Some(m.transferId) then CommitOf(r.request, m.transferId)
                                 else DismissOf(m)])
    else
      s.(signals := s.signals + [DismissOf(m)])
  }

  function Rejected(s: State, now: int, m: RejectedMsg): State {
    var k := FindRequest(s.rows, m.coordinatorId, m.requestId);
    if k.None? then s
    else
      var q := s.rows[k.value].request;
      if m.statusCode != SC_OK && q.data.debtorId == m.debtorId && q.creditorId == m.creditorId
      then FinalizeRow(s, k.value, now, Some(m.statusCode), Some(m.totalLocked))
      else FinalizeRow(s, k.value, now, Some(SC_UNEXPECTED_ERROR), None)
  }

  function FinalizedByServer(s: State, now: int, m: FinalizedMsg): State {
    var k := FindRequest(s.rows, m.coordinatorId, m.requestId);
    if k.None? then s
    else
      var r := s.rows[k.value];
      if r.request.data.debtorId == m.debtorId && r.request.creditorId == m.creditorId
         && r.transferId == Some(m.transferId)
      then
        if m.statusCode == SC_OK && m.committedAmount == r.request.data.amount
        then FinalizeRow(s, k.value, now, None, None)
        else if m.statusCode != SC_OK && m.committedAmount == 0
        then FinalizeRow(s, k.value, now, Some(m.statusCode), Some(m.totalLocked))
        else FinalizeRow(s, k.value, now, Some(SC_UNEXPECTED_ERROR), None)
      else s
  }

  function Deactivate(s: State, creditorId: int): State {
    if creditorId !in s.active then s
    else s.(active := s.active - {creditorId}, rows := RowsOfOthers(s.rows, creditorId))
  }

  // ---------- The procedures ----------

  class Coordinator {
    var active: set<int>
    var rows: seq<RunningTransfer>
    var lastRequestId: int
    var log: seq<LogItem>
    var signals: seq<Signal>
    ghost var initiated: seq<Request>

    ghost function View(): State
      reads this
    {
      State(active, rows, lastRequestId, log, signals, initiated)
    }

    method InitiateRunningTransfer(creditorId: int, uuid: int, data: TransferData, skipped: nat, now: int)
      returns (error: Option<Error>)
      modifies this
      ensures (View(), error) == Initiate(old(View()), now, creditorId, uuid, data, skipped)
    {
      if creditorId !in active {
        return Some(CreditorDoesNotExist);
      }
      var k := FindUuid(rows, creditorId, uuid);
      if k.Some? {
        if rows[k.value].request.data != data {
          return Some(UpdateConflict);
        }
        return Some(TransferExists);
      }
      lastRequestId := lastRequestId + 1 + skipped;
      var request := Request(creditorId, uuid, lastRequestId, data);
      rows := rows + [RunningTransfer(request, None, None, None, None, 1, now)];
      initiated := initiated + [request];
      log := log + [TransferUpdated(creditorId, uuid, 1, None, None)];
      signals := signals + [Prepare(creditorId, lastRequestId, data.debtorId, data.recipient, data.lockedAmount,
                                    data.finalInterestRateTs, CalcMaxCommitDelay(now, data.deadline))];
      return None;
    }

    method FinalizeRunningTransfer(k: nat, errorCode: Option<string>, totalLocked: Option<int>, now: int)
      requires k < |rows|
      modifies this`rows, this`log
      ensures View() == FinalizeRow(old(View()), k, now, errorCode, totalLocked)
    {
      var rt := rows[k];
      if !rt.IsFinalized() {
        rt := rt.(latestUpdateId := rt.latestUpdateId + 1, latestUpdateTs := now, finalizedAt := Some(now),
                  errorCode := errorCode, totalLocked := totalLocked);
        rows := rows[k := rt];
        log := log + [TransferUpdated(rt.request.creditorId, rt.request.uuid, rt.latestUpdateId, Some(now), errorCode)];
      }
    }

    method CancelRunningTransfer(creditorId: int, uuid: int, now: int) returns (error: Option<Error>)
      modifies this
      ensures (View(), error) == Cancel(old(View()), now, creditorId, uuid)
    {
      var k := FindUuid(rows, creditorId, uuid);
      if k.None? {
        return Some(TransferDoesNotExist);
      }
      if rows[k.value].IsSettled() {
        return Some(ForbiddenTransferCancellation);
      }
      FinalizeRunningTransfer(k.value, Some(SC_CANCELED_BY_THE_SENDER), None, now);
      return None;
    }

    method DeleteRunningTransfer(creditorId: int, uuid: int) returns (error: Option<Error>)
      modifies this
      ensures (View(), error) == Delete(old(View()), creditorId, uuid)
    {
      var k := FindUuid(rows, creditorId, uuid);
      if k.None? {
        return Some(TransferDoesNotExist);
      }
      rows := rows[..k.value] + rows[k.value + 1..];
      log := log + [TransferDeleted(creditorId, uuid)];
      return None;
    }

    method ProcessPreparedDirectTransferSignal(m: PreparedMsg)
      modifies this
      ensures View() == Prepared(old(View()), m)
    {
      var k := FindRequest(rows, m.coordinatorId, m.requestId);
      if k.Some? && PreparedMatches(m, rows[k.value].request) {
        var rt := rows[k.value];
        if !rt.IsFinalized() && rt.transferId.None? {
          rt := rt.(transferId := Some(m.transferId));
        }
        rows := rows[k.value := rt];
        if rt.transferId == Some(m.transferId) {
          signals := signals + [CommitOf(rt.request, m.transferId)];
          return;
        }
      }
      signals := signals + [DismissOf(m)];
    }

    method ProcessRejectedDirectTransferSignal(m: RejectedMsg, now: int)
      modifies this
      ensures View() == Rejected(old(View()), now, m)
    {
      var k := FindRequest(rows, m.coordinatorId, m.requestId);
      if k.Some? && !rows[k.value].IsFinalized() {
        var q := rows[k.value].request;
        if m.statusCode != SC_OK && q.data.debtorId == m.debtorId && q.creditorId == m.creditorId {
          FinalizeRunningTransfer(k.value, Some(m.statusCode), Some(m.totalLocked), now);
        } else {
          FinalizeRunningTransfer(k.value, Some(SC_UNEXPECTED_ERROR), None, now);
        }
      }
    }

    method ProcessFinalizedDirectTransferSignal(m: FinalizedMsg, now: int)
      modifies this
      ensures View() == FinalizedByServer(old(View()), now, m)
    {
      var k := FindRequest(rows, m.coordinatorId, m.requestId);
      if k.Some? {
        var rt := rows[k.value];
        if rt.request.data.debtorId == m.debtorId && rt.request.creditorId == m.creditorId
           && rt.transferId == Some(m.transferId) {
          if m.statusCode == SC_OK && m.committedAmount == rt.request.data.amount {
            FinalizeRunningTransfer(k.value, None, None, now);
          } else if m.statusCode != SC_OK && m.committedAmount == 0 {
            FinalizeRunningTransfer(k.value, Some(m.statusCode), Some(m.totalLocked), now);
          } else {
            FinalizeRunningTransfer(k.value, Some(SC_UNEXPECTED_ERROR), None, now);
          }
        }
      }
    }

    method DeleteCreditorRunningTransfers(creditorId: int)
      modifies this
      ensures View() == Deactivate(old(View()), creditorId)
    {
      if creditorId in active {
        active := active - {creditorId};
        rows := RowsOfOthers(rows, creditorId);
      }
    }
  }
}
