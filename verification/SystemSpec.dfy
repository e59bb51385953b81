/**
 * The state of one (creditor, debtor) pair together with everything ever written for it, and the
 * meaning of each atomic procedure on that state. Other accounts show up only through the shared
 * sequence and through the creditor's largest historic entry id.
 */
module SystemSpec {
  import opened Options
  import opened Int64
  import opened AccountModel
  import opened LedgerSpec

  datatype Params = Params(
    maxDelay: int, burst: int, logRetention: int, ledgerRetention: int,
    maxHeartbeatDelay: int, maxConfigDelay: int, inactiveRetention: int, deactivatedRetention: int)

  predicate ValidParams(p: Params) {
    p.maxDelay >= 0 && p.burst >= 1 && p.logRetention >= 0 && p.ledgerRetention >= 0
  }

  /**
   * `store` and `wake` are the rows of `committed_transfer` and `pending_ledger_update`, `uidSeq`
   * is the last value of `object_update_id_seq`. `entries` are the ledger entries ever written
   * since the account was created, `past` those of earlier accounts under the same creditor row.
   * The remaining fields are histories.
   */
  datatype State = State(
    clock: int, uidSeq: int, creditor: Option<Creditor>, account: Option<Account>,
    store: seq<Transfer>, wake: bool,
    entries: seq<Entry>, past: seq<Entry>,
    log: seq<LogItem>, signals: seq<Signal>, issued: seq<Issue>,
    status: seq<StatusEvent>, stored: seq<(int, int)>)

  datatype Error =
    | CreditorExists | InvalidReservationId | CreditorDoesNotExist | AccountExists | AccountDoesNotExist
    | UnsafeAccountDeletion | ForbiddenPegDeletion | UpdateConflict | DebtorNameConflict | PegDoesNotExist

  predicate HasActiveCreditor(s: State) {
    s.creditor.Some? && s.creditor.value.IsActive()
  }

  /** The BIGINT columns hold 64-bit integers, and rows obey their check constraints. */
  ghost predicate ColumnsFit(s: State) {
    && (forall t :: t in s.store ==> ValidTransfer(t))
    && (s.account.Some? ==> In64(s.account.value.server.principal) && In64(s.account.value.ledger.principal))
  }

  // ---------- Creditors ----------

  /** `reserve_creditor`, as far as the ledger is concerned: a new row, no entries under it. */
  function ReserveCreditor(s: State, reservationId: int): (State, Option<Error>) {
    if s.creditor.Some? then (s, Some(CreditorExists))
    else (s.(creditor := Some(Creditor(false, false, Some(reservationId), s.clock, None, 1, 0)), past := []), None)
  }

  /** A row that has been activated already stays as it is. */
  function ActivateCreditor(s: State, reservationId: int): (State, Option<Error>) {
    if s.creditor.None? then (s, Some(InvalidReservationId))
    else
      var c := s.creditor.value;
      if c.activated then (s, None)
      else if c.reservationId != Some(reservationId) || c.deactivated then (s, Some(InvalidReservationId))
      else (s.(creditor := Some(c.(activated := true, reservationId := None))), None)
  }

  /** Not activated for long, or deactivated long ago. */
  predicate IsDisposable(p: Params, c: Creditor, now: int) {
    || (!c.activated && c.createdAt < now - p.inactiveRetention)
    || (c.deactivated
        && (c.deactivationDate.None? || c.deactivationDate.value < DateOf(now - p.deactivatedRetention)))
  }

  /** The scanner removes the row, and what depends on it goes with it. */
  function RemoveCreditor(p: Params, s: State): State {
    if s.creditor.None? || !IsDisposable(p, s.creditor.value, s.clock) then s
    else s.(creditor := None, account := None, wake := false, entries := [], past := s.past + s.entries, status := [])
  }

  function StopAccountTrade(id: int, now: int): seq<Signal> {
    [UpdatedLedger(id, "", DATE0, 0, 0, now), UpdatedPolicy(id, NEW_EXCHANGE, now),
     UpdatedFlags(id, DEFAULT_CONFIG_FLAGS, now)]
  }

  function DeactivateCreditor(s: State): State {
    if !HasActiveCreditor(s) then s
    else
      var id := s.uidSeq + 1;
      var c := s.creditor.value.(deactivated := true, deactivationDate := Some(DateOf(s.clock)));
      var s1 := s.(creditor := Some(c), uidSeq := id);
      if s.account.None? then s1
      else
        s1.(account := None, wake := false, entries := [], past := s.past + s.entries, status := [],
            signals := s.signals + StopAccountTrade(id, s.clock),
            issued := s.issued + [Issue(LedgerObj, id), Issue(ExchangeObj, id), Issue(ConfigObj, id)])
  }

  // ---------- Accounts ----------

  const KINDS := [AccountObj, ConfigObj, InfoObj, LedgerObj, DisplayObj, ExchangeObj, KnowledgeObj]

  /** The order in which the objects of a new account draw their ids: a permutation of 1 to 7. */
  predicate IsOrder(order: seq<int>) {
    && |order| == 7
    && (forall i :: 0 <= i < 7 ==> 1 <= order[i] <= 7)
    && (forall i, j :: 0 <= i < j < 7 ==> order[i] != order[j])
  }

  /** The ids of the objects of a new account, and the notices about those of a deleted one. */
  function FirstIssues(n: int, order: seq<int>): seq<Issue>
    requires IsOrder(order)
  {
    seq(7, i requires 0 <= i < 7 => Issue(KINDS[i], n + order[i]))
  }

  function LastIssues(kinds: seq<Kind>, id: int): seq<Issue> {
    seq(|kinds|, i requires 0 <= i < |kinds| => Issue(kinds[i], id))
  }

  function Deletions(kinds: seq<Kind>, id: int): seq<LogItem> {
    seq(|kinds|, i requires 0 <= i < |kinds| => ObjectDeleted(kinds[i], id))
  }

  lemma NoDeletions(id: int)
    ensures Deletions([], id) == [] && LastIssues([], id) == []
  {
  }

  lemma DeletionsGrow(kinds: seq<Kind>, k: nat, id: int)
    requires k < |kinds|
    ensures Deletions(kinds[..k + 1], id) == Deletions(kinds[..k], id) + [ObjectDeleted(kinds[k], id)]
    ensures LastIssues(kinds[..k + 1], id) == LastIssues(kinds[..k], id) + [Issue(kinds[k], id)]
  {
  }

  /** A new row with default values; `n` is the last value of the sequence before the insertion. */
  function NewAccount(n: int, order: seq<int>, largestHistoricEntryId: int, now: int): Account
    requires IsOrder(order)
  {
    Account(
      ServerData(false, DATE0, TS0, 0, 0, 0, TS0, now),
      ConfigData(now, 0, DEFAULT_NEGLIGIBLE_AMOUNT, DEFAULT_CONFIG_FLAGS, "", false, false, n + order[1]),
      InfoData(0.0, TS0, 0, "", DebtorInfo(None, None, None), None, n + order[2]),
      LedgerData(0, largestHistoricEntryId + 1, 0, None, n + order[3], now),
      OtherData(n + order[0], n + order[4], n + order[5], n + order[6], NEW_DISPLAY, NEW_EXCHANGE, NEW_KNOWLEDGE))
  }

  /** The list of accounts has got a new update id. */
  function ListChanged(c: Creditor): Creditor { c.(accountsListId := c.accountsListId + 1) }

  function CreateAccount(s: State, order: seq<int>): (State, Option<Error>)
    requires IsOrder(order)
  {
    if !HasActiveCreditor(s) then (s, Some(CreditorDoesNotExist))
    else if s.account.Some? then (s, Some(AccountExists))
    else
      var n, c := s.uidSeq, ListChanged(s.creditor.value);
      var a := NewAccount(n, order, c.largestHistoricEntryId, s.clock);
      (s.(creditor := Some(c), account := Some(a), wake := false, entries := [], uidSeq := n + 7,
          log := s.log + [ObjectUpdated(AccountObj, a.other.accountId), AccountsListUpdated(c.accountsListId)],
          signals := s.signals + [ConfigureAccount(s.clock, 0, DEFAULT_NEGLIGIBLE_AMOUNT, "", DEFAULT_CONFIG_FLAGS)],
          issued := s.issued + FirstIssues(n, order),
          status := [Configured(s.clock, 0, DEFAULT_NEGLIGIBLE_AMOUNT, DEFAULT_CONFIG_FLAGS, "")]), None)
  }

  /** `isPegged` tells whether another account of the creditor is pegged to this one. */
  function DeleteAccount(s: State, isPegged: bool): (State, Option<Error>) {
    if s.creditor.None? then (s, Some(CreditorDoesNotExist))
    else if s.account.None? then (s, Some(AccountDoesNotExist))
    else
      var a := s.account.value;
      if !(a.IsDeletionSafe() || a.config.allowUnsafeDeletion || a.other.display.debtorName.None?)
      then (s, Some(UnsafeAccountDeletion))
      else if isPegged then (s, Some(ForbiddenPegDeletion))
      else
        var c := ListChanged(s.creditor.value);
        var id := s.uidSeq + 1;
        (s.(creditor := Some(c.(largestHistoricEntryId := Max(a.ledger.lastEntryId, c.largestHistoricEntryId))),
            account := None, wake := false, entries := [], past := s.past + s.entries, status := [],
            uidSeq := id,
            log := s.log + [AccountsListUpdated(c.accountsListId)] + Deletions(KINDS, id),
            signals := s.signals + StopAccountTrade(id, s.clock),
            issued := s.issued + LastIssues(KINDS, id)), None)
  }

  /** An object's update id has been set by the caller; queue the log entry and move the sequence. */
  function Announce(s: State, kind: Kind, id: int): State {
    s.(log := s.log + [ObjectUpdated(kind, id)], issued := s.issued + [Issue(kind, id)], uidSeq := s.uidSeq + 1)
  }

  /** A change in `AccountInfo`: next update id, a log entry, and a step of the sequence. */
  function TouchInfo(s: State, a: Account): State {
    var id := a.info.updateId + 1;
    Announce(s.(account := Some(a.(info := a.info.(updateId := id)))), InfoObj, id)
  }

  function UpdateConfig(s: State, deletion: bool, negligible: real, allowUnsafe: bool, data: string, updateId: int)
    : (State, Option<Error>)
  {
    if s.account.None? then (s, Some(AccountDoesNotExist))
    else
      var a := s.account.value;
      var c := a.config;
      if updateId == c.updateId && a.IsScheduledForDeletion() == deletion && c.negligible == negligible
         && c.allowUnsafeDeletion == allowUnsafe && c.data == data
      then (s, None)
      else if updateId != c.updateId + 1 then (s, Some(UpdateConflict))
      else
        var c' := ConfigData(Max(s.clock, c.ts), c.seqnum + 1, negligible, WithDeletionFlag(c.flags, deletion),
                             data, false, allowUnsafe, updateId);
        var a' := a.(config := c');
        var s1 := Announce(
          s.(account := Some(a'),
             signals := s.signals + [UpdatedFlags(updateId, c'.flags, s.clock)],
             status := s.status + [Configured(c'.ts, c'.seqnum, c'.negligible, c'.flags, c'.data)]),
          ConfigObj, updateId);
        var s2 := if a.IsDeletionSafe() then TouchInfo(s1, a') else s1;
        (s2.(signals := s2.signals + [ConfigureAccount(c'.ts, c'.seqnum, c'.negligible, c'.data, c'.flags)]), None)
  }

  predicate IsCurrent(o: OtherData, r: Rewriting) {
    match r
    case NewDisplay(display) => o.display == display
    case NewExchange(exchange) => o.exchange == exchange
    case NewKnowledge(knowledge) => o.knowledge == knowledge
  }

  /** A new name must be free, and a peg must exist. */
  function ConflictOf(o: OtherData, r: Rewriting, names: set<string>, peers: set<int>): Option<Error> {
    match r
    case NewDisplay(d) =>
      if d.debtorName.Some? && d.debtorName != o.display.debtorName && d.debtorName.value in names
      then Some(DebtorNameConflict) else None
    case NewExchange(x) =>
      if x.pegDebtorId.Some? && x.pegDebtorId.value !in peers then Some(PegDoesNotExist) else None
    case NewKnowledge(_) => None
  }

  function Rewritten(o: OtherData, r: Rewriting, updateId: int): OtherData {
    match r
    case NewDisplay(display) => o.(display := display, displayId := updateId)
    case NewExchange(exchange) => o.(exchange := exchange, exchangeId := updateId)
    case NewKnowledge(knowledge) => o.(knowledge := knowledge, knowledgeId := updateId)
  }

  function PolicySignals(r: Rewriting, updateId: int, now: int): seq<Signal> {
    if r.NewExchange? then [UpdatedPolicy(updateId, r.exchange, now)] else []
  }

  /**
   * The display, exchange and knowledge objects. `names` are the debtors' names that the creditor
   * uses, and `peers` the debtors with whom he has accounts.
   */
  function UpdateOther(s: State, updateId: int, r: Rewriting, names: set<string>, peers: set<int>)
    : (State, Option<Error>)
  {
    if s.account.None? then (s, Some(AccountDoesNotExist))
    else
      var a := s.account.value;
      if updateId == IdOf(a, KindOf(r)) && IsCurrent(a.other, r) then (s, None)
      else if updateId != IdOf(a, KindOf(r)) + 1 then (s, Some(UpdateConflict))
      else if ConflictOf(a.other, r, names, peers).Some? then (s, ConflictOf(a.other, r, names, peers))
      else
        var s1 := s.(account := Some(a.(other := Rewritten(a.other, r, updateId))),
                     signals := s.signals + PolicySignals(r, updateId, s.clock));
        (Announce(s1, KindOf(r), updateId), None)
  }

  // ---------- Messages about accounts ----------

  function RejectConfig(s: State, m: RejectedMsg): State {
    if s.account.None? then s
    else
      var a := s.account.value;
      if a.config.ts == m.configTs && a.config.seqnum == m.configSeqnum && a.config.flags == m.configFlags
         && a.config.data == m.configData && a.info.configError.None? && CloseTo(a.config.negligible, m.negligible)
      then TouchInfo(s, a.(info := a.info.(configError := Some(m.code))))
      else s
  }

  function PurgeAccount(s: State, creationDate: int): State {
    if s.account.None? then s
    else
      var a := s.account.value;
      if a.server.hasAccount && a.server.creationDate <= creationDate
      then TouchInfo(s.(status := s.status + [PurgeAccepted]), a.(server := a.server.(hasAccount := false, principal := 0)))
      else s
  }

  /** An update for an account that does not exist here: ask the server to discard its own. */
  function DiscardOrphan(s: State, m: UpdateMsg): State {
    if m.configFlags % 2 == 1 && m.negligible >= (1.0 - EPS) * HUGE_NEGLIGIBLE_AMOUNT then s
    else
      s.(signals := s.signals
         + [ConfigureAccount(s.clock, 0, HUGE_NEGLIGIBLE_AMOUNT, "", WithDeletionFlag(DEFAULT_CONFIG_FLAGS, true))])
  }

  predicate ConfirmsConfig(m: UpdateMsg, c: ConfigData) {
    Confirms(m, c.ts, c.seqnum, c.negligible, c.flags, c.data)
  }

  predicate RateMoved(ours: real, theirs: real) { !CloseTo(ours, theirs) }

  /** The fields of the row after an accepted update, before the notifications. */
  function Updated(a: Account, m: UpdateMsg): Account {
    var effectual := ConfirmsConfig(m, a.config);
    a.(server := ServerData(true, m.creationDate, m.changeTs, m.changeSeqnum, m.principal,
                            m.lastTransferNumber, m.lastTransferCommittedAt, a.server.lastHeartbeatTs),
       config := a.config.(effectual := effectual),
       info := InfoData(m.interestRate, m.rateChangeTs, m.noteMaxBytes, m.accountId, m.debtor,
                        if effectual then None else a.info.configError, a.info.updateId))
  }

  predicate IsInfoUpdated(a: Account, m: UpdateMsg) {
    || a.IsDeletionSafe()
    || a.info.accountId != m.accountId
    || RateMoved(a.info.interestRate, m.interestRate)
    || a.info.rateChangeTs != m.rateChangeTs
    || a.info.noteMaxBytes != m.noteMaxBytes
    || a.info.debtor != m.debtor
    || a.info.configError != Updated(a, m).info.configError
  }

  /** The ledger's part of the update: a reset for a new server account, and one notification. */
  function ResetLedger(s: State, a: Account, isNewServerAccount: bool): State {
    var e := ResetOf(a.ledger, isNewServerAccount, a.server.creationDate, s.clock);
    var id := e.ledger.updateId;
    s.(account := Some(a.(ledger := e.ledger)), entries := s.entries + e.entries, wake := true,
       signals := s.signals + [UpdatedLedger(id, a.info.accountId, a.server.creationDate, e.ledger.principal,
                                             e.ledger.lastTransferNumber, s.clock)],
       log := s.log + [e.log.value], issued := s.issued + [Issue(LedgerObj, id)], uidSeq := s.uidSeq + 1)
  }

  /** Even an old update is a sign of life. */
  function Heard(a: Account, m: UpdateMsg, now: int): Account {
    if m.ts > a.server.lastHeartbeatTs then a.(server := a.server.(lastHeartbeatTs := Min(m.ts, now))) else a
  }

  /** The row after a newer update, with the notice about its info. */
  function Refreshed(s: State, m: UpdateMsg): State
    requires s.account.Some?
  {
    var a := s.account.value;
    var s1 := s.(account := Some(Updated(a, m)), status := s.status + [UpdateAccepted(m)]);
    if IsInfoUpdated(a, m) then TouchInfo(s1, Updated(a, m)) else s1
  }

  function AccountUpdate(s: State, m: UpdateMsg): State {
    if s.clock - m.ts > m.ttl * SECOND then s
    else if s.account.None? then DiscardOrphan(s, m)
    else
      var a := Heard(s.account.value, m, s.clock);
      var s0 := s.(account := Some(a));
      if !IsNewer(m, a) then s0
      else
        var s1, isNew := Refreshed(s0, m), m.creationDate > a.server.creationDate;
        if isNew || m.accountId != a.info.accountId then ResetLedger(s1, s1.account.value, isNew) else s1
  }

  // ---------- Committed transfers ----------

  predicate Precedes(t: Transfer, u: Transfer) {
    t.date < u.date || (t.date == u.date && t.number < u.number)
  }

  function Insert(store: seq<Transfer>, t: Transfer): seq<Transfer> {
    if store == [] || Precedes(t, store[0]) then [t] + store
    else [store[0]] + Insert(store[1..], t)
  }

  predicate IsStored(store: seq<Transfer>, date: int, number: int) {
    exists t :: t in store && t.date == date && t.number == number
  }

  function ArriveTransfer(p: Params, s: State, t: Transfer, ts: int): State {
    if s.clock - Min(ts, t.committedAt) > p.logRetention then s
    else if IsStored(s.store, t.date, t.number) then s
    else if s.account.None? then s
    else
      var a := s.account.value;
      s.(store := Insert(s.store, t),
         log := s.log + [TransferCommitted(t.date, t.number)],
         stored := s.stored + [(t.date, t.number)],
         wake := s.wake || (t.date == a.server.creationDate && t.prev == a.ledger.lastTransferNumber))
  }

  /** The rows with the given keys that are older than the cut-off are removed. */
  function Remove(store: seq<Transfer>, keys: set<(int, int)>, cutoff: int): seq<Transfer> {
    if store == [] then []
    else if (store[0].date, store[0].number) in keys && store[0].committedAt < cutoff
    then Remove(store[1..], keys, cutoff)
    else [store[0]] + Remove(store[1..], keys, cutoff)
  }

  /** A block of rows scanned by the garbage collector. */
  function CollectTransfers(p: Params, s: State, keys: set<(int, int)>): State {
    s.(store := Remove(s.store, keys, s.clock - (p.maxDelay + Max(p.logRetention, p.ledgerRetention))))
  }

  // ---------- Processing ----------

  /** The ledger that the step left, with its notifications, in the tables of account `a`. */
  function Commit(s: State, a: Account, w: Work): State {
    var s1 := s.(account := Some(a.(ledger := w.ledger)), entries := s.entries + w.entries, wake := s.wake && !w.done);
    if w.log.None? then s1
    else
      var id := w.ledger.updateId;
      s1.(signals := s.signals + [UpdatedLedger(id, a.info.accountId, a.server.creationDate, w.ledger.principal,
                                                w.ledger.lastTransferNumber, s.clock)],
          log := s.log + [w.log.value], issued := s.issued + [Issue(LedgerObj, id)],
          uidSeq := Max(s.uidSeq + 1, id))
  }

  function ProcessBurst(p: Params, s: State): State
    requires p.burst >= 1
  {
    if !s.wake || s.account.None? then s
    else
      var a := s.account.value;
      Commit(s, a, BurstWork(a, s.store, p.burst, s.clock - p.maxDelay, s.clock))
  }

  function ProcessOnePass(p: Params, s: State): State {
    if !s.wake || s.account.None? then s
    else
      var a := s.account.value;
      Commit(s, a, OnePassWork(a, s.store, s.clock - p.maxDelay, s.clock))
  }

  // ---------- The account scanner ----------

  function CorrectLedger(s: State): State {
    if s.account.None? || !NeedsCorrection(s.account.value, s.clock) then s
    else
      var a := s.account.value;
      var es := CorrectingEntries(a.ledger.lastEntryId, a.ledger.principal, a.server.principal, s.clock);
      var id := a.ledger.updateId + 1;
      var l := a.ledger.(principal := a.server.principal, lastEntryId := a.ledger.lastEntryId + |es|,
                         updateId := id, updateTs := s.clock);
      s.(account := Some(a.(ledger := l)), entries := s.entries + es,
         signals := s.signals + [UpdatedLedger(id, a.info.accountId, a.server.creationDate, a.server.principal,
                                               l.lastTransferNumber, s.clock)],
         log := s.log + [LedgerUpdated(id, a.server.principal, l.lastEntryId + 1)],
         issued := s.issued + [Issue(LedgerObj, id)], uidSeq := s.uidSeq + 1)
  }

  function ScheduleRepair(p: Params, s: State, row: Account): State {
    if s.account.Some? && NeedsRepair(row, p.maxDelay, s.clock) then s.(wake := true) else s
  }

  predicate HasConfigProblem(p: Params, a: Account, now: int) {
    && (!a.config.effectual || (a.server.hasAccount && a.server.lastHeartbeatTs < now - p.maxHeartbeatDelay))
    && a.info.configError.None?
    && a.config.ts < now - p.maxConfigDelay
  }

  function SetConfigError(p: Params, s: State): State {
    if s.account.None? || !HasConfigProblem(p, s.account.value, s.clock) then s
    else
      var a := s.account.value;
      TouchInfo(s, a.(info := a.info.(configError := Some(CONFIGURATION_IS_NOT_EFFECTUAL))))
  }

  /** The scanner visits the account's row: correction, repair, and configuration error. */
  function ScanAccount(p: Params, s: State): State {
    if s.account.None? then s
    else SetConfigError(p, ScheduleRepair(p, CorrectLedger(s), s.account.value))
  }

  // ---------- Steps ----------

  /** `Others` is any step of other accounts: it may draw ids, enlarge the historic entry id and change the list. */
  datatype Step =
    | Reserve(reservationId: int) | Activate(reservationId: int) | Deactivate | RemoveTheCreditor
    | Create(order: seq<int>) | Delete(isPegged: bool)
    | Reconfigure(deletion: bool, negligible: real, allowUnsafe: bool, data: string, updateId: int)
    | Rewrite(rewriting: Rewriting, updateId: int, names: set<string>, peers: set<int>)
    | Reject(rejected: RejectedMsg) | Purge(creationDate: int) | Update(msg: UpdateMsg)
    | Arrive(transfer: Transfer, ts: int) | Collect(keys: set<(int, int)>)
    | Burst | OnePass | ScanRow
    | Others(drawn: nat, largest: int, listed: nat)

  function OtherAccounts(s: State, drawn: nat, largest: int, listed: nat): State {
    var s1 := s.(uidSeq := s.uidSeq + drawn);
    if s.creditor.None? then s1
    else
      var c := s.creditor.value;
      s1.(creditor := Some(c.(largestHistoricEntryId := Max(c.largestHistoricEntryId, largest),
                              accountsListId := c.accountsListId + listed)))
  }

  predicate ValidStep(step: Step) {
    match step
    case Create(order) => IsOrder(order)
    case Reconfigure(_, negligible, _, _, _) => negligible >= 0.0
    case Update(m) => m.creationDate > DATE0 && In64(m.principal) && m.lastTransferNumber >= 0
    case _ => true
  }

  function Apply(p: Params, s0: State, now: int, step: Step): State
    requires ValidParams(p) && ValidStep(step)
  {
    var s := s0.(clock := now);
    match step
    case Reserve(reservationId) => ReserveCreditor(s, reservationId).0
    case Activate(reservationId) => ActivateCreditor(s, reservationId).0
    case Deactivate => DeactivateCreditor(s)
    case RemoveTheCreditor => RemoveCreditor(p, s)
    case Create(order) => CreateAccount(s, order).0
    case Delete(isPegged) => DeleteAccount(s, isPegged).0
    case Reconfigure(d, n, u, data, id) => UpdateConfig(s, d, n, u, data, id).0
    case Rewrite(r, id, names, peers) => UpdateOther(s, id, r, names, peers).0
    case Reject(m) => RejectConfig(s, m)
    case Purge(date) => PurgeAccount(s, date)
    case Update(m) => AccountUpdate(s, m)
    case Arrive(t, ts) => ArriveTransfer(p, s, t, ts)
    case Collect(keys) => CollectTransfers(p, s, keys)
    case Burst => ProcessBurst(p, s)
    case OnePass => ProcessOnePass(p, s)
    case ScanRow => ScanAccount(p, s)
    case Others(drawn, largest, listed) => OtherAccounts(s, drawn, largest, listed)
  }
}
