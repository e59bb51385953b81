/**
 * Rows, messages and histories of one (creditor, debtor) pair. Points in time are integers
 * that count microseconds, dates are integers that count days; `TS0` and `DATE0` are zero.
 */
module AccountModel {
  import opened Options
  import opened Int64

  const DATE0 := 0
  const TS0 := 0
  const EPS: real := 0.00001
  const HUGE_NEGLIGIBLE_AMOUNT: real := 1000000000000000000000000000000.0
  const DEFAULT_NEGLIGIBLE_AMOUNT: real := HUGE_NEGLIGIBLE_AMOUNT
  const DEFAULT_CONFIG_FLAGS := 0
  const SECOND := 1000000
  const TD_HOUR := 3600 * SECOND
  const DAY := 24 * TD_HOUR
  const CONFIGURATION_IS_NOT_EFFECTUAL := "CONFIGURATION_IS_NOT_EFFECTUAL"

  /** The tolerance used for the negligible amount and the interest rate. */
  predicate CloseTo(ours: real, theirs: real) {
    var diff := ours - theirs;
    (if diff < 0.0 then -diff else diff) <= EPS * theirs
  }

  // ---------- Rows ----------

  /** A row of `committed_transfer`. */
  datatype Transfer = Transfer(date: int, number: int, prev: int, amount: int, principal: int, committedAt: int)

  /** The table's check constraints. */
  predicate ValidTransfer(t: Transfer) {
    0 <= t.prev < t.number && t.amount != 0 && In64(t.amount) && In64(t.principal)
  }

  /** A row of `ledger_entry`; a correcting entry has no transfer. */
  datatype Entry = Entry(id: int, amount: int, principal: int, transfer: Option<(int, int)>, addedAt: int)

  datatype LedgerData = LedgerData(
    principal: int, lastEntryId: int, lastTransferNumber: int,
    pendingTransferTs: Option<int>, updateId: int, updateTs: int)

  datatype ConfigData = ConfigData(
    ts: int, seqnum: int, negligible: real, flags: int, data: string,
    effectual: bool, allowUnsafeDeletion: bool, updateId: int)

  datatype DebtorInfo = DebtorInfo(iri: Option<string>, contentType: Option<string>, sha256: Option<seq<int>>)

  datatype InfoData = InfoData(
    interestRate: real, rateChangeTs: int, noteMaxBytes: int, accountId: string,
    debtor: DebtorInfo, configError: Option<string>, updateId: int)

  datatype DisplayData = DisplayData(
    debtorName: Option<string>, amountDivisor: real, decimalPlaces: int, unit: Option<string>, knownDebtor: bool)

  datatype ExchangeData = ExchangeData(
    policy: Option<string>, minPrincipal: int, maxPrincipal: int, pegRate: Option<real>, pegDebtorId: Option<int>)

  const NEW_DISPLAY := DisplayData(None, 1.0, 0, None, false)
  const NEW_EXCHANGE := ExchangeData(None, MIN_INT64, MAX_INT64, None, None)
  const NEW_KNOWLEDGE := "{}"

  /** The sub-objects that are not part of `account_data`, and their update ids. */
  datatype OtherData = OtherData(
    accountId: int, displayId: int, exchangeId: int, knowledgeId: int,
    display: DisplayData, exchange: ExchangeData, knowledge: string)

  /** A request to overwrite one of them. */
  datatype Rewriting =
    | NewDisplay(display: DisplayData)
    | NewExchange(exchange: ExchangeData)
    | NewKnowledge(knowledge: string)

  /** What is known about the account on the accounting authority's server. */
  datatype ServerData = ServerData(
    hasAccount: bool, creationDate: int, changeTs: int, changeSeqnum: int, principal: int,
    lastTransferNumber: int, lastTransferCommittedAt: int, lastHeartbeatTs: int)

  /** A row of `account_data`, with the other sub-objects of the account. */
  datatype Account = Account(
    server: ServerData, config: ConfigData, info: InfoData, ledger: LedgerData, other: OtherData)
  {
    predicate IsScheduledForDeletion() { config.flags % 2 == 1 }

    predicate IsDeletionSafe() {
      !server.hasAccount && IsScheduledForDeletion() && config.effectual
    }
  }

  /** Setting and clearing bit 0 of the config flags. */
  function WithDeletionFlag(flags: int, value: bool): int {
    if value then (if flags % 2 == 1 then flags else flags + 1) else flags - flags % 2
  }

  /** The date of a point in time, counted in days. */
  function DateOf(ts: int): int { ts / DAY }

  datatype Creditor = Creditor(
    activated: bool, deactivated: bool, reservationId: Option<int>, createdAt: int, deactivationDate: Option<int>,
    accountsListId: int, largestHistoricEntryId: int)
  {
    predicate IsActive() { activated && !deactivated }
  }

  // ---------- Messages ----------

  /** An `AccountUpdate` message. */
  datatype UpdateMsg = UpdateMsg(
    creationDate: int, changeTs: int, changeSeqnum: int, principal: int,
    interestRate: real, rateChangeTs: int, noteMaxBytes: int,
    configTs: int, configSeqnum: int, negligible: real, configFlags: int, configData: string,
    accountId: string, debtor: DebtorInfo,
    lastTransferNumber: int, lastTransferCommittedAt: int, ts: int, ttl: int)

  /** A `RejectedConfig` message. */
  datatype RejectedMsg = RejectedMsg(
    configTs: int, configSeqnum: int, negligible: real, configFlags: int, configData: string, code: string)

  /** Outgoing messages. */
  datatype Signal =
    | UpdatedLedger(updateId: int, accountId: string, creationDate: int, principal: int,
                    lastTransferNumber: int, ts: int)
    | UpdatedFlags(updateId: int, flags: int, ts: int)
    | UpdatedPolicy(updateId: int, exchange: ExchangeData, ts: int)
    | ConfigureAccount(ts: int, seqnum: int, negligible: real, data: string, flags: int)

  // ---------- Histories ----------

  datatype Kind = AccountObj | ConfigObj | InfoObj | LedgerObj | DisplayObj | ExchangeObj | KnowledgeObj

  /** Log entries about the account, in the order in which they were queued or written. */
  datatype LogItem =
    | ObjectUpdated(kind: Kind, updateId: int)
    | AccountsListUpdated(updateId: int)
    | LedgerUpdated(updateId: int, principal: int, nextEntryId: int)
    | ObjectDeleted(kind: Kind, updateId: int)
    | TransferCommitted(date: int, number: int)

  /** An update id given to an object of some kind, at creation, update or deletion. */
  datatype Issue = Issue(kind: Kind, id: int)

  /** What happened to the account's configuration and server account, since its creation. */
  datatype StatusEvent =
    | Configured(ts: int, seqnum: int, negligible: real, flags: int, data: string)
    | UpdateAccepted(msg: UpdateMsg)
    | PurgeAccepted

  /** The message quotes a configuration. */
  predicate Confirms(m: UpdateMsg, ts: int, seqnum: int, negligible: real, flags: int, data: string) {
    && m.configTs == ts
    && m.configSeqnum == seqnum
    && m.configFlags == flags
    && m.configData == data
    && CloseTo(negligible, m.negligible)
  }

  /** The order of account changes: creation date first, then time, then sequence number. */
  predicate IsNewer(m: UpdateMsg, a: Account) {
    || m.creationDate > a.server.creationDate
    || (m.creationDate == a.server.creationDate && m.changeTs > a.server.changeTs)
    || (m.creationDate == a.server.creationDate && m.changeTs == a.server.changeTs && m.changeSeqnum > a.server.changeSeqnum)
  }

  function KindOf(r: Rewriting): Kind {
    match r
    case NewDisplay(_) => DisplayObj
    case NewExchange(_) => ExchangeObj
    case NewKnowledge(_) => KnowledgeObj
  }

  function IdOf(a: Account, kind: Kind): int {
    match kind
    case AccountObj => a.other.accountId
    case ConfigObj => a.config.updateId
    case InfoObj => a.info.updateId
    case LedgerObj => a.ledger.updateId
    case DisplayObj => a.other.displayId
    case ExchangeObj => a.other.exchangeId
    case KnowledgeObj => a.other.knowledgeId
  }
}
