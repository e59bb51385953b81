/**
 * The meaning of the ledger procedures on values: what one ledger update posts, what a pass over
 * pending transfers does, and what one processing step does.
 */
module LedgerSpec {
  import opened Options
  import opened Int64
  import opened AccountModel

  // ---------- Postings ----------

  /** Correcting entries that follow entry `id`, starting at a given principal. */
  function Postings(id: int, principal: int, amounts: seq<int>, now: int): (es: seq<Entry>)
    ensures |es| == |amounts|
    decreases |amounts|
  {
    if amounts == [] then []
    else
      [Entry(id + 1, amounts[0], principal + amounts[0], None, now)]
      + Postings(id + 1, principal + amounts[0], amounts[1..], now)
  }

  /** One round of the correcting loop. */
  lemma PostingsStep(id: int, principal: int, delta: int, now: int)
    requires delta != 0
    ensures var safe := ContainPrincipalOverflow(delta);
            && Postings(id, principal, Corrections(delta), now)
               == [Entry(id + 1, safe, principal + safe, None, now)]
                  + Postings(id + 1, principal + safe, Corrections(delta - safe), now)
            && (In64(principal) && In64(principal + delta) ==> In64(principal + safe))
  {
    assert Corrections(delta)[1..] == Corrections(delta - ContainPrincipalOverflow(delta));
  }

  lemma PostingsEnd(id: int, principal: int, now: int)
    ensures Postings(id, principal, Corrections(0), now) == []
  {
  }

  /** The entries that bring the ledger to the principal before a transfer, if that is an int64. */
  function CorrectingEntries(lastEntryId: int, principal: int, previousPrincipal: int, now: int): seq<Entry> {
    if In64(previousPrincipal)
    then Postings(lastEntryId, principal, Corrections(previousPrincipal - principal), now)
    else []
  }

  datatype Effect = Effect(ledger: LedgerData, entries: seq<Entry>, log: Option<LogItem>)

  /** One ledger update: correcting entries, the transfer's own entry, and one notification. */
  function UpdateLedger(l: LedgerData, date: int, number: int, amount: int, principal: int, now: int, always: bool)
    : Effect
  {
    var fix := CorrectingEntries(l.lastEntryId, l.principal, principal - amount, now);
    var own := if amount == 0 then [] else
      [Entry(l.lastEntryId + |fix| + 1, amount, principal, Some((date, number)), now)];
    var es := fix + own;
    var moved := l.(principal := principal, lastTransferNumber := number, lastEntryId := l.lastEntryId + |es|);
    if es != [] || always then
      var told := moved.(updateId := l.updateId + 1, updateTs := now);
      Effect(told, es, Some(LedgerUpdated(told.updateId, principal, told.lastEntryId + 1)))
    else
      Effect(moved, es, None)
  }

  lemma UpdateLedgerKeeps(l: LedgerData, date: int, number: int, amount: int, principal: int, now: int, always: bool)
    ensures var e := UpdateLedger(l, date, number, amount, principal, now, always);
            && e.ledger.pendingTransferTs == l.pendingTransferTs
            && e.ledger.principal == principal && e.ledger.lastTransferNumber == number
  {
  }

  lemma UpdateLedgerTells(l: LedgerData, date: int, number: int, amount: int, principal: int, now: int)
    ensures var e := UpdateLedger(l, date, number, amount, principal, now, true);
            && e.log.Some? && e.ledger.principal == principal && e.ledger.lastTransferNumber == number
  {
  }

  /** The ledger for another account identity, or, from zero, for a new server account. */
  function ResetOf(l: LedgerData, isNew: bool, date: int, now: int): Effect {
    UpdateLedger(if isNew then l.(pendingTransferTs := None) else l, date, if isNew then 0 else l.lastTransferNumber,
                 0, if isNew then 0 else l.principal, now, true)
  }

  // ---------- Passes over pending transfers ----------

  /** Stored transfers of a date above a number, in the order of the table's key. */
  function Pending(store: seq<Transfer>, date: int, above: int): seq<Transfer> {
    if store == [] then []
    else if store[0].date == date && store[0].number > above
    then [store[0]] + Pending(store[1..], date, above)
    else Pending(store[1..], date, above)
  }

  lemma PendingIsStored(store: seq<Transfer>, date: int, above: int)
    ensures forall t :: t in Pending(store, date, above) <==> t in store && t.date == date && t.number > above
  {
  }

  function Take<T>(s: seq<T>, n: int): seq<T>
    requires 0 <= n
  {
    if |s| <= n then s else s[..n]
  }

  /** `blockedAt` is the commit time of the transfer that has to wait for its predecessor. */
  datatype Scan = Scan(ledger: LedgerData, entries: seq<Entry>, log: Option<LogItem>, blockedAt: Option<int>)

  predicate MustWait(l: LedgerData, t: Transfer, cutoff: int) {
    t.prev != l.lastTransferNumber && t.committedAt >= cutoff
  }

  /** Appends transfers until one has to wait; keeps the last notification only. */
  function Pass(l: LedgerData, date: int, ts: seq<Transfer>, cutoff: int, now: int): Scan
    decreases |ts|
  {
    if ts == [] then Scan(l, [], None, None)
    else if MustWait(l, ts[0], cutoff) then Scan(l, [], None, Some(ts[0].committedAt))
    else
      var e := UpdateLedger(l, date, ts[0].number, ts[0].amount, ts[0].principal, now, false);
      Prepend(e.entries, e.log, Pass(e.ledger, date, ts[1..], cutoff, now))
  }

  function Prepend(es: seq<Entry>, log: Option<LogItem>, r: Scan): Scan {
    Scan(r.ledger, es + r.entries, OrElse(r.log, log), r.blockedAt)
  }

  lemma PrependTwice(es: seq<Entry>, log: Option<LogItem>, fs: seq<Entry>, next: Option<LogItem>, r: Scan)
    ensures Prepend(es, log, Prepend(fs, next, r)) == Prepend(es + fs, OrElse(next, log), r)
  {
    assert es + (fs + r.entries) == (es + fs) + r.entries;
  }

  // ---------- One processing step ----------

  /** What the server has said about the latest transfer, and the principal after it. */
  datatype Latest = Latest(number: int, committedAt: int, principal: int)

  function LatestOf(a: Account): Latest {
    Latest(a.server.lastTransferNumber, a.server.lastTransferCommittedAt, a.server.principal)
  }

  /** The latest transfers are missing, and are too old to hope for. */
  predicate IsLastTransferLost(l: LedgerData, latest: Latest, cutoff: int) {
    l.pendingTransferTs.None? && latest.number > l.lastTransferNumber && latest.committedAt < cutoff
  }

  function CatchUp(l: LedgerData, date: int, latest: Latest, cutoff: int, now: int): Effect {
    if IsLastTransferLost(l, latest, cutoff)
    then UpdateLedger(l, date, latest.number, 0, latest.principal, now, false)
    else Effect(l, [], None)
  }

  datatype Work = Work(ledger: LedgerData, entries: seq<Entry>, log: Option<LogItem>, done: bool)

  /** The end of a step, after the pass over the transfers it looked at. */
  function Finish(r: Scan, exhausted: bool, date: int, latest: Latest, cutoff: int, now: int): Work {
    var l := r.ledger.(pendingTransferTs := r.blockedAt);
    if r.blockedAt.Some? || exhausted then
      var c := CatchUp(l, date, latest, cutoff, now);
      Work(c.ledger, r.entries + c.entries, OrElse(c.log, r.log), true)
    else
      Work(l, r.entries, r.log, false)
  }

  function PendingOf(a: Account, store: seq<Transfer>): seq<Transfer> {
    Pending(store, a.server.creationDate, a.ledger.lastTransferNumber)
  }

  /** A step that looks at some pending transfers; they are all there are if it is exhausted. */
  function WorkOn(a: Account, ts: seq<Transfer>, exhausted: bool, cutoff: int, now: int): Work {
    var date := a.server.creationDate;
    Finish(Pass(a.ledger, date, ts, cutoff, now), exhausted, date, LatestOf(a), cutoff, now)
  }

  /** A step of the Python procedure, which looks at no more than `burst` transfers. */
  function BurstWork(a: Account, store: seq<Transfer>, burst: int, cutoff: int, now: int): Work
    requires burst >= 1
  {
    var ts := Take(PendingOf(a, store), burst);
    Finish(Pass(a.ledger, a.server.creationDate, ts, cutoff, now), |ts| < burst, a.server.creationDate, LatestOf(a), cutoff, now)
  }

  /** The single pass of the stored procedure. */
  function OnePassWork(a: Account, store: seq<Transfer>, cutoff: int, now: int): Work {
    var ts := PendingOf(a, store);
    Finish(Pass(a.ledger, a.server.creationDate, ts, cutoff, now), true, a.server.creationDate, LatestOf(a), cutoff, now)
  }

  // ---------- The scanner ----------

  predicate NeedsCorrection(a: Account, now: int) {
    && a.server.lastTransferNumber == a.ledger.lastTransferNumber
    && a.ledger.principal != a.server.principal
    && a.ledger.updateTs < now - TD_HOUR
  }

  predicate NeedsRepair(a: Account, maxDelay: int, now: int) {
    && a.server.lastTransferNumber > a.ledger.lastTransferNumber
    && match a.ledger.pendingTransferTs
       case Some(ts) => ts < now - maxDelay
       case None => a.server.lastTransferCommittedAt < now - maxDelay
  }
}
