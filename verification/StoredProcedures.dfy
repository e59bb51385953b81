/**
 * The PL/pgSQL twins of the ledger procedures. They pass the ledger columns of the row around as a
 * composite value, insert entries on the way, and write the row back at the end.
 */
module StoredProcedures {
  import opened Options
  import opened Int64
  import opened AccountModel
  import opened Procedures
  import LedgerSpec
  import SystemSpec
  import Refinement

  method MakeCorrectingLedgerEntryIfNecessary(db: Database, row: LedgerData, amount: int, principal: int, now: int)
    returns (data: LedgerData, made: bool)
    modifies db`ledgerEntries
    ensures var es := LedgerSpec.CorrectingEntries(row.lastEntryId, row.principal, principal - amount, now);
            && db.ledgerEntries == old(db.ledgerEntries) + es
            && data == row.(lastEntryId := row.lastEntryId + |es|)
            && made == (es != [])
  {
    hide LedgerSpec.Postings, Corrections, ContainPrincipalOverflow, ContainPrincipalOverflowSql;
    data, made := row, false;
    var previousPrincipal := principal - amount;
    if MIN_INT64 <= previousPrincipal <= MAX_INT64 {
      var ledgerPrincipal, lastEntryId := row.principal, row.lastEntryId;
      var correctionAmount := previousPrincipal - ledgerPrincipal;
      ghost var whole := LedgerSpec.Postings(lastEntryId, ledgerPrincipal, Corrections(correctionAmount), now);
      ghost var posted: seq<Entry> := [];
      LedgerSpec.PostingsEnd(lastEntryId + |whole|, previousPrincipal, now);
      while correctionAmount != 0
        invariant db.ledgerEntries == old(db.ledgerEntries) + posted
        invariant lastEntryId == row.lastEntryId + |posted| && made == (posted != [])
        invariant ledgerPrincipal + correctionAmount == previousPrincipal
        invariant whole == posted + LedgerSpec.Postings(
                                      lastEntryId, ledgerPrincipal, Corrections(correctionAmount), now)
        decreases Abs(correctionAmount)
      {
        var safeAmount := ContainPrincipalOverflowSql(correctionAmount);
        ClampsAgree(correctionAmount);
        LedgerSpec.PostingsStep(lastEntryId, ledgerPrincipal, correctionAmount, now);
        correctionAmount := correctionAmount - safeAmount;
        ledgerPrincipal := ledgerPrincipal + safeAmount;
        lastEntryId := lastEntryId + 1;
        var entry := Entry(lastEntryId, safeAmount, ledgerPrincipal, None, now);
        Associate(posted, [entry], LedgerSpec.Postings(
                    lastEntryId, ledgerPrincipal, Corrections(correctionAmount), now));
        db.ledgerEntries := db.ledgerEntries + [entry];
        posted := posted + [entry];
        made := true;
      }
      LedgerSpec.PostingsEnd(lastEntryId, ledgerPrincipal, now);
      data := data.(lastEntryId := lastEntryId);
    }
  }

  method UpdateLedger(db: Database, row: LedgerData, date: int, number: int, amount: int, principal: int, now: int)
    returns (data: LedgerData, logEntry: Option<LogItem>)
    modifies db`ledgerEntries
    ensures var e := LedgerSpec.UpdateLedger(row, date, number, amount, principal, now, false);
            && data == e.ledger && logEntry == e.log
            && db.ledgerEntries == old(db.ledgerEntries) + e.entries
  {
    var shouldReturnLogEntry: bool;
    data, shouldReturnLogEntry := MakeCorrectingLedgerEntryIfNecessary(db, row, amount, principal, now);
    ghost var fix := LedgerSpec.CorrectingEntries(row.lastEntryId, row.principal, principal - amount, now);
    ghost var own: seq<Entry> := [];
    if amount != 0 {
      data := data.(lastEntryId := data.lastEntryId + 1);
      var entry := Entry(data.lastEntryId, amount, principal, Some((date, number)), now);
      db.ledgerEntries := db.ledgerEntries + [entry];
      own := [entry];
      shouldReturnLogEntry := true;
    }
    assert db.ledgerEntries == old(db.ledgerEntries) + (fix + own);
    data := data.(principal := principal, lastTransferNumber := number);
    logEntry := None;
    if shouldReturnLogEntry {
      data := data.(updateId := data.updateId + 1, updateTs := now);
      logEntry := Some(LedgerUpdated(data.updateId, principal, data.lastEntryId + 1));
    }
  }

  /** The loop over all pending transfers. */
  method AppendTransfers(db: Database, row: LedgerData, date: int, transfers: seq<Transfer>, cutoff: int, now: int)
    returns (data: LedgerData, logEntry: Option<LogItem>)
    requires row.pendingTransferTs.None?
    requires forall t :: t in transfers ==> ValidTransfer(t)
    modifies db`ledgerEntries
    ensures var r := LedgerSpec.Pass(row, date, transfers, cutoff, now);
            && data == r.ledger.(pendingTransferTs := r.blockedAt)
            && db.ledgerEntries == old(db.ledgerEntries) + r.entries
            && logEntry == r.log
  {
    hide LedgerSpec.UpdateLedger;
    data, logEntry := row, None;
    ghost var whole := LedgerSpec.Pass(row, date, transfers, cutoff, now);
    ghost var posted: seq<Entry> := [];
    assert transfers[0..] == transfers;
    for i := 0 to |transfers|
      invariant data.pendingTransferTs.None?
      invariant db.ledgerEntries == old(db.ledgerEntries) + posted
      invariant whole == LedgerSpec.Prepend(
                           posted, logEntry, LedgerSpec.Pass(data, date, transfers[i..], cutoff, now))
    {
      var t := transfers[i];
      assert t in transfers && transfers[i..][1..] == transfers[i + 1..];
      if t.prev != data.lastTransferNumber && t.committedAt >= cutoff {
        // A gap that may still be filled: note since when, and stop.
        data := data.(pendingTransferTs := Some(t.committedAt));
        return;
      }
      ghost var e := LedgerSpec.UpdateLedger(data, date, t.number, t.amount, t.principal, now, false);
      LedgerSpec.UpdateLedgerKeeps(data, date, t.number, t.amount, t.principal, now, false);
      ghost var rest := LedgerSpec.Pass(e.ledger, date, transfers[i + 1..], cutoff, now);
      assert whole == LedgerSpec.Prepend(posted, logEntry, LedgerSpec.Prepend(e.entries, e.log, rest));
      LedgerSpec.PrependTwice(posted, logEntry, e.entries, e.log, rest);
      var entry: Option<LogItem>;
      data, entry := UpdateLedger(db, data, date, t.number, t.amount, t.principal, now);
      logEntry := OrElse(entry, logEntry);
      posted := posted + e.entries;
    }
  }

  /** The part of the stored procedure that works on the ledger. */
  method ProcessTransfers(db: Database, row: Account, transfers: seq<Transfer>, cutoff: int, now: int)
    returns (data: LedgerData, logEntry: Option<LogItem>)
    requires forall t :: t in transfers ==> ValidTransfer(t)
    modifies db`ledgerEntries
    ensures var date := row.server.creationDate;
            var w := LedgerSpec.Finish(
              LedgerSpec.Pass(row.ledger, date, transfers, cutoff, now), true, date, LedgerSpec.LatestOf(row), cutoff, now);
            && data == w.ledger && logEntry == w.log && w.done
            && db.ledgerEntries == old(db.ledgerEntries) + w.entries
  {
    hide LedgerSpec.Pass, LedgerSpec.UpdateLedger;
    var date := row.server.creationDate;
    Refinement.PassIgnoresPendingTs(row.ledger, date, transfers, cutoff, now, None);
    data, logEntry := AppendTransfers(
      db, row.ledger.(pendingTransferTs := None), date, transfers, cutoff, now);
    if data.pendingTransferTs.None? && row.server.lastTransferNumber > data.lastTransferNumber
       && row.server.lastTransferCommittedAt < cutoff {
      // Nothing is pending, yet the server is ahead for too long: take its word.
      var caughtUp: Option<LogItem>;
      data, caughtUp := UpdateLedger(
        db, data, date, row.server.lastTransferNumber, 0, row.server.principal, now);
      logEntry := OrElse(caughtUp, logEntry);
    }
  }

  /** The stored procedure: one pass, whatever the burst size is. */
  method ProcessPendingLedgerUpdate(db: Database, p: SystemSpec.Params, now: int)
    requires SystemSpec.ValidParams(p) && SystemSpec.ColumnsFit(db.View())
    modifies db
    ensures db.View() == SystemSpec.ProcessOnePass(p, old(db.ViewAt(now)))
  {
    hide LedgerSpec.Pass, LedgerSpec.Pending, LedgerSpec.Finish;
    db.clock := now;
    if !db.hasPendingLedgerUpdate || db.accountData.None? {
      return;
    }
    var row, cutoff := db.accountData.value, now - p.maxDelay;
    ghost var s, w := db.View(), LedgerSpec.OnePassWork(row, db.committedTransfers, cutoff, now);
    var transfers := LedgerSpec.PendingOf(row, db.committedTransfers);
    LedgerSpec.PendingIsStored(db.committedTransfers, row.server.creationDate, row.ledger.lastTransferNumber);
    var data, logEntry := ProcessTransfers(db, row, transfers, cutoff, now);
    db.FinishProcessing(row.(ledger := data), logEntry, true, now, s, row, w);
  }
}
