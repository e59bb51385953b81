/**
 * The procedures themselves, on mutable rows. Each one is proved to have the effect that
 * `SystemSpec` and `LedgerSpec` give it; `now` is the time the procedure reads from the clock.
 */
module Procedures {
  import opened Options
  import opened Int64
  import opened AccountModel
  import LedgerSpec
  import SystemSpec
  import Refinement

  /**
   * A loaded row of `account_data`, together with the update ids kept beside it and with the
   * account's rows in `ledger_entry`.
   */
  class AccountData {
    var server: ServerData
    var config: ConfigData
    var info: InfoData
    var other: OtherData
    var ledgerPrincipal: int
    var ledgerLastEntryId: int
    var ledgerLastTransferNumber: int
    var ledgerPendingTransferTs: Option<int>
    var ledgerLatestUpdateId: int
    var ledgerLatestUpdateTs: int
    var ledgerEntries: seq<Entry>

    function Ledger(): LedgerData
      reads `ledgerPrincipal, `ledgerLastEntryId, `ledgerLastTransferNumber, `ledgerPendingTransferTs,
            `ledgerLatestUpdateId, `ledgerLatestUpdateTs
    {
      LedgerData(ledgerPrincipal, ledgerLastEntryId, ledgerLastTransferNumber, ledgerPendingTransferTs,
                 ledgerLatestUpdateId, ledgerLatestUpdateTs)
    }

    function View(): Account
      reads this
    {
      Account(server, config, info, Ledger(), other)
    }

    constructor Load(a: Account, entries: seq<Entry>)
      ensures View() == a && ledgerEntries == entries
    {
      server, config, info, other := a.server, a.config, a.info, a.other;
      ledgerPrincipal, ledgerLastEntryId := a.ledger.principal, a.ledger.lastEntryId;
      ledgerLastTransferNumber := a.ledger.lastTransferNumber;
      ledgerPendingTransferTs := a.ledger.pendingTransferTs;
      ledgerLatestUpdateId, ledgerLatestUpdateTs := a.ledger.updateId, a.ledger.updateTs;
      ledgerEntries := entries;
    }

    predicate IsScheduledForDeletion()
      reads `config
    {
      config.flags % 2 == 1
    }

    predicate IsDeletionSafe()
      reads `config, `server
      ensures IsDeletionSafe() == View().IsDeletionSafe()
    {
      !server.hasAccount && IsScheduledForDeletion() && config.effectual
    }

    method SetScheduledForDeletion(value: bool)
      modifies `config
      ensures config == old(config).(flags := WithDeletionFlag(old(config.flags), value))
      ensures IsScheduledForDeletion() == value
    {
      if value {
        if config.flags % 2 == 0 { config := config.(flags := config.flags + 1); }
      } else {
        config := config.(flags := config.flags - config.flags % 2);
      }
    }

    /** The columns that a configuration update changes. */
    method PerformConfigUpdate(deletion: bool, negligible: real, allowUnsafe: bool, configData: string,
                               updateId: int, now: int)
      modifies `config
      ensures config == ConfigData(
                          Max(now, old(config.ts)), old(config.seqnum) + 1, negligible,
                          WithDeletionFlag(old(config.flags), deletion), configData, false, allowUnsafe, updateId)
    {
      config := config.(updateId := updateId, negligible := negligible,
                        allowUnsafeDeletion := allowUnsafe, data := configData);
      SetScheduledForDeletion(deletion);
      config := config.(ts := Max(now, config.ts), seqnum := config.seqnum + 1, effectual := false);
    }

    // ---------- Ledger updates ----------

    method MakeCorrectingLedgerEntryIfNecessary(amount: int, principal: int, now: int) returns (made: bool)
      modifies `ledgerEntries, `ledgerLastEntryId
      ensures var es := LedgerSpec.CorrectingEntries(
                old(ledgerLastEntryId), old(ledgerPrincipal), principal - amount, now);
              && ledgerEntries == old(ledgerEntries) + es
              && ledgerLastEntryId == old(ledgerLastEntryId) + |es|
              && made == (es != [])
    {
      hide LedgerSpec.Postings, Corrections, ContainPrincipalOverflow;
      made := false;
      var previousPrincipal := principal - amount;
      if MIN_INT64 <= previousPrincipal <= MAX_INT64 {
        var runningPrincipal := ledgerPrincipal;
        var correctionAmount := previousPrincipal - runningPrincipal;
        ghost var whole := LedgerSpec.Postings(
          ledgerLastEntryId, runningPrincipal, Corrections(correctionAmount), now);
        ghost var posted: seq<Entry> := [];
        while correctionAmount != 0
          invariant ledgerEntries == old(ledgerEntries) + posted
          invariant ledgerLastEntryId == old(ledgerLastEntryId) + |posted| && made == (posted != [])
          invariant whole == posted + LedgerSpec.Postings(
                                        ledgerLastEntryId, runningPrincipal, Corrections(correctionAmount), now)
          decreases Abs(correctionAmount)
        {
          var safeAmount := ContainPrincipalOverflow(correctionAmount);
          LedgerSpec.PostingsStep(ledgerLastEntryId, runningPrincipal, correctionAmount, now);
          correctionAmount := correctionAmount - safeAmount;
          runningPrincipal := runningPrincipal + safeAmount;
          ledgerLastEntryId := ledgerLastEntryId + 1;
          var entry := Entry(ledgerLastEntryId, safeAmount, runningPrincipal, None, now);
          Associate(posted, [entry], LedgerSpec.Postings(
                      ledgerLastEntryId, runningPrincipal, Corrections(correctionAmount), now));
          ledgerEntries := ledgerEntries + [entry];
          posted := posted + [entry];
          made := true;
        }
        LedgerSpec.PostingsEnd(ledgerLastEntryId, runningPrincipal, now);
      }
    }

    method UpdateLedger(number: int, amount: int, principal: int, now: int, always: bool := false)
      returns (logEntry: Option<LogItem>)
      requires In64(principal)
      modifies `ledgerEntries, `ledgerPrincipal, `ledgerLastEntryId, `ledgerLastTransferNumber,
               `ledgerLatestUpdateId, `ledgerLatestUpdateTs
      ensures var e := LedgerSpec.UpdateLedger(
                old(Ledger()), server.creationDate, number, amount, principal, now, always);
              && Ledger() == e.ledger
              && ledgerEntries == old(ledgerEntries) + e.entries
              && logEntry == e.log
    {
      var shouldInsert := MakeCorrectingLedgerEntryIfNecessary(amount, principal, now);
      ghost var fix := LedgerSpec.CorrectingEntries(
        old(ledgerLastEntryId), old(ledgerPrincipal), principal - amount, now);
      ghost var own: seq<Entry> := [];
      if amount != 0 {
        ledgerLastEntryId := ledgerLastEntryId + 1;
        var entry := Entry(ledgerLastEntryId, amount, principal, Some((server.creationDate, number)), now);
        ledgerEntries := ledgerEntries + [entry];
        own := [entry];
        shouldInsert := true;
      }
      assert ledgerEntries == old(ledgerEntries) + (fix + own);
      // The assertion of the source: without an entry, the principal does not change.
      assert shouldInsert || ledgerPrincipal == principal;
      ledgerPrincipal := principal;
      ledgerLastTransferNumber := number;
      logEntry := None;
      if shouldInsert || always {
        ledgerLatestUpdateId := ledgerLatestUpdateId + 1;
        ledgerLatestUpdateTs := now;
        logEntry := Some(LedgerUpdated(ledgerLatestUpdateId, principal, ledgerLastEntryId + 1));
      }
    }

    /** The loop over the transfers; `blockedAt` is set when the loop breaks. */
    method AppendTransfers(transfers: seq<Transfer>, cutoff: int, now: int)
      returns (logEntry: Option<LogItem>, blockedAt: Option<int>)
      requires forall t :: t in transfers ==> ValidTransfer(t)
      modifies `ledgerEntries, `ledgerPrincipal, `ledgerLastEntryId, `ledgerLastTransferNumber,
               `ledgerLatestUpdateId, `ledgerLatestUpdateTs
      ensures var r := LedgerSpec.Pass(old(Ledger()), server.creationDate, transfers, cutoff, now);
              && Ledger() == r.ledger
              && ledgerEntries == old(ledgerEntries) + r.entries
              && logEntry == r.log
              && blockedAt == r.blockedAt
    {
      hide LedgerSpec.UpdateLedger;
      logEntry, blockedAt := None, None;
      var date := server.creationDate;
      ghost var whole := LedgerSpec.Pass(Ledger(), date, transfers, cutoff, now);
      ghost var posted: seq<Entry> := [];
      assert transfers[0..] == transfers;
      for i := 0 to |transfers|
        invariant ledgerEntries == old(ledgerEntries) + posted
        invariant blockedAt.None?
        invariant whole == LedgerSpec.Prepend(
                             posted, logEntry, LedgerSpec.Pass(Ledger(), date, transfers[i..], cutoff, now))
      {
        var t := transfers[i];
        assert t in transfers;
        assert transfers[i..][1..] == transfers[i + 1..];
        if t.prev != ledgerLastTransferNumber && t.committedAt >= cutoff {
          blockedAt := Some(t.committedAt);
          break;
        }
        ghost var e := LedgerSpec.UpdateLedger(Ledger(), date, t.number, t.amount, t.principal, now, false);
        ghost var rest := LedgerSpec.Pass(e.ledger, date, transfers[i + 1..], cutoff, now);
        assert whole == LedgerSpec.Prepend(posted, logEntry, LedgerSpec.Prepend(e.entries, e.log, rest));
        LedgerSpec.PrependTwice(posted, logEntry, e.entries, e.log, rest);
        var entry := UpdateLedger(t.number, t.amount, t.principal, now);
        logEntry := OrElse(entry, logEntry);
        posted := posted + e.entries;
      }
    }

    method FixMissingLastTransferIfNecessary(cutoff: int, now: int) returns (logEntry: Option<LogItem>)
      requires In64(server.principal)
      modifies `ledgerEntries, `ledgerPrincipal, `ledgerLastEntryId, `ledgerLastTransferNumber,
               `ledgerLatestUpdateId, `ledgerLatestUpdateTs
      ensures var c := LedgerSpec.CatchUp(
                old(Ledger()), server.creationDate,
                LedgerSpec.Latest(server.lastTransferNumber, server.lastTransferCommittedAt, server.principal), cutoff, now);
              && Ledger() == c.ledger
              && ledgerEntries == old(ledgerEntries) + c.entries
              && logEntry == c.log
    {
      logEntry := None;
      var hasNoPendingTransfers := ledgerPendingTransferTs.None?;
      var lastTransferIsMissing := server.lastTransferNumber > ledgerLastTransferNumber;
      var lastTransferIsOld := server.lastTransferCommittedAt < cutoff;
      if hasNoPendingTransfers && lastTransferIsMissing && lastTransferIsOld {
        logEntry := UpdateLedger(server.lastTransferNumber, 0, server.principal, now);
      }
    }

    /** The part of a processing step that works on the ledger. */
    method ProcessTransfers(transfers: seq<Transfer>, exhausted: bool, cutoff: int, now: int)
      returns (logEntry: Option<LogItem>, done: bool)
      requires In64(server.principal) && forall t :: t in transfers ==> ValidTransfer(t)
      modifies `ledgerEntries, `ledgerPrincipal, `ledgerLastEntryId, `ledgerLastTransferNumber,
               `ledgerPendingTransferTs, `ledgerLatestUpdateId, `ledgerLatestUpdateTs
      ensures var w := LedgerSpec.Finish(
                LedgerSpec.Pass(old(Ledger()), server.creationDate, transfers, cutoff, now), exhausted, server.creationDate,
                LedgerSpec.Latest(server.lastTransferNumber, server.lastTransferCommittedAt, server.principal), cutoff, now);
              && View() == old(View()).(ledger := w.ledger)
              && ledgerEntries == old(ledgerEntries) + w.entries
              && logEntry == w.log && done == w.done
    {
      var blockedAt: Option<int>;
      logEntry, blockedAt := AppendTransfers(transfers, cutoff, now);
      ledgerPendingTransferTs := blockedAt;
      done := blockedAt.Some? || exhausted;
      if done {
        var caughtUp := FixMissingLastTransferIfNecessary(cutoff, now);
        logEntry := OrElse(caughtUp, logEntry);
      }
    }
  }

  /** The tables, the sequence, and the histories, as far as one (creditor, debtor) pair goes. */
  class Database {
    var clock: int
    var uidSeq: int
    var creditor: Option<Creditor>
    var accountData: Option<Account>
    var committedTransfers: seq<Transfer>
    var hasPendingLedgerUpdate: bool
    var ledgerEntries: seq<Entry>
    var log: seq<LogItem>
    var signals: seq<Signal>
    ghost var past: seq<Entry>
    ghost var issued: seq<Issue>
    ghost var status: seq<StatusEvent>
    ghost var stored: seq<(int, int)>

    ghost function View(): SystemSpec.State
      reads this
    {
      SystemSpec.State(
        clock, uidSeq, creditor, accountData, committedTransfers, hasPendingLedgerUpdate, ledgerEntries, past,
        log, signals, issued, status, stored)
    }

    /** The state at the time the procedure starts. */
    ghost function ViewAt(now: int): SystemSpec.State
      reads this
    {
      View().(clock := now)
    }

    method NextUid() returns (id: int)
      modifies this`uidSeq
      ensures id == uidSeq == old(uidSeq) + 1
    {
      uidSeq := uidSeq + 1;
      id := uidSeq;
    }

    // ---------- Processing pending transfers ----------

    method GetSortedPendingTransfers(data: AccountData, maxCount: int) returns (transfers: seq<Transfer>)
      requires maxCount >= 0
      ensures transfers == LedgerSpec.Take(LedgerSpec.PendingOf(data.View(), committedTransfers), maxCount)
      ensures forall t :: t in transfers ==> t in committedTransfers
    {
      transfers := LedgerSpec.Take(LedgerSpec.PendingOf(data.View(), committedTransfers), maxCount);
      LedgerSpec.PendingIsStored(committedTransfers, data.server.creationDate, data.ledgerLastTransferNumber);
    }

    /** Draws from the sequence until it has reached the given id; at least once. */
    method AdvanceSequence(id: int)
      modifies this`uidSeq
      ensures uidSeq == Max(old(uidSeq) + 1, id)
    {
      var next := NextUid();
      while next < id
        invariant next == uidSeq && old(uidSeq) + 1 <= next <= Max(old(uidSeq) + 1, id)
      {
        next := NextUid();
      }
    }

    method NotifyLedgerUpdate(account: Account, logEntry: LogItem, now: int)
      modifies this`signals, this`log, this`issued
      ensures signals == old(signals) + [UpdatedLedger(
                           account.ledger.updateId, account.info.accountId, account.server.creationDate,
                           account.ledger.principal, account.ledger.lastTransferNumber, now)]
      ensures log == old(log) + [logEntry]
      ensures issued == old(issued) + [Issue(LedgerObj, account.ledger.updateId)]
    {
      signals := signals + [UpdatedLedger(
        account.ledger.updateId, account.info.accountId, account.server.creationDate,
        account.ledger.principal, account.ledger.lastTransferNumber, now)];
      log := log + [logEntry];
      issued := issued + [Issue(LedgerObj, account.ledger.updateId)];
    }

    /** The end of a processing step: the row, the wake-up row, the notifications, and the sequence. */
    method FinishProcessing(account: Account, logEntry: Option<LogItem>, done: bool, now: int,
                            ghost s: SystemSpec.State, ghost a: Account, ghost w: LedgerSpec.Work)
      requires hasPendingLedgerUpdate && s.clock == now && account == a.(ledger := w.ledger)
      requires View() == s.(entries := s.entries + w.entries)
      requires logEntry == w.log && done == w.done
      modifies this`accountData, this`signals, this`log, this`issued, this`uidSeq, this`hasPendingLedgerUpdate
      ensures View() == SystemSpec.Commit(s, a, w)
    {
      accountData := Some(account);
      if done {
        hasPendingLedgerUpdate := false;
      }
      if logEntry.Some? {
        NotifyLedgerUpdate(account, logEntry.value, now);
        AdvanceSequence(account.ledger.updateId);
      }
    }

    /** One burst of the Python procedure. */
    method ProcessPendingLedgerUpdate(p: SystemSpec.Params, now: int) returns (done: bool)
      requires SystemSpec.ValidParams(p) && SystemSpec.ColumnsFit(View())
      modifies this
      ensures View() == SystemSpec.ProcessBurst(p, old(ViewAt(now)))
      ensures done == (!hasPendingLedgerUpdate || accountData.None?)
    {
      hide LedgerSpec.Pass, LedgerSpec.Finish, LedgerSpec.Pending;
      clock := now;
      if !hasPendingLedgerUpdate || accountData.None? {
        return true;
      }
      ghost var s, a := View(), accountData.value;
      ghost var w := LedgerSpec.BurstWork(a, committedTransfers, p.burst, now - p.maxDelay, now);
      var data := new AccountData.Load(accountData.value, ledgerEntries);
      var transfers := GetSortedPendingTransfers(data, p.burst);
      var logEntry: Option<LogItem>;
      logEntry, done := data.ProcessTransfers(transfers, |transfers| < p.burst, now - p.maxDelay, now);
      ledgerEntries := data.ledgerEntries;
      FinishProcessing(data.View(), logEntry, done, now, s, a, w);
    }

    /** The clock does not go back. */
    method ReadClock() returns (now: int)
      ensures now >= clock
    {
      now :| now >= clock;
    }

    /** The loop of the ledger update processor; `times` are the readings of the clock. */
    method ProcessLedgerUpdate(p: SystemSpec.Params) returns (ghost times: seq<int>)
      requires SystemSpec.ValidParams(p) && SystemSpec.ColumnsFit(View()) && Refinement.Sorted(committedTransfers)
      modifies this
      ensures View() == Refinement.DrainAt(p, old(View()), times)
      ensures !hasPendingLedgerUpdate || accountData.None?
      ensures Refinement.IsClock(old(clock), times)
      ensures 1 <= |times| <= 1 + Refinement.Remaining(old(View()))
    {
      hide Refinement.Drain, SystemSpec.ProcessBurst, SystemSpec.ColumnsFit, Refinement.Sorted, LedgerSpec.Pending;
      ghost var s := View();
      var now := ReadClock();
      times := [now];
      Refinement.BurstShrinks(p, s, now);
      var done := ProcessPendingLedgerUpdate(p, now);
      while !done
        invariant times != [] && clock == times[|times| - 1]
        invariant SystemSpec.ColumnsFit(View()) && Refinement.Sorted(committedTransfers)
        invariant View() == Refinement.DrainAt(p, s, times)
        invariant Refinement.IsClock(s.clock, times)
        invariant done == (!hasPendingLedgerUpdate || accountData.None?)
        invariant |times| + Refinement.Remaining(View()) <= 1 + Refinement.Remaining(s)
        decreases Refinement.Remaining(View())
      {
        now := ReadClock();
        Refinement.BurstShrinks(p, View(), now);
        assert (times + [now])[..|times|] == times;
        times := times + [now];
        done := ProcessPendingLedgerUpdate(p, now);
      }
    }

    // ---------- Creation and deletion ----------

    method CreateNewAccount(order: seq<int>, now: int) returns (error: Option<SystemSpec.Error>)
      requires SystemSpec.IsOrder(order)
      modifies this
      ensures (View(), error) == SystemSpec.CreateAccount(old(ViewAt(now)), order)
    {
      clock := now;
      if creditor.None? || !creditor.value.IsActive() {
        return Some(SystemSpec.CreditorDoesNotExist);
      }
      if accountData.Some? {
        return Some(SystemSpec.AccountExists);
      }
      InsertAccount(order, now);
      signals := signals + [ConfigureAccount(now, 0, DEFAULT_NEGLIGIBLE_AMOUNT, "", DEFAULT_CONFIG_FLAGS)];
      return None;
    }

    method NextUids(count: nat) returns (ids: seq<int>)
      modifies this`uidSeq
      ensures uidSeq == old(uidSeq) + count && |ids| == count
      ensures forall i :: 0 <= i < count ==> ids[i] == old(uidSeq) + 1 + i
    {
      ids := [];
      for k := 0 to count
        invariant uidSeq == old(uidSeq) + k && |ids| == k
        invariant forall i :: 0 <= i < k ==> ids[i] == old(uidSeq) + 1 + i
      {
        var id := NextUid();
        ids := ids + [id];
      }
    }

    /** Seven update ids are drawn, one for each object; the entry ids leave a gap. */
    method InsertAccount(order: seq<int>, now: int)
      requires creditor.Some? && SystemSpec.IsOrder(order)
      modifies this`accountData, this`uidSeq, this`hasPendingLedgerUpdate, this`ledgerEntries, this`log, this`issued,
               this`status, this`creditor
      ensures var c := SystemSpec.ListChanged(old(creditor.value));
              var a := SystemSpec.NewAccount(old(uidSeq), order, c.largestHistoricEntryId, now);
              View() == old(View()).(
                creditor := Some(c), account := Some(a), wake := false, entries := [], uidSeq := old(uidSeq) + 7,
                log := old(log) + [ObjectUpdated(AccountObj, a.other.accountId), AccountsListUpdated(c.accountsListId)],
                issued := old(issued) + SystemSpec.FirstIssues(old(uidSeq), order),
                status := [Configured(now, 0, DEFAULT_NEGLIGIBLE_AMOUNT, DEFAULT_CONFIG_FLAGS, "")])
    {
      hide SystemSpec.FirstIssues;
      ghost var n := uidSeq;
      var ids := NextUids(7);
      var lastEntryId := creditor.value.largestHistoricEntryId + 1;  // a gap
      var account := Account(
        ServerData(false, DATE0, TS0, 0, 0, 0, TS0, now),
        ConfigData(now, 0, DEFAULT_NEGLIGIBLE_AMOUNT, DEFAULT_CONFIG_FLAGS, "", false, false, ids[order[1] - 1]),
        InfoData(0.0, TS0, 0, "", DebtorInfo(None, None, None), None, ids[order[2] - 1]),
        LedgerData(0, lastEntryId, 0, None, ids[order[3] - 1], now),
        OtherData(ids[order[0] - 1], ids[order[4] - 1], ids[order[5] - 1], ids[order[6] - 1],
                  NEW_DISPLAY, NEW_EXCHANGE, NEW_KNOWLEDGE));
      issued := issued + SystemSpec.FirstIssues(n, order);
      AddAccount(account, now);
      LogAccountsListUpdate();
    }

    /** The rows of a new account, with nothing that depends on them yet. */
    method AddAccount(account: Account, now: int)
      modifies this`accountData, this`hasPendingLedgerUpdate, this`ledgerEntries, this`log, this`status
      ensures View() == old(View()).(
                account := Some(account), wake := false, entries := [],
                log := old(log) + [ObjectUpdated(AccountObj, account.other.accountId)],
                status := [Configured(now, 0, DEFAULT_NEGLIGIBLE_AMOUNT, DEFAULT_CONFIG_FLAGS, "")])
    {
      accountData := Some(account);
      hasPendingLedgerUpdate, ledgerEntries := false, [];
      log := log + [ObjectUpdated(AccountObj, account.other.accountId)];
      status := [Configured(now, 0, DEFAULT_NEGLIGIBLE_AMOUNT, DEFAULT_CONFIG_FLAGS, "")];
    }

    /** The list of accounts gets the next update id, and the log says so. */
    method LogAccountsListUpdate()
      requires creditor.Some?
      modifies this`creditor, this`log
      ensures creditor == Some(SystemSpec.ListChanged(old(creditor.value)))
      ensures log == old(log) + [AccountsListUpdated(creditor.value.accountsListId)]
    {
      creditor := Some(creditor.value.(accountsListId := creditor.value.accountsListId + 1));
      log := log + [AccountsListUpdated(creditor.value.accountsListId)];
    }

    method DeleteAccount(isPegged: bool, now: int) returns (error: Option<SystemSpec.Error>)
      modifies this
      ensures (View(), error) == SystemSpec.DeleteAccount(old(ViewAt(now)), isPegged)
    {
      hide SystemSpec.Deletions, SystemSpec.LastIssues;
      clock := now;
      if creditor.None? {
        return Some(SystemSpec.CreditorDoesNotExist);
      }
      if accountData.None? {
        return Some(SystemSpec.AccountDoesNotExist);
      }
      var data := accountData.value;
      if !(data.IsDeletionSafe() || data.config.allowUnsafeDeletion || data.other.display.debtorName.None?) {
        return Some(SystemSpec.UnsafeAccountDeletion);
      }
      if isPegged {
        return Some(SystemSpec.ForbiddenPegDeletion);
      }
      if data.ledger.lastEntryId > creditor.value.largestHistoricEntryId {
        creditor := Some(creditor.value.(largestHistoricEntryId := data.ledger.lastEntryId));
      }
      EndAccount(now);
      return None;
    }

    /** Deletes the row, and tells everybody. */
    method EndAccount(now: int)
      requires creditor.Some?
      modifies this`creditor, this`accountData, this`hasPendingLedgerUpdate, this`ledgerEntries, this`past, this`status,
               this`uidSeq, this`log, this`issued, this`signals
      ensures var c, id := SystemSpec.ListChanged(old(creditor.value)), old(uidSeq) + 1;
              View() == old(View()).(
                creditor := Some(c), account := None, wake := false, entries := [], past := old(past) + old(ledgerEntries),
                status := [], uidSeq := id,
                log := old(log) + [AccountsListUpdated(c.accountsListId)] + SystemSpec.Deletions(SystemSpec.KINDS, id),
                signals := old(signals) + SystemSpec.StopAccountTrade(id, now),
                issued := old(issued) + SystemSpec.LastIssues(SystemSpec.KINDS, id))
    {
      hide SystemSpec.Deletions, SystemSpec.LastIssues;
      DropAccount();
      LogAccountDeletion(now);
    }

    /** Deleting the row deletes the rows that depend on it. */
    method DropAccount()
      modifies this`accountData, this`hasPendingLedgerUpdate, this`ledgerEntries, this`past, this`status
      ensures accountData == None && !hasPendingLedgerUpdate && ledgerEntries == [] && status == []
      ensures past == old(past) + old(ledgerEntries)
    {
      past := past + ledgerEntries;
      accountData, hasPendingLedgerUpdate, ledgerEntries, status := None, false, [], [];
    }

    method LogAccountDeletion(now: int)
      requires creditor.Some?
      modifies this`creditor, this`uidSeq, this`log, this`issued, this`signals
      ensures uidSeq == old(uidSeq) + 1
      ensures creditor == Some(SystemSpec.ListChanged(old(creditor.value)))
      ensures log == old(log) + [AccountsListUpdated(creditor.value.accountsListId)]
                     + SystemSpec.Deletions(SystemSpec.KINDS, uidSeq)
      ensures issued == old(issued) + SystemSpec.LastIssues(SystemSpec.KINDS, uidSeq)
      ensures signals == old(signals) + SystemSpec.StopAccountTrade(uidSeq, now)
    {
      hide SystemSpec.Deletions, SystemSpec.LastIssues;
      var objectUpdateId := NextUid();
      LogAccountsListUpdate();
      ghost var logged := log;
      SystemSpec.NoDeletions(objectUpdateId);
      for k := 0 to |SystemSpec.KINDS|
        invariant uidSeq == objectUpdateId && signals == old(signals)
        invariant creditor == Some(SystemSpec.ListChanged(old(creditor.value)))
        invariant log == logged + SystemSpec.Deletions(SystemSpec.KINDS[..k], objectUpdateId)
        invariant issued == old(issued) + SystemSpec.LastIssues(SystemSpec.KINDS[..k], objectUpdateId)
      {
        SystemSpec.DeletionsGrow(SystemSpec.KINDS, k, objectUpdateId);
        log := log + [ObjectDeleted(SystemSpec.KINDS[k], objectUpdateId)];
        issued := issued + [Issue(SystemSpec.KINDS[k], objectUpdateId)];
      }
      assert SystemSpec.KINDS[..|SystemSpec.KINDS|] == SystemSpec.KINDS;
      signals := signals + SystemSpec.StopAccountTrade(objectUpdateId, now);
    }

    // ---------- Creditors ----------

    /** The row is inserted; it fails when there is one already. */
    method ReserveCreditor(reservationId: int, now: int) returns (error: Option<SystemSpec.Error>)
      modifies this
      ensures (View(), error) == SystemSpec.ReserveCreditor(old(ViewAt(now)), reservationId)
    {
      clock := now;
      if creditor.Some? {
        return Some(SystemSpec.CreditorExists);
      }
      creditor, past := Some(Creditor(false, false, Some(reservationId), now, None, 1, 0)), [];
      return None;
    }

    method ActivateCreditor(reservationId: int, now: int) returns (error: Option<SystemSpec.Error>)
      modifies this
      ensures (View(), error) == SystemSpec.ActivateCreditor(old(ViewAt(now)), reservationId)
    {
      clock := now;
      if creditor.None? {
        return Some(SystemSpec.InvalidReservationId);
      }
      if !creditor.value.activated {
        if Some(reservationId) != creditor.value.reservationId || creditor.value.deactivated {
          return Some(SystemSpec.InvalidReservationId);
        }
        creditor := Some(creditor.value.(activated := true, reservationId := None));
      }
      return None;
    }

    /** The creditors' scanner visits the row; what depends on a removed row goes with it. */
    method RemoveCreditor(p: SystemSpec.Params, now: int)
      modifies this
      ensures View() == SystemSpec.RemoveCreditor(p, old(ViewAt(now)))
    {
      clock := now;
      if creditor.Some? {
        var row := creditor.value;
        var notActivatedForLong := !row.activated && row.createdAt < now - p.inactiveRetention;
        var deactivatedLongAgo :=
          row.deactivated
          && (row.deactivationDate.None? || row.deactivationDate.value < DateOf(now - p.deactivatedRetention));
        if notActivatedForLong || deactivatedLongAgo {
          creditor := None;
          DropAccount();
        }
      }
    }

    method DeactivateCreditor(now: int)
      modifies this
      ensures View() == SystemSpec.DeactivateCreditor(old(ViewAt(now)))
    {
      hide SystemSpec.StopAccountTrade;
      clock := now;
      if creditor.Some? && creditor.value.IsActive() {
        creditor := Some(creditor.value.(deactivated := true, deactivationDate := Some(DateOf(now))));
        var objectUpdateId := NextUid();
        if accountData.Some? {
          DeleteCreditorAccount(objectUpdateId, now);
        }
      }
    }

    /** No log entries here: a deactivated creditor has no log to follow. */
    method DeleteCreditorAccount(objectUpdateId: int, now: int)
      modifies this`accountData, this`hasPendingLedgerUpdate, this`ledgerEntries, this`past, this`status,
               this`issued, this`signals
      ensures View() == old(View()).(
                account := None, wake := false, entries := [], past := old(past) + old(ledgerEntries), status := [],
                signals := old(signals) + SystemSpec.StopAccountTrade(objectUpdateId, now),
                issued := old(issued) + [Issue(LedgerObj, objectUpdateId), Issue(ExchangeObj, objectUpdateId),
                                         Issue(ConfigObj, objectUpdateId)])
    {
      signals := signals + SystemSpec.StopAccountTrade(objectUpdateId, now);
      issued := issued + [Issue(LedgerObj, objectUpdateId), Issue(ExchangeObj, objectUpdateId),
                          Issue(ConfigObj, objectUpdateId)];
      DropAccount();
    }

    // ---------- Configuration and information ----------

    method Announce(kind: Kind, updateId: int)
      modifies this`log, this`issued, this`uidSeq
      ensures View() == SystemSpec.Announce(old(View()), kind, updateId)
    {
      log := log + [ObjectUpdated(kind, updateId)];
      issued := issued + [Issue(kind, updateId)];
      var _ := NextUid();
    }

    /** Saves the row with the next info update id. */
    method InsertInfoUpdatePendingLogEntry(data: Account)
      modifies this`accountData, this`log, this`issued, this`uidSeq
      ensures View() == SystemSpec.TouchInfo(old(View()), data)
    {
      var updateId := data.info.updateId + 1;
      accountData := Some(data.(info := data.info.(updateId := updateId)));
      Announce(InfoObj, updateId);
    }

    /** The new configuration in the row, with the messages and the log entries about it. */
    method SaveConfig(data: Account, isInfoUpdated: bool, now: int)
      modifies this`accountData, this`status, this`signals, this`log, this`issued, this`uidSeq
      ensures var c := data.config;
              var s1 := SystemSpec.Announce(
                old(View()).(
                account := Some(data), signals := old(signals) + [UpdatedFlags(c.updateId, c.flags, now)],
                status := old(status) + [Configured(c.ts, c.seqnum, c.negligible, c.flags, c.data)]),
                ConfigObj, c.updateId);
              var s2 := if isInfoUpdated then SystemSpec.TouchInfo(s1, data) else s1;
              View() == s2.(signals := s2.signals + [ConfigureAccount(c.ts, c.seqnum, c.negligible, c.data, c.flags)])
    {
      hide SystemSpec.Announce, SystemSpec.TouchInfo;
      var c := data.config;
      accountData := Some(data);
      status := status + [Configured(c.ts, c.seqnum, c.negligible, c.flags, c.data)];
      signals := signals + [UpdatedFlags(c.updateId, c.flags, now)];
      Announce(ConfigObj, c.updateId);
      if isInfoUpdated {
        InsertInfoUpdatePendingLogEntry(data);
      }
      signals := signals + [ConfigureAccount(c.ts, c.seqnum, c.negligible, c.data, c.flags)];
    }

    method UpdateAccountConfig(deletion: bool, negligible: real, allowUnsafe: bool, configData: string,
                               updateId: int, now: int)
      returns (error: Option<SystemSpec.Error>)
      modifies this
      ensures (View(), error)
           == SystemSpec.UpdateConfig(old(ViewAt(now)), deletion, negligible, allowUnsafe, configData, updateId)
    {
      hide SystemSpec.TouchInfo, SystemSpec.Announce, WithDeletionFlag;
      clock := now;
      if accountData.None? {
        return Some(SystemSpec.AccountDoesNotExist);
      }
      var before := accountData.value;
      var config := before.config;
      var hasChanges := before.IsScheduledForDeletion() != deletion || config.negligible != negligible
                        || config.allowUnsafeDeletion != allowUnsafe || config.data != configData;
      if updateId == config.updateId && !hasChanges {
        return None;
      }
      if updateId != config.updateId + 1 {
        return Some(SystemSpec.UpdateConflict);
      }
      var data := new AccountData.Load(before, ledgerEntries);
      data.PerformConfigUpdate(deletion, negligible, allowUnsafe, configData, updateId, now);
      config := data.config;
      var after := before.(config := config);
      assert !data.IsDeletionSafe();
      SaveConfig(after, before.IsDeletionSafe(), now);
      return None;
    }

    method UpdateAccountDisplay(display: DisplayData, updateId: int, names: set<string>, peers: set<int>, now: int)
      returns (error: Option<SystemSpec.Error>)
      modifies this
      ensures (View(), error) == SystemSpec.UpdateOther(old(ViewAt(now)), updateId, NewDisplay(display), names, peers)
    {
      hide SystemSpec.Announce;
      clock := now;
      if accountData.None? {
        return Some(SystemSpec.AccountDoesNotExist);
      }
      var row := accountData.value.other;
      if updateId == row.displayId && row.display == display {
        return None;
      }
      if updateId != row.displayId + 1 {
        return Some(SystemSpec.UpdateConflict);
      }
      if display.debtorName != row.display.debtorName && display.debtorName.Some? {
        if display.debtorName.value in names {
          return Some(SystemSpec.DebtorNameConflict);
        }
      }
      assert signals + [] == signals;
      accountData := Some(accountData.value.(other := row.(display := display, displayId := updateId)));
      Announce(DisplayObj, updateId);
      return None;
    }

    method UpdateAccountKnowledge(knowledge: string, updateId: int, names: set<string>, peers: set<int>, now: int)
      returns (error: Option<SystemSpec.Error>)
      modifies this
      ensures (View(), error)
           == SystemSpec.UpdateOther(old(ViewAt(now)), updateId, NewKnowledge(knowledge), names, peers)
    {
      hide SystemSpec.Announce;
      clock := now;
      if accountData.None? {
        return Some(SystemSpec.AccountDoesNotExist);
      }
      var row := accountData.value.other;
      if updateId == row.knowledgeId && row.knowledge == knowledge {
        return None;
      }
      if updateId != row.knowledgeId + 1 {
        return Some(SystemSpec.UpdateConflict);
      }
      assert signals + [] == signals;
      accountData := Some(accountData.value.(other := row.(knowledge := knowledge, knowledgeId := updateId)));
      Announce(KnowledgeObj, updateId);
      return None;
    }

    method UpdateAccountExchange(exchange: ExchangeData, updateId: int, names: set<string>, peers: set<int>, now: int)
      returns (error: Option<SystemSpec.Error>)
      modifies this
      ensures (View(), error) == SystemSpec.UpdateOther(old(ViewAt(now)), updateId, NewExchange(exchange), names, peers)
    {
      hide SystemSpec.Announce;
      clock := now;
      if accountData.None? {
        return Some(SystemSpec.AccountDoesNotExist);
      }
      var row := accountData.value.other;
      if updateId == row.exchangeId && row.exchange == exchange {
        return None;
      }
      if updateId != row.exchangeId + 1 {
        return Some(SystemSpec.UpdateConflict);
      }
      if exchange.pegDebtorId.Some? {
        if exchange.pegDebtorId.value !in peers {
          return Some(SystemSpec.PegDoesNotExist);
        }
      }
      accountData := Some(accountData.value.(other := row.(exchange := exchange, exchangeId := updateId)));
      signals := signals + [UpdatedPolicy(updateId, exchange, now)];
      Announce(ExchangeObj, updateId);
      return None;
    }

    method ProcessRejectedConfigSignal(m: RejectedMsg, now: int)
      modifies this
      ensures View() == SystemSpec.RejectConfig(old(ViewAt(now)), m)
    {
      clock := now;
      if accountData.Some? {
        var data := accountData.value;
        if data.config.ts == m.configTs && data.config.seqnum == m.configSeqnum
           && data.config.flags == m.configFlags && data.config.data == m.configData
           && data.info.configError.None? && CloseTo(data.config.negligible, m.negligible) {
          InsertInfoUpdatePendingLogEntry(data.(info := data.info.(configError := Some(m.code))));
        }
      }
    }

    method ProcessAccountPurgeSignal(creationDate: int, now: int)
      modifies this
      ensures View() == SystemSpec.PurgeAccount(old(ViewAt(now)), creationDate)
    {
      clock := now;
      if accountData.Some? {
        var data := accountData.value;
        if data.server.hasAccount && data.server.creationDate <= creationDate {
          status := status + [PurgeAccepted];
          InsertInfoUpdatePendingLogEntry(data.(server := data.server.(hasAccount := false, principal := 0)));
        }
      }
    }

    /** The update's effect on the ledger. */
    method ResetLedger(before: Account, isNewServerAccount: bool, now: int)
      requires In64(before.ledger.principal) && clock == now
      requires accountData == Some(before)
      modifies this
      ensures View() == SystemSpec.ResetLedger(old(View()), before, isNewServerAccount)
    {
      hide LedgerSpec.UpdateLedger;
      var data := new AccountData.Load(before, ledgerEntries);
      var principal, number := data.ledgerPrincipal, data.ledgerLastTransferNumber;
      if isNewServerAccount {
        data.ledgerPendingTransferTs := None;
        principal, number := 0, 0;
      }
      LedgerSpec.UpdateLedgerTells(data.Ledger(), before.server.creationDate, number, 0, principal, now);
      var logEntry := data.UpdateLedger(number, 0, principal, now, true);
      SaveReset(before.(ledger := data.Ledger()), data.ledgerEntries, logEntry.value, now);
    }

    /** The ledger that a reset has left, with its notices and its wake-up row. */
    method SaveReset(account: Account, entries: seq<Entry>, logEntry: LogItem, now: int)
      modifies this`accountData, this`ledgerEntries, this`signals, this`log, this`issued, this`uidSeq,
               this`hasPendingLedgerUpdate
      ensures View() == old(View()).(
                account := Some(account), entries := entries, wake := true,
                signals := old(signals) + [UpdatedLedger(
                               account.ledger.updateId, account.info.accountId, account.server.creationDate,
                               account.ledger.principal, account.ledger.lastTransferNumber, now)],
                log := old(log) + [logEntry], issued := old(issued) + [Issue(LedgerObj, account.ledger.updateId)],
                uidSeq := old(uidSeq) + 1)
    {
      ledgerEntries := entries;
      accountData := Some(account);
      NotifyLedgerUpdate(account, logEntry, now);
      var _ := NextUid();
      hasPendingLedgerUpdate := true;
    }

    method ProcessAccountUpdateSignal(m: UpdateMsg, now: int)
      requires SystemSpec.ColumnsFit(View())
      modifies this
      ensures View() == SystemSpec.AccountUpdate(old(ViewAt(now)), m)
    {
      clock := now;
      if now - m.ts > m.ttl * SECOND {
        return;
      }
      if accountData.None? {
        DiscardOrphanedAccount(m, now);
        return;
      }
      var data := accountData.value;
      if m.ts > data.server.lastHeartbeatTs {
        data := data.(server := data.server.(lastHeartbeatTs := Min(m.ts, now)));
      }
      accountData := Some(data);
      if !IsNewer(m, data) {
        return;
      }
      assert m.creationDate >= data.server.creationDate;
      var isNewServerAccount := m.creationDate > data.server.creationDate;
      var isAccountIdChanged := m.accountId != data.info.accountId;
      var isInfoUpdated := SystemSpec.IsInfoUpdated(data, m);
      data := SystemSpec.Updated(data, m);
      accountData := Some(data);
      status := status + [UpdateAccepted(m)];
      if isInfoUpdated {
        InsertInfoUpdatePendingLogEntry(data);
      }
      if isNewServerAccount || isAccountIdChanged {
        ResetLedger(accountData.value, isNewServerAccount, now);
      }
    }

    method DiscardOrphanedAccount(m: UpdateMsg, now: int)
      requires clock == now
      modifies this`signals
      ensures View() == SystemSpec.DiscardOrphan(old(View()), m)
    {
      var isAlreadyDiscarded := m.configFlags % 2 == 1 && m.negligible >= (1.0 - EPS) * HUGE_NEGLIGIBLE_AMOUNT;
      if !isAlreadyDiscarded {
        signals := signals + [ConfigureAccount(
          now, 0, HUGE_NEGLIGIBLE_AMOUNT, "", WithDeletionFlag(DEFAULT_CONFIG_FLAGS, true))];
      }
    }

    // ---------- Committed transfers ----------

    method ProcessAccountTransferSignal(p: SystemSpec.Params, t: Transfer, ts: int, now: int)
      modifies this
      ensures View() == SystemSpec.ArriveTransfer(p, old(ViewAt(now)), t, ts)
    {
      clock := now;
      if now - Min(ts, t.committedAt) > p.logRetention {
        return;
      }
      if exists u :: u in committedTransfers && u.date == t.date && u.number == t.number {
        return;
      }
      if accountData.None? {
        return;
      }
      committedTransfers := SystemSpec.Insert(committedTransfers, t);
      stored := stored + [(t.date, t.number)];
      log := log + [TransferCommitted(t.date, t.number)];
      if t.date == accountData.value.server.creationDate && t.prev == accountData.value.ledger.lastTransferNumber {
        hasPendingLedgerUpdate := true;
      }
    }

    /** The scanner of committed transfers, on the rows of a block that have the given keys. */
    method CollectTransfers(p: SystemSpec.Params, keys: set<(int, int)>, now: int)
      modifies this
      ensures View() == SystemSpec.CollectTransfers(p, old(ViewAt(now)), keys)
    {
      clock := now;
      var retention := p.maxDelay + (if p.logRetention > p.ledgerRetention then p.logRetention else p.ledgerRetention);
      ghost var whole := SystemSpec.Remove(committedTransfers, keys, now - retention);
      var rest, kept := committedTransfers, [];
      while rest != []
        invariant whole == kept + SystemSpec.Remove(rest, keys, now - retention)
        decreases |rest|
      {
        var row := rest[0];
        if !((row.date, row.number) in keys && row.committedAt < now - retention) {
          kept := kept + [row];
        }
        rest := rest[1..];
      }
      committedTransfers := kept;
    }

    // ---------- The account scanner ----------

    /** The scanner's own correcting loop, on copies of the columns. */
    method PostScannerCorrections(ledger: LedgerData, principal: int, now: int) returns (ledgerLastEntryId: int)
      requires In64(principal)
      modifies this`ledgerEntries
      ensures var es := LedgerSpec.CorrectingEntries(ledger.lastEntryId, ledger.principal, principal, now);
              && ledgerEntries == old(ledgerEntries) + es
              && ledgerLastEntryId == ledger.lastEntryId + |es|
    {
      var ledgerPrincipal := ledger.principal;
      ledgerLastEntryId := ledger.lastEntryId;
      var correctionAmount := principal - ledgerPrincipal;
      ghost var whole := LedgerSpec.Postings(ledgerLastEntryId, ledgerPrincipal, Corrections(correctionAmount), now);
      ghost var posted: seq<Entry> := [];
      hide LedgerSpec.Postings, Corrections, ContainPrincipalOverflow;
      while correctionAmount != 0
        invariant ledgerEntries == old(ledgerEntries) + posted
        invariant ledgerLastEntryId == ledger.lastEntryId + |posted|
        invariant whole == posted + LedgerSpec.Postings(
                                      ledgerLastEntryId, ledgerPrincipal, Corrections(correctionAmount), now)
        decreases Abs(correctionAmount)
      {
        var safeAmount := ContainPrincipalOverflow(correctionAmount);
        LedgerSpec.PostingsStep(ledgerLastEntryId, ledgerPrincipal, correctionAmount, now);
        correctionAmount := correctionAmount - safeAmount;
        ledgerPrincipal := ledgerPrincipal + safeAmount;
        ledgerLastEntryId := ledgerLastEntryId + 1;
        var entry := Entry(ledgerLastEntryId, safeAmount, ledgerPrincipal, None, now);
        Associate(posted, [entry], LedgerSpec.Postings(
                    ledgerLastEntryId, ledgerPrincipal, Corrections(correctionAmount), now));
        ledgerEntries := ledgerEntries + [entry];
        posted := posted + [entry];
      }
      LedgerSpec.PostingsEnd(ledgerLastEntryId, ledgerPrincipal, now);
    }

    method CorrectLedger(now: int)
      requires clock == now && SystemSpec.ColumnsFit(View())
      modifies this
      ensures View() == SystemSpec.CorrectLedger(old(View()))
    {
      if accountData.None? || !LedgerSpec.NeedsCorrection(accountData.value, now) {
        return;
      }
      var data := accountData.value;
      var lastEntryId := PostScannerCorrections(data.ledger, data.server.principal, now);
      data := data.(ledger := data.ledger.(
        principal := data.server.principal, lastEntryId := lastEntryId,
        updateId := data.ledger.updateId + 1, updateTs := now));
      accountData := Some(data);
      NotifyLedgerUpdate(data, LedgerUpdated(data.ledger.updateId, data.ledger.principal, lastEntryId + 1), now);
      var _ := NextUid();
    }

    /** A visit of the account scanner; the row is read before anything is changed. */
    method ProcessRow(p: SystemSpec.Params, now: int)
      requires SystemSpec.ColumnsFit(View())
      modifies this
      ensures View() == SystemSpec.ScanAccount(p, old(ViewAt(now)))
    {
      clock := now;
      if accountData.None? {
        return;
      }
      var row := accountData.value;
      CorrectLedger(now);
      if LedgerSpec.NeedsRepair(row, p.maxDelay, now) {
        hasPendingLedgerUpdate := true;
      }
      if SystemSpec.HasConfigProblem(p, accountData.value, now) {
        var data := accountData.value;
        InsertInfoUpdatePendingLogEntry(
          data.(info := data.info.(configError := Some(CONFIGURATION_IS_NOT_EFFECTUAL))));
      }
    }
  }
}
