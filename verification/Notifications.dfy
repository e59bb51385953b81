/**
 * Ledger notifications: one for every processing step that changes the ledger, and a faithful one,
 * although the step keeps only the last of the notifications that its updates produce.
 */
module Notifications {
  import opened Options
  import opened Int64
  import opened AccountModel
  import opened LedgerSpec
  import opened StepEffects
  import opened SystemSpec
  import Ids

  /** What clients have to be told about a ledger. */
  function Notice(l: LedgerData): LogItem {
    LedgerUpdated(l.updateId, l.principal, l.lastEntryId + 1)
  }

  function NoticeSignal(a: Account, now: int): Signal {
    UpdatedLedger(a.ledger.updateId, a.info.accountId, a.server.creationDate, a.ledger.principal,
                  a.ledger.lastTransferNumber, now)
  }

  /** Entries and a notice about the final ledger, or no entries and nothing to tell. */
  ghost predicate ToldTruly(l: LedgerData, es: seq<Entry>, log: Option<LogItem>, l': LedgerData) {
    && (log == if es == [] then None else Some(Notice(l')))
    && l'.lastEntryId == l.lastEntryId + |es|
    && (es == [] ==> l'.principal == l.principal && l'.updateId == l.updateId && l'.updateTs == l.updateTs)
  }

  lemma ToldTwice(l: LedgerData, es: seq<Entry>, log: Option<LogItem>, l1: LedgerData,
                  fs: seq<Entry>, next: Option<LogItem>, l2: LedgerData)
    requires ToldTruly(l, es, log, l1) && ToldTruly(l1, fs, next, l2)
    ensures ToldTruly(l, es + fs, OrElse(next, log), l2)
  {
  }

  lemma UpdateTellsTruly(l: LedgerData, date: int, number: int, amount: int, principal: int, now: int)
    requires In64(principal)
    ensures var e := UpdateLedger(l, date, number, amount, principal, now, false);
            ToldTruly(l, e.entries, e.log, e.ledger)
  {
    var previous := principal - amount;
    if amount == 0 && l.principal != principal {
      assert Corrections(previous - l.principal) != [];
    }
  }

  lemma {:induction false} PassTellsTruly(l: LedgerData, date: int, ts: seq<Transfer>, cutoff: int, now: int)
    requires forall t :: t in ts ==> ValidTransfer(t)
    ensures var r := Pass(l, date, ts, cutoff, now); ToldTruly(l, r.entries, r.log, r.ledger)
    decreases |ts|
  {
    if ts != [] && !MustWait(l, ts[0], cutoff) {
      assert ts[0] in ts;
      var e := UpdateLedger(l, date, ts[0].number, ts[0].amount, ts[0].principal, now, false);
      UpdateTellsTruly(l, date, ts[0].number, ts[0].amount, ts[0].principal, now);
      PassTellsTruly(e.ledger, date, ts[1..], cutoff, now);
      var r := Pass(e.ledger, date, ts[1..], cutoff, now);
      ToldTwice(l, e.entries, e.log, e.ledger, r.entries, r.log, r.ledger);
    }
  }

  lemma FinishTellsTruly(l: LedgerData, r: Scan, exhausted: bool, date: int, latest: Latest, cutoff: int, now: int)
    requires ToldTruly(l, r.entries, r.log, r.ledger) && In64(latest.principal)
    ensures var w := Finish(r, exhausted, date, latest, cutoff, now); ToldTruly(l, w.entries, w.log, w.ledger)
  {
    var l1 := r.ledger.(pendingTransferTs := r.blockedAt);
    UpdateTellsTruly(l1, date, latest.number, 0, latest.principal, now);
    var c := CatchUp(l1, date, latest, cutoff, now);
    assert ToldTruly(l1, c.entries, c.log, c.ledger);
    ToldTwice(l, r.entries, r.log, l1, c.entries, c.log, c.ledger);
  }

  /** The ledger is unchanged to clients, or has one new log entry and one new signal about it. */
  ghost predicate Notified(s: State, s': State)
    requires s.account.Some? && s'.account.Some?
  {
    var l, l' := s.account.value.ledger, s'.account.value.ledger;
    if l'.lastEntryId == l.lastEntryId then
      l'.principal == l.principal && l'.updateId == l.updateId
      && s'.log == s.log && s'.signals == s.signals && s'.entries == s.entries
    else
      l'.updateId > l.updateId
      && s'.log == s.log + [Notice(l')] && s'.signals == s.signals + [NoticeSignal(s'.account.value, s.clock)]
  }

  lemma CommitNotifies(s: State, a: Account, w: Work)
    requires s.account == Some(a) && ToldTruly(a.ledger, w.entries, w.log, w.ledger)
    requires w.log.Some? ==> w.ledger.updateId > a.ledger.updateId
    ensures Notified(s, Commit(s, a, w))
  {
    assert s.entries + [] == s.entries;
  }

  lemma WorkNotifies(s: State, a: Account, ts: seq<Transfer>, exhausted: bool, cutoff: int)
    requires s.account == Some(a) && In64(a.server.principal) && (forall t :: t in ts ==> ValidTransfer(t))
    ensures var date := a.server.creationDate;
            var w := Finish(Pass(a.ledger, date, ts, cutoff, s.clock), exhausted, date, LatestOf(a), cutoff, s.clock);
            Notified(s, Commit(s, a, w))
  {
    var date, now := a.server.creationDate, s.clock;
    PassTellsTruly(a.ledger, date, ts, cutoff, now);
    Ids.PassIds(a.ledger, date, ts, cutoff, now);
    var r := Pass(a.ledger, date, ts, cutoff, now);
    FinishTellsTruly(a.ledger, r, exhausted, date, LatestOf(a), cutoff, now);
    hide LedgerSpec.Pass, SystemSpec.Commit, ToldTruly, Notified;
    CommitNotifies(s, a, Finish(r, exhausted, date, LatestOf(a), cutoff, now));
  }

  lemma NothingToTell(s: State)
    requires s.account.Some?
    ensures Notified(s, s)
  {
  }

  /** Both forms of the processing step notify faithfully. */
  lemma ProcessingNotifies(p: Params, s: State)
    requires ValidParams(p) && ColumnsFit(s) && s.account.Some?
    ensures Notified(s, ProcessBurst(p, s)) && Notified(s, ProcessOnePass(p, s))
  {
    hide LedgerSpec.Pass, LedgerSpec.Finish, LedgerSpec.Pending, SystemSpec.Commit, Notified;
    if s.wake {
      var a, cutoff := s.account.value, s.clock - p.maxDelay;
      var ts := PendingOf(a, s.store);
      PendingIsStored(s.store, a.server.creationDate, a.ledger.lastTransferNumber);
      var few := Take(ts, p.burst);
      WorkNotifies(s, a, ts, true, cutoff);
      WorkNotifies(s, a, few, |few| < p.burst, cutoff);
    } else {
      NothingToTell(s);
    }
  }

  /** So does the scanner's correction. */
  lemma CorrectionNotifies(s: State)
    requires ColumnsFit(s) && s.account.Some?
    ensures Notified(s, CorrectLedger(s))
  {
    if NeedsCorrection(s.account.value, s.clock) {
      var a := s.account.value;
      assert Corrections(a.server.principal - a.ledger.principal) != [];
    }
  }

  lemma ResetTells(l: LedgerData, isNew: bool, date: int, now: int)
    ensures var e := ResetOf(l, isNew, date, now);
            e.log == Some(Notice(e.ledger)) && e.ledger.updateId == l.updateId + 1
  {
  }

  /** The given items are the last new ones; the only other one can be about the account's info. */
  ghost predicate LogsInfoAnd(s: State, s': State, items: seq<LogItem>)
    requires s'.account.Some?
  {
    || s'.log == s.log + items
    || s'.log == s.log + [ObjectUpdated(InfoObj, s'.account.value.info.updateId)] + items
  }

  lemma RefreshLogsInfo(s: State, m: UpdateMsg)
    requires s.account.Some?
    ensures Refreshed(s, m).account.Some? && LogsInfoAnd(s, Refreshed(s, m), [])
  {
    hide SystemSpec.IsInfoUpdated, AccountModel.Confirms;
    assert s.log + [] == s.log;
  }

  /** An account update leaves the ledger alone, or resets it and tells so once. */
  lemma ResetNotifies(s: State, m: UpdateMsg)
    requires s.account.Some?
    ensures var s' := AccountUpdate(s, m);
            && s'.account.Some?
            && var l, l' := s.account.value.ledger, s'.account.value.ledger;
               || (l' == l && s'.signals == s.signals && s'.entries == s.entries && LogsInfoAnd(s, s', []))
               || (l'.updateId == l.updateId + 1 && LogsInfoAnd(s, s', [Notice(l')])
                   && s'.signals == s.signals + [NoticeSignal(s'.account.value, s.clock)])
  {
    hide Refreshed, LedgerSpec.ResetOf;
    var s0 := s.(account := Some(Heard(s.account.value, m, s.clock)));
    RefreshEffect(s0, m);
    RefreshLogsInfo(s0, m);
    assert s.log + [] == s.log;
    var a, isNew := Refreshed(s0, m).account.value, m.creationDate > s0.account.value.server.creationDate;
    ResetTells(a.ledger, isNew, a.server.creationDate, s.clock);
  }

  /** As long as the creditor is active, his list of accounts never changes without a new id and a log entry. */
  lemma MembershipIsAnnounced(p: Params, s: State, now: int, step: Step)
    requires ValidParams(p) && ValidStep(step) && HasActiveCreditor(s) && HasActiveCreditor(Apply(p, s, now, step))
    requires s.account.Some? != Apply(p, s, now, step).account.Some?
    ensures var s' := Apply(p, s, now, step); var id := s'.creditor.value.accountsListId;
            && id == s.creditor.value.accountsListId + 1
            && s.log <= s'.log && AccountsListUpdated(id) in s'.log[|s.log|..]
  {
    hide Apply, IsDisposable, SystemSpec.LastIssues, SystemSpec.FirstIssues, ProcessBurst, ProcessOnePass, ScanAccount,
         AccountUpdate, LeavesLedger;
    var s', before := Apply(p, s, now, step), |s.log|;
    if step.Create? {
      LedgerSteps(p, s, now, step);
      assert s'.log[before..][1] == AccountsListUpdated(s'.creditor.value.accountsListId);
    } else if IsLedgerStep(step) {
      LedgerStepsStayInside(p, s, now, step);
    } else if IsLifecycle(step) {
      LifecycleSteps(p, s, now, step);
      if step.Delete? {
        assert s'.log[before..][0] == AccountsListUpdated(s'.creditor.value.accountsListId);
      }
    } else if IsRequest(step) {
      RequestEffect(p, s, now, step);
    } else {
      TransferEffect(p, s, now, step);
    }
  }
}
