/**
 * What each kind of step can do to the ledger at all. The steps that work on the ledger are named,
 * and all the others are shown to leave it alone.
 */
module StepEffects {
  import opened Options
  import opened AccountModel
  import opened LedgerSpec
  import opened SystemSpec

  /** The steps that create a ledger, or write to one. */
  predicate IsLedgerStep(step: Step) {
    step.Burst? || step.OnePass? || step.Update? || step.ScanRow? || step.Create?
  }

  /** The other steps that create, change or delete rows of the creditor or of the account. */
  predicate IsLifecycle(step: Step) {
    step.Reserve? || step.Activate? || step.Deactivate? || step.RemoveTheCreditor? || step.Delete? || step.Others?
  }

  predicate IsRequest(step: Step) {
    step.Reconfigure? || step.Rewrite? || step.Reject? || step.Purge?
  }

  /** The columns that decide how the ledger goes on. */
  datatype LedgerRow = LedgerRow(ledger: LedgerData, date: int, lastNumber: int, lastCommittedAt: int)

  function LedgerRowOf(a: Account): LedgerRow {
    LedgerRow(a.ledger, a.server.creationDate, a.server.lastTransferNumber, a.server.lastTransferCommittedAt)
  }

  /** The ledger is as it was, or is gone with its account. */
  ghost predicate LeavesLedger(s: State, s': State) {
    if s'.account.Some? then
      && s.account.Some? && s'.entries == s.entries
      && LedgerRowOf(s'.account.value) == LedgerRowOf(s.account.value)
      && s'.account.value.server.principal in {s.account.value.server.principal, 0}
    else
      (s.account.None? && s'.entries == s.entries && s'.wake == s.wake) || (s'.entries == [] && !s'.wake)
  }

  /** The tables of transfers and wake-ups, and the histories, are as they were. */
  ghost predicate LeavesTransfers(s: State, s': State) {
    s'.store == s.store && s'.stored == s.stored && (s'.account.Some? ==> s'.wake == s.wake)
  }

  lemma LifecycleEffect(p: Params, s: State, now: int, step: Step)
    requires ValidParams(p) && ValidStep(step) && IsLifecycle(step)
    ensures LeavesLedger(s, Apply(p, s, now, step)) && LeavesTransfers(s, Apply(p, s, now, step))
  {
    hide IsDisposable, SystemSpec.Deletions, SystemSpec.LastIssues, SystemSpec.UpdateConfig, SystemSpec.UpdateOther,
         SystemSpec.AccountUpdate, SystemSpec.ScanAccount, SystemSpec.ProcessBurst, SystemSpec.ProcessOnePass,
         SystemSpec.CreateAccount, SystemSpec.ArriveTransfer;
  }

  lemma RequestEffect(p: Params, s: State, now: int, step: Step)
    requires ValidParams(p) && ValidStep(step) && IsRequest(step)
    ensures var s' := Apply(p, s, now, step);
            && LeavesLedger(s, s') && LeavesTransfers(s, s')
            && s'.past == s.past && s'.creditor == s.creditor && (s'.account.Some? <==> s.account.Some?)
  {
    hide ConflictOf, IsCurrent, AccountModel.CloseTo, SystemSpec.DeleteAccount, SystemSpec.DeactivateCreditor,
         SystemSpec.AccountUpdate, SystemSpec.ScanAccount, SystemSpec.ProcessBurst, SystemSpec.ProcessOnePass,
         SystemSpec.CreateAccount, SystemSpec.ArriveTransfer, SystemSpec.RemoveCreditor, SystemSpec.UpdateConfig;
    if step.Reconfigure? {
      ReconfigurationEffect(s.(clock := now), step.deletion, step.negligible, step.allowUnsafe, step.data, step.updateId);
    }
  }

  lemma ReconfigurationEffect(s: State, deletion: bool, negligible: real, allowUnsafe: bool, data: string, updateId: int)
    ensures var s' := UpdateConfig(s, deletion, negligible, allowUnsafe, data, updateId).0;
            && LeavesLedger(s, s') && LeavesTransfers(s, s')
            && s'.past == s.past && s'.creditor == s.creditor && (s'.account.Some? <==> s.account.Some?)
  {
  }

  /** A transfer that arrives or is collected touches nothing but the tables of transfers. */
  lemma TransferEffect(p: Params, s: State, now: int, step: Step)
    requires ValidParams(p) && ValidStep(step) && (step.Arrive? || step.Collect?)
    ensures var s' := Apply(p, s, now, step);
            && LeavesLedger(s, s') && s'.past == s.past && s'.creditor == s.creditor && s'.account == s.account
            && (s.wake ==> s'.wake)
            && s'.store == (if step.Arrive? then ArriveTransfer(p, s.(clock := now), step.transfer, step.ts).store
                            else CollectTransfers(p, s.(clock := now), step.keys).store)
  {
    hide IsStored, Insert, SystemSpec.Remove, SystemSpec.DeleteAccount, SystemSpec.DeactivateCreditor,
         SystemSpec.AccountUpdate, SystemSpec.ScanAccount, SystemSpec.ProcessBurst, SystemSpec.ProcessOnePass,
         SystemSpec.CreateAccount, SystemSpec.UpdateConfig, SystemSpec.UpdateOther, SystemSpec.RemoveCreditor;
  }

  lemma OtherStepsLeaveLedger(p: Params, s: State, now: int, step: Step)
    requires ValidParams(p) && ValidStep(step) && !IsLedgerStep(step)
    ensures LeavesLedger(s, Apply(p, s, now, step))
  {
    hide Apply, LeavesLedger;
    if IsLifecycle(step) {
      LifecycleEffect(p, s, now, step);
    } else if IsRequest(step) {
      RequestEffect(p, s, now, step);
    } else {
      TransferEffect(p, s, now, step);
    }
  }

  lemma LedgerSteps(p: Params, s: State, now: int, step: Step)
    requires ValidParams(p) && ValidStep(step) && IsLedgerStep(step)
    ensures step.Burst? ==> Apply(p, s, now, step) == ProcessBurst(p, s.(clock := now))
    ensures step.OnePass? ==> Apply(p, s, now, step) == ProcessOnePass(p, s.(clock := now))
    ensures step.Update? ==> Apply(p, s, now, step) == AccountUpdate(s.(clock := now), step.msg)
    ensures step.ScanRow? ==> Apply(p, s, now, step) == ScanAccount(p, s.(clock := now))
    ensures step.Create? ==> Apply(p, s, now, step) == CreateAccount(s.(clock := now), step.order).0
  {
    hide SystemSpec.ProcessBurst, SystemSpec.ProcessOnePass, SystemSpec.AccountUpdate, SystemSpec.ScanAccount,
         SystemSpec.CreateAccount;
  }

  lemma LifecycleSteps(p: Params, s: State, now: int, step: Step)
    requires ValidParams(p) && ValidStep(step) && IsLifecycle(step)
    ensures step.Reserve? ==> Apply(p, s, now, step) == ReserveCreditor(s.(clock := now), step.reservationId).0
    ensures step.Activate? ==> Apply(p, s, now, step) == ActivateCreditor(s.(clock := now), step.reservationId).0
    ensures step.Deactivate? ==> Apply(p, s, now, step) == DeactivateCreditor(s.(clock := now))
    ensures step.RemoveTheCreditor? ==> Apply(p, s, now, step) == RemoveCreditor(p, s.(clock := now))
    ensures step.Delete? ==> Apply(p, s, now, step) == DeleteAccount(s.(clock := now), step.isPegged).0
    ensures step.Others? ==>
              Apply(p, s, now, step) == OtherAccounts(s.(clock := now), step.drawn, step.largest, step.listed)
  {
    hide SystemSpec.ReserveCreditor, SystemSpec.ActivateCreditor, SystemSpec.DeactivateCreditor,
         SystemSpec.RemoveCreditor, SystemSpec.DeleteAccount, SystemSpec.OtherAccounts;
  }

  lemma RequestSteps(p: Params, s: State, now: int, step: Step)
    requires ValidParams(p) && ValidStep(step) && IsRequest(step)
    ensures step.Reconfigure? ==>
              Apply(p, s, now, step) == UpdateConfig(s.(clock := now), step.deletion, step.negligible, step.allowUnsafe,
                                                     step.data, step.updateId).0
    ensures step.Rewrite? ==>
              Apply(p, s, now, step) == UpdateOther(s.(clock := now), step.updateId, step.rewriting, step.names, step.peers).0
    ensures step.Reject? ==> Apply(p, s, now, step) == RejectConfig(s.(clock := now), step.rejected)
    ensures step.Purge? ==> Apply(p, s, now, step) == PurgeAccount(s.(clock := now), step.creationDate)
  {
    hide SystemSpec.UpdateConfig, SystemSpec.UpdateOther, SystemSpec.RejectConfig, SystemSpec.PurgeAccount;
  }

  lemma TransferSteps(p: Params, s: State, now: int, step: Step)
    requires ValidParams(p) && ValidStep(step) && (step.Arrive? || step.Collect?)
    ensures step.Arrive? ==> Apply(p, s, now, step) == ArriveTransfer(p, s.(clock := now), step.transfer, step.ts)
    ensures step.Collect? ==> Apply(p, s, now, step) == CollectTransfers(p, s.(clock := now), step.keys)
  {
    hide SystemSpec.ArriveTransfer, SystemSpec.CollectTransfers;
  }

  // ---------- Processing and scanning ----------

  /** Only the account's row, its ledger, the wake-up row and the histories can change. */
  ghost predicate WorksOnAccount(s: State, s': State) {
    && (s'.account.Some? <==> s.account.Some?)
    && (s.account.Some? ==>
          s'.account.value == s.account.value.(ledger := s'.account.value.ledger, info := s'.account.value.info))
    && s.signals <= s'.signals
    && s' == s.(account := s'.account, entries := s'.entries, wake := s'.wake, log := s'.log, signals := s'.signals,
                issued := s'.issued, uidSeq := s'.uidSeq)
  }

  lemma ProcessingEffect(p: Params, s: State)
    requires ValidParams(p)
    ensures WorksOnAccount(s, ProcessBurst(p, s)) && WorksOnAccount(s, ProcessOnePass(p, s))
  {
    hide LedgerSpec.BurstWork, LedgerSpec.OnePassWork;
  }

  lemma ScanEffect(p: Params, s: State)
    ensures WorksOnAccount(s, ScanAccount(p, s)) && (s.wake ==> ScanAccount(p, s).wake)
  {
    hide LedgerSpec.NeedsCorrection, LedgerSpec.NeedsRepair, LedgerSpec.CorrectingEntries, SystemSpec.HasConfigProblem;
  }

  // ---------- Account updates ----------

  ghost predicate KeepsLedger(s: State, s': State) {
    && s.account.Some? && s'.account.Some? && s'.entries == s.entries
    && s'.account.value.ledger == s.account.value.ledger
    && s'.account.value.server.creationDate == s.account.value.server.creationDate
  }

  ghost predicate ResetsLedger(s: State, s': State) {
    && s.account.Some? && s'.account.Some? && s'.wake
    && var date, date' := s.account.value.server.creationDate, s'.account.value.server.creationDate;
       var e := ResetOf(s.account.value.ledger, date' > date, date', s.clock);
       && date <= date'
       && s'.account.value.ledger == e.ledger && s'.entries == s.entries + e.entries
  }

  lemma RefreshEffect(s: State, m: UpdateMsg)
    requires s.account.Some?
    ensures var s', a := Refreshed(s, m), Updated(s.account.value, m);
            && s'.account.Some? && s'.account.value == a.(info := s'.account.value.info)
            && s' == s.(account := s'.account, status := s.status + [UpdateAccepted(m)], log := s'.log,
                        issued := s'.issued, uidSeq := s'.uidSeq)
  {
    hide IsInfoUpdated, AccountModel.Confirms;
  }

  /** An account update keeps the ledger, or resets it; and it touches no other tables. */
  lemma UpdateEffect(s: State, m: UpdateMsg)
    ensures var s' := AccountUpdate(s, m);
            && (if s.account.None? then s'.account.None? && s'.entries == s.entries && s'.wake == s.wake
                else KeepsLedger(s, s') || ResetsLedger(s, s'))
            && s'.past == s.past && s'.creditor == s.creditor && s'.store == s.store && s'.stored == s.stored
            && (s.account.Some? ==> s'.account.value.server.principal in {s.account.value.server.principal, m.principal}
                                    && (s.wake ==> s'.wake))
  {
    hide Refreshed, LedgerSpec.ResetOf;
    if s.account.Some? {
      RefreshEffect(s.(account := Some(Heard(s.account.value, m, s.clock))), m);
    }
  }

  /** The steps that write to the ledger touch no other tables, and neither begin nor end anything. */
  lemma LedgerStepsStayInside(p: Params, s: State, now: int, step: Step)
    requires ValidParams(p) && ValidStep(step) && IsLedgerStep(step) && !step.Create?
    ensures var s' := Apply(p, s, now, step);
            && s'.past == s.past && s'.creditor == s.creditor && s'.store == s.store && s'.stored == s.stored
            && (s'.account.Some? <==> s.account.Some?)
  {
    hide Apply, ProcessBurst, ProcessOnePass, AccountUpdate, ScanAccount;
    LedgerSteps(p, s, now, step);
    var s1 := s.(clock := now);
    match step {
      case Update(m) => UpdateEffect(s1, m);
      case ScanRow => ScanEffect(p, s1);
      case _ => ProcessingEffect(p, s1);
    }
  }
}
