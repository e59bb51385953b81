/**
 * When ledger entries have been added, and how old they are when the creditor's row is removed.
 */
module Relics {
  import opened Options
  import opened Int64
  import opened AccountModel
  import opened LedgerSpec
  import opened StepEffects
  import opened SystemSpec

  // ---------- When entries have been added ----------

  ghost predicate AddedAt(es: seq<Entry>, now: int) {
    forall e :: e in es ==> e.addedAt == now
  }

  /** No entry comes from the future. */
  ghost predicate Dated(s: State) {
    forall e :: e in s.past + s.entries ==> e.addedAt <= s.clock
  }

  lemma {:induction false} PostingsAreDated(id: int, principal: int, amounts: seq<int>, now: int)
    ensures AddedAt(Postings(id, principal, amounts, now), now)
    decreases |amounts|
  {
    if amounts != [] {
      PostingsAreDated(id + 1, principal + amounts[0], amounts[1..], now);
    }
  }

  lemma UpdateIsDated(l: LedgerData, date: int, number: int, amount: int, principal: int, now: int, always: bool)
    ensures AddedAt(UpdateLedger(l, date, number, amount, principal, now, always).entries, now)
  {
    PostingsAreDated(l.lastEntryId, l.principal, Corrections(principal - amount - l.principal), now);
  }

  lemma {:induction false} PassIsDated(l: LedgerData, date: int, ts: seq<Transfer>, cutoff: int, now: int)
    ensures AddedAt(Pass(l, date, ts, cutoff, now).entries, now)
    decreases |ts|
  {
    if ts != [] && !MustWait(l, ts[0], cutoff) {
      var e := UpdateLedger(l, date, ts[0].number, ts[0].amount, ts[0].principal, now, false);
      UpdateIsDated(l, date, ts[0].number, ts[0].amount, ts[0].principal, now, false);
      hide LedgerSpec.UpdateLedger;
      PassIsDated(e.ledger, date, ts[1..], cutoff, now);
    }
  }

  lemma WorkIsDated(a: Account, ts: seq<Transfer>, exhausted: bool, cutoff: int, now: int)
    ensures AddedAt(WorkOn(a, ts, exhausted, cutoff, now).entries, now)
  {
    hide LedgerSpec.Pass, LedgerSpec.UpdateLedger;
    var date := a.server.creationDate;
    var r := Pass(a.ledger, date, ts, cutoff, now);
    PassIsDated(a.ledger, date, ts, cutoff, now);
    UpdateIsDated(r.ledger.(pendingTransferTs := r.blockedAt), date, a.server.lastTransferNumber, 0, a.server.principal, now, false);
  }

  /** The step has only added entries, at the present time. */
  ghost predicate Adds(s: State, s': State) {
    && s'.past == s.past && s'.clock == s.clock
    && exists es :: s'.entries == s.entries + es && AddedAt(es, s.clock)
  }

  lemma AddingKeepsDates(s: State, s': State)
    requires Dated(s) && Adds(s, s')
    ensures Dated(s')
  {
  }

  lemma ProcessingAdds(p: Params, s: State)
    requires ValidParams(p)
    ensures Adds(s, ProcessBurst(p, s)) && Adds(s, ProcessOnePass(p, s))
  {
    hide LedgerSpec.Pass, LedgerSpec.Finish, LedgerSpec.Pending;
    assert s.entries + [] == s.entries;
    if s.wake && s.account.Some? {
      var a, cutoff := s.account.value, s.clock - p.maxDelay;
      var all := PendingOf(a, s.store);
      var few := Take(all, p.burst);
      WorkIsDated(a, all, true, cutoff, s.clock);
      WorkIsDated(a, few, |few| < p.burst, cutoff, s.clock);
    }
  }

  lemma ScanningAdds(p: Params, s: State)
    ensures Adds(s, ScanAccount(p, s))
  {
    hide SystemSpec.HasConfigProblem, LedgerSpec.NeedsRepair;
    assert s.entries + [] == s.entries;
    if s.account.Some? {
      var a := s.account.value;
      PostingsAreDated(a.ledger.lastEntryId, a.ledger.principal, Corrections(a.server.principal - a.ledger.principal), s.clock);
    }
  }

  lemma UpdatingAdds(s: State, m: UpdateMsg)
    ensures Adds(s, AccountUpdate(s, m))
  {
    hide AccountUpdate, LedgerSpec.UpdateLedger;
    UpdateEffect(s, m);
    UpdateKeepsTime(s, m);
    assert s.entries + [] == s.entries;
    if s.account.Some? {
      var a, date' := s.account.value, AccountUpdate(s, m).account.value.server.creationDate;
      var isNew := date' > a.server.creationDate;
      UpdateIsDated(if isNew then a.ledger.(pendingTransferTs := None) else a.ledger, date',
                    if isNew then 0 else a.ledger.lastTransferNumber, 0, if isNew then 0 else a.ledger.principal, s.clock, true);
    }
  }

  lemma UpdateKeepsTime(s: State, m: UpdateMsg)
    ensures AccountUpdate(s, m).clock == s.clock
  {
    hide SystemSpec.IsInfoUpdated, AccountModel.Confirms, LedgerSpec.ResetOf;
  }

  lemma LifecycleKeepsDates(p: Params, s: State, now: int, step: Step)
    requires ValidParams(p) && ValidStep(step) && IsLifecycle(step) && s.clock <= now && Dated(s)
    ensures Dated(Apply(p, s, now, step))
  {
    hide Apply, SystemSpec.Deletions, SystemSpec.LastIssues, SystemSpec.IsDisposable;
    LifecycleSteps(p, s, now, step);
  }

  lemma OtherStepsKeepDates(p: Params, s: State, now: int, step: Step)
    requires ValidParams(p) && ValidStep(step) && !IsLedgerStep(step) && !IsLifecycle(step) && s.clock <= now && Dated(s)
    ensures Dated(Apply(p, s, now, step))
  {
    hide Apply, LeavesTransfers;
    StepTakesTime(p, s, now, step);
    if IsRequest(step) {
      RequestEffect(p, s, now, step);
    } else {
      TransferEffect(p, s, now, step);
    }
  }

  lemma StepTakesTime(p: Params, s: State, now: int, step: Step)
    requires ValidParams(p) && ValidStep(step) && !IsLedgerStep(step) && !IsLifecycle(step)
    ensures Apply(p, s, now, step).clock == now
  {
    hide Apply, SystemSpec.ConflictOf, SystemSpec.IsCurrent, AccountModel.CloseTo, SystemSpec.IsStored, SystemSpec.Insert;
    if IsRequest(step) {
      RequestSteps(p, s, now, step);
    } else {
      TransferSteps(p, s, now, step);
    }
  }

  lemma StepKeepsDates(p: Params, s: State, now: int, step: Step)
    requires ValidParams(p) && ValidStep(step) && s.clock <= now && Dated(s)
    ensures Dated(Apply(p, s, now, step))
  {
    hide Apply, ProcessBurst, ProcessOnePass, AccountUpdate, ScanAccount, Adds;
    var s1 := s.(clock := now);
    if IsLedgerStep(step) {
      LedgerSteps(p, s, now, step);
      match step {
        case Update(m) => UpdatingAdds(s1, m);
        case ScanRow => ScanningAdds(p, s1);
        case Create(_) =>
        case _ => ProcessingAdds(p, s1);
      }
      if !step.Create? {
        AddingKeepsDates(s1, Apply(p, s, now, step));
      }
    } else if IsLifecycle(step) {
      LifecycleKeepsDates(p, s, now, step);
    } else {
      OtherStepsKeepDates(p, s, now, step);
    }
  }

  // ---------- When the entries of a former reservation are stale ----------

  /** The last day on which the creditor was active is long enough ago for his row to be removed. */
  predicate IsLongGone(p: Params, deactivatedAt: int, now: int) {
    DateOf(deactivatedAt) < DateOf(now - p.deactivatedRetention)
  }

  lemma DaysPass(x: int, y: int)
    requires DateOf(x) < DateOf(y)
    ensures x < y
  {
  }

  /**
   * Every entry of a deactivated creditor is too old for the scanner of ledger entries at the time at
   * which his row can be removed, exactly if entries are not kept longer than deactivated creditors.
   */
  lemma RelicsAreStale(p: Params)
    ensures (forall at: int, now: int :: IsLongGone(p, at, now) ==> at < now - p.ledgerRetention)
       <==> p.ledgerRetention <= p.deactivatedRetention
  {
    forall at: int, now: int | IsLongGone(p, at, now) ensures at < now - p.deactivatedRetention {
      DaysPass(at, now - p.deactivatedRetention);
    }
    if p.ledgerRetention > p.deactivatedRetention {
      var at, now := DAY - 1, DAY + p.deactivatedRetention;
      assert DateOf(at) == 0 && DateOf(now - p.deactivatedRetention) == 1;
      assert IsLongGone(p, at, now) && at >= now - p.ledgerRetention;
    }
  }
}
