/**
 * The ledger adds up: over all writers, entry ids are consecutive, and each entry continues the
 * principal of the one before it.
 */
module Conservation {
  import opened Options
  import opened Int64
  import opened AccountModel
  import opened LedgerSpec
  import opened StepEffects
  import opened SystemSpec
  import opened Refinement
  import opened WakeUps

  function Before(es: seq<Entry>, principal: int, i: nat): int
    requires i <= |es|
  {
    if i == 0 then principal else es[i - 1].principal
  }

  function After(es: seq<Entry>, principal: int): int { Before(es, principal, |es|) }

  /**
   * The entry has the next id, and adds its amount to the principal before it. The exception is an
   * entry whose own amount cannot be subtracted from its principal inside int64.
   */
  predicate IsContinuation(e: Entry, id: int, before: int) {
    e.id == id && (e.principal == before + e.amount || !In64(e.principal - e.amount))
  }

  /** The entries continue a ledger that stands at an entry id and a principal. */
  ghost predicate Continued(es: seq<Entry>, id: int, principal: int) {
    forall i :: 0 <= i < |es| ==> IsContinuation(es[i], id + 1 + i, Before(es, principal, i))
  }

  lemma NothingContinues()
    ensures forall id: int, principal: int :: Continued([], id, principal)
  {
  }

  lemma ContinuedTwice(es: seq<Entry>, fs: seq<Entry>, id: int, principal: int)
    requires Continued(es, id, principal) && Continued(fs, id + |es|, After(es, principal))
    ensures Continued(es + fs, id, principal) && After(es + fs, principal) == After(fs, After(es, principal))
  {
    var all := es + fs;
    forall i | 0 <= i < |all|
      ensures IsContinuation(all[i], id + 1 + i, Before(all, principal, i))
    {
      if i >= |es| {
        assert IsContinuation(fs[i - |es|], id + 1 + i, Before(fs, After(es, principal), i - |es|));
      } else {
        assert IsContinuation(es[i], id + 1 + i, Before(es, principal, i));
      }
    }
  }

  lemma {:induction false} PostingsContinue(id: int, principal: int, delta: int, now: int)
    ensures var es := Postings(id, principal, Corrections(delta), now);
            Continued(es, id, principal) && After(es, principal) == principal + delta
    decreases Abs(delta)
  {
    PostingsEnd(id, principal, now);
    hide LedgerSpec.Postings, Corrections, ContainPrincipalOverflow;
    if delta != 0 {
      PostingsStep(id, principal, delta, now);
      var safe := ContainPrincipalOverflow(delta);
      var one := [Entry(id + 1, safe, principal + safe, None, now)];
      PostingsContinue(id + 1, principal + safe, delta - safe, now);
      ContinuedTwice(one, Postings(id + 1, principal + safe, Corrections(delta - safe), now), id, principal);
    }
  }

  /** What a writer did to a ledger. */
  ghost predicate Wrote(l: LedgerData, es: seq<Entry>, l': LedgerData) {
    && Continued(es, l.lastEntryId, l.principal)
    && After(es, l.principal) == l'.principal
    && l'.lastEntryId == l.lastEntryId + |es|
  }

  lemma WroteTwice(l: LedgerData, es: seq<Entry>, l1: LedgerData, fs: seq<Entry>, l2: LedgerData)
    requires Wrote(l, es, l1) && Wrote(l1, fs, l2)
    ensures Wrote(l, es + fs, l2)
  {
    ContinuedTwice(es, fs, l.lastEntryId, l.principal);
  }

  lemma FixContinues(id: int, principal: int, previous: int, now: int)
    ensures var fix := CorrectingEntries(id, principal, previous, now);
            Continued(fix, id, principal) && (In64(previous) ==> After(fix, principal) == previous)
  {
    if In64(previous) {
      PostingsContinue(id, principal, previous - principal, now);
    }
  }

  lemma UpdateLedgerWrites(l: LedgerData, date: int, number: int, amount: int, principal: int, now: int, always: bool)
    requires In64(principal)
    ensures var e := UpdateLedger(l, date, number, amount, principal, now, always);
            Wrote(l, e.entries, e.ledger)
  {
    hide CorrectingEntries;
    var previous := principal - amount;
    var fix := CorrectingEntries(l.lastEntryId, l.principal, previous, now);
    FixContinues(l.lastEntryId, l.principal, previous, now);
    if amount != 0 {
      var own := [Entry(l.lastEntryId + |fix| + 1, amount, principal, Some((date, number)), now)];
      ContinuedTwice(fix, own, l.lastEntryId, l.principal);
    } else {
      assert fix + [] == fix;
    }
  }

  lemma {:induction false} PassWrites(l: LedgerData, date: int, ts: seq<Transfer>, cutoff: int, now: int)
    requires forall t :: t in ts ==> ValidTransfer(t)
    ensures var r := Pass(l, date, ts, cutoff, now); Wrote(l, r.entries, r.ledger)
    decreases |ts|
  {
    if ts != [] && !MustWait(l, ts[0], cutoff) {
      assert ts[0] in ts;
      var e := UpdateLedger(l, date, ts[0].number, ts[0].amount, ts[0].principal, now, false);
      UpdateLedgerWrites(l, date, ts[0].number, ts[0].amount, ts[0].principal, now, false);
      PassWrites(e.ledger, date, ts[1..], cutoff, now);
      var r := Pass(e.ledger, date, ts[1..], cutoff, now);
      WroteTwice(l, e.entries, e.ledger, r.entries, r.ledger);
    }
  }

  lemma FinishWrites(l: LedgerData, r: Scan, exhausted: bool, date: int, latest: Latest, cutoff: int, now: int)
    requires Wrote(l, r.entries, r.ledger) && In64(latest.principal)
    ensures var w := Finish(r, exhausted, date, latest, cutoff, now); Wrote(l, w.entries, w.ledger)
  {
    var l1 := r.ledger.(pendingTransferTs := r.blockedAt);
    UpdateLedgerWrites(l1, date, latest.number, 0, latest.principal, now, false);
    var c := CatchUp(l1, date, latest, cutoff, now);
    assert Wrote(l1, c.entries, c.ledger);
    WroteTwice(l, r.entries, l1, c.entries, c.ledger);
  }

  /** Both forms of the processing step, and the scanner, write consecutive entries. */
  lemma WorkWrites(a: Account, store: seq<Transfer>, burst: int, cutoff: int, now: int)
    requires burst >= 1 && In64(a.server.principal) && forall t :: t in store ==> ValidTransfer(t)
    ensures var w := BurstWork(a, store, burst, cutoff, now); Wrote(a.ledger, w.entries, w.ledger)
    ensures var w := OnePassWork(a, store, cutoff, now); Wrote(a.ledger, w.entries, w.ledger)
  {
    var ts, date := PendingOf(a, store), a.server.creationDate;
    PendingIsStored(store, date, a.ledger.lastTransferNumber);
    var few := Take(ts, burst);
    PassWrites(a.ledger, date, ts, cutoff, now);
    PassWrites(a.ledger, date, few, cutoff, now);
    FinishWrites(a.ledger, Pass(a.ledger, date, ts, cutoff, now), true, date, LatestOf(a), cutoff, now);
    FinishWrites(a.ledger, Pass(a.ledger, date, few, cutoff, now), |few| < burst, date, LatestOf(a), cutoff, now);
  }

  // ---------- The invariant ----------

  /** The id that `ledger_last_entry_id` had when the account was created. */
  function FirstId(s: State): int
    requires s.account.Some?
  {
    s.account.value.ledger.lastEntryId - |s.entries|
  }

  /** All entries of the account, from its creation on, continue an empty ledger. */
  ghost predicate Conserved(s: State) {
    && (s.account.None? ==> s.entries == [])
    && (s.account.Some? ==>
          && Continued(s.entries, FirstId(s), 0)
          && After(s.entries, 0) == s.account.value.ledger.principal)
  }

  /** A step that appends what a writer wrote. */
  lemma WritingConserves(s: State, s': State, es: seq<Entry>)
    requires Conserved(s) && s.account.Some? && s'.account.Some? && s'.entries == s.entries + es
    requires Wrote(s.account.value.ledger, es, s'.account.value.ledger)
    ensures Conserved(s') && FirstId(s') == FirstId(s)
  {
    ContinuedTwice(s.entries, es, FirstId(s), 0);
  }

  lemma CommitConserves(s: State, a: Account, w: Work)
    requires ColumnsFit(s) && Conserved(s) && s.account == Some(a)
    requires Wrote(a.ledger, w.entries, w.ledger) && In64(w.ledger.principal)
    ensures var s' := Commit(s, a, w); Conserved(s') && ColumnsFit(s') && FirstId(s') == FirstId(s)
  {
    hide Continued;
    WritingConserves(s, Commit(s, a, w), w.entries);
  }

  lemma ProcessingConserves(p: Params, s: State)
    requires ValidParams(p) && ColumnsFit(s) && Conserved(s)
    ensures Conserved(ProcessBurst(p, s)) && Conserved(ProcessOnePass(p, s))
    ensures s.account.Some? ==> FirstId(ProcessBurst(p, s)) == FirstId(s) == FirstId(ProcessOnePass(p, s))
    ensures ColumnsFit(ProcessBurst(p, s)) && ColumnsFit(ProcessOnePass(p, s))
  {
    hide Wrote, Continued, SystemSpec.Commit, LedgerSpec.BurstWork, LedgerSpec.OnePassWork;
    if s.wake && s.account.Some? {
      var a, cutoff := s.account.value, s.clock - p.maxDelay;
      WorkWrites(a, s.store, p.burst, cutoff, s.clock);
      WorkFits(a, s.store, p.burst, cutoff, s.clock);
      CommitConserves(s, a, BurstWork(a, s.store, p.burst, cutoff, s.clock));
      CommitConserves(s, a, OnePassWork(a, s.store, cutoff, s.clock));
    }
  }

  lemma CorrectionConserves(s: State)
    requires ColumnsFit(s) && Conserved(s)
    ensures Conserved(CorrectLedger(s)) && ColumnsFit(CorrectLedger(s))
    ensures s.account.Some? ==> FirstId(CorrectLedger(s)) == FirstId(s)
  {
    if s.account.Some? && NeedsCorrection(s.account.value, s.clock) {
      var a := s.account.value;
      PostingsContinue(a.ledger.lastEntryId, a.ledger.principal, a.server.principal - a.ledger.principal, s.clock);
      var es := CorrectingEntries(a.ledger.lastEntryId, a.ledger.principal, a.server.principal, s.clock);
      WritingConserves(s, CorrectLedger(s), es);
    }
  }

  lemma ScanConserves(p: Params, s: State)
    requires ColumnsFit(s) && Conserved(s)
    ensures Conserved(ScanAccount(p, s)) && ColumnsFit(ScanAccount(p, s))
    ensures s.account.Some? ==> FirstId(ScanAccount(p, s)) == FirstId(s)
  {
    hide Continued, SystemSpec.CorrectLedger;
    CorrectionConserves(s);
  }

  lemma ResetConserves(s: State, s': State)
    requires Conserved(s) && ResetsLedger(s, s') && In64(s.account.value.ledger.principal)
    ensures Conserved(s') && FirstId(s') == FirstId(s) && In64(s'.account.value.ledger.principal)
  {
    hide Continued, LedgerSpec.UpdateLedger;
    var a, a' := s.account.value, s'.account.value;
    var date, isNew := a'.server.creationDate, a'.server.creationDate > a.server.creationDate;
    var l := if isNew then a.ledger.(pendingTransferTs := None) else a.ledger;
    var number, principal := if isNew then 0 else l.lastTransferNumber, if isNew then 0 else l.principal;
    UpdateLedgerWrites(l, date, number, 0, principal, s.clock, true);
    UpdateLedgerTells(l, date, number, 0, principal, s.clock);
    WritingConserves(s, s', ResetOf(a.ledger, isNew, date, s.clock).entries);
  }

  lemma KeptLedgerConserves(s: State, s': State)
    requires Conserved(s) && KeepsLedger(s, s')
    ensures Conserved(s') && FirstId(s') == FirstId(s)
  {
  }

  lemma UpdateConserves(s: State, m: UpdateMsg)
    requires Conserved(s) && ColumnsFit(s) && In64(m.principal)
    ensures Conserved(AccountUpdate(s, m)) && ColumnsFit(AccountUpdate(s, m))
    ensures s.account.Some? ==> FirstId(AccountUpdate(s, m)) == FirstId(s)
  {
    hide AccountUpdate, ResetsLedger, Continued;
    var s' := AccountUpdate(s, m);
    UpdateEffect(s, m);
    if s.account.Some? {
      if KeepsLedger(s, s') {
        KeptLedgerConserves(s, s');
      } else {
        ResetConserves(s, s');
      }
    }
  }

  lemma LeftLedgerConserves(s: State, s': State)
    requires Conserved(s) && LeavesLedger(s, s')
    ensures Conserved(s') && (s'.account.Some? ==> FirstId(s') == FirstId(s))
  {
  }

  lemma CreatingConserves(s: State, order: seq<int>)
    requires IsOrder(order) && Conserved(s) && ColumnsFit(s)
    ensures Conserved(CreateAccount(s, order).0) && ColumnsFit(CreateAccount(s, order).0)
  {
    NothingContinues();
  }

  /** Every step keeps the ledger consistent. */
  lemma StepConserves(p: Params, server: Server, s: State, now: int, step: Step)
    requires ValidParams(p) && ValidServer(server) && Allowed(server, step)
    requires Conserved(s) && ColumnsFit(s)
    ensures Conserved(Apply(p, s, now, step)) && ColumnsFit(Apply(p, s, now, step))
  {
    hide Apply, LeavesLedger, Continued, Conserved;
    var s1 := s.(clock := now);
    TimeConserves(s, now);
    if IsLedgerStep(step) {
      LedgerSteps(p, s, now, step);
      match step {
        case Update(m) => UpdateConserves(s1, m);
        case ScanRow => ScanConserves(p, s1);
        case Create(order) => CreatingConserves(s1, order);
        case _ => ProcessingConserves(p, s1);
      }
    } else {
      OtherStepsLeaveLedger(p, s, now, step);
      LeftLedgerConserves(s, Apply(p, s, now, step));
      OtherStepsFit(p, server, s, now, step);
    }
  }

  lemma TimeConserves(s: State, now: int)
    requires Conserved(s) && ColumnsFit(s)
    ensures Conserved(s.(clock := now)) && ColumnsFit(s.(clock := now))
  {
  }

  /** BIGINT columns stay in range. */
  lemma OtherStepsFit(p: Params, server: Server, s: State, now: int, step: Step)
    requires ValidParams(p) && ValidServer(server) && Allowed(server, step) && !IsLedgerStep(step)
    requires ColumnsFit(s) && LeavesLedger(s, Apply(p, s, now, step))
    ensures ColumnsFit(Apply(p, s, now, step))
  {
    hide Apply;
    if IsLifecycle(step) {
      LifecycleEffect(p, s, now, step);
    } else if IsRequest(step) {
      RequestEffect(p, s, now, step);
    } else {
      TransferEffect(p, s, now, step);
      if step.Arrive? {
        InsertKeepsValid(server, s.store, step.transfer);
      } else {
        RemoveKeepsValid(s.store, step.keys, now - (p.maxDelay + Max(p.logRetention, p.ledgerRetention)));
      }
    }
  }

  lemma {:induction false} InsertKeepsValid(server: Server, store: seq<Transfer>, t: Transfer)
    requires ValidServer(server) && Known(server, t) && forall u :: u in store ==> ValidTransfer(u)
    ensures forall u :: u in Insert(store, t) ==> ValidTransfer(u)
  {
    KnownIsValid(server, t);
    if store != [] && !Precedes(t, store[0]) {
      InsertKeepsValid(server, store[1..], t);
    }
  }

  lemma {:induction false} RemoveKeepsValid(store: seq<Transfer>, keys: set<(int, int)>, cutoff: int)
    requires forall u :: u in store ==> ValidTransfer(u)
    ensures forall u :: u in Remove(store, keys, cutoff) ==> ValidTransfer(u)
  {
    if store != [] {
      RemoveKeepsValid(store[1..], keys, cutoff);
    }
  }

  // ---------- What it means ----------

  function SumOfAmounts(es: seq<Entry>): int {
    if es == [] then 0 else es[0].amount + SumOfAmounts(es[1..])
  }

  /** As long as no entry overflows, the amounts posted since the creation add up to the principal. */
  lemma {:induction false} AmountsAddUp(es: seq<Entry>, id: int, principal: int)
    requires Continued(es, id, principal)
    requires forall e :: e in es ==> In64(e.principal - e.amount)
    ensures principal + SumOfAmounts(es) == After(es, principal)
  {
    if es != [] {
      var rest := es[1..];
      assert es[0] in es;
      forall i | 0 <= i < |rest|
        ensures rest[i].id == id + 2 + i
        ensures rest[i].principal == Before(rest, es[0].principal, i) + rest[i].amount
      {
        assert rest[i] == es[i + 1] && es[i + 1] in es;
        assert es[i + 1].principal == Before(es, principal, i + 1) + es[i + 1].amount;
      }
      AmountsAddUp(rest, id + 1, es[0].principal);
    }
  }
}
