/**
 * Ledger entry ids and object update ids, across deletion and re-creation of the account.
 */
module Ids {
  import opened Options
  import opened AccountModel
  import opened LedgerSpec
  import opened StepEffects
  import opened SystemSpec
  import opened WakeUps
  import opened Conservation

  // ---------- Ledger entry ids ----------

  ghost predicate Increasing(es: seq<Entry>) {
    forall i, j :: 0 <= i < j < |es| ==> es[i].id < es[j].id
  }

  /** Ids of earlier accounts stay below the ids of the present one, and below the historic id. */
  ghost predicate EntryIds(s: State) {
    && Increasing(s.past)
    && (s.account.Some? ==> HasActiveCreditor(s))
    && (s.account.Some? ==> forall e :: e in s.past ==> e.id < FirstId(s))
    && (HasActiveCreditor(s) ==> forall e :: e in s.past ==> e.id <= s.creditor.value.largestHistoricEntryId)
    && (s.creditor.Some? && !s.creditor.value.activated ==> s.past == [])
    && (s.creditor.Some? ==> s.creditor.value.largestHistoricEntryId >= 0)
    && (s.account.Some? ==> FirstId(s) >= 1)
    && (forall e :: e in s.past ==> e.id >= 2)
  }

  /** The entries of the present account are numbered after those of the earlier ones. */
  lemma AllEntriesIncrease(s: State)
    requires Conserved(s) && EntryIds(s)
    ensures Increasing(s.past + s.entries)
    ensures s.account.Some? ==>
      forall e, f :: e in s.past && f in s.entries ==> e.id + 2 <= f.id <= s.account.value.ledger.lastEntryId
  {
    var all := s.past + s.entries;
    forall i, j | 0 <= i < j < |all| ensures all[i].id < all[j].id {
      if i < |s.past| && |s.past| <= j {
        assert all[i] in s.past;
      }
    }
  }

  /** No id is ever used twice while the creditor's row lives. */
  lemma EntryIdsNeverCollide(s: State, i: nat, j: nat)
    requires Conserved(s) && EntryIds(s)
    requires i < j < |s.past + s.entries|
    ensures (s.past + s.entries)[i].id != (s.past + s.entries)[j].id
  {
    AllEntriesIncrease(s);
  }

  /** The other steps neither begin nor end anything. */
  lemma OtherStepsKeepLives(p: Params, server: Server, s: State, now: int, step: Step)
    requires ValidParams(p) && ValidServer(server) && Allowed(server, step) && !IsLifecycle(step) && !step.Create?
    requires ColumnsFit(s) && Conserved(s)
    ensures var s' := Apply(p, s, now, step);
            && s'.past == s.past && s'.creditor == s.creditor && (s'.account.Some? <==> s.account.Some?)
            && (s.account.Some? ==> FirstId(s') == FirstId(s))
  {
    hide Apply, LeavesLedger, LeavesTransfers, Continued;
    if IsLedgerStep(step) {
      LedgerStepsStayInside(p, s, now, step);
      if s.account.Some? {
        LedgerStepsKeepFirstId(p, s, now, step);
      }
    } else {
      if IsRequest(step) {
        RequestEffect(p, s, now, step);
      } else {
        TransferEffect(p, s, now, step);
      }
      LeftLedgerConserves(s, Apply(p, s, now, step));
    }
  }

  lemma LedgerStepsKeepFirstId(p: Params, s: State, now: int, step: Step)
    requires ValidParams(p) && ValidStep(step) && IsLedgerStep(step) && !step.Create?
    requires ColumnsFit(s) && Conserved(s) && s.account.Some? && Apply(p, s, now, step).account.Some?
    ensures FirstId(Apply(p, s, now, step)) == FirstId(s)
  {
    hide Apply, Continued;
    var s1 := s.(clock := now);
    TimeConserves(s, now);
    LedgerSteps(p, s, now, step);
    match step {
      case Update(m) => UpdateConserves(s1, m);
      case ScanRow => ScanConserves(p, s1);
      case _ => ProcessingConserves(p, s1);
    }
  }

  lemma CreatingKeepsEntryIds(s: State, order: seq<int>)
    requires IsOrder(order) && Conserved(s) && EntryIds(s)
    ensures EntryIds(CreateAccount(s, order).0)
  {
  }

  /** The entries of the account join the earlier ones when it ends. */
  lemma EndingKeepsEntryIds(s: State, s': State)
    requires Conserved(s) && EntryIds(s)
    requires s'.account.None? && s'.past == s.past + s.entries
    requires s'.creditor.Some? ==>
      && s.creditor.Some? && s.creditor.value.activated
      && s'.creditor.value.largestHistoricEntryId >= s.creditor.value.largestHistoricEntryId
      && s'.creditor.value.activated
      && (HasActiveCreditor(s') && s.account.Some? ==>
            s.account.value.ledger.lastEntryId <= s'.creditor.value.largestHistoricEntryId)
      && (HasActiveCreditor(s') ==> HasActiveCreditor(s))
    ensures EntryIds(s')
  {
    AllEntriesIncrease(s);
    if s.account.Some? {
      LastIdIsLast(s);
    }
  }

  lemma LastIdIsLast(s: State)
    requires Conserved(s) && s.account.Some?
    ensures forall e :: e in s.entries ==> FirstId(s) < e.id <= s.account.value.ledger.lastEntryId
  {
  }

  lemma LifecycleKeepsEntryIds(p: Params, s: State, now: int, step: Step)
    requires ValidParams(p) && ValidStep(step) && IsLifecycle(step)
    requires Conserved(s) && EntryIds(s)
    ensures EntryIds(Apply(p, s, now, step))
  {
    hide Apply, Increasing, SystemSpec.Deletions, SystemSpec.LastIssues, SystemSpec.IsDisposable;
    var s' := Apply(p, s, now, step);
    LifecycleSteps(p, s, now, step);
    NothingIncreases();
    assert s.past + [] == s.past;
    if s'.past != s.past && s'.past != [] {
      EndingKeepsEntryIds(s.(clock := now), s');
    }
  }

  lemma StepKeepsEntryIds(p: Params, server: Server, s: State, now: int, step: Step)
    requires ValidParams(p) && ValidServer(server) && Allowed(server, step)
    requires ColumnsFit(s) && Conserved(s) && EntryIds(s)
    ensures EntryIds(Apply(p, s, now, step))
  {
    hide Apply, Increasing, Conserved;
    if IsLifecycle(step) {
      LifecycleKeepsEntryIds(p, s, now, step);
    } else if step.Create? {
      LedgerSteps(p, s, now, step);
      TimeKeepsEntryIds(s, now);
      CreatingKeepsEntryIds(s.(clock := now), step.order);
    } else {
      OtherStepsKeepLives(p, server, s, now, step);
    }
  }

  lemma TimeKeepsEntryIds(s: State, now: int)
    requires Conserved(s) && EntryIds(s)
    ensures Conserved(s.(clock := now)) && EntryIds(s.(clock := now))
  {
  }

  lemma NothingIncreases()
    ensures Increasing([])
  {
  }

  /**
   * Deactivation deletes the account without raising the historic id. Its entries stay below that
   * id only if there were none, or if another account had already raised it.
   */
  lemma DeactivationBound(s: State)
    requires Conserved(s) && EntryIds(s) && s.account.Some?
    ensures var s' := DeactivateCreditor(s);
            (forall e :: e in s'.past ==> e.id <= s'.creditor.value.largestHistoricEntryId) <==>
            s.entries == [] || s.account.value.ledger.lastEntryId <= s.creditor.value.largestHistoricEntryId
  {
    var s' := DeactivateCreditor(s);
    AllEntriesIncrease(s);
    if s.entries != [] {
      var last := s.entries[|s.entries| - 1];
      assert last in s'.past && last.id == s.account.value.ledger.lastEntryId;
    }
  }

  // ---------- Update ids ----------

  ghost predicate Rising(issued: seq<Issue>) {
    forall i, j :: 0 <= i < j < |issued| && issued[i].kind == issued[j].kind ==> issued[i].id < issued[j].id
  }

  /**
   * The ids issued for objects of one kind rise in the order of issue; none exceeds the sequence;
   * and the id in the row is the last one that was issued.
   */
  ghost predicate UpdateIds(s: State) {
    && Rising(s.issued)
    && (forall x :: x in s.issued ==> x.id <= s.uidSeq)
    && (s.account.Some? ==> forall k: Kind :: IsLatest(s.issued, k, IdOf(s.account.value, k), s.uidSeq))
  }

  ghost predicate IsLatest(issued: seq<Issue>, k: Kind, id: int, uidSeq: int) {
    && id <= uidSeq && Issue(k, id) in issued
    && forall x :: x in issued && x.kind == k ==> x.id <= id
  }

  /** One object gets a higher id, and the sequence keeps up. */
  ghost predicate IssuesOne(s: State, s': State, kind: Kind) {
    && s.account.Some? && s'.account.Some?
    && var id := IdOf(s'.account.value, kind);
       && s'.issued == s.issued + [Issue(kind, id)]
       && id > IdOf(s.account.value, kind)
       && (forall k: Kind :: k != kind ==> IdOf(s'.account.value, k) == IdOf(s.account.value, k))
       && s.uidSeq <= s'.uidSeq && id <= s'.uidSeq
  }

  ghost predicate IssuesNone(s: State, s': State) {
    && s'.issued == s.issued && s.uidSeq <= s'.uidSeq
    && (s'.account.Some? ==> s.account.Some? && forall k: Kind :: IdOf(s'.account.value, k) == IdOf(s.account.value, k))
  }

  lemma IssuingOneKeepsIds(s: State, s': State, kind: Kind)
    requires UpdateIds(s) && IssuesOne(s, s', kind)
    ensures UpdateIds(s')
  {
    var a, a' := s.account.value, s'.account.value;
    assert IsLatest(s.issued, kind, IdOf(a, kind), s.uidSeq);
    forall k: Kind ensures IsLatest(s'.issued, k, IdOf(a', k), s'.uidSeq) {
      assert IsLatest(s.issued, k, IdOf(a, k), s.uidSeq);
      assert s'.issued[|s.issued|] == Issue(kind, IdOf(a', kind));
    }
  }

  lemma IssuingNoneKeepsIds(s: State, s': State)
    requires UpdateIds(s) && IssuesNone(s, s')
    ensures UpdateIds(s')
  {
    if s'.account.Some? {
      forall k: Kind ensures IsLatest(s'.issued, k, IdOf(s'.account.value, k), s'.uidSeq) {
        assert IsLatest(s.issued, k, IdOf(s.account.value, k), s.uidSeq);
      }
    }
  }

  /** A change in the account's information, wherever it comes from. */
  lemma TouchingInfoKeepsIds(s: State, s1: State, a: Account)
    requires UpdateIds(s) && IssuesNone(s, s1) && s1.account.Some?
    requires forall k: Kind :: IdOf(a, k) == IdOf(s1.account.value, k)
    ensures UpdateIds(TouchInfo(s1, a)) && TouchInfo(s1, a).account.Some?
  {
    IssuingNoneKeepsIds(s, s1);
    IssuingOneKeepsIds(s1, TouchInfo(s1, a), InfoObj);
  }

  /** The configuration's own id, before the info object is touched. */
  lemma NewConfigKeepsIds(s: State, a: Account, id: int)
    requires UpdateIds(s) && s.account.Some? && id == s.account.value.config.updateId + 1
    requires a.config.updateId == id && a == s.account.value.(config := a.config)
    ensures UpdateIds(Announce(s.(account := Some(a)), ConfigObj, id))
  {
    assert IsLatest(s.issued, ConfigObj, IdOf(s.account.value, ConfigObj), s.uidSeq);
    var s' := Announce(s.(account := Some(a)), ConfigObj, id);
    assert IssuesOne(s, s', ConfigObj);
    hide UpdateIds;
    IssuingOneKeepsIds(s, s', ConfigObj);
  }

  lemma ReconfiguringKeepsIds(s: State, deletion: bool, negligible: real, allowUnsafe: bool, data: string, updateId: int)
    requires UpdateIds(s)
    ensures UpdateIds(UpdateConfig(s, deletion, negligible, allowUnsafe, data, updateId).0)
  {
    hide UpdateIds, WithDeletionFlag;
    var t := UpdateConfig(s, deletion, negligible, allowUnsafe, data, updateId).0;
    if t != s {
      var a := s.account.value;
      var a' := a.(config := t.account.value.config);
      NewConfigKeepsIds(s, a', updateId);
      var s1 := Announce(s.(account := Some(a')), ConfigObj, updateId);
      if a.IsDeletionSafe() {
        TouchingInfoKeepsIds(s1, s1, a');
        IssuingNoneKeepsIds(TouchInfo(s1, a'), t);
      } else {
        IssuingNoneKeepsIds(s1, t);
      }
    }
  }

  lemma ResetKeepsIds(s: State, a: Account, isNew: bool)
    requires UpdateIds(s) && s.account == Some(a)
    ensures UpdateIds(ResetLedger(s, a, isNew))
  {
    assert IsLatest(s.issued, LedgerObj, IdOf(a, LedgerObj), s.uidSeq);
    hide UpdateIds;
    IssuingOneKeepsIds(s, ResetLedger(s, a, isNew), LedgerObj);
  }

  lemma RefreshingKeepsIds(s: State, m: UpdateMsg)
    requires UpdateIds(s) && s.account.Some?
    ensures UpdateIds(Refreshed(s, m)) && Refreshed(s, m).account.Some?
  {
    hide UpdateIds, SystemSpec.IsInfoUpdated, AccountModel.Confirms;
    var a := Updated(s.account.value, m);
    var s1 := s.(account := Some(a), status := s.status + [UpdateAccepted(m)]);
    IssuingNoneKeepsIds(s, s1);
    TouchingInfoKeepsIds(s, s1, a);
  }

  lemma UpdatingKeepsIds(s: State, m: UpdateMsg)
    requires UpdateIds(s)
    ensures UpdateIds(AccountUpdate(s, m))
  {
    hide UpdateIds, SystemSpec.ResetLedger, SystemSpec.Refreshed;
    if s.account.Some? {
      var s0 := s.(account := Some(Heard(s.account.value, m, s.clock)));
      IssuingNoneKeepsIds(s, s0);
      RefreshingKeepsIds(s0, m);
      var s1 := Refreshed(s0, m);
      ResetKeepsIds(s1, s1.account.value, m.creationDate > s0.account.value.server.creationDate);
    } else {
      IssuingNoneKeepsIds(s, AccountUpdate(s, m));
    }
  }

  lemma CommittingKeepsIds(s: State, a: Account, w: Work)
    requires UpdateIds(s) && s.account == Some(a)
    requires if w.log.Some? then w.ledger.updateId > a.ledger.updateId else w.ledger.updateId == a.ledger.updateId
    ensures UpdateIds(Commit(s, a, w))
  {
    assert IsLatest(s.issued, LedgerObj, IdOf(a, LedgerObj), s.uidSeq);
    hide UpdateIds;
    if w.log.Some? {
      IssuingOneKeepsIds(s, Commit(s, a, w), LedgerObj);
    } else {
      IssuingNoneKeepsIds(s, Commit(s, a, w));
    }
  }

  /** A notification and a new update id go together. */
  lemma {:induction false} PassIds(l: LedgerData, date: int, ts: seq<Transfer>, cutoff: int, now: int)
    ensures var r := Pass(l, date, ts, cutoff, now);
            if r.log.Some? then r.ledger.updateId > l.updateId else r.ledger.updateId == l.updateId
    decreases |ts|
  {
    if ts != [] && !MustWait(l, ts[0], cutoff) {
      var e := UpdateLedger(l, date, ts[0].number, ts[0].amount, ts[0].principal, now, false);
      PassIds(e.ledger, date, ts[1..], cutoff, now);
    }
  }

  lemma ProcessingKeepsIds(p: Params, s: State)
    requires ValidParams(p) && UpdateIds(s)
    ensures UpdateIds(ProcessBurst(p, s)) && UpdateIds(ProcessOnePass(p, s))
  {
    hide UpdateIds, LedgerSpec.Pass, SystemSpec.Commit;
    if s.wake && s.account.Some? {
      var a, cutoff, now := s.account.value, s.clock - p.maxDelay, s.clock;
      var ts, date := PendingOf(a, s.store), a.server.creationDate;
      PassIds(a.ledger, date, ts, cutoff, now);
      PassIds(a.ledger, date, Take(ts, p.burst), cutoff, now);
      CommittingKeepsIds(s, a, BurstWork(a, s.store, p.burst, cutoff, now));
      CommittingKeepsIds(s, a, OnePassWork(a, s.store, cutoff, now));
    }
  }

  lemma ScanningKeepsIds(p: Params, s: State)
    requires UpdateIds(s)
    ensures UpdateIds(ScanAccount(p, s))
  {
    if s.account.Some? {
      var s1 := CorrectLedger(s);
      if NeedsCorrection(s.account.value, s.clock) {
        assert IsLatest(s.issued, LedgerObj, IdOf(s.account.value, LedgerObj), s.uidSeq);
        IssuingOneKeepsIds(s, s1, LedgerObj);
      }
      var s2 := ScheduleRepair(p, s1, s.account.value);
      assert IssuesNone(s1, s2);
      IssuingNoneKeepsIds(s1, s2);
      hide UpdateIds, SystemSpec.CorrectLedger, SystemSpec.ScheduleRepair;
      var a := s2.account.value;
      TouchingInfoKeepsIds(s2, s2, a.(info := a.info.(configError := Some(CONFIGURATION_IS_NOT_EFFECTUAL))));
    }
  }

  /** Each object's first id, and its place in the list. */
  lemma FirstIssueOf(n: int, order: seq<int>, k: Kind) returns (i: nat)
    requires IsOrder(order)
    ensures i < 7 && KINDS[i] == k && IdOf(NewAccount(n, order, 0, 0), k) == n + order[i]
    ensures |FirstIssues(n, order)| == 7 && FirstIssues(n, order)[i] == Issue(k, n + order[i])
    ensures forall x :: x in FirstIssues(n, order) && x.kind == k ==> x == Issue(k, n + order[i])
  {
    i := match k
      case AccountObj => 0 case ConfigObj => 1 case InfoObj => 2 case LedgerObj => 3
      case DisplayObj => 4 case ExchangeObj => 5 case KnowledgeObj => 6;
  }

  /** New ids above all old ones, one for each kind. */
  lemma NewIssuesRise(issued: seq<Issue>, more: seq<Issue>, n: int)
    requires Rising(issued) && Rising(more)
    requires (forall x :: x in issued ==> x.id <= n) && (forall x :: x in more ==> n < x.id)
    ensures Rising(issued + more)
  {
    var all := issued + more;
    forall i, j | 0 <= i < j < |all| && all[i].kind == all[j].kind ensures all[i].id < all[j].id {
      if i < |issued| <= j {
        assert all[i] in issued && all[j] in more;
      }
    }
  }

  lemma FirstIssuesRise(n: int, order: seq<int>)
    requires IsOrder(order)
    ensures Rising(FirstIssues(n, order)) && forall x :: x in FirstIssues(n, order) ==> n < x.id <= n + 7
  {
  }

  lemma FirstIdsAreLatest(issued: seq<Issue>, n: int, order: seq<int>, k: Kind)
    requires IsOrder(order) && forall x :: x in issued ==> x.id <= n
    ensures IsLatest(issued + FirstIssues(n, order), k, IdOf(NewAccount(n, order, 0, 0), k), n + 7)
  {
    hide FirstIssues;
    var i := FirstIssueOf(n, order, k);
    FirstIssuesRise(n, order);
    assert FirstIssues(n, order)[i] in FirstIssues(n, order);
  }

  lemma CreatingKeepsIds(s: State, order: seq<int>)
    requires UpdateIds(s) && IsOrder(order)
    ensures UpdateIds(CreateAccount(s, order).0)
  {
    hide Rising, FirstIssues, IsLatest;
    var s', n := CreateAccount(s, order).0, s.uidSeq;
    if s' != s {
      FirstIssuesRise(n, order);
      NewIssuesRise(s.issued, FirstIssues(n, order), n);
      forall k: Kind ensures IsLatest(s'.issued, k, IdOf(s'.account.value, k), s'.uidSeq) {
        FirstIdsAreLatest(s.issued, n, order, k);
      }
    }
  }

  lemma EndingKeepsIds(s: State, s': State, kinds: seq<Kind>)
    requires UpdateIds(s) && s'.account.None?
    requires forall i, j :: 0 <= i < j < |kinds| ==> kinds[i] != kinds[j]
    requires s'.issued == s.issued + LastIssues(kinds, s.uidSeq + 1) && s'.uidSeq == s.uidSeq + 1
    ensures UpdateIds(s')
  {
    forall i, j | 0 <= i < j < |s'.issued| && s'.issued[i].kind == s'.issued[j].kind
      ensures s'.issued[i].id < s'.issued[j].id
    {
      if i < |s.issued| { assert s'.issued[i] in s.issued; }
    }
  }

  lemma RewritingKeepsIds(s: State, id: int, r: Rewriting, names: set<string>, peers: set<int>)
    requires UpdateIds(s)
    ensures UpdateIds(UpdateOther(s, id, r, names, peers).0)
  {
    var s', kind := UpdateOther(s, id, r, names, peers).0, KindOf(r);
    if s' != s {
      assert IsLatest(s.issued, kind, IdOf(s.account.value, kind), s.uidSeq);
      IssuingOneKeepsIds(s, s', kind);
    }
  }

  lemma DeletingKeepsIds(s: State, isPegged: bool)
    requires UpdateIds(s)
    ensures UpdateIds(DeleteAccount(s, isPegged).0)
  {
    hide UpdateIds, SystemSpec.Deletions, SystemSpec.LastIssues;
    var s' := DeleteAccount(s, isPegged).0;
    if s' != s { EndingKeepsIds(s, s', KINDS); }
  }

  lemma DeactivatingKeepsIds(s: State)
    requires UpdateIds(s)
    ensures UpdateIds(DeactivateCreditor(s))
  {
    hide UpdateIds;
    var s' := DeactivateCreditor(s);
    if s'.issued != s.issued {
      assert LastIssues([LedgerObj, ExchangeObj, ConfigObj], s.uidSeq + 1)
          == [Issue(LedgerObj, s'.uidSeq), Issue(ExchangeObj, s'.uidSeq), Issue(ConfigObj, s'.uidSeq)];
      EndingKeepsIds(s, s', [LedgerObj, ExchangeObj, ConfigObj]);
    } else {
      IssuingNoneKeepsIds(s, s');
    }
  }

  lemma LifecycleKeepsIds(p: Params, s: State, now: int, step: Step)
    requires ValidParams(p) && ValidStep(step) && IsLifecycle(step) && UpdateIds(s.(clock := now))
    ensures UpdateIds(Apply(p, s, now, step))
  {
    hide Apply, UpdateIds, SystemSpec.DeleteAccount, SystemSpec.DeactivateCreditor, SystemSpec.IsDisposable;
    var s1 := s.(clock := now);
    LifecycleSteps(p, s, now, step);
    if step.Delete? {
      DeletingKeepsIds(s1, step.isPegged);
    } else if step.Deactivate? {
      DeactivatingKeepsIds(s1);
    } else {
      IssuingNoneKeepsIds(s1, Apply(p, s, now, step));
    }
  }

  lemma RequestsKeepIds(p: Params, s: State, now: int, step: Step)
    requires ValidParams(p) && ValidStep(step) && IsRequest(step) && UpdateIds(s.(clock := now))
    ensures UpdateIds(Apply(p, s, now, step))
  {
    hide Apply, UpdateIds, SystemSpec.UpdateConfig, SystemSpec.UpdateOther;
    var s1 := s.(clock := now);
    RequestSteps(p, s, now, step);
    IssuingNoneKeepsIds(s1, s1);
    match step {
      case Reconfigure(d, n, u, data, id) => ReconfiguringKeepsIds(s1, d, n, u, data, id);
      case Rewrite(r, id, names, peers) => RewritingKeepsIds(s1, id, r, names, peers);
      case Reject(m) =>
        if s1.account.Some? {
          var a := s1.account.value;
          TouchingInfoKeepsIds(s1, s1, a.(info := a.info.(configError := Some(m.code))));
        }
      case Purge(date) =>
        if s1.account.Some? {
          var a := s1.account.value;
          TouchingInfoKeepsIds(s1, s1.(status := s1.status + [PurgeAccepted]),
                               a.(server := a.server.(hasAccount := false, principal := 0)));
        }
    }
  }

  lemma TransfersKeepIds(p: Params, s: State, now: int, step: Step)
    requires ValidParams(p) && ValidStep(step) && (step.Arrive? || step.Collect?) && UpdateIds(s.(clock := now))
    ensures UpdateIds(Apply(p, s, now, step))
  {
    hide Apply, UpdateIds;
    TransferSteps(p, s, now, step);
    IssuingNoneKeepsIds(s.(clock := now), Apply(p, s, now, step));
  }

  lemma StepKeepsUpdateIds(p: Params, server: Server, s: State, now: int, step: Step)
    requires ValidParams(p) && Allowed(server, step) && UpdateIds(s)
    ensures UpdateIds(Apply(p, s, now, step))
  {
    hide Apply, UpdateIds;
    var s1 := s.(clock := now);
    IssuingNoneKeepsIds(s, s1);
    if IsLedgerStep(step) {
      LedgerSteps(p, s, now, step);
      match step {
        case Update(m) => UpdatingKeepsIds(s1, m);
        case ScanRow => ScanningKeepsIds(p, s1);
        case Create(order) => CreatingKeepsIds(s1, order);
        case _ => ProcessingKeepsIds(p, s1);
      }
    } else if IsLifecycle(step) {
      LifecycleKeepsIds(p, s, now, step);
    } else if IsRequest(step) {
      RequestsKeepIds(p, s, now, step);
    } else {
      TransfersKeepIds(p, s, now, step);
    }
  }
}
