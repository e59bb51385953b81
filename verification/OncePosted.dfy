/**
 * In every run, even when gaps are skipped: no transfer is posted twice to the ledger of an account,
 * transfers are posted in the server's order, and each of them as the server made it.
 */
module OncePosted {
  import opened Options
  import opened Int64
  import opened AccountModel
  import opened LedgerSpec
  import opened StepEffects
  import opened SystemSpec
  import opened Refinement
  import opened WakeUps

  predicate Earlier(t: (int, int), u: (int, int)) {
    t.0 < u.0 || (t.0 == u.0 && t.1 < u.1)
  }

  ghost predicate InOrder(es: seq<Entry>) {
    forall i, j :: 0 <= i < j < |es| && es[i].transfer.Some? && es[j].transfer.Some? ==>
      Earlier(es[i].transfer.value, es[j].transfer.value)
  }

  /** The entry's transfer, if any, is one that the server made, with that amount and principal. */
  ghost predicate IsTruthful(server: Server, e: Entry) {
    e.transfer.Some? ==>
      exists t :: Known(server, t) && e.transfer.value == (t.date, t.number) && e.amount == t.amount
                  && e.principal == t.principal
  }

  /** The entries post transfers of a date, above one number and up to another. */
  ghost predicate Posts(server: Server, date: int, low: int, es: seq<Entry>, high: int) {
    && low <= high && InOrder(es)
    && forall e :: e in es ==>
         IsTruthful(server, e) && (e.transfer.Some? ==> e.transfer.value.0 == date && low < e.transfer.value.1 <= high)
  }

  lemma PostsTwice(server: Server, date: int, low: int, es: seq<Entry>, mid: int, fs: seq<Entry>, high: int)
    requires Posts(server, date, low, es, mid) && Posts(server, date, mid, fs, high)
    ensures Posts(server, date, low, es + fs, high)
  {
    var all := es + fs;
    forall i, j | 0 <= i < j < |all| && all[i].transfer.Some? && all[j].transfer.Some?
      ensures Earlier(all[i].transfer.value, all[j].transfer.value)
    {
      if i < |es| <= j {
        assert all[i] in es && all[j] in fs;
      }
    }
  }

  ghost predicate PostsNothing(es: seq<Entry>) {
    forall e :: e in es ==> e.transfer.None?
  }

  lemma {:induction false} CorrectionsPostNothing(id: int, principal: int, amounts: seq<int>, now: int)
    ensures PostsNothing(Postings(id, principal, amounts, now))
    decreases |amounts|
  {
    if amounts != [] {
      CorrectionsPostNothing(id + 1, principal + amounts[0], amounts[1..], now);
    }
  }

  lemma UpdateWithoutTransfer(l: LedgerData, date: int, number: int, principal: int, now: int, always: bool)
    ensures PostsNothing(UpdateLedger(l, date, number, 0, principal, now, always).entries)
  {
    CorrectionsPostNothing(l.lastEntryId, l.principal, Corrections(principal - l.principal), now);
    var fix := CorrectingEntries(l.lastEntryId, l.principal, principal, now);
    assert fix + [] == fix;
  }

  lemma UpdatePosts(server: Server, l: LedgerData, t: Transfer, now: int)
    requires Known(server, t) && t.amount != 0 && l.lastTransferNumber < t.number
    ensures var e := UpdateLedger(l, t.date, t.number, t.amount, t.principal, now, false);
            Posts(server, t.date, l.lastTransferNumber, e.entries, t.number)
  {
    var previous := t.principal - t.amount;
    CorrectionsPostNothing(l.lastEntryId, l.principal, Corrections(previous - l.principal), now);
    var fix := CorrectingEntries(l.lastEntryId, l.principal, previous, now);
    assert PostsNothing(fix);
    var own := [Entry(l.lastEntryId + |fix| + 1, t.amount, t.principal, Some((t.date, t.number)), now)];
    assert Posts(server, t.date, l.lastTransferNumber, fix, l.lastTransferNumber);
    PostsTwice(server, t.date, l.lastTransferNumber, fix, l.lastTransferNumber, own, t.number);
  }

  lemma {:induction false} PassPosts(server: Server, l: LedgerData, date: int, ts: seq<Transfer>, cutoff: int, now: int)
    requires Sorted(ts) && forall t :: t in ts ==>
               Known(server, t) && t.amount != 0 && t.date == date && t.number > l.lastTransferNumber
    ensures var r := Pass(l, date, ts, cutoff, now);
            Posts(server, date, l.lastTransferNumber, r.entries, r.ledger.lastTransferNumber)
    decreases |ts|
  {
    if ts != [] && !MustWait(l, ts[0], cutoff) {
      var t := ts[0];
      assert t in ts;
      var e := UpdateLedger(l, date, t.number, t.amount, t.principal, now, false);
      UpdatePosts(server, l, t, now);
      UpdateLedgerKeeps(l, date, t.number, t.amount, t.principal, now, false);
      forall u | u in ts[1..] ensures u in ts && u.number > t.number {
        var k :| 0 <= k < |ts[1..]| && ts[1..][k] == u;
        assert u == ts[k + 1] && Precedes(ts[0], ts[k + 1]);
      }
      hide Posts, LedgerSpec.UpdateLedger;
      PassPosts(server, e.ledger, date, ts[1..], cutoff, now);
      var r := Pass(e.ledger, date, ts[1..], cutoff, now);
      PostsTwice(server, date, l.lastTransferNumber, e.entries, t.number, r.entries, r.ledger.lastTransferNumber);
    }
  }

  lemma WorkPosts(server: Server, a: Account, ts: seq<Transfer>, exhausted: bool, cutoff: int, now: int)
    requires Sorted(ts) && forall t :: t in ts ==>
               Known(server, t) && t.amount != 0 && t.date == a.server.creationDate && t.number > a.ledger.lastTransferNumber
    ensures var date := a.server.creationDate;
            var w := Finish(Pass(a.ledger, date, ts, cutoff, now), exhausted, date, LatestOf(a), cutoff, now);
            Posts(server, date, a.ledger.lastTransferNumber, w.entries, w.ledger.lastTransferNumber)
  {
    hide LedgerSpec.Pass, LedgerSpec.UpdateLedger;
    var date, latest := a.server.creationDate, LatestOf(a);
    var r := Pass(a.ledger, date, ts, cutoff, now);
    PassPosts(server, a.ledger, date, ts, cutoff, now);
    var l := r.ledger.(pendingTransferTs := r.blockedAt);
    var c := CatchUp(l, date, latest, cutoff, now);
    UpdateWithoutTransfer(l, date, latest.number, latest.principal, now, false);
    UpdateLedgerKeeps(l, date, latest.number, 0, latest.principal, now, false);
    assert Posts(server, date, l.lastTransferNumber, c.entries, c.ledger.lastTransferNumber);
    PostsTwice(server, date, a.ledger.lastTransferNumber, r.entries, l.lastTransferNumber,
               c.entries, c.ledger.lastTransferNumber);
  }

  // ---------- The invariant ----------

  ghost predicate PostedOnce(server: Server, s: State) {
    s.account.Some? ==>
      && InOrder(s.entries)
      && forall e :: e in s.entries ==>
           IsTruthful(server, e) && (e.transfer.Some? ==> IsBehind(e.transfer.value, s.account.value))
  }

  /** The transfer is of an earlier server account, or no later than the ledger's last one. */
  predicate IsBehind(t: (int, int), a: Account) {
    t.0 < a.server.creationDate || (t.0 == a.server.creationDate && t.1 <= a.ledger.lastTransferNumber)
  }

  lemma PostingKeepsOrder(server: Server, s: State, s': State, es: seq<Entry>)
    requires PostedOnce(server, s) && s.account.Some? && s'.account.Some? && s'.entries == s.entries + es
    requires s'.account.value.server.creationDate == s.account.value.server.creationDate
    requires Posts(server, s.account.value.server.creationDate, s.account.value.ledger.lastTransferNumber, es,
                   s'.account.value.ledger.lastTransferNumber)
    ensures PostedOnce(server, s')
  {
    var all := s.entries + es;
    forall i, j | 0 <= i < j < |all| && all[i].transfer.Some? && all[j].transfer.Some?
      ensures Earlier(all[i].transfer.value, all[j].transfer.value)
    {
      if i < |s.entries| <= j {
        assert all[i] in s.entries && all[j] in es;
      }
    }
  }

  lemma QuietStepKeepsOrder(server: Server, s: State, s': State, es: seq<Entry>)
    requires PostedOnce(server, s) && s.account.Some? && s'.account.Some? && s'.entries == s.entries + es
    requires PostsNothing(es)
    requires var d, d' := s.account.value.server.creationDate, s'.account.value.server.creationDate;
             d <= d' && (d == d' ==> s.account.value.ledger.lastTransferNumber <= s'.account.value.ledger.lastTransferNumber)
    ensures PostedOnce(server, s')
  {
    var all := s.entries + es;
    assert forall k :: |s.entries| <= k < |all| ==> all[k] in es;
  }

  lemma ProcessingPostsOnce(p: Params, server: Server, s: State)
    requires ValidParams(p) && ValidServer(server) && ValidStore(server, s.store) && PostedOnce(server, s)
    ensures PostedOnce(server, ProcessBurst(p, s)) && PostedOnce(server, ProcessOnePass(p, s))
  {
    hide LedgerSpec.Pass, LedgerSpec.Finish, LedgerSpec.Pending, PostedOnce, Posts;
    if s.wake && s.account.Some? {
      var a, cutoff := s.account.value, s.clock - p.maxDelay;
      var ts, date := PendingOf(a, s.store), a.server.creationDate;
      PendingIsStored(s.store, date, a.ledger.lastTransferNumber);
      PendingIsSorted(s.store, date, a.ledger.lastTransferNumber);
      forall t | t in ts ensures t.amount != 0 { KnownIsValid(server, t); }
      var few := Take(ts, p.burst);
      FewAreSorted(ts, few);
      WorkPosts(server, a, ts, true, cutoff, s.clock);
      WorkPosts(server, a, few, |few| < p.burst, cutoff, s.clock);
      PostingKeepsOrder(server, s, ProcessBurst(p, s), BurstWork(a, s.store, p.burst, cutoff, s.clock).entries);
      PostingKeepsOrder(server, s, ProcessOnePass(p, s), OnePassWork(a, s.store, cutoff, s.clock).entries);
    }
  }

  lemma FewAreSorted(ts: seq<Transfer>, few: seq<Transfer>)
    requires Sorted(ts) && few <= ts
    ensures Sorted(few) && forall t :: t in few ==> t in ts
  {
  }

  lemma NothingPosted(server: Server, s: State)
    requires s.account.None?
    ensures PostedOnce(server, s)
  {
  }

  lemma ResetPostsOnce(server: Server, s: State, s': State)
    requires PostedOnce(server, s) && ResetsLedger(s, s')
    ensures PostedOnce(server, s')
  {
    hide PostedOnce, LedgerSpec.UpdateLedger;
    var a, a' := s.account.value, s'.account.value;
    var date, isNew := a'.server.creationDate, a'.server.creationDate > a.server.creationDate;
    var l := if isNew then a.ledger.(pendingTransferTs := None) else a.ledger;
    var number, principal := if isNew then 0 else l.lastTransferNumber, if isNew then 0 else l.principal;
    UpdateWithoutTransfer(l, date, number, principal, s.clock, true);
    UpdateLedgerKeeps(l, date, number, 0, principal, s.clock, true);
    QuietStepKeepsOrder(server, s, s', ResetOf(a.ledger, isNew, date, s.clock).entries);
  }

  lemma KeptLedgerKeepsOrder(server: Server, s: State, s': State)
    requires PostedOnce(server, s) && KeepsLedger(s, s')
    ensures PostedOnce(server, s')
  {
  }

  lemma UpdatingPostsOnce(server: Server, s: State, m: UpdateMsg)
    requires PostedOnce(server, s)
    ensures PostedOnce(server, AccountUpdate(s, m))
  {
    hide AccountUpdate, KeepsLedger, ResetsLedger, PostedOnce;
    var s' := AccountUpdate(s, m);
    UpdateEffect(s, m);
    if s.account.None? {
      NothingPosted(server, s');
    } else if KeepsLedger(s, s') {
      KeptLedgerKeepsOrder(server, s, s');
    } else {
      ResetPostsOnce(server, s, s');
    }
  }

  lemma ScanningPostsOnce(p: Params, server: Server, s: State)
    requires PostedOnce(server, s)
    ensures PostedOnce(server, ScanAccount(p, s))
  {
    hide PostedOnce;
    if s.account.Some? {
      var a := s.account.value;
      CorrectionsPostNothing(a.ledger.lastEntryId, a.ledger.principal, Corrections(a.server.principal - a.ledger.principal), s.clock);
      var es := CorrectingEntries(a.ledger.lastEntryId, a.ledger.principal, a.server.principal, s.clock);
      assert s.entries + [] == s.entries;
      QuietStepKeepsOrder(server, s, ScanAccount(p, s), if NeedsCorrection(a, s.clock) then es else []);
    }
  }

  lemma LeftLedgerKeepsOrder(server: Server, s: State, s': State)
    requires PostedOnce(server, s) && LeavesLedger(s, s')
    ensures PostedOnce(server, s')
  {
  }

  lemma CreatingPostsOnce(server: Server, s: State, order: seq<int>)
    requires IsOrder(order) && PostedOnce(server, s)
    ensures PostedOnce(server, CreateAccount(s, order).0)
  {
  }

  /** Every step keeps the order, and posts nothing twice. */
  lemma StepPostsOnce(p: Params, server: Server, s: State, now: int, step: Step)
    requires ValidParams(p) && ValidServer(server) && Allowed(server, step) && ValidStore(server, s.store)
    requires PostedOnce(server, s)
    ensures PostedOnce(server, Apply(p, s, now, step))
  {
    hide Apply, LeavesLedger, InOrder, IsTruthful, IsBehind;
    var s1 := s.(clock := now);
    if IsLedgerStep(step) {
      LedgerSteps(p, s, now, step);
      match step {
        case Update(m) => UpdatingPostsOnce(server, s1, m);
        case ScanRow => ScanningPostsOnce(p, server, s1);
        case Create(order) => CreatingPostsOnce(server, s1, order);
        case _ => ProcessingPostsOnce(p, server, s1);
      }
    } else {
      OtherStepsLeaveLedger(p, s, now, step);
      LeftLedgerKeepsOrder(server, s, Apply(p, s, now, step));
    }
  }
}
