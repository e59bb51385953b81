/**
 * Eventual reconciliation: once messages stop and everything has become old, two visits of the
 * scanner with a processing run between them bring the ledger in line with the server.
 */
module Reconciliation {
  import opened AccountModel
  import opened LedgerSpec
  import opened SystemSpec
  import opened Refinement

  /** Nothing about the account's transfers is younger than the maximum delay. */
  ghost predicate AllOld(a: Account, store: seq<Transfer>, cutoff: int) {
    && a.server.lastTransferCommittedAt < cutoff
    && (a.ledger.pendingTransferTs.Some? ==> a.ledger.pendingTransferTs.value < cutoff)
    && forall t :: t in PendingOf(a, store) ==> t.committedAt < cutoff
  }

  /** The ledger has reached the last transfer, and agrees on the principal if it stands there. */
  predicate Reconciled(a: Account) {
    && a.ledger.lastTransferNumber >= a.server.lastTransferNumber
    && (a.ledger.lastTransferNumber == a.server.lastTransferNumber ==> a.ledger.principal == a.server.principal)
  }

  /** Old transfers do not have to wait, and the ledger only moves forward. */
  lemma {:induction false} OldTransfersPass(l: LedgerData, date: int, ts: seq<Transfer>, cutoff: int, now: int)
    requires Sorted(ts) && forall t :: t in ts ==> t.committedAt < cutoff && t.date == date && t.number > l.lastTransferNumber
    ensures var r := Pass(l, date, ts, cutoff, now);
            && r.blockedAt.None? && r.ledger.lastTransferNumber >= l.lastTransferNumber
            && (r.ledger.updateTs == l.updateTs || r.ledger.updateTs == now)
    decreases |ts|
  {
    if ts != [] {
      assert ts[0] in ts;
      var e := UpdateLedger(l, date, ts[0].number, ts[0].amount, ts[0].principal, now, false);
      forall t | t in ts[1..] ensures t.committedAt < cutoff && t.date == date && t.number > ts[0].number {
        var k :| 0 <= k < |ts[1..]| && ts[1..][k] == t;
        assert t == ts[k + 1] && ts[k + 1] in ts && Precedes(ts[0], ts[k + 1]);
      }
      OldTransfersPass(e.ledger, date, ts[1..], cutoff, now);
    }
  }

  /** A processing run on an old account reaches the last transfer. */
  lemma OldWorkReaches(a: Account, store: seq<Transfer>, cutoff: int, now: int)
    requires Sorted(store) && AllOld(a, store, cutoff)
    ensures var l := OnePassWork(a, store, cutoff, now).ledger;
            && l.lastTransferNumber >= a.ledger.lastTransferNumber
            && l.lastTransferNumber >= a.server.lastTransferNumber
            && (l.updateTs == a.ledger.updateTs || l.updateTs == now)
  {
    var ts, date := PendingOf(a, store), a.server.creationDate;
    PendingIsStored(store, date, a.ledger.lastTransferNumber);
    PendingIsSorted(store, date, a.ledger.lastTransferNumber);
    OldTransfersPass(a.ledger, date, ts, cutoff, now);
  }

  /** A processing run on an old account leaves no transfer pending. */
  lemma OldWorkFinishes(a: Account, store: seq<Transfer>, cutoff: int, now: int)
    requires Sorted(store) && AllOld(a, store, cutoff)
    ensures PendingOf(a.(ledger := OnePassWork(a, store, cutoff, now).ledger), store) == []
  {
    hide Pass, Pending, Sorted, AllOld;
    var ts, date, above := PendingOf(a, store), a.server.creationDate, a.ledger.lastTransferNumber;
    OldPassEnds(a, store, cutoff, now);
    var r := Pass(a.ledger, date, ts, cutoff, now);
    var l := OnePassWork(a, store, cutoff, now).ledger;
    assert l.lastTransferNumber >= r.ledger.lastTransferNumber;
    if ts != [] {
      PendingAfter(store, date, above, |ts|);
    }
    PendingTwice(store, date, r.ledger.lastTransferNumber, l.lastTransferNumber);
    NothingIsPending(date, l.lastTransferNumber);
  }

  lemma NothingIsPending(date: int, above: int)
    ensures Pending([], date, above) == []
  {
  }

  lemma OldPassEnds(a: Account, store: seq<Transfer>, cutoff: int, now: int)
    requires Sorted(store) && AllOld(a, store, cutoff)
    ensures var ts := PendingOf(a, store); var r := Pass(a.ledger, a.server.creationDate, ts, cutoff, now);
            && r.blockedAt.None?
            && r.ledger.lastTransferNumber == if ts == [] then a.ledger.lastTransferNumber else ts[|ts| - 1].number
  {
    var ts, date := PendingOf(a, store), a.server.creationDate;
    PendingIsStored(store, date, a.ledger.lastTransferNumber);
    PendingIsSorted(store, date, a.ledger.lastTransferNumber);
    OldTransfersPass(a.ledger, date, ts, cutoff, now);
    PassEnd(a.ledger, date, ts, cutoff, now);
  }

  lemma StillOld(a: Account, a1: Account, store: seq<Transfer>, cutoff: int, later: int)
    requires AllOld(a, store, cutoff) && cutoff <= later
    requires a1.server == a.server && a1.ledger.lastTransferNumber == a.ledger.lastTransferNumber
    requires a1.ledger.pendingTransferTs == a.ledger.pendingTransferTs
    ensures AllOld(a1, store, later)
  {
  }

  /** A ledger that has moved forward, and does not wait for anything. */
  lemma MovedIsOld(a: Account, a1: Account, store: seq<Transfer>, cutoff: int)
    requires AllOld(a, store, cutoff) && a1.server == a.server
    requires a1.ledger.lastTransferNumber >= a.ledger.lastTransferNumber && a1.ledger.pendingTransferTs.None?
    ensures AllOld(a1, store, cutoff)
  {
    PendingIsStored(store, a.server.creationDate, a.ledger.lastTransferNumber);
    PendingIsStored(store, a.server.creationDate, a1.ledger.lastTransferNumber);
  }

  /** Nothing is pending, and the last announced transfer has been reached. */
  predicate HasCaughtUp(a: Account, store: seq<Transfer>) {
    PendingOf(a, store) == [] && a.ledger.lastTransferNumber >= a.server.lastTransferNumber
  }

  /** A burst on an old account moves the ledger forward. */
  lemma OldBurst(a: Account, store: seq<Transfer>, burst: int, cutoff: int, now: int)
    requires burst >= 1 && Sorted(store) && AllOld(a, store, cutoff)
    ensures var w := BurstWork(a, store, burst, cutoff, now);
            var a1 := a.(ledger := w.ledger);
            && w.ledger.pendingTransferTs.None? && w.ledger.lastTransferNumber >= a.ledger.lastTransferNumber
            && (w.ledger.updateTs == a.ledger.updateTs || w.ledger.updateTs == now)
            && (if w.done then HasCaughtUp(a1, store) else |PendingOf(a1, store)| < |PendingOf(a, store)|)
  {
    hide Sorted, AllOld, Pass;
    BurstThenPass(a, store, burst, cutoff, now);
    OldPassEnds(a, store, cutoff, now);
    if BurstWork(a, store, burst, cutoff, now).done {
      OldWorkReaches(a, store, cutoff, now);
      OldWorkFinishes(a, store, cutoff, now);
    } else {
      OldBurstMoves(a, store, burst, cutoff, now);
    }
  }

  lemma OldBurstMoves(a: Account, store: seq<Transfer>, burst: int, cutoff: int, now: int)
    requires burst >= 1 && Sorted(store) && AllOld(a, store, cutoff)
    ensures var r := Pass(a.ledger, a.server.creationDate, Take(PendingOf(a, store), burst), cutoff, now);
            && r.blockedAt.None? && r.ledger.lastTransferNumber >= a.ledger.lastTransferNumber
            && (r.ledger.updateTs == a.ledger.updateTs || r.ledger.updateTs == now)
  {
    hide Pass;
    var date, ts := a.server.creationDate, PendingOf(a, store);
    PendingIsStored(store, date, a.ledger.lastTransferNumber);
    PendingIsSorted(store, date, a.ledger.lastTransferNumber);
    assert forall t :: t in Take(ts, burst) ==> t in ts;
    OldTransfersPass(a.ledger, date, Take(ts, burst), cutoff, now);
  }

  /** How bursts at some times have changed an old account. */
  ghost predicate HasMoved(s: State, s': State, cutoff: int, times: seq<int>)
    requires s.account.Some?
  {
    && s'.account.Some? && s'.store == s.store
    && var a, a' := s.account.value, s'.account.value;
       && a'.server == a.server && AllOld(a', s.store, cutoff)
       && (a'.ledger.updateTs == a.ledger.updateTs || a'.ledger.updateTs in times)
       && a'.ledger.lastTransferNumber >= a.ledger.lastTransferNumber
       && (if !s.wake then !s'.wake && a'.ledger == a.ledger
           else if s'.wake then |times| + |PendingOf(a', s.store)| <= |PendingOf(a, s.store)|
           else HasCaughtUp(a', s.store))
  }

  lemma BurstMoves(p: Params, s: State, cutoff: int)
    requires ValidParams(p) && Sorted(s.store) && s.account.Some?
    requires AllOld(s.account.value, s.store, cutoff) && cutoff <= s.clock - p.maxDelay
    ensures HasMoved(s, ProcessBurst(p, s), cutoff, [s.clock])
  {
    hide AllOld, Sorted, HasCaughtUp, Pending, BurstWork;
    if s.wake {
      var a := s.account.value;
      StillOld(a, a, s.store, cutoff, s.clock - p.maxDelay);
      OldBurst(a, s.store, p.burst, s.clock - p.maxDelay, s.clock);
      MovedIsOld(a, ProcessBurst(p, s).account.value, s.store, cutoff);
    }
  }

  /**
   * A processing run on an old account, in which each burst reads the clock anew. When it has made
   * more bursts than there were pending transfers, a due account has caught up.
   */
  lemma {:induction false} OldRun(p: Params, s: State, cutoff: int, times: seq<int>)
    requires ValidParams(p) && Sorted(s.store) && s.account.Some? && AllOld(s.account.value, s.store, cutoff)
    requires forall t :: t in times ==> cutoff <= t - p.maxDelay
    ensures HasMoved(s, DrainAt(p, s, times), cutoff, times)
  {
    if times != [] {
      var init, t := times[..|times| - 1], times[|times| - 1];
      assert forall x :: x in init ==> x in times;
      assert t in times;
      hide AllOld, Sorted, HasCaughtUp, Pending, ProcessBurst;
      OldRun(p, s, cutoff, init);
      BurstMoves(p, DrainAt(p, s, init).(clock := t), cutoff);
    }
  }

  /** The first visit: afterwards either the account is due, or it has no transfer to wait for. */
  lemma FirstVisit(p: Params, s: State)
    requires s.account.Some? && AllOld(s.account.value, s.store, s.clock - p.maxDelay)
    requires s.account.value.ledger.updateTs < s.clock - TD_HOUR
    ensures var s1 := ScanAccount(p, s);
            && s1.account.Some? && s1.store == s.store && s1.clock == s.clock
            && var a, a1 := s.account.value, s1.account.value;
               && a1.server == a.server && a1.ledger.lastTransferNumber == a.ledger.lastTransferNumber
               && a1.ledger.pendingTransferTs == a.ledger.pendingTransferTs
               && a1.ledger.updateTs <= s.clock
               && (s1.wake || a.server.lastTransferNumber <= a.ledger.lastTransferNumber)
  {
  }

  /** The last visit. */
  lemma LastVisit(p: Params, s: State)
    requires s.account.Some? && s.account.value.ledger.updateTs < s.clock - TD_HOUR
    requires s.account.value.ledger.lastTransferNumber >= s.account.value.server.lastTransferNumber
    ensures var s' := ScanAccount(p, s);
            s'.account.Some? && Reconciled(s'.account.value) && s'.account.value.server == s.account.value.server
  {
  }

  /**
   * A visit, a processing run until done (in bursts of any size, each with its own time), and a visit
   * more than an hour later. The account may be due from the beginning, and the ledger may already
   * be ahead.
   */
  lemma EventuallyReconciled(p: Params, s: State, first: int, times: seq<int>, last: int)
    requires ValidParams(p) && Sorted(s.store) && s.account.Some?
    requires |times| > |PendingOf(s.account.value, s.store)|
    requires forall t :: t in times ==> first <= t && t + TD_HOUR < last
    requires AllOld(s.account.value, s.store, first - p.maxDelay)
    requires s.account.value.ledger.updateTs < first - TD_HOUR
    ensures var s1 := ScanAccount(p, s.(clock := first));
            var s2 := DrainAt(p, s1, times);
            var s3 := ScanAccount(p, s2.(clock := last));
            && !s2.wake
            && s3.account.Some? && Reconciled(s3.account.value) && s3.account.value.server == s.account.value.server
  {
    hide SystemSpec.ScanAccount, AllOld, Sorted, DrainAt, Pending;
    FirstVisit(p, s.(clock := first));
    var s1 := ScanAccount(p, s.(clock := first));
    StillOld(s.account.value, s1.account.value, s.store, first - p.maxDelay, first - p.maxDelay);
    OldRun(p, s1, first - p.maxDelay, times);
    assert times[0] in times;
    LastVisit(p, DrainAt(p, s1, times).(clock := last));
  }

  // ---------- What the repair does not see ----------

  /** A visit schedules an old account exactly if a transfer that the server has announced is missing. */
  lemma RepairSchedule(p: Params, s: State)
    requires s.account.Some? && AllOld(s.account.value, s.store, s.clock - p.maxDelay)
    ensures var a, s1 := s.account.value, ScanAccount(p, s);
            && s1.account.Some? && s1.store == s.store && s1.clock == s.clock
            && (s1.wake <==> s.wake || a.server.lastTransferNumber > a.ledger.lastTransferNumber)
            && s1.account.value.server == a.server
            && s1.account.value.ledger.lastTransferNumber == a.ledger.lastTransferNumber
            && s1.account.value.ledger.pendingTransferTs == a.ledger.pendingTransferTs
  {
    hide LedgerSpec.CorrectingEntries, SystemSpec.HasConfigProblem;
  }

  /**
   * A visit and a processing run, when everything is old: afterwards nothing is pending exactly if
   * the account was due, or an announced transfer was missing, or nothing was pending before. What
   * lies beyond the last announced number is not looked for.
   */
  lemma RepairFindsAnnouncedOnly(p: Params, s: State, first: int, times: seq<int>)
    requires ValidParams(p) && Sorted(s.store) && s.account.Some?
    requires |times| > |PendingOf(s.account.value, s.store)| && forall t :: t in times ==> first <= t
    requires AllOld(s.account.value, s.store, first - p.maxDelay)
    ensures var a := s.account.value;
            var s1 := ScanAccount(p, s.(clock := first));
            var s2 := DrainAt(p, s1, times);
            && !s2.wake && s2.account.Some?
            && (PendingOf(s2.account.value, s2.store) == [] <==>
                  s.wake || a.server.lastTransferNumber > a.ledger.lastTransferNumber || PendingOf(a, s.store) == [])
  {
    hide SystemSpec.ScanAccount, AllOld, Sorted, DrainAt, LedgerSpec.Pending;
    RepairSchedule(p, s.(clock := first));
    var s1 := ScanAccount(p, s.(clock := first));
    StillOld(s.account.value, s1.account.value, s.store, first - p.maxDelay, first - p.maxDelay);
    OldRun(p, s1, first - p.maxDelay, times);
  }
}
