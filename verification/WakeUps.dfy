/**
 * The server's chains of transfers, what may arrive from them, and the wake-up rows: the ledger
 * never stands still while a stored transfer continues it.
 */
module WakeUps {
  import opened Options
  import opened AccountModel
  import opened LedgerSpec
  import opened StepEffects
  import opened SystemSpec
  import opened Refinement

  // ---------- The server ----------

  /** For each creation date, all transfers that the server has made or will make. */
  type Server = map<int, seq<Transfer>>

  /** The number of the transfer before the k-th one. */
  function NumberBefore(c: seq<Transfer>, k: nat): int
    requires k <= |c|
  {
    if k == 0 then 0 else c[k - 1].number
  }

  /** The i-th transfer names the one before it. */
  predicate IsLink(c: seq<Transfer>, date: int, i: nat)
    requires i < |c|
  {
    c[i].date == date && ValidTransfer(c[i]) && c[i].prev == NumberBefore(c, i)
  }

  ghost predicate IsChain(c: seq<Transfer>, date: int) {
    forall i :: 0 <= i < |c| ==> IsLink(c, date, i)
  }

  ghost predicate ValidServer(server: Server) {
    forall d :: d in server ==> d > DATE0 && IsChain(server[d], d)
  }

  ghost predicate Known(server: Server, t: Transfer) {
    t.date in server && t in server[t.date]
  }

  /** Messages may be lost, repeated and reordered, but transfers are never made up. */
  ghost predicate Allowed(server: Server, step: Step) {
    ValidStep(step) && (step.Arrive? ==> Known(server, step.transfer))
  }

  lemma {:induction false} ChainGrows(c: seq<Transfer>, date: int, i: nat, j: nat)
    requires IsChain(c, date) && i < j < |c|
    ensures c[i].number <= c[j].prev < c[j].number
    decreases j
  {
    assert IsLink(c, date, j);
    if i < j - 1 {
      ChainGrows(c, date, i, j - 1);
    }
  }

  lemma KnownIsValid(server: Server, t: Transfer)
    requires ValidServer(server) && Known(server, t)
    ensures ValidTransfer(t) && t.date > DATE0
  {
    var c := server[t.date];
    var i :| 0 <= i < |c| && c[i] == t;
    assert IsLink(c, t.date, i);
  }

  /** Of two known transfers, the later one comes after the earlier one or after a later one still. */
  lemma KnownInOrder(server: Server, t: Transfer, u: Transfer)
    requires ValidServer(server) && Known(server, t) && Known(server, u) && t.date == u.date
    ensures t.number < u.number ==> t.number <= u.prev
    ensures t.number == u.number ==> t == u
  {
    var c := server[t.date];
    var i :| 0 <= i < |c| && c[i] == t;
    var j :| 0 <= j < |c| && c[j] == u;
    if i < j {
      ChainGrows(c, t.date, i, j);
    } else if j < i {
      ChainGrows(c, t.date, j, i);
    }
  }

  // ---------- The table of transfers ----------

  ghost predicate ValidStore(server: Server, store: seq<Transfer>) {
    Sorted(store) && forall t :: t in store ==> Known(server, t)
  }

  lemma {:induction false} InsertKeepsOrder(store: seq<Transfer>, t: Transfer)
    requires Sorted(store) && !IsStored(store, t.date, t.number)
    ensures Sorted(Insert(store, t))
    ensures forall u :: u in Insert(store, t) <==> u in store || u == t
  {
    if store != [] && !Precedes(t, store[0]) {
      assert store[0] in store;
      assert forall u :: u in store[1..] ==> u in store;
      InsertKeepsOrder(store[1..], t);
      var rest := Insert(store[1..], t);
      assert Precedes(store[0], t);
      forall j | 0 <= j < |rest| ensures Precedes(store[0], rest[j]) {
        assert rest[j] in rest;
        if rest[j] != t {
          var k :| 0 <= k < |store[1..]| && store[1..][k] == rest[j];
          assert Precedes(store[0], store[k + 1]);
        }
      }
    } else {
      forall j | 0 <= j < |store| ensures Precedes(t, store[j]) {
        assert j > 0 ==> Precedes(store[0], store[j]);
      }
    }
  }

  lemma {:induction false} RemoveKeepsOrder(store: seq<Transfer>, keys: set<(int, int)>, cutoff: int)
    requires Sorted(store)
    ensures Sorted(Remove(store, keys, cutoff))
    ensures forall u :: u in Remove(store, keys, cutoff) <==>
              u in store && !((u.date, u.number) in keys && u.committedAt < cutoff)
  {
    if store != [] {
      RemoveKeepsOrder(store[1..], keys, cutoff);
      var rest := Remove(store[1..], keys, cutoff);
      forall j | 0 <= j < |rest| ensures Precedes(store[0], rest[j]) {
        assert rest[j] in rest;
        var k :| 0 <= k < |store[1..]| && store[1..][k] == rest[j];
        assert Precedes(store[0], store[k + 1]);
      }
    }
  }

  lemma StepKeepsStore(p: Params, server: Server, s: State, now: int, step: Step)
    requires ValidParams(p) && Allowed(server, step) && ValidStore(server, s.store)
    ensures ValidStore(server, Apply(p, s, now, step).store)
  {
    hide Apply, LeavesLedger, LeavesTransfers;
    StoreAfter(p, s, now, step);
    match step {
      case Arrive(t, ts) =>
        if !IsStored(s.store, t.date, t.number) { InsertKeepsOrder(s.store, t); }
      case Collect(keys) =>
        RemoveKeepsOrder(s.store, keys, now - (p.maxDelay + Max(p.logRetention, p.ledgerRetention)));
      case _ =>
    }
  }

  /** Only arrivals and the garbage collector change the table of transfers. */
  lemma StoreAfter(p: Params, s: State, now: int, step: Step)
    requires ValidParams(p) && ValidStep(step)
    ensures var s' := Apply(p, s, now, step);
            s'.store == match step
                        case Arrive(t, ts) => ArriveTransfer(p, s.(clock := now), t, ts).store
                        case Collect(keys) => CollectTransfers(p, s.(clock := now), keys).store
                        case _ => s.store
  {
    hide Apply, LeavesLedger, ArriveTransfer, CollectTransfers;
    if step.Create? {
      LedgerSteps(p, s, now, step);
    } else if IsLedgerStep(step) {
      LedgerStepsStayInside(p, s, now, step);
    } else if IsLifecycle(step) {
      LifecycleEffect(p, s, now, step);
    } else if IsRequest(step) {
      RequestEffect(p, s, now, step);
    } else {
      TransferEffect(p, s, now, step);
    }
  }

  // ---------- No lost wake-ups ----------

  /** The transfer is the next one for the account's ledger. */
  predicate Continues(a: Account, t: Transfer) {
    t.date == a.server.creationDate && t.prev == a.ledger.lastTransferNumber
  }

  ghost predicate NoLostWakeUp(s: State) {
    && (s.wake ==> s.account.Some?)
    && (s.account.Some? && !s.wake ==> forall t :: t in s.store ==> !Continues(s.account.value, t))
  }

  /** Where a blocked pass stops. */
  lemma {:induction false} PassStops(l: LedgerData, date: int, ts: seq<Transfer>, cutoff: int, now: int) returns (i: nat)
    ensures var r := Pass(l, date, ts, cutoff, now);
            r.blockedAt.Some? ==>
              && i < |ts| && r.blockedAt == Some(ts[i].committedAt) && ts[i].committedAt >= cutoff
              && r.ledger.lastTransferNumber == (if i == 0 then l.lastTransferNumber else ts[i - 1].number)
              && ts[i].prev != r.ledger.lastTransferNumber
    decreases |ts|
  {
    i := 0;
    if ts != [] && !MustWait(l, ts[0], cutoff) {
      var e := UpdateLedger(l, date, ts[0].number, ts[0].amount, ts[0].principal, now, false);
      UpdateLedgerKeeps(l, date, ts[0].number, ts[0].amount, ts[0].principal, now, false);
      var k := PassStops(e.ledger, date, ts[1..], cutoff, now);
      i := k + 1;
    }
  }

  /** When the work is done, no stored transfer continues the ledger. */
  lemma DoneLeavesNothing(server: Server, a: Account, store: seq<Transfer>, cutoff: int, now: int)
    requires ValidServer(server) && ValidStore(server, store)
    ensures var w := OnePassWork(a, store, cutoff, now);
            forall t :: t in store ==> !Continues(a.(ledger := w.ledger), t)
  {
    hide LedgerSpec.Pass, LedgerSpec.Pending;
    var date, ts := a.server.creationDate, PendingOf(a, store);
    PendingIsStored(store, date, a.ledger.lastTransferNumber);
    PendingIsSorted(store, date, a.ledger.lastTransferNumber);
    var r := Pass(a.ledger, date, ts, cutoff, now);
    PassEnd(a.ledger, date, ts, cutoff, now);
    var i := PassStops(a.ledger, date, ts, cutoff, now);
    var w := OnePassWork(a, store, cutoff, now);
    forall t | t in store && t.date == date ensures t.prev != w.ledger.lastTransferNumber {
      KnownIsValid(server, t);
      assert t.prev < t.number;
      if t.number > a.ledger.lastTransferNumber {
        assert t in ts;
        var k :| 0 <= k < |ts| && ts[k] == t;
        if r.blockedAt.Some? {
          assert i > 0 ==> ts[i - 1] in ts && ts[i] in ts;
          if k + 1 < i {
            assert Precedes(ts[k], ts[i - 1]);
          } else if k > i {
            assert Precedes(ts[i], ts[k]) && ts[i] in ts;
            KnownInOrder(server, ts[i], t);
            assert i > 0 ==> Precedes(ts[i - 1], ts[i]);
          }
        } else {
          assert k < |ts| - 1 ==> Precedes(ts[k], ts[|ts| - 1]);
        }
      } else {
        assert r.blockedAt.Some? && i > 0 ==> ts[i - 1] in ts;
        assert ts != [] ==> ts[|ts| - 1] in ts;
      }
    }
  }

  lemma ProcessingKeepsWakeUps(p: Params, server: Server, s: State)
    requires ValidParams(p) && ValidServer(server) && ValidStore(server, s.store) && NoLostWakeUp(s)
    ensures NoLostWakeUp(ProcessBurst(p, s)) && NoLostWakeUp(ProcessOnePass(p, s))
  {
    hide LedgerSpec.BurstWork, LedgerSpec.OnePassWork, LedgerSpec.Pending, ValidServer, Sorted;
    if s.account.Some? && s.wake {
      var a, cutoff := s.account.value, s.clock - p.maxDelay;
      DoneLeavesNothing(server, a, s.store, cutoff, s.clock);
      BurstThenPass(a, s.store, p.burst, cutoff, s.clock);
    }
  }

  lemma ResetKeepsWakeUps(s: State, m: UpdateMsg)
    requires NoLostWakeUp(s)
    ensures NoLostWakeUp(AccountUpdate(s, m))
  {
    hide AccountUpdate, LedgerSpec.ResetOf;
    UpdateEffect(s, m);
  }

  lemma ScanKeepsWakeUps(p: Params, s: State)
    requires NoLostWakeUp(s)
    ensures NoLostWakeUp(ScanAccount(p, s))
  {
    hide LedgerSpec.NeedsCorrection, LedgerSpec.CorrectingEntries, SystemSpec.HasConfigProblem;
  }

  lemma CreatingKeepsWakeUps(s: State, order: seq<int>, server: Server)
    requires IsOrder(order) && ValidServer(server) && ValidStore(server, s.store) && NoLostWakeUp(s)
    ensures NoLostWakeUp(CreateAccount(s, order).0)
  {
  }

  /** A transfer that arrives either is not the next one, or comes with the wake-up row. */
  lemma TransfersKeepWakeUps(p: Params, s: State, now: int, step: Step)
    requires ValidParams(p) && ValidStep(step) && (step.Arrive? || step.Collect?)
    requires Sorted(s.store) && NoLostWakeUp(s)
    ensures NoLostWakeUp(Apply(p, s, now, step))
  {
    hide Apply;
    TransferSteps(p, s, now, step);
    match step {
      case Arrive(t, ts) =>
        if !IsStored(s.store, t.date, t.number) { InsertKeepsOrder(s.store, t); }
      case Collect(keys) =>
        RemoveKeepsOrder(s.store, keys, now - (p.maxDelay + Max(p.logRetention, p.ledgerRetention)));
    }
  }

  lemma LeftTransfersKeepWakeUps(s: State, s': State)
    requires NoLostWakeUp(s) && LeavesLedger(s, s') && LeavesTransfers(s, s')
    ensures NoLostWakeUp(s')
  {
  }

  lemma StepKeepsWakeUps(p: Params, server: Server, s: State, now: int, step: Step)
    requires ValidParams(p) && ValidServer(server) && Allowed(server, step)
    requires ValidStore(server, s.store) && NoLostWakeUp(s)
    ensures NoLostWakeUp(Apply(p, s, now, step))
  {
    hide Apply, LeavesLedger, LeavesTransfers;
    var s1 := s.(clock := now);
    if IsLedgerStep(step) {
      LedgerSteps(p, s, now, step);
      match step {
        case Update(m) => ResetKeepsWakeUps(s1, m);
        case ScanRow => ScanKeepsWakeUps(p, s1);
        case Create(order) => CreatingKeepsWakeUps(s1, order, server);
        case _ => ProcessingKeepsWakeUps(p, server, s1);
      }
    } else if step.Arrive? || step.Collect? {
      TransfersKeepWakeUps(p, s, now, step);
    } else {
      if IsLifecycle(step) {
        LifecycleEffect(p, s, now, step);
      } else {
        RequestEffect(p, s, now, step);
      }
      LeftTransfersKeepWakeUps(s, Apply(p, s, now, step));
    }
  }
}
