/**
 * Garbage collection against replay: a transfer that has been collected is too old to come back.
 */
module Storage {
  import opened Options
  import opened AccountModel
  import opened LedgerSpec
  import opened StepEffects
  import opened SystemSpec
  import opened Refinement
  import opened WakeUps

  function Key(t: Transfer): (int, int) { (t.date, t.number) }

  /** How long ago a transfer must have been committed before its row is collected. */
  function Retention(p: Params): int { p.maxDelay + Max(p.logRetention, p.ledgerRetention) }

  ghost predicate Distinct<T(!new)>(xs: seq<T>) {
    forall i, j :: 0 <= i < j < |xs| ==> xs[i] != xs[j]
  }

  /** The transfers whose arrival has been queued for the log. */
  function Announced(log: seq<LogItem>): seq<(int, int)> {
    if log == [] then []
    else
      var last := log[|log| - 1];
      Announced(log[..|log| - 1]) + if last.TransferCommitted? then [(last.date, last.number)] else []
  }

  /**
   * Every transfer has been stored and announced at most once, and a transfer that was stored but
   * is no longer there has outlived the retention interval.
   */
  ghost predicate StoredOnce(p: Params, server: Server, s: State) {
    && Distinct(s.stored)
    && Announced(s.log) == s.stored
    && (forall t :: t in s.store ==> Key(t) in s.stored)
    && (forall t :: Known(server, t) && Key(t) in s.stored && t !in s.store ==> t.committedAt < s.clock - Retention(p))
  }

  lemma {:induction false} AnnouncedTwice(xs: seq<LogItem>, ys: seq<LogItem>)
    ensures Announced(xs + ys) == Announced(xs) + Announced(ys)
    decreases |ys|
  {
    if ys == [] {
      assert xs + ys == xs;
    } else {
      var init := ys[..|ys| - 1];
      assert (xs + ys)[..|xs + ys| - 1] == xs + init;
      AnnouncedTwice(xs, init);
    }
  }

  /** Log items about objects announce no transfers. */
  lemma {:induction false} ObjectsAnnounceNothing(xs: seq<LogItem>)
    requires forall x :: x in xs ==> !x.TransferCommitted?
    ensures Announced(xs) == []
  {
    if xs != [] {
      ObjectsAnnounceNothing(xs[..|xs| - 1]);
    }
  }

  /** A step that leaves the transfers alone. */
  ghost predicate OtherItems(s: State, s': State) {
    s.log <= s'.log && forall i :: |s.log| <= i < |s'.log| ==> !s'.log[i].TransferCommitted?
  }

  lemma QuietStepKeepsStorage(p: Params, server: Server, s: State, s': State)
    requires StoredOnce(p, server, s) && OtherItems(s, s')
    requires s'.store == s.store && s'.stored == s.stored && s.clock <= s'.clock
    ensures StoredOnce(p, server, s')
  {
    var more := s'.log[|s.log|..];
    assert s'.log == s.log + more;
    AnnouncedTwice(s.log, more);
    ObjectsAnnounceNothing(more);
  }

  lemma ArrivalKeepsStorage(p: Params, server: Server, s: State, t: Transfer, ts: int)
    requires ValidParams(p) && ValidServer(server) && Known(server, t)
    requires ValidStore(server, s.store) && StoredOnce(p, server, s)
    ensures StoredOnce(p, server, ArriveTransfer(p, s, t, ts))
  {
    var s' := ArriveTransfer(p, s, t, ts);
    if s' != s {
      InsertKeepsOrder(s.store, t);
      AnnouncedTwice(s.log, [TransferCommitted(t.date, t.number)]);
      ObjectsAnnounceNothing([TransferCommitted(t.date, t.number)][..0]);
      // A transfer that has been stored before would have been collected, hence too old.
      assert Key(t) !in s.stored;
      forall u | Known(server, u) && Key(u) in s'.stored && u !in s'.store
        ensures u.committedAt < s.clock - Retention(p)
      {
        if Key(u) == Key(t) { KnownInOrder(server, t, u); }
      }
    }
  }

  ghost predicate HasKey(store: seq<Transfer>, key: (int, int)) {
    exists t :: t in store && (t.date, t.number) == key
  }

  /** There is an account, and the message is no older than the log's entries. */
  predicate IsWelcome(p: Params, s: State, t: Transfer, ts: int, now: int) {
    s.account.Some? && now - ts <= p.logRetention && now - t.committedAt <= p.logRetention
  }

  /**
   * A transfer that arrives is stored and announced exactly if it is not stored yet, there is an account,
   * and it is recent, whatever its creation date. Then the account is due if the transfer continues its
   * ledger. Nothing else changes.
   */
  lemma ArrivalOutcome(p: Params, s: State, now: int, t: Transfer, ts: int)
    requires ValidParams(p)
    ensures var s' := Apply(p, s, now, Arrive(t, ts)); var key := (t.date, t.number);
            && (HasKey(s'.store, key) <==> HasKey(s.store, key) || IsWelcome(p, s, t, ts, now))
            && if HasKey(s.store, key) || !IsWelcome(p, s, t, ts, now) then s' == s.(clock := now)
               else
                 && (forall u :: u in s'.store <==> u in s.store || u == t)
                 && s'.log == s.log + [TransferCommitted(t.date, t.number)] && s'.stored == s.stored + [key]
                 && (s'.wake <==> s.wake || (t.date == s.account.value.server.creationDate
                                             && t.prev == s.account.value.ledger.lastTransferNumber))
                 && s' == s.(clock := now, store := s'.store, log := s'.log, stored := s'.stored, wake := s'.wake)
  {
    hide Apply, Insert;
    TransferSteps(p, s, now, Arrive(t, ts));
    InsertMembers(s.store, t);
  }

  lemma {:induction false} InsertMembers(store: seq<Transfer>, t: Transfer)
    ensures forall u :: u in Insert(store, t) <==> u in store || u == t
  {
    if store != [] && !Precedes(t, store[0]) {
      InsertMembers(store[1..], t);
    }
  }

  /** The scanner removes exactly those of the given rows that have outlived the retention. */
  lemma CollectionOutcome(p: Params, s: State, now: int, keys: set<(int, int)>)
    requires ValidParams(p) && Sorted(s.store)
    ensures var s' := Apply(p, s, now, Collect(keys));
            && (forall u :: u in s'.store <==>
                  u in s.store && !((u.date, u.number) in keys && u.committedAt < now - p.maxDelay - p.logRetention
                                    && u.committedAt < now - p.maxDelay - p.ledgerRetention))
            && Sorted(s'.store) && s' == s.(clock := now, store := s'.store)
  {
    hide Apply, SystemSpec.Remove;
    TransferSteps(p, s, now, Collect(keys));
    RemoveKeepsOrder(s.store, keys, now - (p.maxDelay + Max(p.logRetention, p.ledgerRetention)));
  }

  lemma CollectionKeepsStorage(p: Params, server: Server, s: State, keys: set<(int, int)>)
    requires ValidParams(p) && ValidStore(server, s.store) && StoredOnce(p, server, s)
    ensures StoredOnce(p, server, CollectTransfers(p, s, keys))
  {
    RemoveKeepsOrder(s.store, keys, s.clock - Retention(p));
  }

  lemma StepKeepsStorage(p: Params, server: Server, s: State, now: int, step: Step)
    requires ValidParams(p) && ValidServer(server) && Allowed(server, step) && s.clock <= now
    requires ValidStore(server, s.store) && StoredOnce(p, server, s)
    ensures StoredOnce(p, server, Apply(p, s, now, step))
  {
    hide Apply, StoredOnce;
    var s1 := s.(clock := now);
    QuietStepKeepsStorage(p, server, s, s1);
    if step.Arrive? {
      TransferSteps(p, s, now, step);
      ArrivalKeepsStorage(p, server, s1, step.transfer, step.ts);
    } else if step.Collect? {
      TransferSteps(p, s, now, step);
      CollectionKeepsStorage(p, server, s1, step.keys);
    } else {
      OnlyArrivalsAreAnnounced(p, server, s, now, step);
      QuietStepKeepsStorage(p, server, s1, Apply(p, s, now, step));
    }
  }

  lemma {:induction false} WorkTellsAboutLedger(l: LedgerData, date: int, ts: seq<Transfer>, cutoff: int, now: int)
    ensures var r := Pass(l, date, ts, cutoff, now); r.log.Some? ==> r.log.value.LedgerUpdated?
    decreases |ts|
  {
    if ts != [] && !MustWait(l, ts[0], cutoff) {
      var e := UpdateLedger(l, date, ts[0].number, ts[0].amount, ts[0].principal, now, false);
      WorkTellsAboutLedger(e.ledger, date, ts[1..], cutoff, now);
    }
  }

  lemma ProcessingTellsAboutLedger(p: Params, s: State)
    requires ValidParams(p)
    ensures OtherItems(s, ProcessBurst(p, s)) && OtherItems(s, ProcessOnePass(p, s))
  {
    hide LedgerSpec.Pass, LedgerSpec.Pending;
    if s.wake && s.account.Some? {
      var a := s.account.value;
      var ts := PendingOf(a, s.store);
      WorkTellsAboutLedger(a.ledger, a.server.creationDate, ts, s.clock - p.maxDelay, s.clock);
      WorkTellsAboutLedger(a.ledger, a.server.creationDate, Take(ts, p.burst), s.clock - p.maxDelay, s.clock);
    }
  }

  lemma OnlyArrivalsAreAnnounced(p: Params, server: Server, s: State, now: int, step: Step)
    requires ValidParams(p) && Allowed(server, step) && !step.Arrive? && !step.Collect?
    ensures var s' := Apply(p, s, now, step);
            OtherItems(s, s') && s'.store == s.store && s'.stored == s.stored && s'.clock == now
  {
    hide Apply, OtherItems;
    var s1 := s.(clock := now);
    if IsLedgerStep(step) {
      LedgerSteps(p, s, now, step);
      match step {
        case Update(m) => UpdateTellsAboutObjects(s1, m);
        case ScanRow => ScanTellsAboutObjects(p, s1);
        case Create(order) => CreationTellsAboutObjects(s1, order);
        case _ => ProcessingTellsAboutLedger(p, s1);
      }
      OtherItemsSince(s, s1, Apply(p, s, now, step));
    } else if IsLifecycle(step) {
      LifecycleTellsAboutObjects(p, s, now, step);
    } else {
      RequestsTellAboutObjects(p, s, now, step);
    }
  }

  lemma OtherItemsSince(s: State, s1: State, s': State)
    requires s1.log == s.log
    ensures OtherItems(s1, s') ==> OtherItems(s, s')
  {
  }

  lemma LifecycleTellsAboutObjects(p: Params, s: State, now: int, step: Step)
    requires ValidParams(p) && ValidStep(step) && IsLifecycle(step)
    ensures var s' := Apply(p, s, now, step);
            OtherItems(s, s') && s'.store == s.store && s'.stored == s.stored && s'.clock == now
  {
    hide Apply, SystemSpec.LastIssues, SystemSpec.IsDisposable;
    LifecycleSteps(p, s, now, step);
  }

  lemma RequestsTellAboutObjects(p: Params, s: State, now: int, step: Step)
    requires ValidParams(p) && ValidStep(step) && IsRequest(step)
    ensures var s' := Apply(p, s, now, step);
            OtherItems(s, s') && s'.store == s.store && s'.stored == s.stored && s'.clock == now
  {
    hide Apply, SystemSpec.ConflictOf, SystemSpec.IsCurrent, AccountModel.CloseTo;
    RequestSteps(p, s, now, step);
  }

  lemma CreationTellsAboutObjects(s: State, order: seq<int>)
    requires IsOrder(order)
    ensures var s' := CreateAccount(s, order).0;
            OtherItems(s, s') && s'.store == s.store && s'.stored == s.stored && s'.clock == s.clock
  {
  }

  lemma UpdateTellsAboutObjects(s: State, m: UpdateMsg)
    ensures var s' := AccountUpdate(s, m);
            OtherItems(s, s') && s'.store == s.store && s'.stored == s.stored && s'.clock == s.clock
  {
    hide SystemSpec.IsInfoUpdated, AccountModel.Confirms;
  }

  lemma ScanTellsAboutObjects(p: Params, s: State)
    ensures var s' := ScanAccount(p, s);
            OtherItems(s, s') && s'.store == s.store && s'.stored == s.stored && s'.clock == s.clock
  {
    hide LedgerSpec.NeedsCorrection, LedgerSpec.NeedsRepair, LedgerSpec.CorrectingEntries, SystemSpec.HasConfigProblem;
  }
}
