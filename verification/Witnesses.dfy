/** Runs in which a property fails that one would expect to hold. */
module Witnesses {
  import opened Options
  import opened Int64
  import opened AccountModel
  import opened LedgerSpec
  import opened StepEffects
  import opened SystemSpec
  import opened Gaps
  import opened Refinement
  import opened WakeUps
  import opened Reconciliation
  import opened Relics
  import opened Runs

  /** Delays and retentions are the defaults; a burst processes one transfer. */
  const PARAMS := Params(14 * DAY, 1, 90 * DAY, 90 * DAY, 365 * DAY, DAY, 14 * DAY, 1826 * DAY)
  const ORDER := [1, 2, 3, 4, 5, 6, 7]
  const NOW := 30 * DAY
  const CUTOFF := NOW - 14 * DAY

  /** An update about a server account that has been created on the first day. */
  function News(now: int, lastTransferNumber: int, principal: int): UpdateMsg {
    UpdateMsg(1, 1, 0, principal, 0.0, 0, 0, 0, 0, 0.0, 0, "", "", DebtorInfo(None, None, None), lastTransferNumber, 0, now, 1)
  }

  /** A creditor with an account that has heard from its server. */
  function Opening(now: int, lastTransferNumber: int, principal: int): seq<Event> {
    [Event(now, Reserve(0))] + [Event(now, Activate(0))] + [Event(now, Create(ORDER))]
    + [Event(now, Update(News(now, lastTransferNumber, principal)))]
  }

  lemma {:induction false} RunTwice(p: Params, server: Server, s: State, xs: seq<Event>, ys: seq<Event>)
    requires ValidParams(p) && Legal(server, s.clock, xs) && Legal(server, Run(p, server, s, xs).clock, ys)
    ensures Legal(server, s.clock, xs + ys)
    ensures Run(p, server, s, xs + ys) == Run(p, server, Run(p, server, s, xs), ys)
    decreases |xs|
  {
    if xs == [] {
      assert xs + ys == ys;
    } else {
      assert (xs + ys)[1..] == xs[1..] + ys;
      ApplyKeepsTime(p, s, xs[0].now, xs[0].step);
      hide Apply;
      RunTwice(p, server, Apply(p, s, xs[0].now, xs[0].step), xs[1..], ys);
    }
  }

  lemma RunOne(p: Params, server: Server, s: State, e: Event)
    requires ValidParams(p) && s.clock <= e.now && Allowed(server, e.step)
    ensures Legal(server, s.clock, [e]) && Run(p, server, s, [e]) == Apply(p, s, e.now, e.step)
  {
    hide Apply;
    assert [e][1..] == [];
    ApplyKeepsTime(p, s, e.now, e.step);
  }

  /** One more event at the end of a run. */
  lemma RunMore(p: Params, server: Server, s: State, xs: seq<Event>, e: Event)
    requires ValidParams(p) && Legal(server, s.clock, xs) && Run(p, server, s, xs).clock <= e.now && Allowed(server, e.step)
    ensures Legal(server, s.clock, xs + [e])
    ensures Run(p, server, s, xs + [e]) == Apply(p, Run(p, server, s, xs), e.now, e.step)
  {
    RunOne(p, server, Run(p, server, s, xs), e);
    RunTwice(p, server, s, xs, [e]);
  }

  /** What matters of a state for the runs below. */
  ghost predicate IsOpen(s: State, now: int, lastNumber: int, principal: int) {
    && s.clock == now && HasActiveCreditor(s) && s.creditor.value.largestHistoricEntryId == 0
    && s.account.Some? && s.wake && s.entries == [] && s.past == []
    && var a := s.account.value;
       && a.server.creationDate == 1 && a.server.lastTransferNumber == lastNumber
       && a.server.lastTransferCommittedAt == 0 && a.server.principal == principal
       && a.ledger == LedgerData(0, 1, 0, None, a.ledger.updateId, now)
  }

  function Opened(s: State, now: int): State {
    CreateAccount(ActivateCreditor(ReserveCreditor(s.(clock := now), 0).0, 0).0, ORDER).0
  }

  lemma OpenedIs(s: State, now: int)
    requires s.creditor.None? && s.account.None?
    ensures var s' := Opened(s, now);
            && s'.clock == now && HasActiveCreditor(s') && s'.creditor.value.largestHistoricEntryId == 0
            && s'.account == Some(NewAccount(s.uidSeq, ORDER, 0, now))
            && s'.store == s.store && s'.entries == [] && s'.past == []
  {
  }

  /** The ledger starts at zero; nothing has to be corrected. */
  lemma NewsOpens(s: State, now: int, lastNumber: nat, principal: int)
    requires In64(principal) && s.creditor.None? && s.account.None?
    ensures var s' := AccountUpdate(Opened(s, now), News(now, lastNumber, principal));
            IsOpen(s', now, lastNumber, principal) && s'.store == s.store
  {
    hide Opened, SystemSpec.IsInfoUpdated, AccountModel.Confirms;
    OpenedIs(s, now);
    PostingsEnd(1, 0, now);
  }

  lemma OpeningOpens(p: Params, server: Server, s: State, now: int, lastNumber: nat, principal: int)
    requires ValidParams(p) && In64(principal) && s.creditor.None? && s.account.None? && s.clock <= now
    ensures Legal(server, s.clock, Opening(now, lastNumber, principal))
    ensures var s' := Run(p, server, s, Opening(now, lastNumber, principal));
            IsOpen(s', now, lastNumber, principal) && s'.store == s.store
  {
    hide Apply, AccountUpdate, CreateAccount, ReserveCreditor, ActivateCreditor, Run, Legal;
    var e0, e1, e2 := Event(now, Reserve(0)), Event(now, Activate(0)), Event(now, Create(ORDER));
    var e3 := Event(now, Update(News(now, lastNumber, principal)));
    RunOne(p, server, s, e0);
    LifecycleSteps(p, s, now, e0.step);
    var s1 := Run(p, server, s, [e0]);
    ApplyKeepsTime(p, s, now, e0.step);
    RunMore(p, server, s, [e0], e1);
    LifecycleSteps(p, s1, now, e1.step);
    ApplyKeepsTime(p, s1, now, e1.step);
    var s2 := Run(p, server, s, [e0] + [e1]);
    RunMore(p, server, s, [e0] + [e1], e2);
    LedgerSteps(p, s2, now, e2.step);
    ApplyKeepsTime(p, s2, now, e2.step);
    var s3 := Run(p, server, s, [e0] + [e1] + [e2]);
    RunMore(p, server, s, [e0] + [e1] + [e2], e3);
    LedgerSteps(p, s3, now, e3.step);
    assert s1.(clock := now) == s1 && s2.(clock := now) == s2 && s3.(clock := now) == s3;
    NewsOpens(s, now, lastNumber, principal);
  }

  function Arrival(now: int, lastNumber: int, principal: int, t: Transfer): seq<Event> {
    Opening(now, lastNumber, principal) + [Event(now, Arrive(t, now))]
  }

  /** A first transfer arrives, and the ledger is due. */
  lemma FirstArrives(p: Params, server: Server, now: nat, lastNumber: nat, principal: int, t: Transfer)
    requires ValidParams(p) && In64(principal) && Known(server, t) && t.date == 1
    requires now - Min(now, t.committedAt) <= p.logRetention
    ensures Legal(server, 0, Arrival(now, lastNumber, principal, t))
    ensures var s := Run(p, server, Start(0, 0), Arrival(now, lastNumber, principal, t));
            IsOpen(s, now, lastNumber, principal) && s.store == [t]
  {
    hide Apply, SystemSpec.Insert, Run, Legal;
    var e, before := Event(now, Arrive(t, now)), Opening(now, lastNumber, principal);
    OpeningOpens(p, server, Start(0, 0), now, lastNumber, principal);
    var s4 := Run(p, server, Start(0, 0), before);
    RunMore(p, server, Start(0, 0), before, e);
    TransferSteps(p, s4, now, e.step);
    InsertFirst(t);
  }

  lemma InsertFirst(t: Transfer)
    ensures Insert([], t) == [t]
  {
  }

  lemma OneIsPending(t: Transfer, above: int)
    requires t.number > above
    ensures Pending([t], t.date, above) == [t]
  {
    assert Pending([t][1..], t.date, above) == [];
  }

  lemma SecondIsPending(t: Transfer, u: Transfer, above: int)
    requires t.date == u.date && t.number <= above < u.number
    ensures Pending([t, u], t.date, above) == [u]
  {
    OneIsPending(u, above);
    assert [t, u][1..] == [u];
  }

  // ---------- The outdated signal ----------

  const T1 := Transfer(1, 1, 0, 10, 10, 0)
  const T2 := Transfer(1, 2, 1, 5, 15, 0)
  const T3 := Transfer(1, 3, 2, -5, 10, 0)
  const THREE := map[1 := [T1, T2, T3]]

  lemma ThreeIsValid()
    ensures ValidServer(THREE) && Known(THREE, T1)
  {
    assert THREE[1] == [T1, T2, T3];
    assert IsLink(THREE[1], 1, 0) && IsLink(THREE[1], 1, 1) && IsLink(THREE[1], 1, 2);
    assert forall d :: d in THREE ==> d == 1;
    assert T1 in THREE[1];
  }

  /**
   * The server has made three transfers; the last two have been lost, and cancel each other. The
   * bursts end with a signal that differs from the one of the single pass.
   */
  lemma LastSignalsCanDiffer() returns (events: seq<Event>)
    ensures ValidServer(THREE) && Legal(THREE, 0, events)
    ensures var s := Run(PARAMS, THREE, Start(0, 0), events);
            && s.wake && Sorted(s.store)
            && LastSince(s.signals, Drain(PARAMS, s).signals) != LastSince(s.signals, ProcessOnePass(PARAMS, s).signals)
  {
    hide Run, Legal, Drain, ProcessOnePass;
    ThreeIsValid();
    events := Arrival(NOW, 3, 10, T1);
    FirstArrives(PARAMS, THREE, NOW, 3, 10, T1);
    var s := Run(PARAMS, THREE, Start(0, 0), events);
    var a := s.account.value;
    OneIsPending(T1, 0);
    assert FillBursts(1, 1) by { assert FillBursts(0, 1); }
    assert NoRecentGap(0, [T1], CUTOFF);
    assert CatchesUpSilently(a, s.store, 1, CUTOFF);
    SignalsAgreeUnlessSilent(PARAMS, s);
  }

  // ---------- Deactivation, and a second life ----------

  function Only(at: int): Transfer { Transfer(1, 1, 0, 10, 10, at) }

  function OneTransfer(at: int): Server { map[1 := [Only(at)]] }

  lemma OneIsValid(at: int)
    ensures ValidServer(OneTransfer(at)) && Known(OneTransfer(at), Only(at))
  {
    var server := OneTransfer(at);
    assert server[1] == [Only(at)] && IsLink(server[1], 1, 0);
    assert forall d :: d in server ==> d == 1;
    assert Only(at) in server[1];
  }

  function FirstEntry(now: int): Entry { Entry(2, 10, 10, Some((1, 1)), now) }

  lemma FirstIsPosted(p: Params, s: State, now: int, at: int)
    requires ValidParams(p) && IsOpen(s, now, 1, 10) && s.store == [Only(at)]
    ensures var s' := ProcessBurst(p, s);
            && s'.clock == now && s'.creditor == s.creditor && s'.account.Some? && s'.store == s.store
            && s'.past == [] && s'.entries == [FirstEntry(now)]
  {
    hide Pass, Pending, LedgerSpec.UpdateLedger;
    var a, cutoff := s.account.value, now - p.maxDelay;
    OneIsPending(Only(at), 0);
    FirstPass(a.ledger, cutoff, now, at);
    assert [FirstEntry(now)] + [] == [FirstEntry(now)];
  }

  lemma FirstPass(l: LedgerData, cutoff: int, now: int, at: int)
    requires l == LedgerData(0, 1, 0, None, l.updateId, now)
    ensures var r := Pass(l, 1, [Only(at)], cutoff, now);
            r.entries == [FirstEntry(now)] && r.blockedAt.None? && r.ledger.lastTransferNumber == 1
  {
    assert CorrectingEntries(1, 0, 0, now) == [] by { PostingsEnd(1, 0, now); }
    var e := UpdateLedger(l, 1, 1, 10, 10, now, false);
    assert e.entries == [FirstEntry(now)] && e.ledger.lastTransferNumber == 1;
    assert Pass(e.ledger, 1, [], cutoff, now) == Scan(e.ledger, [], None, None);
    assert e.entries + [] == e.entries;
  }

  /** The only transfer is posted, and the creditor is deactivated at once. */
  function FirstLife(at: int): seq<Event> {
    Arrival(at, 1, 10, Only(at)) + [Event(at, Burst)] + [Event(at, Deactivate)]
  }

  lemma FirstLifeLeaves(p: Params, at: nat)
    requires ValidParams(p)
    ensures Legal(OneTransfer(at), 0, FirstLife(at))
    ensures var s := Run(p, OneTransfer(at), Start(0, 0), FirstLife(at));
            && s.clock == at && s.creditor.Some? && s.creditor.value.largestHistoricEntryId == 0
            && s.creditor.value.deactivated && s.creditor.value.deactivationDate == Some(DateOf(at))
            && s.account.None? && s.store == [Only(at)] && s.past == [FirstEntry(at)] && s.entries == []
  {
    hide Apply, Legal, Run, ProcessBurst, DateOf;
    var server, e6, e7 := OneTransfer(at), Event(at, Burst), Event(at, Deactivate);
    var before := Arrival(at, 1, 10, Only(at));
    OneIsValid(at);
    FirstArrives(p, server, at, 1, 10, Only(at));
    var s5 := Run(p, server, Start(0, 0), before);
    RunMore(p, server, Start(0, 0), before, e6);
    LedgerSteps(p, s5, at, Burst);
    FirstIsPosted(p, s5, at, at);
    var s6 := Run(p, server, Start(0, 0), before + [e6]);
    assert s6.(clock := at) == s6;
    RunMore(p, server, Start(0, 0), before + [e6], e7);
    LifecycleSteps(p, s6, at, Deactivate);
  }

  /** The historic id stays behind, and no new entry has been written. */
  lemma HistoricIdStaysBehind() returns (events: seq<Event>)
    ensures ValidServer(OneTransfer(NOW)) && Legal(OneTransfer(NOW), 0, events)
    ensures var s := Run(PARAMS, OneTransfer(NOW), Start(0, 0), events);
            && s.creditor.Some? && exists e :: e in s.past && e.id > s.creditor.value.largestHistoricEntryId
  {
    hide Legal, Run;
    OneIsValid(NOW);
    FirstLifeLeaves(PARAMS, NOW);
    events := FirstLife(NOW);
    assert FirstEntry(NOW) in Run(PARAMS, OneTransfer(NOW), Start(0, 0), events).past;
  }

  /** The row is removed, the creditor is reserved again, and the transfer is still there to be posted. */
  function SecondOpening(later: int): seq<Event> {
    [Event(later, RemoveTheCreditor)] + Opening(later, 1, 10)
  }

  function TwoLives(at: int, later: int): seq<Event> {
    FirstLife(at) + SecondOpening(later) + [Event(later, Burst)]
  }

  lemma SecondLifeOpens(p: Params, s: State, at: int, later: int)
    requires ValidParams(p) && at <= later && IsLongGone(p, at, later) && s.clock == at && s.account.None?
    requires s.creditor.Some? && s.creditor.value.deactivated && s.creditor.value.deactivationDate == Some(DateOf(at))
    ensures Legal(OneTransfer(at), at, SecondOpening(later))
    ensures var s' := Run(p, OneTransfer(at), s, SecondOpening(later)); IsOpen(s', later, 1, 10) && s'.store == s.store
  {
    hide Apply, Legal, Run, DateOf;
    var server, e := OneTransfer(at), Event(later, RemoveTheCreditor);
    RunOne(p, server, s, e);
    LifecycleSteps(p, s, later, RemoveTheCreditor);
    var s1 := Run(p, server, s, [e]);
    OpeningOpens(p, server, s1, later, 1, 10);
    RunTwice(p, server, s, [e], Opening(later, 1, 10));
  }

  /** Long after the deactivation, a new reservation gives the same id to another entry. */
  lemma EntryIdsAreReused(p: Params, at: nat, later: int)
    requires ValidParams(p) && at <= later && IsLongGone(p, at, later)
    ensures ValidServer(OneTransfer(at)) && Legal(OneTransfer(at), 0, FirstLife(at))
    ensures Legal(OneTransfer(at), 0, TwoLives(at, later))
    ensures var s1 := Run(p, OneTransfer(at), Start(0, 0), FirstLife(at));
            var s2 := Run(p, OneTransfer(at), Start(0, 0), TwoLives(at, later));
            s1.past == [FirstEntry(at)] && s2.entries == [FirstEntry(later)]
  {
    hide Apply, Legal, Run, ProcessBurst, DateOf;
    var server, s0, e := OneTransfer(at), Start(0, 0), Event(later, Burst);
    OneIsValid(at);
    FirstLifeLeaves(p, at);
    SecondLifeOpens(p, Run(p, server, s0, FirstLife(at)), at, later);
    var before := FirstLife(at) + SecondOpening(later);
    RunTwice(p, server, s0, FirstLife(at), SecondOpening(later));
    var s9 := Run(p, server, s0, before);
    RunMore(p, server, s0, before, e);
    LedgerSteps(p, s9, later, Burst);
    assert s9.(clock := later) == s9;
    FirstIsPosted(p, s9, later, at);
  }

  // ---------- Beyond the last announced number ----------

  const U1 := Transfer(1, 5, 0, 10, 10, 0)
  const U2 := Transfer(1, 6, 5, 5, 15, 0)
  const U3 := Transfer(1, 7, 6, 5, 20, 0)
  const GAPPED := map[1 := [U1, U2, U3]]

  lemma GappedIsValid()
    ensures ValidServer(GAPPED) && Known(GAPPED, U1) && Known(GAPPED, U3)
  {
    assert GAPPED[1] == [U1, U2, U3];
    assert IsLink(GAPPED[1], 1, 0) && IsLink(GAPPED[1], 1, 1) && IsLink(GAPPED[1], 1, 2);
    assert forall d :: d in GAPPED ==> d == 1;
    assert U1 in GAPPED[1] && U3 in GAPPED[1];
  }

  lemma UpToDate(s: State)
    requires IsOpen(s, NOW, 5, 10) && s.store == [U1]
    ensures var s' := ProcessOnePass(PARAMS, s);
            && s'.clock == NOW && s'.account.Some? && !s'.wake && s'.store == [U1]
            && s'.account.value.server == s.account.value.server
            && s'.account.value.ledger.lastTransferNumber == 5
            && s'.account.value.ledger.pendingTransferTs.None?
  {
    var a := s.account.value;
    OneIsPending(U1, 0);
    var e := UpdateLedger(a.ledger, 1, 5, 10, 10, NOW, false);
    UpdateLedgerKeeps(a.ledger, 1, 5, 10, 10, NOW, false);
    assert Pass(e.ledger, 1, [], CUTOFF, NOW).ledger == e.ledger;
    assert Pass(a.ledger, 1, [U1], CUTOFF, NOW).ledger == e.ledger;
  }

  /**
   * The ledger has reached the last number that the server has announced, a later transfer has
   * arrived after a lost one, and then nothing more. However old everything gets, no visit makes the
   * account due, and the transfer stays pending.
   */
  lemma TransfersCanBeStuck(later: nat) returns (events: seq<Event>)
    ensures ValidServer(GAPPED) && Legal(GAPPED, 0, events)
    ensures var s := Run(PARAMS, GAPPED, Start(0, 0), events);
            var s1 := ScanAccount(PARAMS, s.(clock := NOW + later));
            && s.account.Some? && Sorted(s.store) && PendingOf(s.account.value, s.store) == [U3]
            && !s1.wake && s1.account.Some? && PendingOf(s1.account.value, s1.store) == [U3]
  {
    hide Apply, Legal, Run, ScanAccount;
    GappedIsValid();
    var before := Arrival(NOW, 5, 10, U1);
    FirstArrives(PARAMS, GAPPED, NOW, 5, 10, U1);
    var s5 := Run(PARAMS, GAPPED, Start(0, 0), before);
    var e6, e7 := Event(NOW, OnePass), Event(NOW, Arrive(U3, NOW));
    RunMore(PARAMS, GAPPED, Start(0, 0), before, e6);
    LedgerSteps(PARAMS, s5, NOW, OnePass);
    UpToDate(s5);
    var s6 := Run(PARAMS, GAPPED, Start(0, 0), before + [e6]);
    RunMore(PARAMS, GAPPED, Start(0, 0), before + [e6], e7);
    TransferSteps(PARAMS, s6, NOW, Arrive(U3, NOW));
    events := before + [e6] + [e7];
    var s := Run(PARAMS, GAPPED, Start(0, 0), events);
    assert s.store == [U1, U3] by {
      assert !IsStored([U1], 1, 7);
      InsertFirst(U3);
      assert Insert([U1], U3) == [U1] + Insert([U1][1..], U3);
    }
    SecondIsPending(U1, U3, 5);
    assert AllOld(s.account.value, s.store, CUTOFF);
    StillOld(s.account.value, s.account.value, s.store, CUTOFF, NOW + later - PARAMS.maxDelay);
    RepairSchedule(PARAMS, s.(clock := NOW + later));
  }
}
