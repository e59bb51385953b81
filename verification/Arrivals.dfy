/**
 * What has arrived is in the ledger: no recent transfer is turned away while there is an account, and
 * what has been taken in is kept for as long as it may be needed.
 */
module Arrivals {
  import opened AccountModel
  import opened SystemSpec
  import opened Refinement
  import opened WakeUps
  import opened Confluence
  import opened Storage
  import opened Runs

  /** The transfer arrives while there is an account, and while it is recent. */
  predicate Brings(p: Params, s: State, e: Event, t: Transfer) {
    e.step.Arrive? && e.step.transfer == t && IsWelcome(p, s, t, e.step.ts, e.now)
  }

  /** It does so at some moment of the run. */
  ghost predicate HasArrived(p: Params, server: Server, s: State, events: seq<Event>, t: Transfer)
    requires ValidParams(p) && Legal(server, s.clock, events)
    decreases |events|
  {
    events != [] &&
    (ApplyKeepsTime(p, s, events[0].now, events[0].step);
     Brings(p, s, events[0], t) || HasArrived(p, server, Apply(p, s, events[0].now, events[0].step), events[1..], t))
  }

  /** A step takes in what it brings, and nothing else; nothing is forgotten. */
  lemma StepTakesIn(p: Params, server: Server, s: State, e: Event, t: Transfer)
    requires ValidParams(p) && ValidServer(server) && Good(p, server, s) && Known(server, t)
    requires s.clock <= e.now && Allowed(server, e.step)
    ensures Key(t) in Apply(p, s, e.now, e.step).stored <==> Key(t) in s.stored || Brings(p, s, e, t)
  {
    hide Apply;
    var s' := Apply(p, s, e.now, e.step);
    StepIsGood(p, server, s, e.now, e.step);
    GoodStorage(p, server, s);
    GoodStorage(p, server, s');
    match e.step {
      case Arrive(u, ts) =>
        ArrivalOutcome(p, s, e.now, u, ts);
        if Key(u) == Key(t) { KnownInOrder(server, t, u); }
      case Collect(keys) => CollectionOutcome(p, s, e.now, keys);
      case _ => OnlyArrivalsAreAnnounced(p, server, s, e.now, e.step);
    }
  }

  lemma GoodStorage(p: Params, server: Server, s: State)
    requires Good(p, server, s)
    ensures StoredOnce(p, server, s) && Sorted(s.store)
    ensures forall t :: t in s.store ==> Known(server, t)
  {
  }

  lemma {:induction false} RunTakesIn(p: Params, server: Server, s: State, events: seq<Event>, t: Transfer)
    requires ValidParams(p) && ValidServer(server) && Legal(server, s.clock, events)
    requires Good(p, server, s) && Known(server, t)
    ensures Key(t) in Run(p, server, s, events).stored <==> Key(t) in s.stored || HasArrived(p, server, s, events, t)
    decreases |events|
  {
    if events != [] {
      var e := events[0];
      ApplyKeepsTime(p, s, e.now, e.step);
      StepTakesIn(p, server, s, e, t);
      StepIsGood(p, server, s, e.now, e.step);
      hide Apply, Good, IsWelcome;
      RunTakesIn(p, server, Apply(p, s, e.now, e.step), events[1..], t);
    }
  }

  // ---------- The theorems ----------

  /**
   * In every run: a transfer of the server has been taken in exactly if it has arrived while there was an
   * account and while it was recent; and then it is still stored, unless it has outlived the retention.
   */
  lemma ArrivedTransfersAreKept(p: Params, server: Server, clock: int, uidSeq: int, events: seq<Event>, t: Transfer)
    requires ValidParams(p) && ValidServer(server) && Legal(server, clock, events) && Known(server, t)
    ensures var s := Run(p, server, Start(clock, uidSeq), events);
            && (Key(t) in s.stored <==> HasArrived(p, server, Start(clock, uidSeq), events, t))
            && (HasArrived(p, server, Start(clock, uidSeq), events, t) ==>
                  t in s.store || t.committedAt < s.clock - Retention(p))
            && (t in s.store ==> HasArrived(p, server, Start(clock, uidSeq), events, t))
  {
    hide Run, Legal, HasArrived, Good;
    StartIsGood(p, server, clock, uidSeq);
    ReachableStatesAreGood(p, server, Start(clock, uidSeq), events);
    RunTakesIn(p, server, Start(clock, uidSeq), events, t);
    GoodStorage(p, server, Run(p, server, Start(clock, uidSeq), events));
  }

  /** Each transfer of the chain has arrived; those that the ledger has not reached are not too old. */
  ghost predicate ChainHasArrived(p: Params, server: Server, start: State, events: seq<Event>, s: State)
    requires ValidParams(p) && Legal(server, start.clock, events) && s.account.Some?
  {
    forall t :: t in ChainOf(server, s.account.value.server.creationDate) ==>
      && HasArrived(p, server, start, events, t)
      && (t.number > s.account.value.ledger.lastTransferNumber ==> t.committedAt >= s.clock - Retention(p))
  }

  /**
   * In every patient run: once the whole chain has arrived, in whatever order, and whether some of it has
   * been collected since, and no wake-up row is left, the ledger is the whole chain.
   */
  lemma ArrivedLedgersAreComplete(p: Params, server: Server, clock: int, uidSeq: int, events: seq<Event>)
    requires ValidParams(p) && ValidServer(server) && Legal(server, clock, events)
    requires Patient(p, server, Start(clock, uidSeq), events)
    requires var s := Run(p, server, Start(clock, uidSeq), events);
             s.account.Some? && !s.wake && ChainHasArrived(p, server, Start(clock, uidSeq), events, s)
    ensures var s := Run(p, server, Start(clock, uidSeq), events);
            var date := s.account.value.server.creationDate;
            && Bearing(s.entries, date) == LinesOf(ChainOf(server, date))
            && s.account.value.ledger.lastTransferNumber == NumberBefore(ChainOf(server, date), |ChainOf(server, date)|)
  {
    hide Run, Legal, Patient, HasArrived, Good;
    var s := Run(p, server, Start(clock, uidSeq), events);
    StartIsGood(p, server, clock, uidSeq);
    ReachableStatesAreGood(p, server, Start(clock, uidSeq), events);
    PatientRunsFollow(p, server, Start(clock, uidSeq), events);
    GoodWakeUps(p, server, s);
    var a := s.account.value;
    forall t | t in ChainOf(server, a.server.creationDate) && t.number > a.ledger.lastTransferNumber ensures t in s.store {
      KnownInChain(server, a.server.creationDate, t);
      ArrivedTransfersAreKept(p, server, clock, uidSeq, events, t);
    }
    QuietLedgerIsComplete(server, s);
  }

  lemma GoodWakeUps(p: Params, server: Server, s: State)
    requires Good(p, server, s)
    ensures NoLostWakeUp(s)
  {
  }

  lemma KnownInChain(server: Server, date: int, t: Transfer)
    requires ValidServer(server) && t in ChainOf(server, date)
    ensures Known(server, t)
  {
    var c := server[date];
    var i :| 0 <= i < |c| && c[i] == t;
    assert IsLink(c, date, i);
  }
}
