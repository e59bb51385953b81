/**
 * Whole runs: any sequence of steps, with messages lost, repeated and reordered, and a clock that
 * does not go back.
 */
module Runs {
  import opened Options
  import opened Int64
  import opened AccountModel
  import opened SystemSpec
  import opened Refinement
  import opened WakeUps
  import opened Conservation
  import opened Ids
  import opened Status
  import opened ServerNews
  import opened Storage
  import opened Confluence
  import opened OncePosted
  import opened Relics

  datatype Event = Event(now: int, step: Step)

  ghost predicate Legal(server: Server, clock: int, events: seq<Event>)
    decreases |events|
  {
    events == [] ||
    (events[0].now >= clock && Allowed(server, events[0].step) && Legal(server, events[0].now, events[1..]))
  }

  ghost function Run(p: Params, server: Server, s: State, events: seq<Event>): State
    requires ValidParams(p) && Legal(server, s.clock, events)
    decreases |events|
  {
    if events == [] then s
    else
      ApplyKeepsTime(p, s, events[0].now, events[0].step);
      Run(p, server, Apply(p, s, events[0].now, events[0].step), events[1..])
  }

  lemma ApplyKeepsTime(p: Params, s: State, now: int, step: Step)
    requires ValidParams(p) && ValidStep(step)
    ensures Apply(p, s, now, step).clock == now
  {
    hide SystemSpec.IsInfoUpdated, AccountModel.Confirms, LedgerSpec.BurstWork, LedgerSpec.OnePassWork,
         LedgerSpec.UpdateLedger;
  }

  /** No rows at all; the sequence may have been used for other pairs. */
  function Start(clock: int, uidSeq: int): State {
    State(clock, uidSeq, None, None, [], false, [], [], [], [], [], [], [])
  }

  ghost predicate Good(p: Params, server: Server, s: State) {
    && ValidStore(server, s.store) && ColumnsFit(s)
    && NoLostWakeUp(s)
    && Conserved(s)
    && EntryIds(s)
    && UpdateIds(s)
    && StatusFits(s)
    && NewsFits(s)
    && StoredOnce(p, server, s)
    && PostedOnce(server, s)
    && Dated(s)
  }

  lemma StartIsGood(p: Params, server: Server, clock: int, uidSeq: int)
    ensures Good(p, server, Start(clock, uidSeq)) && Confluent(server, Start(clock, uidSeq))
  {
  }

  lemma StepIsGood(p: Params, server: Server, s: State, now: int, step: Step)
    requires ValidParams(p) && ValidServer(server) && Allowed(server, step) && s.clock <= now
    requires Good(p, server, s)
    ensures Good(p, server, Apply(p, s, now, step))
  {
    StepKeepsStore(p, server, s, now, step);
    StepKeepsWakeUps(p, server, s, now, step);
    StepConserves(p, server, s, now, step);
    StepKeepsEntryIds(p, server, s, now, step);
    StepKeepsUpdateIds(p, server, s, now, step);
    StepKeepsStatus(p, server, s, now, step);
    StepKeepsNews(p, server, s, now, step);
    StepKeepsStorage(p, server, s, now, step);
    StepPostsOnce(p, server, s, now, step);
    StepKeepsDates(p, s, now, step);
    hide Apply, ValidStore, ColumnsFit, NoLostWakeUp, Conserved, EntryIds, UpdateIds, StatusFits, NewsFits,
         StoredOnce, PostedOnce, Dated;
  }

  /** Every reachable state satisfies all the invariants. */
  lemma {:induction false} ReachableStatesAreGood(p: Params, server: Server, s: State, events: seq<Event>)
    requires ValidParams(p) && ValidServer(server) && Legal(server, s.clock, events)
    requires Good(p, server, s)
    ensures Good(p, server, Run(p, server, s, events))
    decreases |events|
  {
    if events != [] {
      ApplyKeepsTime(p, s, events[0].now, events[0].step);
      StepIsGood(p, server, s, events[0].now, events[0].step);
      hide Apply, Good;
      ReachableStatesAreGood(p, server, Apply(p, s, events[0].now, events[0].step), events[1..]);
    }
  }

  /** No processing step of the run gives anything up. */
  ghost predicate Patient(p: Params, server: Server, s: State, events: seq<Event>)
    requires ValidParams(p) && Legal(server, s.clock, events)
    decreases |events|
  {
    events == [] ||
    (var e := events[0];
     ApplyKeepsTime(p, s, e.now, e.step);
     NothingGivenUp(p, s.(clock := e.now), e.step)
     && Patient(p, server, Apply(p, s, e.now, e.step), events[1..]))
  }

  lemma {:induction false} PatientRunsFollow(p: Params, server: Server, s: State, events: seq<Event>)
    requires ValidParams(p) && ValidServer(server) && Legal(server, s.clock, events)
    requires Good(p, server, s) && Confluent(server, s) && Patient(p, server, s, events)
    ensures Confluent(server, Run(p, server, s, events))
    decreases |events|
  {
    if events != [] {
      var e := events[0];
      ApplyKeepsTime(p, s, e.now, e.step);
      StepFollows(p, server, s, e.now, e.step);
      StepIsGood(p, server, s, e.now, e.step);
      hide Apply, Good, Confluent, NothingGivenUp;
      PatientRunsFollow(p, server, Apply(p, s, e.now, e.step), events[1..]);
    }
  }

  // ---------- The theorems ----------

  /**
   * In every patient run, whatever arrived in whatever order, the transfers in the ledger are a
   * beginning of the server's chain; and once the chain is stored and no wake-up row is left, they
   * are the whole chain.
   */
  lemma LedgerConfluence(p: Params, server: Server, clock: int, uidSeq: int, events: seq<Event>)
    requires ValidParams(p) && ValidServer(server) && Legal(server, clock, events)
    requires Patient(p, server, Start(clock, uidSeq), events)
    requires Run(p, server, Start(clock, uidSeq), events).account.Some?
    ensures var s := Run(p, server, Start(clock, uidSeq), events);
            var date := s.account.value.server.creationDate;
            var c := ChainOf(server, date);
            && (exists k :: 0 <= k <= |c| && Bearing(s.entries, date) == LinesOf(c[..k])
                            && s.account.value.ledger.lastTransferNumber == NumberBefore(c, k))
            && (!s.wake && (forall t :: t in c ==> t in s.store) ==> Bearing(s.entries, date) == LinesOf(c))
  {
    hide Run, Legal;
    StartIsGood(p, server, clock, uidSeq);
    ReachableStatesAreGood(p, server, Start(clock, uidSeq), events);
    PatientRunsFollow(p, server, Start(clock, uidSeq), events);
    var s := Run(p, server, Start(clock, uidSeq), events);
    var date := s.account.value.server.creationDate;
    var k: nat :| Follows(server, s.account.value, s.entries, k);
    if !s.wake && forall t :: t in ChainOf(server, date) ==> t in s.store {
      QuietLedgerIsComplete(server, s);
    }
  }

  /** Progress: once the chain is stored, one processing run, in bursts of any size, completes the ledger. */
  lemma ProcessingCompletesTheLedger(p: Params, server: Server, s: State)
    requires ValidParams(p) && ValidServer(server) && Good(p, server, s)
    requires Confluent(server, s) && OnePassGivesNothingUp(p, s)
    requires s.account.Some? && forall t :: t in ChainOf(server, s.account.value.server.creationDate) ==> t in s.store
    ensures var date := s.account.value.server.creationDate;
            && Bearing(Drain(p, s).entries, date) == LinesOf(ChainOf(server, date))
            && !Drain(p, s).wake
  {
    hide LedgerSpec.BurstWork, LedgerSpec.OnePassWork, Confluent, GivesNothingUp;
    if s.wake {
      OnePassFollowsExactly(p, server, s);
      ProcessingKeepsWakeUps(p, server, s);
      BurstsRefineOnePass(p, s);
      QuietLedgerIsComplete(server, ProcessOnePass(p, s));
    } else {
      QuietLedgerIsComplete(server, s);
    }
  }

  /** In every run: a stored transfer that continues the ledger has its wake-up row. */
  lemma WakeUpsAreNeverLost(p: Params, server: Server, clock: int, uidSeq: int, events: seq<Event>, t: Transfer)
    requires ValidParams(p) && ValidServer(server) && Legal(server, clock, events)
    requires var s := Run(p, server, Start(clock, uidSeq), events);
             s.account.Some? && t in s.store && Continues(s.account.value, t)
    ensures Run(p, server, Start(clock, uidSeq), events).wake
  {
    hide Run, Legal;
    StartIsGood(p, server, clock, uidSeq);
    ReachableStatesAreGood(p, server, Start(clock, uidSeq), events);
  }

  /** In every run: the ledger of the live account adds up, and its ids and those before it rise. */
  lemma LedgersAddUp(p: Params, server: Server, clock: int, uidSeq: int, events: seq<Event>)
    requires ValidParams(p) && ValidServer(server) && Legal(server, clock, events)
    requires Run(p, server, Start(clock, uidSeq), events).account.Some?
    ensures var s := Run(p, server, Start(clock, uidSeq), events);
            && Continued(s.entries, FirstId(s), 0)
            && After(s.entries, 0) == s.account.value.ledger.principal
            && Increasing(s.past + s.entries)
            && (forall e, f :: e in s.past && f in s.entries ==> e.id + 2 <= f.id)
            && s.creditor.Some?
            && (forall e :: e in s.past ==> e.id <= s.creditor.value.largestHistoricEntryId)
            && ((forall e :: e in s.entries ==> In64(e.principal - e.amount)) ==>
                  SumOfAmounts(s.entries) == s.account.value.ledger.principal)
  {
    hide Run, Legal;
    StartIsGood(p, server, clock, uidSeq);
    ReachableStatesAreGood(p, server, Start(clock, uidSeq), events);
    var s := Run(p, server, Start(clock, uidSeq), events);
    AllEntriesIncrease(s);
    if forall e :: e in s.entries ==> In64(e.principal - e.amount) {
      AmountsAddUp(s.entries, FirstId(s), 0);
    }
  }

  /** In every run: of two ids issued for objects of one kind, the later one is larger. */
  lemma UpdateIdsRise(p: Params, server: Server, clock: int, uidSeq: int, events: seq<Event>, i: nat, j: nat)
    requires ValidParams(p) && ValidServer(server) && Legal(server, clock, events)
    requires var s := Run(p, server, Start(clock, uidSeq), events);
             i < j < |s.issued| && s.issued[i].kind == s.issued[j].kind
    ensures var s := Run(p, server, Start(clock, uidSeq), events);
            s.issued[i].id < s.issued[j].id <= s.uidSeq
  {
    hide Run, Legal;
    StartIsGood(p, server, clock, uidSeq);
    ReachableStatesAreGood(p, server, Start(clock, uidSeq), events);
    assert Run(p, server, Start(clock, uidSeq), events).issued[j] in Run(p, server, Start(clock, uidSeq), events).issued;
  }

  lemma GoodStatus(p: Params, server: Server, s: State)
    requires Good(p, server, s)
    ensures StatusFits(s)
  {
  }

  /** In every run: an account that is safe to delete has been confirmed, then purged, and that was all. */
  lemma SafetyMeansConfirmedAndPurged(p: Params, server: Server, clock: int, uidSeq: int, events: seq<Event>)
    requires ValidParams(p) && ValidServer(server) && Legal(server, clock, events)
    requires Run(p, server, Start(clock, uidSeq), events).account.Some?
    ensures var s := Run(p, server, Start(clock, uidSeq), events); var n := |s.status|;
            s.account.value.IsDeletionSafe() <==>
              && s.account.value.IsScheduledForDeletion()
              && n >= 2 && s.status[n - 1].PurgeAccepted? && s.status[n - 2].UpdateAccepted?
              && ConfirmsConfig(s.status[n - 2].msg, s.account.value.config)
  {
    hide Run, Legal, Good;
    StartIsGood(p, server, clock, uidSeq);
    ReachableStatesAreGood(p, server, Start(clock, uidSeq), events);
    GoodStatus(p, server, Run(p, server, Start(clock, uidSeq), events));
    DeletionSafetyHistory(Run(p, server, Start(clock, uidSeq), events));
  }

  /**
   * In every run: the row quotes the last update that has been accepted, no earlier one has been accepted
   * after a later one, and the principal is that of the last update, or zero after a purge.
   */
  lemma RowsQuoteTheServer(p: Params, server: Server, clock: int, uidSeq: int, events: seq<Event>)
    requires ValidParams(p) && ValidServer(server) && Legal(server, clock, events)
    requires Run(p, server, Start(clock, uidSeq), events).account.Some?
    ensures var s := Run(p, server, Start(clock, uidSeq), events); var a := s.account.value;
            && ChangesRise(s.status)
            && match LatestUpdate(s.status)
               case None => IsUnheard(a)
               case Some(m) => Quotes(a, m) && a.server.principal == if a.server.hasAccount then m.principal else 0
  {
    hide Run, Legal;
    StartIsGood(p, server, clock, uidSeq);
    ReachableStatesAreGood(p, server, Start(clock, uidSeq), events);
  }

  /** In every run: no transfer is stored twice or announced twice, with garbage collected on the way. */
  lemma TransfersAreStoredOnce(p: Params, server: Server, clock: int, uidSeq: int, events: seq<Event>)
    requires ValidParams(p) && ValidServer(server) && Legal(server, clock, events)
    ensures var s := Run(p, server, Start(clock, uidSeq), events);
            Distinct(s.stored) && Announced(s.log) == s.stored
  {
    hide Run, Legal;
    StartIsGood(p, server, clock, uidSeq);
    ReachableStatesAreGood(p, server, Start(clock, uidSeq), events);
  }

  /**
   * In every run, patient or not: no transfer is posted twice to an account's ledger, transfers are
   * posted in the order of their creation dates and numbers, and as the server made them.
   */
  lemma TransfersArePostedOnce(p: Params, server: Server, clock: int, uidSeq: int, events: seq<Event>, i: nat, j: nat)
    requires ValidParams(p) && ValidServer(server) && Legal(server, clock, events)
    requires var s := Run(p, server, Start(clock, uidSeq), events);
             s.account.Some? && i < j < |s.entries| && s.entries[i].transfer.Some? && s.entries[j].transfer.Some?
    ensures var es := Run(p, server, Start(clock, uidSeq), events).entries;
            Earlier(es[i].transfer.value, es[j].transfer.value) && IsTruthful(server, es[i]) && IsTruthful(server, es[j])
  {
    hide Run, Legal;
    StartIsGood(p, server, clock, uidSeq);
    ReachableStatesAreGood(p, server, Start(clock, uidSeq), events);
  }
}
