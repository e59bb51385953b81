/**
 * What requests, messages and visits do to the rows, column by column: when each of them is refused,
 * what it changes, and which columns nothing else may change.
 */
module Outcomes {
  import opened Options
  import opened AccountModel
  import opened StepEffects
  import opened SystemSpec
  import opened Status
  import opened ServerNews

  // ---------- Creditors ----------

  lemma ReservationOutcome(s: State, reservationId: int)
    ensures var (s', error) := ReserveCreditor(s, reservationId);
            && (error.Some? <==> s.creditor.Some?)
            && (error.Some? ==> error == Some(CreditorExists) && s' == s)
            && (error.None? ==>
                  && s'.creditor.Some? && s' == s.(creditor := s'.creditor, past := [])
                  && var c := s'.creditor.value;
                     !c.activated && !c.deactivated && c.reservationId == Some(reservationId) && c.createdAt == s.clock
                     && c.deactivationDate.None? && c.accountsListId == 1 && c.largestHistoricEntryId == 0)
  {
  }

  /** Only the holder of the reservation activates a row, once; a deactivated row never gets active again. */
  lemma ActivationOutcome(s: State, reservationId: int)
    ensures var (s', error) := ActivateCreditor(s, reservationId);
            && (error.None? <==>
                  && s.creditor.Some?
                  && (s.creditor.value.activated
                      || (s.creditor.value.reservationId == Some(reservationId) && !s.creditor.value.deactivated)))
            && (error.Some? ==> error == Some(InvalidReservationId) && s' == s)
            && (error.None? ==> s' == s.(creditor := Some(s.creditor.value.(
                  activated := true,
                  reservationId := if s.creditor.value.activated then s.creditor.value.reservationId else None))))
  {
  }

  /** What the traders are told when an account goes: an empty ledger, no policy, and no flags, under one id. */
  predicate StopsTrade(signals: seq<Signal>, id: int, now: int) {
    && |signals| == 3
    && signals[0] == UpdatedLedger(id, "", 0, 0, 0, now)
    && signals[1] == UpdatedPolicy(id, ExchangeData(None, -0x8000_0000_0000_0000, 0x7FFF_FFFF_FFFF_FFFF, None, None), now)
    && signals[2] == UpdatedFlags(id, 0, now)
  }

  /** An active creditor loses his account, and the day is noted; nothing else happens to him. */
  lemma DeactivationOutcome(s: State)
    ensures var s' := DeactivateCreditor(s);
            if s.creditor.Some? && s.creditor.value.activated && !s.creditor.value.deactivated then
              && s'.creditor == Some(s.creditor.value.(deactivated := true, deactivationDate := Some(s.clock / 86400000000)))
              && s'.account.None? && s.signals <= s'.signals && s'.log == s.log && s'.store == s.store
              && (if s.account.Some? then
                    && StopsTrade(s'.signals[|s.signals|..], s.uidSeq + 1, s.clock)
                    && !s'.wake && s'.past == s.past + s.entries && s'.entries == []
                  else s'.signals == s.signals && s'.past == s.past && s'.entries == s.entries)
            else s' == s
  {
    if HasActiveCreditor(s) && s.account.Some? {
      assert DeactivateCreditor(s).signals[|s.signals|..] == StopAccountTrade(s.uidSeq + 1, s.clock);
    }
  }

  /** A row goes when it has not been activated for long, or has been deactivated long ago, and never before. */
  lemma RemovalOutcome(p: Params, s: State)
    ensures var s' := RemoveCreditor(p, s);
            && (s.creditor.Some? ==>
                  (s'.creditor.None? <==>
                    var c := s.creditor.value;
                    || (!c.activated && s.clock - c.createdAt > p.inactiveRetention)
                    || (c.deactivated
                        && (c.deactivationDate.None?
                            || c.deactivationDate.value < (s.clock - p.deactivatedRetention) / 86400000000))))
            && (s'.creditor.Some? || s.creditor.None? ==> s' == s)
            && (s'.creditor.None? && s.creditor.Some? ==> s'.account.None? && !s'.wake && s'.store == s.store)
  {
  }

  // ---------- Creation and deletion ----------

  /** The log tells that all objects of the account have gone, under one id. */
  function Farewell(id: int): seq<LogItem> {
    [ObjectDeleted(AccountObj, id), ObjectDeleted(ConfigObj, id), ObjectDeleted(InfoObj, id), ObjectDeleted(LedgerObj, id),
     ObjectDeleted(DisplayObj, id), ObjectDeleted(ExchangeObj, id), ObjectDeleted(KnowledgeObj, id)]
  }

  lemma DeletionsAre(id: int)
    ensures Deletions(KINDS, id) == Farewell(id)
  {
  }

  predicate IsNew(a: Account, now: int, largestHistoricEntryId: int) {
    && IsUnheard(a) && a.server.lastHeartbeatTs == now
    && a.config == ConfigData(now, 0, 1.0e30, 0, "", false, false, a.config.updateId)
    && a.info.configError.None?
    && a.ledger == LedgerData(0, largestHistoricEntryId + 1, 0, None, a.ledger.updateId, now)
    && a.other.display == DisplayData(None, 1.0, 0, None, false)
    && a.other.exchange == ExchangeData(None, -0x8000_0000_0000_0000, 0x7FFF_FFFF_FFFF_FFFF, None, None)
    && a.other.knowledge == "{}"
  }

  lemma CreationOutcome(s: State, order: seq<int>)
    requires IsOrder(order)
    ensures var (s', error) := CreateAccount(s, order);
            && (error == Some(CreditorDoesNotExist) <==>
                  s.creditor.None? || !s.creditor.value.activated || s.creditor.value.deactivated)
            && (error == Some(AccountExists) <==> error != Some(CreditorDoesNotExist) && s.account.Some?)
            && (error.None? || error == Some(CreditorDoesNotExist) || error == Some(AccountExists))
            && (error.Some? ==> s' == s)
            && (error.None? ==>
                  && s'.account.Some? && IsNew(s'.account.value, s.clock, s.creditor.value.largestHistoricEntryId)
                  && !s'.wake && s'.entries == [] && s'.past == s.past && s'.store == s.store
                  && s'.log == s.log + [ObjectUpdated(AccountObj, s'.account.value.other.accountId),
                                        AccountsListUpdated(s.creditor.value.accountsListId + 1)]
                  && s'.signals == s.signals + [ConfigureAccount(s.clock, 0, 1.0e30, "", 0)])
  {
    hide IsOrder, FirstIssues;
  }

  /** An update of the server has confirmed the configuration, which schedules the deletion, and then a purge came. */
  ghost predicate WasConfirmedAndPurged(s: State)
    requires s.account.Some?
  {
    var st, n := s.status, |s.status|;
    && s.account.value.config.flags % 2 == 1
    && n >= 2 && st[n - 1].PurgeAccepted? && st[n - 2].UpdateAccepted? && Echoes(st[n - 2].msg, s.account.value.config)
  }

  ghost predicate MayBeDeleted(s: State)
    requires s.account.Some?
  {
    WasConfirmedAndPurged(s) || s.account.value.config.allowUnsafeDeletion || s.account.value.other.display.debtorName.None?
  }

  /**
   * An account with a name goes only if its owner allows it to go unsafely, or the server has confirmed
   * the configuration and has purged its own account since; and none goes to which another is pegged.
   */
  lemma DeletionOutcome(s: State, isPegged: bool)
    requires StatusFits(s) && (s.account.Some? ==> s.creditor.Some?)
    ensures var (s', error) := DeleteAccount(s, isPegged);
            && (error == Some(CreditorDoesNotExist) <==> s.creditor.None?)
            && (error == Some(AccountDoesNotExist) <==> s.creditor.Some? && s.account.None?)
            && (error == Some(UnsafeAccountDeletion) <==> s.account.Some? && !MayBeDeleted(s))
            && (error == Some(ForbiddenPegDeletion) <==> s.account.Some? && MayBeDeleted(s) && isPegged)
            && (error.None? <==> s.account.Some? && MayBeDeleted(s) && !isPegged)
            && (error.Some? ==> s' == s)
            && (error.None? ==>
                  && s'.account.None? && !s'.wake && s'.past == s.past + s.entries && s'.store == s.store
                  && s'.creditor == Some(s.creditor.value.(
                       accountsListId := s.creditor.value.accountsListId + 1,
                       largestHistoricEntryId := if s.account.value.ledger.lastEntryId > s.creditor.value.largestHistoricEntryId
                                                 then s.account.value.ledger.lastEntryId
                                                 else s.creditor.value.largestHistoricEntryId))
                  && s'.log == s.log + [AccountsListUpdated(s.creditor.value.accountsListId + 1)] + Farewell(s.uidSeq + 1)
                  && s.signals <= s'.signals && StopsTrade(s'.signals[|s.signals|..], s.uidSeq + 1, s.clock))
  {
    DeletionsAre(s.uidSeq + 1);
    hide StatusFits, Deletions, LastIssues, Echoes;
    if s.account.Some? {
      DeletionSafetyHistory(s);
      if |s.status| >= 2 && s.status[|s.status| - 2].UpdateAccepted? {
        EchoIsConfirmation(s.status[|s.status| - 2].msg, s.account.value.config);
      }
      var s' := DeleteAccount(s, isPegged).0;
      if s' != s {
        assert s'.signals[|s.signals|..] == StopAccountTrade(s.uidSeq + 1, s.clock);
      }
    }
  }

  lemma EchoIsConfirmation(m: UpdateMsg, c: ConfigData)
    ensures Echoes(m, c) <==> ConfirmsConfig(m, c)
  {
  }

  // ---------- Requests about the objects ----------

  /** The object is what the request asks for. */
  predicate IsConfigured(c: ConfigData, deletion: bool, negligible: real, allowUnsafe: bool, data: string) {
    (c.flags % 2 == 1) == deletion && c.negligible == negligible && c.allowUnsafeDeletion == allowUnsafe && c.data == data
  }

  /**
   * A configuration is repeated without effect, or needs the next id. A new one gets a later stamp, is not
   * in force until the server echoes it, and is sent to the server and to the traders.
   */
  lemma ConfigurationOutcome(s: State, deletion: bool, negligible: real, allowUnsafe: bool, data: string, updateId: int)
    requires s.account.Some?
    ensures var (s', error) := UpdateConfig(s, deletion, negligible, allowUnsafe, data, updateId);
            var a := s.account.value; var c := a.config;
            var isRepeated := updateId == c.updateId && IsConfigured(c, deletion, negligible, allowUnsafe, data);
            && (error == Some(UpdateConflict) <==> !isRepeated && updateId != c.updateId + 1)
            && (error.Some? ==> error == Some(UpdateConflict))
            && (error.Some? || isRepeated ==> s' == s)
            && (error.None? && !isRepeated ==>
                  && s'.account.Some?
                  && var c' := s'.account.value.config;
                     s'.account.value == a.(config := c', info := a.info.(updateId := s'.account.value.info.updateId))
                     && IsConfigured(c', deletion, negligible, allowUnsafe, data) && c'.flags / 2 == c.flags / 2
                     && c'.updateId == updateId && !c'.effectual
                     && c'.seqnum == c.seqnum + 1 && c'.ts == (if s.clock > c.ts then s.clock else c.ts)
                     && s.log <= s'.log && |s'.log| > |s.log| && s'.log[|s.log|] == ObjectUpdated(ConfigObj, updateId)
                     && s'.signals == s.signals + [UpdatedFlags(updateId, c'.flags, s.clock),
                                                   ConfigureAccount(c'.ts, c'.seqnum, c'.negligible, c'.data, c'.flags)])
  {
    FlagIsSet(s.account.value.config.flags, deletion);
    hide WithDeletionFlag;
  }

  lemma FlagIsSet(flags: int, value: bool)
    ensures (WithDeletionFlag(flags, value) % 2 == 1) == value && WithDeletionFlag(flags, value) / 2 == flags / 2
  {
  }

  predicate IsWritten(o: OtherData, r: Rewriting) {
    match r
    case NewDisplay(display) => o.display == display
    case NewExchange(exchange) => o.exchange == exchange
    case NewKnowledge(knowledge) => o.knowledge == knowledge
  }

  /** The id of the object that is to be rewritten. */
  function ObjectId(o: OtherData, r: Rewriting): int {
    match r
    case NewDisplay(_) => o.displayId
    case NewExchange(_) => o.exchangeId
    case NewKnowledge(_) => o.knowledgeId
  }

  /** The other objects are as they were. */
  predicate LeavesOthers(o: OtherData, o': OtherData, r: Rewriting) {
    && o'.accountId == o.accountId
    && (!r.NewDisplay? ==> o'.display == o.display && o'.displayId == o.displayId)
    && (!r.NewExchange? ==> o'.exchange == o.exchange && o'.exchangeId == o.exchangeId)
    && (!r.NewKnowledge? ==> o'.knowledge == o.knowledge && o'.knowledgeId == o.knowledgeId)
  }

  /** A new name belongs to another debtor already. */
  predicate TakesName(o: OtherData, r: Rewriting, names: set<string>) {
    r.NewDisplay? && r.display.debtorName.Some? && r.display.debtorName != o.display.debtorName
    && r.display.debtorName.value in names
  }

  predicate LacksPeg(r: Rewriting, peers: set<int>) {
    r.NewExchange? && r.exchange.pegDebtorId.Some? && r.exchange.pegDebtorId.value !in peers
  }

  /** The same for the other objects: no two debtors get one name, and a peg has an account. */
  lemma RewritingOutcome(s: State, updateId: int, r: Rewriting, names: set<string>, peers: set<int>)
    requires s.account.Some?
    ensures var (s', error) := UpdateOther(s, updateId, r, names, peers);
            var a := s.account.value; var o := a.other;
            var isRepeated := updateId == ObjectId(o, r) && IsWritten(o, r);
            && (error == Some(UpdateConflict) <==> !isRepeated && updateId != ObjectId(o, r) + 1)
            && (error == Some(DebtorNameConflict) <==>
                  !isRepeated && updateId == ObjectId(o, r) + 1 && TakesName(o, r, names))
            && (error == Some(PegDoesNotExist) <==> !isRepeated && updateId == ObjectId(o, r) + 1 && LacksPeg(r, peers))
            && (error.Some? ==> error.value in {UpdateConflict, DebtorNameConflict, PegDoesNotExist})
            && (error.Some? || isRepeated ==> s' == s)
            && (error.None? && !isRepeated ==>
                  && s'.account.Some? && s'.account.value == a.(other := s'.account.value.other)
                  && var o' := s'.account.value.other;
                     IsWritten(o', r) && ObjectId(o', r) == updateId && LeavesOthers(o, o', r)
                     && s'.log == s.log + [ObjectUpdated(KindOf(r), updateId)]
                     && s'.signals == s.signals + if r.NewExchange? then [UpdatedPolicy(updateId, r.exchange, s.clock)] else [])
  {
  }

  /** The error is set exactly by the first rejection of the present configuration. */
  lemma RejectionOutcome(s: State, m: RejectedMsg)
    requires s.account.Some?
    ensures var s', a := RejectConfig(s, m), s.account.value; var c, id := a.config, a.info.updateId + 1;
            if c.ts == m.configTs && c.seqnum == m.configSeqnum && c.flags == m.configFlags && c.data == m.configData
               && c.negligible - m.negligible <= 0.00001 * m.negligible
               && m.negligible - c.negligible <= 0.00001 * m.negligible
               && a.info.configError.None?
            then
              s' == s.(account := Some(a.(info := a.info.(configError := Some(m.code), updateId := id))),
                       log := s.log + [ObjectUpdated(InfoObj, id)], issued := s'.issued, uidSeq := s'.uidSeq)
            else s' == s
  {
  }

  // ---------- Visits of the scanner ----------

  /** The ledger stands at the server's last transfer with another principal, and has not moved for an hour. */
  predicate IsOff(a: Account, now: int) {
    && a.server.lastTransferNumber == a.ledger.lastTransferNumber && a.server.principal != a.ledger.principal
    && now - a.ledger.updateTs > 3600000000
  }

  /** A transfer is missing, and what the ledger has been waiting for is older than the delay. */
  predicate IsOverdue(a: Account, maxDelay: int, now: int) {
    && a.ledger.lastTransferNumber < a.server.lastTransferNumber
    && now - (if a.ledger.pendingTransferTs.Some? then a.ledger.pendingTransferTs.value
              else a.server.lastTransferCommittedAt) > maxDelay
  }

  /**
   * The configuration has been sent long ago, and the server has not confirmed it since, or has had an
   * account and has not been heard of for long.
   */
  ghost predicate IsUnanswered(p: Params, s: State)
    requires s.account.Some?
  {
    var a := s.account.value;
    && s.clock - a.config.ts > p.maxConfigDelay
    && (!IsEffectual(s.status) || (HasServerAccount(s.status) && s.clock - a.server.lastHeartbeatTs > p.maxHeartbeatDelay))
  }

  /** What a visit sees to: a wrong ledger, a missing transfer, and an unanswered configuration; and when. */
  lemma VisitOutcome(p: Params, s: State)
    requires s.account.Some? && StatusFits(s)
    ensures var a, s' := s.account.value, ScanAccount(p, s);
            && s'.account.Some?
            && var a' := s'.account.value;
               (if IsOff(a, s.clock) then
                  && a'.ledger == a.ledger.(principal := a.server.principal, updateId := a.ledger.updateId + 1,
                                            updateTs := s.clock, lastEntryId := a'.ledger.lastEntryId)
                  && s.entries <= s'.entries
                else a'.ledger == a.ledger && s'.entries == s.entries && s'.signals == s.signals)
               && (s'.wake <==> s.wake || IsOverdue(a, p.maxDelay, s.clock))
               && a'.info == (if a.info.configError.None? && IsUnanswered(p, s)
                              then a.info.(configError := Some("CONFIGURATION_IS_NOT_EFFECTUAL"),
                                           updateId := a.info.updateId + 1)
                              else a.info)
               && a' == a.(ledger := a'.ledger, info := a'.info)
  {
    hide LatestConfig, HasServerAccount, IsEffectual, LedgerSpec.CorrectingEntries, PurgesFit, StampsGrow;
  }

  // ---------- Who may change what ----------

  /** Nothing but the creditor's requests changes his objects; nothing but messages, what is known of the server. */
  ghost predicate ChangesItsOwn(a: Account, step: Step, a': Account) {
    && (a'.other == a.other || step.Rewrite?)
    && (a'.config == a.config.(effectual := a'.config.effectual) || step.Reconfigure?)
    && (a'.config == a.config || step.Reconfigure? || step.Update?)
    && (a'.server == a.server || step.Update? || step.Purge?)
    && (a'.ledger == a.ledger || IsLedgerStep(step))
  }

  lemma LedgerStepChangesItsOwn(p: Params, s: State, now: int, step: Step)
    requires ValidParams(p) && ValidStep(step) && IsLedgerStep(step) && s.account.Some?
    ensures var s' := Apply(p, s, now, step); s'.account.Some? && ChangesItsOwn(s.account.value, step, s'.account.value)
  {
    hide Apply, AccountUpdate, CreateAccount, ProcessBurst, ProcessOnePass, ScanAccount, Echoes, LedgerGoesOn, Quotes;
    var s1 := s.(clock := now);
    LedgerSteps(p, s, now, step);
    match step {
      case Update(m) => UpdateOutcome(s1, m);
      case Create(order) => CreationOutcome(s1, order);
      case ScanRow => ScanEffect(p, s1);
      case _ => ProcessingEffect(p, s1);
    }
  }

  lemma RequestChangesItsOwn(p: Params, s: State, now: int, step: Step)
    requires ValidParams(p) && ValidStep(step) && IsRequest(step) && s.account.Some?
    ensures var s' := Apply(p, s, now, step); s'.account.Some? && ChangesItsOwn(s.account.value, step, s'.account.value)
  {
    hide Apply, UpdateConfig, UpdateOther, RejectConfig, PurgeAccount;
    var s1 := s.(clock := now);
    RequestSteps(p, s, now, step);
    match step {
      case Reconfigure(d, n, u, data, id) => ConfigurationOutcome(s1, d, n, u, data, id);
      case Rewrite(r, id, names, peers) => RewritingOutcome(s1, id, r, names, peers);
      case Reject(m) => RejectionOutcome(s1, m);
      case Purge(date) => PurgeOutcome(s1, date);
    }
  }

  lemma OnlyRequestsChangeObjects(p: Params, s: State, now: int, step: Step)
    requires ValidParams(p) && ValidStep(step) && s.account.Some? && Apply(p, s, now, step).account.Some?
    ensures ChangesItsOwn(s.account.value, step, Apply(p, s, now, step).account.value)
  {
    hide Apply, Deletions, LastIssues, IsDisposable;
    if IsLedgerStep(step) {
      LedgerStepChangesItsOwn(p, s, now, step);
    } else if IsLifecycle(step) {
      LifecycleSteps(p, s, now, step);
    } else if IsRequest(step) {
      RequestChangesItsOwn(p, s, now, step);
    } else {
      TransferStepsKeepHistory(p, s, now, step);
    }
  }
}
