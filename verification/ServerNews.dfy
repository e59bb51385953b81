/**
 * What the server says about an account, and what the row makes of it: which messages are accepted,
 * and that the row quotes the last one.
 */
module ServerNews {
  import opened Options
  import opened AccountModel
  import opened LedgerSpec
  import opened StepEffects
  import opened SystemSpec
  import opened WakeUps
  import opened Status

  // ---------- One message ----------

  predicate IsExpired(m: UpdateMsg, now: int) { now - m.ts > m.ttl * 1000000 }

  /** The message tells of a later change than the row: creation dates first, then times, then numbers. */
  predicate Supersedes(m: UpdateMsg, creationDate: int, changeTs: int, changeSeqnum: int) {
    || creationDate < m.creationDate
    || (creationDate == m.creationDate && changeTs < m.changeTs)
    || (creationDate == m.creationDate && changeTs == m.changeTs && changeSeqnum < m.changeSeqnum)
  }

  /** The columns that tell about the server's account, except for its principal, are those of the message. */
  predicate Quotes(a: Account, m: UpdateMsg) {
    && a.server.creationDate == m.creationDate
    && a.server.changeTs == m.changeTs && a.server.changeSeqnum == m.changeSeqnum
    && a.server.lastTransferNumber == m.lastTransferNumber
    && a.server.lastTransferCommittedAt == m.lastTransferCommittedAt
    && a.info.interestRate == m.interestRate && a.info.rateChangeTs == m.rateChangeTs
    && a.info.noteMaxBytes == m.noteMaxBytes && a.info.accountId == m.accountId && a.info.debtor == m.debtor
  }

  /** The message quotes the configuration; the amounts may differ by a hundred-thousandth. */
  predicate Echoes(m: UpdateMsg, c: ConfigData) {
    && m.configTs == c.ts && m.configSeqnum == c.seqnum && m.configFlags == c.flags && m.configData == c.data
    && c.negligible - m.negligible <= 0.00001 * m.negligible
    && m.negligible - c.negligible <= 0.00001 * m.negligible
  }

  /** The sign of life in the row. */
  predicate HasHeard(a: Account, m: UpdateMsg, a': Account, now: int) {
    a'.server.lastHeartbeatTs
    == if m.ts <= a.server.lastHeartbeatTs then a.server.lastHeartbeatTs else if m.ts <= now then m.ts else now
  }

  /** The ledger starts anew with a new server account, and is looked at again when its identity has changed. */
  ghost predicate LedgerGoesOn(s: State, m: UpdateMsg, s': State)
    requires s.account.Some? && s'.account.Some?
  {
    var a, l, l' := s.account.value, s.account.value.ledger, s'.account.value.ledger;
    if m.creationDate > a.server.creationDate then
      l'.principal == 0 && l'.lastTransferNumber == 0 && l'.pendingTransferTs.None? && l'.updateTs == s.clock && s'.wake
    else if m.accountId != a.info.accountId then
      s'.wake && s'.entries == s.entries && l' == l.(updateId := l.updateId + 1, updateTs := s.clock)
    else
      l' == l && s'.entries == s.entries && s'.wake == s.wake
  }

  /** The row takes over everything that the message says, and forgets an error if its configuration is in force. */
  ghost predicate Accepts(s: State, m: UpdateMsg, s': State)
    requires s.account.Some?
  {
    && s'.account.Some? && s'.status == s.status + [UpdateAccepted(m)]
    && var a, a' := s.account.value, s'.account.value;
       && Quotes(a', m) && a'.server.hasAccount && a'.server.principal == m.principal
       && a'.config == a.config.(effectual := Echoes(m, a.config))
       && a'.info.configError == (if Echoes(m, a.config) then None else a.info.configError)
       && a'.other == a.other
       && LedgerGoesOn(s, m, s')
  }

  /** An update is accepted exactly if it has not expired, and tells of a later change. */
  lemma UpdateOutcome(s: State, m: UpdateMsg)
    requires s.account.Some?
    ensures var a, s' := s.account.value, AccountUpdate(s, m);
            if IsExpired(m, s.clock) then s' == s
            else
              && s'.account.Some? && HasHeard(a, m, s'.account.value, s.clock)
              && if Supersedes(m, a.server.creationDate, a.server.changeTs, a.server.changeSeqnum) then Accepts(s, m, s')
                 else s' == s.(account := Some(a.(server := s'.account.value.server)))
                      && s'.account.value.server == a.server.(lastHeartbeatTs := s'.account.value.server.lastHeartbeatTs)
  {
    hide LedgerSpec.UpdateLedger, Refreshed, Echoes;
    var a := Heard(s.account.value, m, s.clock);
    RefreshOutcome(s.(account := Some(a)), m);
    SameLedgerTold(a.ledger, m.creationDate, s.clock);
    FreshLedgerTold(a.ledger, m.creationDate, s.clock);
  }

  /** The row before the ledger is looked at. */
  lemma RefreshOutcome(s: State, m: UpdateMsg)
    requires s.account.Some?
    ensures var a, s' := s.account.value, Refreshed(s, m);
            && s' == s.(account := s'.account, status := s.status + [UpdateAccepted(m)], log := s'.log,
                        issued := s'.issued, uidSeq := s'.uidSeq)
            && s'.account.Some? && var a' := s'.account.value;
               Quotes(a', m) && a'.server.hasAccount && a'.server.principal == m.principal
               && a'.server.lastHeartbeatTs == a.server.lastHeartbeatTs
               && a'.config == a.config.(effectual := Echoes(m, a.config))
               && a'.info.configError == (if Echoes(m, a.config) then None else a.info.configError)
               && a'.other == a.other && a'.ledger == a.ledger
  {
    hide IsInfoUpdated;
  }

  /** An update of the identity posts nothing, and tells the same ledger again. */
  lemma SameLedgerTold(l: LedgerData, date: int, now: int)
    ensures var e := UpdateLedger(l, date, l.lastTransferNumber, 0, l.principal, now, true);
            e.entries == [] && e.ledger == l.(updateId := l.updateId + 1, updateTs := now)
  {
  }

  lemma FreshLedgerTold(l: LedgerData, date: int, now: int)
    ensures var e := UpdateLedger(l.(pendingTransferTs := None), date, 0, 0, 0, now, true);
            && e.ledger.principal == 0 && e.ledger.lastTransferNumber == 0
            && e.ledger.pendingTransferTs.None? && e.ledger.updateTs == now
  {
  }

  /** Without an account, the server is asked once to discard its own: deletion, and nothing that is negligible. */
  lemma OrphanOutcome(s: State, m: UpdateMsg)
    requires s.account.None?
    ensures var s' := AccountUpdate(s, m);
            && s' == s.(signals := s'.signals)
            && s'.signals
               == if IsExpired(m, s.clock) || (m.configFlags % 2 == 1 && m.negligible >= 0.99999 * 1.0e30) then s.signals
                  else s.signals + [ConfigureAccount(s.clock, 0, 1.0e30, "", 1)]
  {
  }

  // ---------- All messages so far ----------

  function LatestUpdate(st: seq<StatusEvent>): Option<UpdateMsg> {
    if st == [] then None
    else if st[|st| - 1].UpdateAccepted? then Some(st[|st| - 1].msg)
    else LatestUpdate(st[..|st| - 1])
  }

  /** Nothing is known about the server's account yet. */
  predicate IsUnheard(a: Account) {
    && !a.server.hasAccount && a.server.creationDate == 0 && a.server.principal == 0
    && a.server.changeTs == 0 && a.server.changeSeqnum == 0
    && a.server.lastTransferNumber == 0 && a.server.lastTransferCommittedAt == 0
    && a.info.interestRate == 0.0 && a.info.rateChangeTs == 0 && a.info.noteMaxBytes == 0
    && a.info.accountId == "" && a.info.debtor == DebtorInfo(None, None, None)
  }

  /** Each accepted update tells of a later change than all updates before it. */
  ghost predicate ChangesRise(st: seq<StatusEvent>) {
    forall i, j :: 0 <= i < j < |st| && st[i].UpdateAccepted? && st[j].UpdateAccepted? ==>
      Supersedes(st[j].msg, st[i].msg.creationDate, st[i].msg.changeTs, st[i].msg.changeSeqnum)
  }

  /**
   * The row quotes the last accepted update. The principal is the one of that update, or zero if the
   * server's account has been purged since.
   */
  ghost predicate NewsFits(s: State) {
    s.account.Some? ==>
      var a, st := s.account.value, s.status;
      && ChangesRise(st)
      && match LatestUpdate(st)
         case None => IsUnheard(a) && (forall e :: e in st ==> e.Configured?)
         case Some(m) =>
           && Quotes(a, m)
           && a.server.hasAccount == HasServerAccount(st)
           && a.server.principal == (if HasServerAccount(st) then m.principal else 0)
  }

  lemma LatestGrows(st: seq<StatusEvent>, e: StatusEvent)
    ensures LatestUpdate(st + [e]) == if e.UpdateAccepted? then Some(e.msg) else LatestUpdate(st)
    ensures HasServerAccount(st + [e])
         == (if e.UpdateAccepted? then true else if e.PurgeAccepted? then false else HasServerAccount(st))
  {
    assert (st + [e])[..|st|] == st;
  }

  /** The last update is no earlier than any other. */
  lemma {:induction false} LatestIsLatest(st: seq<StatusEvent>, i: nat)
    requires ChangesRise(st) && i < |st| && st[i].UpdateAccepted?
    ensures LatestUpdate(st).Some?
    ensures LatestUpdate(st).value == st[i].msg
            || Supersedes(LatestUpdate(st).value, st[i].msg.creationDate, st[i].msg.changeTs, st[i].msg.changeSeqnum)
    decreases |st|
  {
    if i < |st| - 1 && !st[|st| - 1].UpdateAccepted? {
      LatestIsLatest(st[..|st| - 1], i);
    }
  }

  lemma QuietStepKeepsNews(s: State, s': State)
    requires NewsFits(s)
    requires s'.account.Some? ==>
      && s.account.Some? && s'.status == s.status
      && s'.account.value.server == s.account.value.server.(lastHeartbeatTs := s'.account.value.server.lastHeartbeatTs)
      && s'.account.value.info
         == s.account.value.info.(updateId := s'.account.value.info.updateId, configError := s'.account.value.info.configError)
    ensures NewsFits(s')
  {
  }

  lemma AcceptingKeepsNews(s: State, m: UpdateMsg, s': State)
    requires NewsFits(s) && s.account.Some? && Accepts(s, m, s')
    requires var v := s.account.value.server; Supersedes(m, v.creationDate, v.changeTs, v.changeSeqnum)
    ensures NewsFits(s')
  {
    hide Echoes, LedgerGoesOn;
    LatestGrows(s.status, UpdateAccepted(m));
    forall i | 0 <= i < |s.status| && s.status[i].UpdateAccepted?
      ensures Supersedes(m, s.status[i].msg.creationDate, s.status[i].msg.changeTs, s.status[i].msg.changeSeqnum)
    {
      LatestIsLatest(s.status, i);
    }
  }

  lemma UpdatingKeepsNews(s: State, m: UpdateMsg)
    requires NewsFits(s)
    ensures NewsFits(AccountUpdate(s, m))
  {
    hide AccountUpdate, NewsFits, Accepts;
    var s' := AccountUpdate(s, m);
    if s.account.None? {
      OrphanOutcome(s, m);
      QuietStepKeepsNews(s, s');
    } else {
      UpdateOutcome(s, m);
      var v := s.account.value.server;
      if !IsExpired(m, s.clock) && Supersedes(m, v.creationDate, v.changeTs, v.changeSeqnum) {
        AcceptingKeepsNews(s, m, s');
      } else {
        QuietStepKeepsNews(s, s');
      }
    }
  }

  /** A purge is accepted exactly if the server has had an account that is not newer. */
  lemma PurgeOutcome(s: State, creationDate: int)
    ensures var s' := PurgeAccount(s, creationDate);
            if s.account.Some? && s.account.value.server.hasAccount && s.account.value.server.creationDate <= creationDate
            then
              var a := s.account.value; var id := a.info.updateId + 1;
              s' == s.(account := Some(a.(server := a.server.(hasAccount := false, principal := 0),
                                          info := a.info.(updateId := id))),
                       status := s.status + [PurgeAccepted], log := s.log + [ObjectUpdated(InfoObj, id)],
                       issued := s'.issued, uidSeq := s'.uidSeq)
            else s' == s
  {
  }

  lemma PurgingKeepsNews(s: State, creationDate: int)
    requires NewsFits(s)
    ensures NewsFits(PurgeAccount(s, creationDate))
  {
    hide PurgeAccount;
    PurgeOutcome(s, creationDate);
    LatestGrows(s.status, PurgeAccepted);
  }

  lemma ConfiguringKeepsNews(s: State, deletion: bool, negligible: real, allowUnsafe: bool, data: string, updateId: int)
    requires NewsFits(s)
    ensures NewsFits(UpdateConfig(s, deletion, negligible, allowUnsafe, data, updateId).0)
  {
    var t := UpdateConfig(s, deletion, negligible, allowUnsafe, data, updateId).0;
    if t != s {
      LatestGrows(s.status, t.status[|s.status|]);
      assert t.status == s.status + [t.status[|s.status|]];
    }
  }

  lemma CreatingKeepsNews(s: State, order: seq<int>)
    requires NewsFits(s) && IsOrder(order)
    ensures NewsFits(CreateAccount(s, order).0)
  {
    hide FirstIssues, NewsFits, IsOrder;
    var t := CreateAccount(s, order).0;
    if t != s { FreshNews(t); }
  }

  lemma FreshNews(s: State)
    requires s.account.Some? && IsUnheard(s.account.value) && |s.status| == 1 && s.status[0].Configured?
    ensures NewsFits(s)
  {
    assert s.status[..0] == [];
  }

  lemma RequestsKeepNews(p: Params, s: State, now: int, step: Step)
    requires ValidParams(p) && ValidStep(step) && IsRequest(step) && NewsFits(s.(clock := now))
    ensures NewsFits(Apply(p, s, now, step))
  {
    hide Apply, NewsFits, SystemSpec.UpdateConfig, PurgeAccount, AccountModel.CloseTo, ConflictOf, IsCurrent;
    var s1, s' := s.(clock := now), Apply(p, s, now, step);
    RequestSteps(p, s, now, step);
    match step {
      case Reconfigure(d, n, u, data, id) => ConfiguringKeepsNews(s1, d, n, u, data, id);
      case Purge(date) => PurgingKeepsNews(s1, date);
      case _ => QuietStepKeepsNews(s1, s');
    }
  }

  lemma ScanningKeepsNews(p: Params, s: State)
    requires NewsFits(s)
    ensures NewsFits(ScanAccount(p, s))
  {
    hide NewsFits, LedgerSpec.NeedsCorrection, LedgerSpec.NeedsRepair, LedgerSpec.CorrectingEntries, HasConfigProblem;
    QuietStepKeepsNews(s, ScanAccount(p, s));
  }

  lemma ProcessingKeepsNews(p: Params, s: State)
    requires ValidParams(p) && NewsFits(s)
    ensures NewsFits(ProcessBurst(p, s)) && NewsFits(ProcessOnePass(p, s))
  {
    hide NewsFits, LedgerSpec.BurstWork, LedgerSpec.OnePassWork;
    QuietStepKeepsNews(s, ProcessBurst(p, s));
    QuietStepKeepsNews(s, ProcessOnePass(p, s));
  }

  lemma LifecycleKeepsNews(p: Params, s: State, now: int, step: Step)
    requires ValidParams(p) && ValidStep(step) && IsLifecycle(step) && NewsFits(s)
    ensures NewsFits(Apply(p, s, now, step))
  {
    hide Apply, NewsFits, SystemSpec.Deletions, SystemSpec.LastIssues, IsDisposable;
    LifecycleSteps(p, s, now, step);
    QuietStepKeepsNews(s, Apply(p, s, now, step));
  }

  lemma StepKeepsNews(p: Params, server: Server, s: State, now: int, step: Step)
    requires ValidParams(p) && Allowed(server, step) && NewsFits(s)
    ensures NewsFits(Apply(p, s, now, step))
  {
    hide Apply, NewsFits;
    var s1 := s.(clock := now);
    QuietStepKeepsNews(s, s1);
    if IsLedgerStep(step) {
      hide AccountUpdate, CreateAccount, ProcessBurst, ProcessOnePass, ScanAccount;
      LedgerSteps(p, s, now, step);
      match step {
        case Update(m) => UpdatingKeepsNews(s1, m);
        case Create(order) => CreatingKeepsNews(s1, order);
        case ScanRow => ScanningKeepsNews(p, s1);
        case _ => ProcessingKeepsNews(p, s1);
      }
    } else if IsLifecycle(step) {
      LifecycleKeepsNews(p, s, now, step);
    } else if IsRequest(step) {
      RequestsKeepNews(p, s, now, step);
    } else {
      TransferStepsKeepHistory(p, s, now, step);
      QuietStepKeepsNews(s1, Apply(p, s, now, step));
    }
  }
}
