/**
 * The configuration handshake, the deletion-safe flag, and the notices about `AccountInfo`.
 */
module Status {
  import opened Options
  import opened AccountModel
  import opened StepEffects
  import opened SystemSpec
  import opened WakeUps

  // ---------- What the history says ----------

  /** The last configuration event. */
  function LatestConfig(st: seq<StatusEvent>): Option<StatusEvent> {
    if st == [] then None
    else if st[|st| - 1].Configured? then Some(st[|st| - 1])
    else LatestConfig(st[..|st| - 1])
  }

  /** The last message about the server account was an update. */
  predicate HasServerAccount(st: seq<StatusEvent>) {
    st != [] &&
    match st[|st| - 1]
    case UpdateAccepted(_) => true
    case PurgeAccepted => false
    case Configured(_, _, _, _, _) => HasServerAccount(st[..|st| - 1])
  }

  predicate ConfirmsEvent(m: UpdateMsg, e: Option<StatusEvent>) {
    match e
    case Some(Configured(ts, seqnum, negligible, flags, data)) => Confirms(m, ts, seqnum, negligible, flags, data)
    case _ => false
  }

  /** The configuration has not changed since the last update, and that update confirmed it. */
  predicate IsEffectual(st: seq<StatusEvent>) {
    st != [] &&
    match st[|st| - 1]
    case UpdateAccepted(m) => ConfirmsEvent(m, LatestConfig(st[..|st| - 1]))
    case PurgeAccepted => IsEffectual(st[..|st| - 1])
    case Configured(_, _, _, _, _) => false
  }

  /** Only existing server accounts are purged. */
  ghost predicate PurgesFit(st: seq<StatusEvent>) {
    forall i :: 0 <= i < |st| && st[i].PurgeAccepted? ==> HasServerAccount(st[..i])
  }

  /** Every new configuration has a later stamp than all configurations before it. */
  ghost predicate StampsGrow(st: seq<StatusEvent>) {
    forall i, j :: 0 <= i < j < |st| && st[i].Configured? && st[j].Configured? ==>
      st[i].ts <= st[j].ts && st[i].seqnum < st[j].seqnum
  }

  /** The row says what the history says. */
  ghost predicate StatusFits(s: State) {
    s.account.Some? ==>
      var c, st := s.account.value.config, s.status;
      && LatestConfig(st) == Some(Configured(c.ts, c.seqnum, c.negligible, c.flags, c.data))
      && s.account.value.server.hasAccount == HasServerAccount(st)
      && c.effectual == IsEffectual(st)
      && c.negligible >= 0.0
      && PurgesFit(st) && StampsGrow(st)
      && (forall i :: 0 <= i < |st| && st[i].Configured? ==> st[i].ts <= c.ts && st[i].seqnum <= c.seqnum)
      && ConfigureAccount(c.ts, c.seqnum, c.negligible, c.data, c.flags) in s.signals
  }

  // ---------- Deletion safety ----------

  /**
   * The account is safe to delete exactly when it is scheduled for deletion and the last two
   * events were an update that confirmed the configuration, and a purge.
   */
  lemma DeletionSafetyHistory(s: State)
    requires StatusFits(s) && s.account.Some?
    ensures var st := s.status; var n := |st|;
            s.account.value.IsDeletionSafe() <==>
              && s.account.value.IsScheduledForDeletion()
              && n >= 2 && st[n - 1].PurgeAccepted? && st[n - 2].UpdateAccepted?
              && ConfirmsConfig(st[n - 2].msg, s.account.value.config)
  {
    var st, n := s.status, |s.status|;
    var last, init := st[n - 1], st[..n - 1];
    assert last.PurgeAccepted? ==> HasServerAccount(init);
    if last.PurgeAccepted? {
      var before := init[..|init| - 1];
      assert before == st[..n - 2] && init[|init| - 1] == st[n - 2];
      assert IsEffectual(st) == IsEffectual(init) && LatestConfig(st) == LatestConfig(init);
    } else if last.Configured? {
      assert !IsEffectual(st);
    } else {
      assert HasServerAccount(st);
    }
  }

  /** A message that confirms an older configuration does not confirm the present one. */
  lemma StaleConfirmationsFail(s: State, i: nat, m: UpdateMsg)
    requires StatusFits(s) && s.account.Some? && i < |s.status| && s.status[i].Configured?
    requires exists j :: i < j < |s.status| && s.status[j].Configured?
    requires ConfirmsEvent(m, Some(s.status[i]))
    ensures !ConfirmsConfig(m, s.account.value.config)
  {
    var j :| i < j < |s.status| && s.status[j].Configured?;
    LatestIsLast(s.status, j);
  }

  /** No configuration event is later than the latest one. */
  lemma {:induction false} LatestIsLast(st: seq<StatusEvent>, j: nat)
    requires StampsGrow(st) && j < |st| && st[j].Configured?
    ensures LatestConfig(st).Some? && LatestConfig(st).value.Configured?
    ensures st[j].seqnum <= LatestConfig(st).value.seqnum
    decreases |st|
  {
    if j < |st| - 1 && !st[|st| - 1].Configured? {
      LatestIsLast(st[..|st| - 1], j);
    }
  }

  /** When the server echoes the last configuration message, the configuration becomes effectual. */
  lemma HandshakeCompletes(s: State, m: UpdateMsg)
    requires StatusFits(s) && s.account.Some?
    requires s.clock - m.ts <= m.ttl * SECOND && IsNewer(m, s.account.value)
    requires var c := s.account.value.config;
             ConfigureAccount(m.configTs, m.configSeqnum, m.negligible, m.configData, m.configFlags)
             == ConfigureAccount(c.ts, c.seqnum, c.negligible, c.data, c.flags)
    ensures var a := AccountUpdate(s, m).account.value; a.config.effectual && a.info.configError.None?
  {
    hide LedgerSpec.UpdateLedger;
  }

  // ---------- Preservation ----------

  /** The history gets one more event, or none. */
  lemma Extends(st: seq<StatusEvent>, e: StatusEvent)
    ensures (st + [e])[..|st|] == st && (st + [e])[|st|] == e
  {
  }

  lemma ConfiguringFits(s: State, deletion: bool, negligible: real, allowUnsafe: bool, data: string, updateId: int)
    requires StatusFits(s) && negligible >= 0.0
    ensures StatusFits(UpdateConfig(s, deletion, negligible, allowUnsafe, data, updateId).0)
  {
    var t := UpdateConfig(s, deletion, negligible, allowUnsafe, data, updateId).0;
    if t != s {
      var c := t.account.value.config;
      var e := Configured(c.ts, c.seqnum, c.negligible, c.flags, c.data);
      assert t.status == s.status + [e];
      Extends(s.status, e);
      forall i | 0 <= i < |t.status| && t.status[i].PurgeAccepted? ensures HasServerAccount(t.status[..i]) {
        assert t.status[..i] == s.status[..i];
      }
      assert t.signals[|t.signals| - 1] == ConfigureAccount(c.ts, c.seqnum, c.negligible, c.data, c.flags);
    }
  }

  lemma CreatingFits(s: State, order: seq<int>)
    requires StatusFits(s) && IsOrder(order)
    ensures StatusFits(CreateAccount(s, order).0)
  {
    var t := CreateAccount(s, order).0;
    if t != s {
      var e := Configured(s.clock, 0, DEFAULT_NEGLIGIBLE_AMOUNT, DEFAULT_CONFIG_FLAGS, "");
      Extends([], e);
      assert t.status == [] + [e];
      assert t.signals[|t.signals| - 1]
          == ConfigureAccount(s.clock, 0, DEFAULT_NEGLIGIBLE_AMOUNT, "", DEFAULT_CONFIG_FLAGS);
    }
  }

  /** A message about the server account, accepted. */
  lemma MessageFits(s: State, s': State, e: StatusEvent)
    requires StatusFits(s) && s.account.Some? && s'.account.Some? && s'.status == s.status + [e]
    requires !e.Configured? && (e.PurgeAccepted? ==> s.account.value.server.hasAccount)
    requires var c := s.account.value.config; var c' := s'.account.value.config;
             && c' == c.(effectual := c'.effectual, updateId := c'.updateId)
             && c'.effectual == (if e.UpdateAccepted? then ConfirmsConfig(e.msg, c) else c.effectual)
    requires s'.account.value.server.hasAccount == e.UpdateAccepted?
    requires s.signals <= s'.signals
    ensures StatusFits(s')
  {
    Extends(s.status, e);
    forall i | 0 <= i < |s'.status| && s'.status[i].PurgeAccepted? ensures HasServerAccount(s'.status[..i]) {
      assert s'.status[..i] == s.status[..i];
    }
  }

  /** Nothing that the history speaks of has changed. */
  lemma QuietStepFits(s: State, s': State)
    requires StatusFits(s)
    requires s'.account.Some? ==>
      && s.account.Some? && s'.status == s.status && s.signals <= s'.signals
      && s'.account.value.config == s.account.value.config
      && s'.account.value.server.hasAccount == s.account.value.server.hasAccount
    ensures StatusFits(s')
  {
  }

  lemma UpdatingFits(s: State, m: UpdateMsg)
    requires StatusFits(s)
    ensures StatusFits(AccountUpdate(s, m))
  {
    hide StatusFits, LedgerSpec.ResetOf, AccountModel.Confirms, Refreshed;
    var s' := AccountUpdate(s, m);
    if s.account.Some? && s'.status != s.status {
      RefreshEffect(s.(account := Some(Heard(s.account.value, m, s.clock))), m);
      MessageFits(s, s', UpdateAccepted(m));
    } else {
      if s.account.Some? {
        RefreshEffect(s.(account := Some(Heard(s.account.value, m, s.clock))), m);
      }
      QuietStepFits(s, s');
    }
  }

  lemma LifecycleKeepsStatus(p: Params, s: State, now: int, step: Step)
    requires ValidParams(p) && ValidStep(step) && IsLifecycle(step) && StatusFits(s)
    ensures StatusFits(Apply(p, s, now, step))
  {
    hide Apply, StatusFits, SystemSpec.Deletions, SystemSpec.LastIssues, SystemSpec.IsDisposable;
    LifecycleSteps(p, s, now, step);
    QuietStepFits(s, Apply(p, s, now, step));
  }

  lemma RequestsKeepStatus(p: Params, s: State, now: int, step: Step)
    requires ValidParams(p) && ValidStep(step) && IsRequest(step) && StatusFits(s)
    ensures StatusFits(Apply(p, s, now, step))
  {
    hide Apply, StatusFits, SystemSpec.UpdateConfig;
    var s1, s' := s.(clock := now), Apply(p, s, now, step);
    RequestSteps(p, s, now, step);
    QuietStepFits(s, s1);
    match step {
      case Reconfigure(d, n, u, data, id) => ConfiguringFits(s1, d, n, u, data, id);
      case Purge(date) =>
        if s'.status != s1.status { MessageFits(s1, s', PurgeAccepted); } else { QuietStepFits(s1, s'); }
      case _ => QuietStepFits(s1, s');
    }
  }

  lemma StepKeepsStatus(p: Params, server: Server, s: State, now: int, step: Step)
    requires ValidParams(p) && Allowed(server, step) && StatusFits(s)
    ensures StatusFits(Apply(p, s, now, step))
  {
    hide Apply, StatusFits;
    var s1, s' := s.(clock := now), Apply(p, s, now, step);
    QuietStepFits(s, s1);
    if IsLedgerStep(step) {
      hide AccountUpdate, CreateAccount, ProcessBurst, ProcessOnePass, ScanAccount;
      LedgerSteps(p, s, now, step);
      match step {
        case Update(m) => UpdatingFits(s1, m);
        case Create(order) => CreatingFits(s1, order);
        case ScanRow =>
          ScanEffect(p, s1);
          QuietStepFits(s1, s');
        case _ =>
          ProcessingEffect(p, s1);
          QuietStepFits(s1, s');
      }
    } else if IsLifecycle(step) {
      LifecycleKeepsStatus(p, s, now, step);
    } else if IsRequest(step) {
      RequestsKeepStatus(p, s, now, step);
    } else {
      hide ArriveTransfer;
      TransferStepsKeepHistory(p, s, now, step);
      QuietStepFits(s1, s');
    }
  }

  lemma TransferStepsKeepHistory(p: Params, s: State, now: int, step: Step)
    requires ValidParams(p) && ValidStep(step) && (step.Arrive? || step.Collect?)
    ensures var s' := Apply(p, s, now, step);
            s'.account == s.account && s'.status == s.status && s'.signals == s.signals
  {
    hide Apply, IsStored, Insert, SystemSpec.Remove;
    TransferSteps(p, s, now, step);
  }

  // ---------- Notices ----------

  /** The part of `AccountInfo` that has no tolerance. */
  datatype Visible = Visible(
    isSafeToDelete: bool, accountId: string, noteMaxBytes: int, debtor: DebtorInfo, rateChangeTs: int,
    configError: Option<string>)

  function VisibleInfo(a: Account): Visible {
    Visible(a.IsDeletionSafe(), a.info.accountId, a.info.noteMaxBytes, a.info.debtor, a.info.rateChangeTs,
            a.info.configError)
  }

  /** The object has a new update id, and a log entry tells so. */
  ghost predicate ToldAboutInfo(s: State, s': State)
    requires s.account.Some? && s'.account.Some?
  {
    var id := s'.account.value.info.updateId;
    && id > s.account.value.info.updateId
    && s.log <= s'.log && ObjectUpdated(InfoObj, id) in s'.log[|s.log|..]
  }

  lemma TouchingTells(s: State, s1: State, a: Account)
    requires s.account.Some? && s1.log[..] == s.log && a.info.updateId == s.account.value.info.updateId
    ensures ToldAboutInfo(s, TouchInfo(s1, a))
  {
    var s' := TouchInfo(s1, a);
    assert s'.log[|s.log|..] == [ObjectUpdated(InfoObj, a.info.updateId + 1)];
  }

  /** More log entries do not hide the notice. */
  lemma TellingLasts(s: State, s1: State, s': State)
    requires s.account.Some? && s1.account.Some? && s'.account.Some? && ToldAboutInfo(s, s1)
    requires s1.log <= s'.log && s'.account.value.info.updateId == s1.account.value.info.updateId
    ensures ToldAboutInfo(s, s')
  {
    var item := ObjectUpdated(InfoObj, s1.account.value.info.updateId);
    var k :| 0 <= k < |s1.log[|s.log|..]| && s1.log[|s.log|..][k] == item;
    assert s'.log[|s.log|..][k] == item;
  }

  lemma RefreshTellsAboutInfo(s: State, m: UpdateMsg)
    requires s.account.Some?
    ensures var s' := Refreshed(s, m);
            && s'.account.Some? && s.log <= s'.log
            && (VisibleInfo(s'.account.value) == VisibleInfo(s.account.value) || ToldAboutInfo(s, s'))
  {
    hide ToldAboutInfo, AccountModel.Confirms;
    var a := s.account.value;
    if IsInfoUpdated(a, m) {
      TouchingTells(s, s.(account := Some(Updated(a, m)), status := s.status + [UpdateAccepted(m)]), Updated(a, m));
    }
  }

  lemma UpdateTellsAboutInfo(s: State, m: UpdateMsg)
    requires s.account.Some?
    ensures var s' := AccountUpdate(s, m);
            && s'.account.Some?
            && (VisibleInfo(s'.account.value) == VisibleInfo(s.account.value) || ToldAboutInfo(s, s'))
  {
    hide ToldAboutInfo, Refreshed, LedgerSpec.ResetOf;
    var s0 := s.(account := Some(Heard(s.account.value, m, s.clock)));
    RefreshTellsAboutInfo(s0, m);
    HeardIsTheSame(s, s0, Refreshed(s0, m));
    if ToldAboutInfo(s, Refreshed(s0, m)) {
      var s1 := Refreshed(s0, m);
      TellingLasts(s, s1, ResetLedger(s1, s1.account.value, m.creationDate > s0.account.value.server.creationDate));
    }
  }

  lemma HeardIsTheSame(s: State, s0: State, s': State)
    requires s.account.Some? && s0.account.Some? && s'.account.Some? && s0.log == s.log
    requires s0.account.value.info == s.account.value.info
    ensures ToldAboutInfo(s0, s') ==> ToldAboutInfo(s, s')
  {
  }

  lemma ConfigurationTellsAboutInfo(
      s: State, deletion: bool, negligible: real, allowUnsafe: bool, data: string, updateId: int)
    requires s.account.Some?
    ensures var s' := UpdateConfig(s, deletion, negligible, allowUnsafe, data, updateId).0;
            && s'.account.Some?
            && (VisibleInfo(s'.account.value) == VisibleInfo(s.account.value) || ToldAboutInfo(s, s'))
  {
    var s' := UpdateConfig(s, deletion, negligible, allowUnsafe, data, updateId).0;
    if s' != s && s.account.value.IsDeletionSafe() {
      assert s'.log[|s.log|..]
          == [ObjectUpdated(ConfigObj, updateId), ObjectUpdated(InfoObj, s.account.value.info.updateId + 1)];
    }
  }

  lemma ScanTellsAboutInfo(p: Params, s: State)
    requires s.account.Some?
    ensures var s' := ScanAccount(p, s);
            && s'.account.Some?
            && (VisibleInfo(s'.account.value) == VisibleInfo(s.account.value) || ToldAboutInfo(s, s'))
  {
    var s1 := CorrectLedger(s);
    var s2 := ScheduleRepair(p, s1, s.account.value);
    assert s1.log[..] == s1.log;
    hide LedgerSpec.NeedsCorrection, LedgerSpec.NeedsRepair, LedgerSpec.CorrectingEntries;
    if HasConfigProblem(p, s2.account.value, s2.clock) {
      var id := s.account.value.info.updateId + 1;
      var s' := ScanAccount(p, s);
      assert s'.log == s2.log + [ObjectUpdated(InfoObj, id)];
      assert s'.log[|s.log|..][|s2.log| - |s.log|] == ObjectUpdated(InfoObj, id);
    }
  }

  /** Clients that cache `AccountInfo` are told about every change in it. */
  lemma NoSilentInfoChange(p: Params, server: Server, s: State, now: int, step: Step)
    requires ValidParams(p) && Allowed(server, step)
    requires s.account.Some? && Apply(p, s, now, step).account.Some?
    ensures var s' := Apply(p, s, now, step);
            VisibleInfo(s'.account.value) == VisibleInfo(s.account.value) || ToldAboutInfo(s, s')
  {
    var s1 := s.(clock := now);
    hide ToldAboutInfo, LedgerSpec.UpdateLedger, LedgerSpec.BurstWork, LedgerSpec.OnePassWork,
         SystemSpec.AccountUpdate, SystemSpec.UpdateConfig, SystemSpec.ScanAccount;
    ToldLater(s, s1, Apply(p, s, now, step));
    match step {
      case Update(m) => UpdateTellsAboutInfo(s1, m);
      case Reconfigure(d, n, u, data, id) => ConfigurationTellsAboutInfo(s1, d, n, u, data, id);
      case ScanRow => ScanTellsAboutInfo(p, s1);
      case Purge(date) =>
        var a := s.account.value;
        TouchingTells(s, s1.(status := s.status + [PurgeAccepted]), a.(server := a.server.(hasAccount := false, principal := 0)));
      case Reject(m) =>
        var a := s.account.value;
        TouchingTells(s, s1, a.(info := a.info.(configError := Some(m.code))));
      case _ =>
    }
  }

  lemma ToldLater(s: State, s1: State, s': State)
    requires s.account.Some? && s1 == s.(clock := s1.clock) && s'.account.Some?
    ensures ToldAboutInfo(s1, s') ==> ToldAboutInfo(s, s')
  {
  }
}
