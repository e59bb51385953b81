/**
 * The usage counters of one active creditor, and the requests that create and delete accounts. Any
 * number of requests is served at once, and each of them may crash between any two of its steps.
 */
module Usage {
  import opened Options

  const MIN_INT16 := -32768
  const MAX_INT16 := 32767

  /** A row of `usage_stats`; hours are counted from the epoch. */
  datatype UsageStats = UsageStats(accountsCount: int, reconfigsCount: int, reconfigsResetAt: int)

  datatype Config = Config(maxAccounts: int, maxReconfigs: int, clearHours: int)

  // ---------- The stored procedures, as functions on the row ----------

  /** The columns' defaults stand in for a missing row. */
  function RowOrDefault(row: Option<UsageStats>): UsageStats {
    if row.Some? then row.value else UsageStats(0, 0, 0)
  }

  function CountOf(row: Option<UsageStats>): int { RowOrDefault(row).accountsCount }

  function Increment(row: Option<UsageStats>): Option<UsageStats> {
    var u := RowOrDefault(row);
    Some(u.(accountsCount := Min(u.accountsCount + 1, MAX_INT16)))
  }

  function Decrement(row: Option<UsageStats>): Option<UsageStats> {
    var u := RowOrDefault(row);
    Some(u.(accountsCount := Max(u.accountsCount - 1, MIN_INT16)))
  }

  function RegisterReconfig(row: Option<UsageStats>, hour: int, clearHours: int): Option<UsageStats> {
    match row
    case None => Some(UsageStats(0, 1, hour + clearHours))
    case Some(u) =>
      if hour < u.reconfigsResetAt then Some(u.(reconfigsCount := Min(u.reconfigsCount + 1, MAX_INT16)))
      else Some(u.(reconfigsCount := 1, reconfigsResetAt := hour + clearHours))
  }

  function RegisterCreation(row: Option<UsageStats>, hour: int, clearHours: int): Option<UsageStats> {
    match row
    case None => Some(UsageStats(1, 1, hour + clearHours))
    case Some(_) => RegisterReconfig(Increment(row), hour, clearHours)
  }

  /** The reconfigurations made since the counter was last cleared. */
  function RecentReconfigs(row: Option<UsageStats>, hour: int): int {
    var u := RowOrDefault(row);
    if hour < u.reconfigsResetAt then u.reconfigsCount else 0
  }

  function IsCreationAllowed(row: Option<UsageStats>, c: Config, hour: int): bool {
    match row
    case None => c.maxAccounts > 0 && c.maxReconfigs > 0
    case Some(u) =>
      && !(u.accountsCount >= c.maxAccounts || RecentReconfigs(row, hour) >= c.maxReconfigs)
      && c.maxAccounts > 0 && c.maxReconfigs > 0
  }

  // ---------- Requests ----------

  /** How far a request has come; the comments name the next step. */
  datatype Phase =
    | Asked      // is the creation allowed
    | Admitted   // create the account
    | Created    // register the creation
    | ToDelete   // decrement the counter
    | Announced  // delete the account
    | Failed     // increment the counter again
    | Finished

  /** `missed`: the call that is going on has found no row to update, and is about to insert one. */
  datatype Request = Request(debtorId: int, phase: Phase, missed: bool)

  datatype Tables = Tables(row: Option<UsageStats>, accounts: set<int>)

  function Arriving(debtorId: int, deletes: bool): Request {
    Request(debtorId, if deletes then ToDelete else Asked, false)
  }

  /** What the call of a phase makes of the row. */
  function Written(row: Option<UsageStats>, phase: Phase, c: Config, hour: int): Option<UsageStats> {
    match phase
    case Created => RegisterCreation(row, hour, c.clearHours)
    case ToDelete => Decrement(row)
    case Failed => Increment(row)
    case _ => row
  }

  /** Another transaction has inserted the row meanwhile: the insertion fails, and the update is lost. */
  predicate IsLost(row: Option<UsageStats>, r: Request) { r.missed && row.Some? }

  /**
   * One step of a request. `deletable` tells whether the account may be deleted, if it exists. A call
   * that finds the row is one step, and a call that has to insert it takes two.
   */
  function Advance(t: Tables, r: Request, c: Config, deletable: bool, hour: int): (Tables, Request) {
    match r.phase
    case Asked => (t, r.(phase := if IsCreationAllowed(t.row, c, hour) then Admitted else Finished))
    case Admitted =>
      if r.debtorId in t.accounts then (t, r.(phase := Finished))
      else (t.(accounts := t.accounts + {r.debtorId}), r.(phase := Created))
    case Announced =>
      if r.debtorId in t.accounts && deletable
      then (t.(accounts := t.accounts - {r.debtorId}), r.(phase := Finished))
      else (t, r.(phase := Failed))
    case Finished => (t, r)
    case _ =>
      if t.row.None? && !r.missed then (t, r.(missed := true))
      else
        (t.(row := if IsLost(t.row, r) then t.row else Written(t.row, r.phase, c, hour)),
         Request(r.debtorId, if r.phase == ToDelete then Announced else Finished, false))
  }

  /** How many steps a request may still take. */
  function Left(r: Request): nat {
    match r.phase
    case Asked => 4
    case Admitted => 3
    case ToDelete => if r.missed then 4 else 5
    case Announced => 3
    case Created | Failed => if r.missed then 1 else 2
    case Finished => 0
  }

  /** A request that is served alone, to the end. */
  function Serve(t: Tables, r: Request, c: Config, deletable: bool, hour: int): (res: (Tables, Request))
    ensures res.1.phase == Finished
    decreases Left(r)
  {
    if r.phase == Finished then (t, r)
    else
      var (t', r') := Advance(t, r, c, deletable, hour);
      Serve(t', r', c, deletable, hour)
  }

  /** A call that is served alone writes the row, found or not. */
  lemma ServedCall(t: Tables, r: Request, c: Config, deletable: bool, hour: int)
    requires r.phase in {Created, ToDelete, Failed} && !r.missed
    ensures var next := r.(phase := if r.phase == ToDelete then Announced else Finished);
            Serve(t, r, c, deletable, hour)
            == Serve(t.(row := Written(t.row, r.phase, c, hour)), next, c, deletable, hour)
  {
    var (t1, r1) := Advance(t, r, c, deletable, hour);
    if r1.missed {
      var (t2, r2) := Advance(t1, r1, c, deletable, hour);
      assert Serve(t1, r1, c, deletable, hour) == Serve(t2, r2, c, deletable, hour);
    }
  }

  class Service {
    var usageStats: Option<UsageStats>
    var accounts: set<int>
    const config: Config

    ghost function View(): Tables
      reads this
    {
      Tables(usageStats, accounts)
    }

    /**
     * `rival` is the row that another transaction has inserted meanwhile, if there was none: then the
     * insertion fails, and the update is lost.
     */
    method IncrementAccountNumber(rival: Option<UsageStats>)
      modifies this`usageStats
      ensures usageStats == if old(usageStats).None? && rival.Some? then rival else Increment(old(usageStats))
    {
      if usageStats.None? && rival.Some? {
        usageStats := rival;
      } else if usageStats.Some? {
        var u := usageStats.value;
        usageStats := Some(u.(accountsCount := if u.accountsCount + 1 < MAX_INT16 then u.accountsCount + 1 else MAX_INT16));
      } else {
        usageStats := Some(UsageStats(1, 0, 0));
      }
    }

    method DecrementAccountNumber(rival: Option<UsageStats>)
      modifies this`usageStats
      ensures usageStats == if old(usageStats).None? && rival.Some? then rival else Decrement(old(usageStats))
    {
      if usageStats.None? && rival.Some? {
        usageStats := rival;
      } else if usageStats.Some? {
        var u := usageStats.value;
        usageStats := Some(u.(accountsCount := if u.accountsCount - 1 > MIN_INT16 then u.accountsCount - 1 else MIN_INT16));
      } else {
        usageStats := Some(UsageStats(-1, 0, 0));
      }
    }

    method RegisterAccountCreation(hour: int, rival: Option<UsageStats>)
      modifies this`usageStats
      ensures usageStats == if old(usageStats).None? && rival.Some? then rival
                            else RegisterCreation(old(usageStats), hour, config.clearHours)
    {
      if usageStats.None? && rival.Some? {
        usageStats := rival;
      } else if usageStats.Some? {
        var u := usageStats.value;
        var isOpen := hour < u.reconfigsResetAt;
        usageStats := Some(UsageStats(
          Min(u.accountsCount + 1, MAX_INT16),
          if isOpen then Min(u.reconfigsCount + 1, MAX_INT16) else 1,
          if isOpen then u.reconfigsResetAt else hour + config.clearHours));
      } else {
        usageStats := Some(UsageStats(1, 1, hour + config.clearHours));
      }
    }

    /** The counter is raised after the account has been created. */
    method Post(debtorId: int, hour: int) returns (code: int)
      modifies this
      ensures View() == Serve(old(View()), Arriving(debtorId, false), config, true, hour).0
      ensures code == 201 <==> old(IsCreationAllowed(usageStats, config, hour)) && debtorId !in old(accounts)
    {
      if !IsCreationAllowed(usageStats, config, hour) {
        return 403;
      }
      ghost var admitted := Request(debtorId, Admitted, false);
      assert Serve(View(), Arriving(debtorId, false), config, true, hour) == Serve(View(), admitted, config, true, hour);
      if debtorId in accounts {
        assert Serve(View(), admitted, config, true, hour)
            == Serve(View(), admitted.(phase := Finished), config, true, hour);
        return 303;
      }
      accounts := accounts + {debtorId};
      ServedCall(View(), Request(debtorId, Created, false), config, true, hour);
      RegisterAccountCreation(hour, None);
      return 201;
    }

    /** The counter is lowered before the account is deleted, and raised again if it is not deleted. */
    method Delete(debtorId: int, deletable: bool, hour: int) returns (code: int)
      modifies this
      ensures View() == Serve(old(View()), Arriving(debtorId, true), config, deletable, hour).0
      ensures code == 403 <==> debtorId in old(accounts) && !deletable
    {
      var deleted := false;
      ServedCall(View(), Arriving(debtorId, true), config, deletable, hour);
      DecrementAccountNumber(None);
      if debtorId !in accounts {
        code := 204;
      } else if !deletable {
        code := 403;
      } else {
        accounts := accounts - {debtorId};
        deleted, code := true, 204;
      }
      if !deleted {
        ServedCall(View(), Request(debtorId, Failed, false), config, deletable, hour);
        IncrementAccountNumber(None);
      }
    }
  }

  // ---------- Interleaved requests ----------

  /** `lost` counts the decrements that got lost. */
  datatype State = State(tables: Tables, requests: seq<Request>, lost: nat)

  datatype Step =
    | Arrives(debtorId: int, deletes: bool)
    | Advances(i: nat, deletable: bool, hour: int)
    | Crashes(i: nat)
    | Reconfigures(hour: int)

  function Apply(s: State, c: Config, step: Step): State {
    match step
    case Arrives(debtorId, deletes) => s.(requests := s.requests + [Arriving(debtorId, deletes)])
    case Advances(i, deletable, hour) =>
      if i >= |s.requests| then s
      else
        var (t, r) := Advance(s.tables, s.requests[i], c, deletable, hour);
        State(t, s.requests[i := r], s.lost + Losses(s.tables, s.requests[i]))
    case Crashes(i) =>
      if i >= |s.requests| then s else s.(requests := s.requests[i := s.requests[i].(phase := Finished)])
    case Reconfigures(hour) => s.(tables := s.tables.(row := RegisterReconfig(s.tables.row, hour, c.clearHours)))
  }

  /** The decrements that get lost when the request makes its next step. */
  function Losses(t: Tables, r: Request): nat { if r.phase == ToDelete && IsLost(t.row, r) then 1 else 0 }

  /** The request is going to raise the counter, unless it crashes or deletes the account. */
  predicate Owes(r: Request) { r.phase in {Created, Announced, Failed} }

  predicate IsInFlight(r: Request) { r.phase != Finished }

  function Owed(requests: seq<Request>): nat {
    if requests == [] then 0 else (if Owes(requests[0]) then 1 else 0) + Owed(requests[1..])
  }

  /** The same, with those that are going to lose a decrement, if another transaction inserts the row. */
  predicate MayOwe(r: Request) { Owes(r) || (r.phase == ToDelete && r.missed) }

  function Due(requests: seq<Request>): nat {
    if requests == [] then 0 else (if MayOwe(requests[0]) then 1 else 0) + Due(requests[1..])
  }

  function InFlight(requests: seq<Request>): nat {
    if requests == [] then 0 else (if IsInFlight(requests[0]) then 1 else 0) + InFlight(requests[1..])
  }

  /** What is recorded, and what is still going to be recorded, is no more than what there is. */
  ghost predicate InFavour(s: State) {
    && MIN_INT16 <= CountOf(s.tables.row) <= MAX_INT16
    && RowOrDefault(s.tables.row).reconfigsCount >= 0
    && CountOf(s.tables.row) + Owed(s.requests) <= |s.tables.accounts| + s.lost
  }

  lemma {:induction false} UpdateCounts(requests: seq<Request>, i: nat, r: Request)
    requires i < |requests|
    ensures Owed(requests[i := r]) == Owed(requests) - (if Owes(requests[i]) then 1 else 0) + (if Owes(r) then 1 else 0)
    ensures Due(requests[i := r]) == Due(requests) - (if MayOwe(requests[i]) then 1 else 0) + (if MayOwe(r) then 1 else 0)
    ensures InFlight(requests[i := r])
         == InFlight(requests) - (if IsInFlight(requests[i]) then 1 else 0) + (if IsInFlight(r) then 1 else 0)
  {
    if i == 0 {
      assert requests[i := r][1..] == requests[1..];
    } else {
      UpdateCounts(requests[1..], i - 1, r);
      assert requests[i := r][1..] == requests[1..][i - 1 := r];
    }
  }

  lemma {:induction false} AppendCounts(requests: seq<Request>, r: Request)
    ensures Owed(requests + [r]) == Owed(requests) + (if Owes(r) then 1 else 0)
    ensures Due(requests + [r]) == Due(requests) + (if MayOwe(r) then 1 else 0)
  {
    if requests == [] {
      assert requests + [r] == [r];
    } else {
      AppendCounts(requests[1..], r);
      assert (requests + [r])[1..] == requests[1..] + [r];
    }
  }

  lemma {:induction false} OwedIsInFlight(requests: seq<Request>)
    ensures Owed(requests) <= Due(requests) <= InFlight(requests)
  {
    if requests != [] { OwedIsInFlight(requests[1..]); }
  }

  /** One step of a request: what it adds to the debt, it takes from the count, unless that is at its limit, or is lost. */
  lemma AdvanceOwes(t: Tables, r: Request, c: Config, deletable: bool, hour: int)
    requires MIN_INT16 <= CountOf(t.row) <= MAX_INT16 && RowOrDefault(t.row).reconfigsCount >= 0
    ensures var (t', r') := Advance(t, r, c, deletable, hour);
            && MIN_INT16 <= CountOf(t'.row) <= MAX_INT16 && RowOrDefault(t'.row).reconfigsCount >= 0
            && (IsInFlight(r') ==> IsInFlight(r))
            && (CountOf(t'.row) == MIN_INT16
                || CountOf(t'.row) + OwedBy(r') - |t'.accounts|
                   <= CountOf(t.row) + OwedBy(r) - |t.accounts| + Losses(t, r))
  {
    hide IsCreationAllowed, Written, CountOf, RowOrDefault;
    CallCounts(t.row, r.phase, c, hour);
    OneAccount(t.accounts, r.debtorId);
  }

  function OwedBy(r: Request): nat { if Owes(r) then 1 else 0 }

  lemma AdvanceStaysInFavour(s: State, c: Config, i: nat, deletable: bool, hour: int)
    requires InFavour(s) && InFlight(s.requests) <= -MIN_INT16 && i < |s.requests|
    ensures InFavour(Apply(s, c, Advances(i, deletable, hour)))
  {
    hide Owed, InFlight, Advance, Owes, IsInFlight, Losses, CountOf, RowOrDefault;
    var r := s.requests[i];
    var r' := Advance(s.tables, r, c, deletable, hour).1;
    AdvanceOwes(s.tables, r, c, deletable, hour);
    UpdateCounts(s.requests, i, r');
    OwedIsInFlight(s.requests[i := r']);
  }

  lemma StepStaysInFavour(s: State, c: Config, step: Step)
    requires InFavour(s) && InFlight(s.requests) <= -MIN_INT16
    ensures InFavour(Apply(s, c, step))
  {
    hide Owed, InFlight, Advance;
    match step {
      case Arrives(debtorId, deletes) => AppendCounts(s.requests, Arriving(debtorId, deletes));
      case Advances(i, deletable, hour) =>
        if i < |s.requests| { AdvanceStaysInFavour(s, c, i, deletable, hour); }
      case Crashes(i) =>
        if i < |s.requests| { UpdateCounts(s.requests, i, s.requests[i].(phase := Finished)); }
      case Reconfigures(_) =>
    }
  }

  function Run(s: State, c: Config, steps: seq<Step>): State
    decreases |steps|
  {
    if steps == [] then s else Run(Apply(s, c, steps[0]), c, steps[1..])
  }

  /** At no moment are there too many requests in flight. */
  ghost predicate NeverTooMany(s: State, c: Config, steps: seq<Step>)
    decreases |steps|
  {
    && InFlight(s.requests) <= -MIN_INT16
    && (steps == [] || NeverTooMany(Apply(s, c, steps[0]), c, steps[1..]))
  }

  lemma {:induction false} RunStaysInFavour(s: State, c: Config, steps: seq<Step>)
    requires InFavour(s) && NeverTooMany(s, c, steps)
    ensures InFavour(Run(s, c, steps))
    decreases |steps|
  {
    if steps != [] {
      StepStaysInFavour(s, c, steps[0]);
      RunStaysInFavour(Apply(s, c, steps[0]), c, steps[1..]);
    }
  }

  // ---------- With the row, no decrement gets lost ----------

  /** There is a row, and no call has missed it. */
  ghost predicate IsSettled(s: State) {
    s.tables.row.Some? && forall r :: r in s.requests ==> !r.missed
  }

  lemma StepStaysSettled(s: State, c: Config, step: Step)
    requires IsSettled(s)
    ensures var s' := Apply(s, c, step); IsSettled(s') && s'.lost == s.lost
  {
    var s' := Apply(s, c, step);
    forall r | r in s'.requests ensures !r.missed {
      var k :| 0 <= k < |s'.requests| && s'.requests[k] == r;
      assert k < |s.requests| ==> s.requests[k] in s.requests;
    }
  }

  /** Once there is a row that nobody has missed, no further decrement gets lost. */
  lemma {:induction false} SettledLosesNothing(s: State, c: Config, steps: seq<Step>)
    requires IsSettled(s)
    ensures var s' := Run(s, c, steps); IsSettled(s') && s'.lost == s.lost
    decreases |steps|
  {
    if steps != [] {
      StepStaysSettled(s, c, steps[0]);
      SettledLosesNothing(Apply(s, c, steps[0]), c, steps[1..]);
    }
  }

  /** No request is being served. */
  function Quiet(t: Tables): State { State(t, [], 0) }

  ghost predicate ColumnsFit(t: Tables) {
    MIN_INT16 <= CountOf(t.row) <= MAX_INT16 && RowOrDefault(t.row).reconfigsCount >= 0
  }

  predicate Favours(t: Tables) { CountOf(t.row) <= |t.accounts| }

  /**
   * However the requests interleave and wherever they crash, the recorded number of accounts is at
   * most the real one, plus the decrements that got lost, and none gets lost if there has been a row
   * from the beginning; so then a creation is refused only to a creditor who has too many accounts,
   * or has made too many reconfigurations.
   */
  lemma CountersFavourTheUser(c: Config, t: Tables, steps: seq<Step>, hour: int)
    requires ColumnsFit(t) && Favours(t) && NeverTooMany(Quiet(t), c, steps)
    ensures var s := Run(Quiet(t), c, steps);
            && CountOf(s.tables.row) <= |s.tables.accounts| + s.lost
            && (t.row.Some? ==> s.lost == 0)
            && (!IsCreationAllowed(s.tables.row, c, hour) ==>
                  |s.tables.accounts| + s.lost >= c.maxAccounts || RecentReconfigs(s.tables.row, hour) >= c.maxReconfigs)
  {
    RunStaysInFavour(Quiet(t), c, steps);
    if t.row.Some? {
      SettledLosesNothing(Quiet(t), c, steps);
    }
  }

  // ---------- Without the row ----------

  /**
   * There is a row, which can bear all the losses that may still come; or there is none, but there
   * are at least as many accounts as there can be requests in flight.
   */
  ghost predicate IsSafe(s: State) {
    && ColumnsFit(s.tables)
    && if s.tables.row.Some? then CountOf(s.tables.row) + Due(s.requests) <= |s.tables.accounts|
       else |s.tables.accounts| >= -MIN_INT16 && forall r :: r in s.requests ==> r.phase !in {Announced, Failed}
  }

  function DueOf(r: Request): nat { if MayOwe(r) then 1 else 0 }

  /** One step of a request: what it adds to the debt, it takes from the count, unless that is at its limit. */
  lemma AdvanceBalances(t: Tables, r: Request, c: Config, deletable: bool, hour: int)
    requires ColumnsFit(t)
    ensures var (t', r') := Advance(t, r, c, deletable, hour);
            && ColumnsFit(t') && (IsInFlight(r') ==> IsInFlight(r))
            && (t.row.Some? ==>
                  && t'.row.Some?
                  && (CountOf(t'.row) == MIN_INT16
                      || CountOf(t'.row) + DueOf(r') - |t'.accounts| <= CountOf(t.row) + DueOf(r) - |t.accounts|))
  {
    hide IsCreationAllowed, Written, CountOf, RowOrDefault;
    CallCounts(t.row, r.phase, c, hour);
    OneAccount(t.accounts, r.debtorId);
  }

  /** What a call makes of the columns. */
  lemma CallCounts(row: Option<UsageStats>, phase: Phase, c: Config, hour: int)
    requires MIN_INT16 <= CountOf(row) <= MAX_INT16 && RowOrDefault(row).reconfigsCount >= 0
    ensures var row' := Written(row, phase, c, hour);
            && MIN_INT16 <= CountOf(row') <= MAX_INT16 && RowOrDefault(row').reconfigsCount >= 0
            && (row.Some? || phase in {Created, ToDelete, Failed} ==> row'.Some?)
            && (phase in {Created, Failed} ==> CountOf(row') <= CountOf(row) + 1)
            && (phase == ToDelete ==> CountOf(row') == MIN_INT16 || CountOf(row') == CountOf(row) - 1)
            && (phase !in {Created, ToDelete, Failed} ==> row' == row)
  {
  }

  lemma OneAccount(accounts: set<int>, debtorId: int)
    ensures debtorId !in accounts ==> |accounts + {debtorId}| == |accounts| + 1
    ensures debtorId in accounts ==> |accounts - {debtorId}| == |accounts| - 1
  {
  }

  /** As long as there is no row, nothing is deleted. */
  lemma AdvanceWithoutRow(t: Tables, r: Request, c: Config, deletable: bool, hour: int)
    requires t.row.None? && r.phase !in {Announced, Failed}
    ensures var (t', r') := Advance(t, r, c, deletable, hour);
            && |t'.accounts| >= |t.accounts|
            && (if t'.row.None? then r'.phase !in {Announced, Failed}
                else CountOf(t'.row) <= 0 || (CountOf(t'.row) == 1 && IsInFlight(r) && !IsInFlight(r')))
  {
  }

  lemma AdvanceStaysSafe(s: State, c: Config, i: nat, deletable: bool, hour: int)
    requires IsSafe(s) && InFlight(s.requests) <= -MIN_INT16 && i < |s.requests|
    ensures IsSafe(Apply(s, c, Advances(i, deletable, hour)))
  {
    hide Owed, Due, InFlight, Advance, ColumnsFit, MayOwe, Owes, IsInFlight, Losses;
    var r := s.requests[i];
    var (t', r') := Advance(s.tables, r, c, deletable, hour);
    assert r in s.requests;
    AdvanceBalances(s.tables, r, c, deletable, hour);
    UpdateCounts(s.requests, i, r');
    OwedIsInFlight(s.requests[i := r']);
    FitsMeans(t');
    forall x | x in s.requests[i := r'] ensures x == r' || x in s.requests {
    }
    if s.tables.row.None? {
      AdvanceWithoutRow(s.tables, r, c, deletable, hour);
    }
  }

  lemma FitsMeans(t: Tables)
    requires ColumnsFit(t)
    ensures MIN_INT16 <= CountOf(t.row) <= MAX_INT16
  {
  }

  lemma StepStaysSafe(s: State, c: Config, step: Step)
    requires IsSafe(s) && InFlight(s.requests) <= -MIN_INT16
    ensures IsSafe(Apply(s, c, step))
  {
    hide Owed, Due, InFlight, Advance;
    OwedIsInFlight(s.requests);
    match step {
      case Arrives(debtorId, deletes) => AppendCounts(s.requests, Arriving(debtorId, deletes));
      case Advances(i, deletable, hour) =>
        if i < |s.requests| { AdvanceStaysSafe(s, c, i, deletable, hour); }
      case Crashes(i) =>
        if i < |s.requests| {
          var r := s.requests[i].(phase := Finished);
          UpdateCounts(s.requests, i, r);
          forall x | x in s.requests[i := r] ensures x == r || x in s.requests {
          }
        }
      case Reconfigures(_) =>
    }
  }

  lemma {:induction false} RunStaysSafe(s: State, c: Config, steps: seq<Step>)
    requires IsSafe(s) && NeverTooMany(s, c, steps)
    ensures IsSafe(Run(s, c, steps))
    decreases |steps|
  {
    if steps != [] {
      StepStaysSafe(s, c, steps[0]);
      RunStaysSafe(Apply(s, c, steps[0]), c, steps[1..]);
    }
  }

  lemma SafeFavours(s: State)
    requires IsSafe(s)
    ensures Favours(s.tables)
  {
  }

  /**
   * The recorded number of accounts can never exceed the real one exactly if there is a row in the
   * beginning, or if there are at least as many accounts as there can be requests in flight.
   */
  lemma FavouredExactlyWithRow(c: Config, t: Tables)
    requires ColumnsFit(t) && Favours(t)
    ensures (forall steps :: NeverTooMany(Quiet(t), c, steps) ==> Favours(Run(Quiet(t), c, steps).tables))
       <==> t.row.Some? || |t.accounts| >= -MIN_INT16
  {
    hide Run, NeverTooMany;
    if t.row.Some? || |t.accounts| >= -MIN_INT16 {
      forall steps | NeverTooMany(Quiet(t), c, steps) ensures Favours(Run(Quiet(t), c, steps).tables) {
        RunStaysSafe(Quiet(t), c, steps);
        SafeFavours(Run(Quiet(t), c, steps));
      }
    } else {
      var k, d0 := |t.accounts| + 1, 0;
      if d :| d in t.accounts {
        d0 := d;
      } else {
        assert forall d :: d !in t.accounts;
        assert t.accounts == {};
      }
      LostDecrementsShow(c, t, d0, k);
      FewAreNeverTooMany(Quiet(t), c, Rush(d0, k));
    }
  }

  // ---------- Deletions in step ----------

  function Arrivals(d: int, k: nat): seq<Step> {
    if k == 0 then [] else Arrivals(d, k - 1) + [Arrives(d, true)]
  }

  /** The requests from the j-th on make one step each; no account may be deleted. */
  function Sweep(j: nat, k: nat): seq<Step>
    requires j <= k
    decreases k - j
  {
    if j == k then [] else [Advances(j, false, 0)] + Sweep(j + 1, k)
  }

  /** Requests to delete an account that may not be deleted: all of them wait for each other at each step. */
  function Stampede(k: nat): seq<Step> {
    Arrivals(0, k) + Sweep(0, k) + Sweep(0, k) + Sweep(0, k)
  }

  /**
   * Requests to delete one account, which all miss the row before a reconfiguration inserts it. The
   * first one may delete the account.
   */
  function Rush(d: int, k: nat): seq<Step>
    requires k >= 1
  {
    Arrivals(d, k) + Sweep(0, k) + [Reconfigures(0)] + Sweep(0, k) + [Advances(0, true, 0)] + Sweep(1, k)
    + [Advances(0, true, 0)] + Sweep(1, k)
  }

  function Many(k: nat, r: Request): seq<Request> { seq(k, _ => r) }

  function Asking(d: int): Request { Request(d, ToDelete, false) }

  lemma {:induction false} RunTwice(s: State, c: Config, xs: seq<Step>, ys: seq<Step>)
    ensures Run(s, c, xs + ys) == Run(Run(s, c, xs), c, ys)
    decreases |xs|
  {
    if xs == [] {
      assert xs + ys == ys;
    } else {
      assert (xs + ys)[1..] == xs[1..] + ys;
      RunTwice(Apply(s, c, xs[0]), c, xs[1..], ys);
    }
  }

  lemma RunMore(s: State, c: Config, steps: seq<Step>, step: Step)
    ensures Run(s, c, steps + [step]) == Apply(Run(s, c, steps), c, step)
  {
    RunTwice(s, c, steps, [step]);
    assert [step][1..] == [];
  }

  lemma {:induction false} AllArrive(t: Tables, c: Config, d: int, k: nat)
    ensures Run(Quiet(t), c, Arrivals(d, k)) == State(t, Many(k, Asking(d)), 0)
  {
    if k > 0 {
      AllArrive(t, c, d, k - 1);
      RunMore(Quiet(t), c, Arrivals(d, k - 1), Arrives(d, true));
      assert Many(k, Asking(d)) == Many(k - 1, Asking(d)) + [Asking(d)];
    } else {
      assert Many(0, Asking(d)) == [];
    }
  }

  /** The tables after `n` requests have made the same step, and the decrements that got lost. */
  function After(t: Tables, r: Request, c: Config, n: nat): Tables
    decreases n
  {
    if n == 0 then t else After(Advance(t, r, c, false, 0).0, r, c, n - 1)
  }

  function LostAfter(t: Tables, r: Request, c: Config, n: nat): nat
    decreases n
  {
    if n == 0 then 0 else Losses(t, r) + LostAfter(Advance(t, r, c, false, 0).0, r, c, n - 1)
  }

  /** All requests of a deletion come to the same next phase; those before them stay as they are. */
  lemma {:induction false} AllAdvance(t: Tables, c: Config, before: seq<Request>, k: nat, r: Request, next: Request, lost: nat)
    requires r.phase in {ToDelete, Announced, Failed} && next == Advance(t, r, c, false, 0).1
    ensures Run(State(t, before + Many(k, r), lost), c, Sweep(|before|, |before| + k))
         == State(After(t, r, c, k), before + Many(k, next), lost + LostAfter(t, r, c, k))
    decreases k
  {
    if k > 0 {
      var i, n := |before|, |before| + k;
      var s := State(t, before + Many(k, r), lost);
      var s' := Apply(s, c, Advances(i, false, 0));
      assert s'.requests == (before + [next]) + Many(k - 1, r);
      assert Sweep(i, n)[0] == Advances(i, false, 0) && Sweep(i, n)[1..] == Sweep(i + 1, n);
      AllAdvance(s'.tables, c, before + [next], k - 1, r, next, s'.lost);
      assert before + Many(k, next) == (before + [next]) + Many(k - 1, next);
    } else {
      assert Many(0, r) == Many(0, next);
    }
  }

  lemma SweepAll(t: Tables, c: Config, k: nat, r: Request, lost: nat)
    requires r.phase in {ToDelete, Announced, Failed}
    ensures Run(State(t, Many(k, r), lost), c, Sweep(0, k))
         == State(After(t, r, c, k), Many(k, Advance(t, r, c, false, 0).1), lost + LostAfter(t, r, c, k))
  {
    var next := Advance(t, r, c, false, 0).1;
    AllAdvance(t, c, [], k, r, next, lost);
    assert [] + Many(k, r) == Many(k, r) && [] + Many(k, next) == Many(k, next);
  }

  lemma {:induction false} AfterNothing(t: Tables, r: Request, c: Config, n: nat)
    requires Advance(t, r, c, false, 0).0 == t
    ensures After(t, r, c, n) == t && LostAfter(t, r, c, n) == n * Losses(t, r)
    decreases n
  {
    if n > 0 { AfterNothing(t, r, c, n - 1); }
  }

  lemma {:induction false} AfterDecrements(t: Tables, d: int, c: Config, n: nat)
    requires t.row.Some? && MIN_INT16 <= CountOf(t.row)
    ensures var t' := After(t, Asking(d), c, n);
            t'.row.Some? && t'.accounts == t.accounts && CountOf(t'.row) == Max(CountOf(t.row) - n, MIN_INT16)
    ensures LostAfter(t, Asking(d), c, n) == 0
    decreases n
  {
    if n > 0 { AfterDecrements(Advance(t, Asking(d), c, false, 0).0, d, c, n - 1); }
  }

  lemma {:induction false} AfterIncrements(t: Tables, d: int, c: Config, n: nat)
    requires t.row.Some? && CountOf(t.row) <= MAX_INT16
    ensures var r := Request(d, Failed, false); var t' := After(t, r, c, n);
            && t'.row.Some? && t'.accounts == t.accounts && CountOf(t'.row) == Min(CountOf(t.row) + n, MAX_INT16)
            && LostAfter(t, r, c, n) == 0
    decreases n
  {
    if n > 0 { AfterIncrements(Advance(t, Request(d, Failed, false), c, false, 0).0, d, c, n - 1); }
  }

  /** All requests have missed the row, which then is inserted: all their decrements are lost. */
  lemma AllAreLost(c: Config, t: Tables, d: int, k: nat)
    requires t.row.None?
    ensures Run(Quiet(t), c, Arrivals(d, k) + Sweep(0, k) + [Reconfigures(0)] + Sweep(0, k))
         == State(t.(row := Some(UsageStats(0, 1, c.clearHours))), Many(k, Request(d, Announced, false)), k)
  {
    hide Run, Sweep, Arrivals, Many;
    var missed := Request(d, ToDelete, true);
    var t1 := t.(row := Some(UsageStats(0, 1, c.clearHours)));
    RunTwice(Quiet(t), c, Arrivals(d, k) + Sweep(0, k) + [Reconfigures(0)], Sweep(0, k));
    RunMore(Quiet(t), c, Arrivals(d, k) + Sweep(0, k), Reconfigures(0));
    RunTwice(Quiet(t), c, Arrivals(d, k), Sweep(0, k));
    AllArrive(t, c, d, k);
    AfterNothing(t, Asking(d), c, k);
    SweepAll(t, c, k, Asking(d), 0);
    AfterNothing(t1, missed, c, k);
    SweepAll(t1, c, k, missed, 0);
  }

  /**
   * `k` requests to delete one account lose their decrements. The account is deleted once if it
   * exists, and the other requests raise the counter that they have not lowered.
   */
  lemma LostDecrementsShow(c: Config, t: Tables, d: int, k: nat)
    requires t.row.None? && k >= 1
    ensures var s := Run(Quiet(t), c, Rush(d, k));
            && s.lost == k && |s.requests| == k && s.tables.accounts == t.accounts - {d}
            && CountOf(s.tables.row) == Min(if d in t.accounts then k - 1 else k, MAX_INT16)
  {
    hide Run, Sweep, Arrivals, After, LostAfter;
    var announced, failed, finished := Request(d, Announced, false), Request(d, Failed, false), Request(d, Finished, false);
    var x2 := Arrivals(d, k) + Sweep(0, k) + [Reconfigures(0)] + Sweep(0, k);
    var x3 := x2 + [Advances(0, true, 0)];
    var x4 := x3 + Sweep(1, k);
    var x5 := x4 + [Advances(0, true, 0)];
    AllAreLost(c, t, d, k);
    RunMore(Quiet(t), c, x2, Advances(0, true, 0));
    var s3 := Run(Quiet(t), c, x3);
    var first := if d in t.accounts then finished else failed;
    assert s3.requests == [first] + Many(k - 1, announced);
    RunTwice(Quiet(t), c, x3, Sweep(1, k));
    AfterNothing(s3.tables, announced, c, k - 1);
    AllAdvance(s3.tables, c, [first], k - 1, announced, failed, k);
    RunMore(Quiet(t), c, x4, Advances(0, true, 0));
    var s5 := Run(Quiet(t), c, x5);
    assert s5.requests == [finished] + Many(k - 1, failed);
    RunTwice(Quiet(t), c, x5, Sweep(1, k));
    AfterIncrements(s5.tables, d, c, k - 1);
    AllAdvance(s5.tables, c, [finished], k - 1, failed, finished, k);
    assert Rush(d, k) == x5 + Sweep(1, k);
  }

  /**
   * When there is a row, and `k` requests lower its counter before any of them fails and raises it
   * again, a counter that was right ends up above the real number exactly if it has hit its lower
   * limit, and the real number is below its upper limit.
   */
  lemma LimitIsExact(c: Config, t: Tables, k: nat)
    requires ColumnsFit(t) && t.row.Some? && CountOf(t.row) == |t.accounts|
    ensures var s := Run(Quiet(t), c, Stampede(k));
            && s.lost == 0 && s.tables.accounts == t.accounts
            && (!Favours(s.tables) <==> k > |t.accounts| - MIN_INT16 && |t.accounts| < MAX_INT16)
  {
    hide Run, Sweep, Arrivals, Many;
    var sweep := Sweep(0, k);
    RunTwice(Quiet(t), c, Arrivals(0, k) + sweep + sweep, sweep);
    RunTwice(Quiet(t), c, Arrivals(0, k) + sweep, sweep);
    RunTwice(Quiet(t), c, Arrivals(0, k), sweep);
    AllArrive(t, c, 0, k);
    AfterDecrements(t, 0, c, k);
    SweepAll(t, c, k, Asking(0), 0);
    var t1 := After(t, Asking(0), c, k);
    RequestsStay(t1, c, k);
    AfterIncrements(t1, 0, c, k);
    SweepAll(t1, c, k, Request(0, Failed, false), 0);
  }

  /** None of them may delete the account. */
  lemma RequestsStay(t: Tables, c: Config, k: nat)
    ensures Run(State(t, Many(k, Request(0, Announced, false)), 0), c, Sweep(0, k))
         == State(t, Many(k, Request(0, Failed, false)), 0)
  {
    var r := Request(0, Announced, false);
    AfterNothing(t, r, c, k);
    SweepAll(t, c, k, r, 0);
  }

  // ---------- Few requests ----------

  lemma {:induction false} InFlightIsAtMost(requests: seq<Request>)
    ensures InFlight(requests) <= |requests|
  {
    if requests != [] { InFlightIsAtMost(requests[1..]); }
  }

  /** Requests are never forgotten, so the number at the end bounds those in flight at any moment. */
  lemma {:induction false} FewAreNeverTooMany(s: State, c: Config, steps: seq<Step>)
    requires |Run(s, c, steps).requests| <= -MIN_INT16
    ensures |s.requests| <= |Run(s, c, steps).requests| && NeverTooMany(s, c, steps)
    decreases |steps|
  {
    if steps != [] {
      FewAreNeverTooMany(Apply(s, c, steps[0]), c, steps[1..]);
    }
    InFlightIsAtMost(s.requests);
  }

  // ---------- The limits are enforced ----------

  /** A creation is admitted exactly if both counts are below limits that allow anything at all. */
  lemma AdmissionIsExact(row: Option<UsageStats>, c: Config, hour: int)
    ensures IsCreationAllowed(row, c, hour) <==>
              && c.maxAccounts > 0 && c.maxReconfigs > 0
              && (row.Some? ==>
                    && row.value.accountsCount < c.maxAccounts
                    && (hour < row.value.reconfigsResetAt ==> row.value.reconfigsCount < c.maxReconfigs))
  {
  }

  /** A creation or a deletion that is served alone. */
  datatype Visit = Visit(debtorId: int, deletes: bool, deletable: bool, hour: int)

  function ServeAll(t: Tables, c: Config, visits: seq<Visit>): Tables
    decreases |visits|
  {
    if visits == [] then t
    else
      var v := visits[0];
      ServeAll(Serve(t, Arriving(v.debtorId, v.deletes), c, v.deletable, v.hour).0, c, visits[1..])
  }

  /** The counter is right, and both limits are kept. */
  ghost predicate KeepsLimits(t: Tables, c: Config) {
    && CountOf(t.row) == |t.accounts| <= c.maxAccounts
    && 0 <= RowOrDefault(t.row).reconfigsCount <= c.maxReconfigs
  }

  lemma ServedCreation(t: Tables, c: Config, debtorId: int, deletable: bool, hour: int)
    ensures Serve(t, Arriving(debtorId, false), c, deletable, hour).0
         == if !IsCreationAllowed(t.row, c, hour) || debtorId in t.accounts then t
            else Tables(RegisterCreation(t.row, hour, c.clearHours), t.accounts + {debtorId})
  {
    var admitted, t1 := Request(debtorId, Admitted, false), t.(accounts := t.accounts + {debtorId});
    var done := admitted.(phase := Finished);
    assert Serve(t, done, c, deletable, hour).0 == t;
    if IsCreationAllowed(t.row, c, hour) {
      assert Serve(t, Arriving(debtorId, false), c, deletable, hour) == Serve(t, admitted, c, deletable, hour);
      if debtorId in t.accounts {
        assert Serve(t, admitted, c, deletable, hour) == Serve(t, done, c, deletable, hour);
      } else {
        ServedCall(t1, admitted.(phase := Created), c, deletable, hour);
      }
    } else {
      assert Serve(t, Arriving(debtorId, false), c, deletable, hour) == Serve(t, done, c, deletable, hour);
    }
  }

  lemma ServedDeletion(t: Tables, c: Config, debtorId: int, deletable: bool, hour: int)
    ensures Serve(t, Arriving(debtorId, true), c, deletable, hour).0
         == if debtorId in t.accounts && deletable then Tables(Decrement(t.row), t.accounts - {debtorId})
            else t.(row := Increment(Decrement(t.row)))
  {
    var announced, t1 := Request(debtorId, Announced, false), t.(row := Decrement(t.row));
    ServedCall(t, Arriving(debtorId, true), c, deletable, hour);
    if debtorId in t.accounts && deletable {
      assert Serve(t1, announced, c, deletable, hour)
          == Serve(t1.(accounts := t.accounts - {debtorId}), announced.(phase := Finished), c, deletable, hour);
    } else {
      assert Serve(t1, announced, c, deletable, hour) == Serve(t1, announced.(phase := Failed), c, deletable, hour);
      ServedCall(t1, announced.(phase := Failed), c, deletable, hour);
    }
  }

  lemma VisitKeepsLimits(t: Tables, c: Config, v: Visit)
    requires KeepsLimits(t, c) && c.maxAccounts <= MAX_INT16 && c.maxReconfigs <= MAX_INT16
    ensures KeepsLimits(Serve(t, Arriving(v.debtorId, v.deletes), c, v.deletable, v.hour).0, c)
  {
    hide Serve;
    if v.deletes {
      ServedDeletion(t, c, v.debtorId, v.deletable, v.hour);
    } else {
      ServedCreation(t, c, v.debtorId, v.deletable, v.hour);
      AdmissionIsExact(t.row, c, v.hour);
    }
  }

  /**
   * As long as each request is served alone, the counter stays right, and the creditor never has more
   * accounts than he may have, nor more reconfigurations counted than he may make.
   */
  lemma {:induction false} SerialRequestsKeepLimits(t: Tables, c: Config, visits: seq<Visit>)
    requires KeepsLimits(t, c) && c.maxAccounts <= MAX_INT16 && c.maxReconfigs <= MAX_INT16
    ensures KeepsLimits(ServeAll(t, c, visits), c)
    decreases |visits|
  {
    if visits != [] {
      var v := visits[0];
      VisitKeepsLimits(t, c, v);
      hide Serve, KeepsLimits;
      SerialRequestsKeepLimits(Serve(t, Arriving(v.debtorId, v.deletes), c, v.deletable, v.hour).0, c, visits[1..]);
    }
  }

  // ---------- The window of recent reconfigurations ----------

  /** After a first registration, `k` more within the window are all counted, up to the column's limit. */
  lemma {:induction false} WindowCounts(row: Option<UsageStats>, hours: seq<int>, start: int, clearHours: int)
    requires row.None? || start >= row.value.reconfigsResetAt
    requires forall h :: h in hours ==> start <= h < start + clearHours
    ensures RecentReconfigs(Registered(RegisterReconfig(row, start, clearHours), hours, clearHours), start)
            == if clearHours > 0 then Min(1 + |hours|, MAX_INT16) else 0
    ensures Registered(RegisterReconfig(row, start, clearHours), hours, clearHours).Some?
            && Registered(RegisterReconfig(row, start, clearHours), hours, clearHours).value.reconfigsResetAt == start + clearHours
    decreases |hours|
  {
    if hours != [] {
      assert hours[|hours| - 1] in hours;
      var before := hours[..|hours| - 1];
      assert forall h :: h in before ==> h in hours;
      WindowCounts(row, before, start, clearHours);
    }
  }

  function Registered(row: Option<UsageStats>, hours: seq<int>, clearHours: int): Option<UsageStats> {
    if hours == [] then row
    else RegisterReconfig(Registered(row, hours[..|hours| - 1], clearHours), hours[|hours| - 1], clearHours)
  }
}
