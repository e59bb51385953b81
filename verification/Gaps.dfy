/** Gaps between the ledger and the pending transfers, and between those themselves. */
module Gaps {
  import opened Options
  import opened AccountModel
  import opened LedgerSpec

  /** The i-th pending transfer does not follow the one before it, or the ledger's last one. */
  predicate IsGapAt(above: int, ts: seq<Transfer>, i: nat)
    requires i < |ts|
  {
    ts[i].prev != if i == 0 then above else ts[i - 1].number
  }

  /** There is still hope for the missing transfers. */
  predicate IsRecentGapAt(above: int, ts: seq<Transfer>, i: nat, cutoff: int)
    requires i < |ts|
  {
    IsGapAt(above, ts, i) && ts[i].committedAt >= cutoff
  }

  ghost predicate NoRecentGap(above: int, ts: seq<Transfer>, cutoff: int) {
    forall i :: 0 <= i < |ts| ==> !IsRecentGapAt(above, ts, i, cutoff)
  }

  /** A gap that is old, and has no recent gap before it: a pass skips it. */
  ghost predicate IsSkippedAt(above: int, ts: seq<Transfer>, i: nat, cutoff: int)
    requires i < |ts|
  {
    && IsGapAt(above, ts, i) && ts[i].committedAt < cutoff
    && forall j :: 0 <= j < i ==> !IsRecentGapAt(above, ts, j, cutoff)
  }

  ghost predicate NothingSkipped(above: int, ts: seq<Transfer>, cutoff: int) {
    forall i :: 0 <= i < |ts| ==> !IsSkippedAt(above, ts, i, cutoff)
  }

  /** The gaps of the rest, after a first transfer that does not have to wait. */
  lemma GapsOfRest(above: int, ts: seq<Transfer>, cutoff: int)
    requires ts != [] && !IsRecentGapAt(above, ts, 0, cutoff)
    ensures NoRecentGap(above, ts, cutoff) <==> NoRecentGap(ts[0].number, ts[1..], cutoff)
    ensures NothingSkipped(above, ts, cutoff) <==>
              !IsGapAt(above, ts, 0) && NothingSkipped(ts[0].number, ts[1..], cutoff)
  {
    var rest := ts[1..];
    forall i | 0 <= i < |rest|
      ensures IsGapAt(ts[0].number, rest, i) == IsGapAt(above, ts, i + 1) && rest[i] == ts[i + 1]
    {
    }
    assert forall i :: 0 <= i < |ts| && i > 0 ==> IsGapAt(above, ts, i) == IsGapAt(ts[0].number, rest, i - 1);
    RecentGapsOfRest(above, ts, cutoff);
    assert IsSkippedAt(above, ts, 0, cutoff) == IsGapAt(above, ts, 0);
    forall i | 0 <= i < |rest|
      ensures IsSkippedAt(ts[0].number, rest, i, cutoff) == IsSkippedAt(above, ts, i + 1, cutoff)
    {
      SkippedInRest(above, ts, i, cutoff);
    }
    assert forall i :: 0 < i < |ts| ==> IsSkippedAt(above, ts, i, cutoff) == IsSkippedAt(ts[0].number, rest, i - 1, cutoff);
  }

  lemma SkippedInRest(above: int, ts: seq<Transfer>, i: nat, cutoff: int)
    requires i + 1 < |ts| && !IsRecentGapAt(above, ts, 0, cutoff)
    ensures IsSkippedAt(ts[0].number, ts[1..], i, cutoff) == IsSkippedAt(above, ts, i + 1, cutoff)
  {
    var rest := ts[1..];
    assert forall j :: 0 <= j < i ==>
      IsRecentGapAt(ts[0].number, rest, j, cutoff) == IsRecentGapAt(above, ts, j + 1, cutoff);
    assert forall j :: 0 < j < i + 1 ==>
      IsRecentGapAt(above, ts, j, cutoff) == IsRecentGapAt(ts[0].number, rest, j - 1, cutoff);
  }

  lemma RecentGapsOfRest(above: int, ts: seq<Transfer>, cutoff: int)
    requires ts != [] && !IsRecentGapAt(above, ts, 0, cutoff)
    ensures NoRecentGap(above, ts, cutoff) <==> NoRecentGap(ts[0].number, ts[1..], cutoff)
  {
    var rest := ts[1..];
    forall i | 0 <= i < |rest|
      ensures IsRecentGapAt(ts[0].number, rest, i, cutoff) == IsRecentGapAt(above, ts, i + 1, cutoff)
    {
    }
    assert forall i :: 0 < i < |ts| ==> IsRecentGapAt(above, ts, i, cutoff) == IsRecentGapAt(ts[0].number, rest, i - 1, cutoff);
  }

  /** A pass is blocked exactly by a recent gap. */
  lemma {:induction false} PassBlocks(l: LedgerData, date: int, ts: seq<Transfer>, cutoff: int, now: int)
    ensures Pass(l, date, ts, cutoff, now).blockedAt.None? <==> NoRecentGap(l.lastTransferNumber, ts, cutoff)
    decreases |ts|
  {
    if ts != [] {
      assert MustWait(l, ts[0], cutoff) == IsRecentGapAt(l.lastTransferNumber, ts, 0, cutoff);
      if !MustWait(l, ts[0], cutoff) {
        var e := UpdateLedger(l, date, ts[0].number, ts[0].amount, ts[0].principal, now, false);
        UpdateLedgerKeeps(l, date, ts[0].number, ts[0].amount, ts[0].principal, now, false);
        RecentGapsOfRest(l.lastTransferNumber, ts, cutoff);
        hide LedgerSpec.UpdateLedger, NoRecentGap;
        PassBlocks(e.ledger, date, ts[1..], cutoff, now);
      }
    }
  }

  /** The first recent gap. */
  ghost predicate IsFirstRecentGap(above: int, ts: seq<Transfer>, i: nat, cutoff: int) {
    i < |ts| && IsRecentGapAt(above, ts, i, cutoff) && forall j :: 0 <= j < i ==> !IsRecentGapAt(above, ts, j, cutoff)
  }

  /** The last transfer of the ledger, and the principal after it. */
  predicate StandsAt(l: LedgerData, number: int, principal: int) {
    l.lastTransferNumber == number && l.principal == principal
  }

  /** A pass ends before the first recent gap, and remembers when the transfer after it was committed. */
  lemma {:induction false} PassWaitsFor(l: LedgerData, date: int, ts: seq<Transfer>, cutoff: int, now: int, i: nat)
    requires IsFirstRecentGap(l.lastTransferNumber, ts, i, cutoff)
    ensures var r := Pass(l, date, ts, cutoff, now);
            && r.blockedAt == Some(ts[i].committedAt)
            && StandsAt(r.ledger, if i == 0 then l.lastTransferNumber else ts[i - 1].number,
                        if i == 0 then l.principal else ts[i - 1].principal)
    decreases |ts|
  {
    if i > 0 {
      var above, rest := l.lastTransferNumber, ts[1..];
      assert !IsRecentGapAt(above, ts, 0, cutoff);
      var e := UpdateLedger(l, date, ts[0].number, ts[0].amount, ts[0].principal, now, false);
      UpdateLedgerKeeps(l, date, ts[0].number, ts[0].amount, ts[0].principal, now, false);
      forall j | 0 <= j < |rest|
        ensures IsRecentGapAt(ts[0].number, rest, j, cutoff) == IsRecentGapAt(above, ts, j + 1, cutoff)
      {
      }
      hide LedgerSpec.UpdateLedger;
      PassWaitsFor(e.ledger, date, rest, cutoff, now, i - 1);
    }
  }

  /**
   * The pending time in the row is the commit time of the transfer after the first recent gap among
   * those that a step has looked at, and is empty if there is none.
   */
  ghost predicate WaitsFor(l: LedgerData, above: int, ts: seq<Transfer>, cutoff: int) {
    && (NoRecentGap(above, ts, cutoff) ==> l.pendingTransferTs.None?)
    && (forall i: nat :: i < |ts| && IsFirstRecentGap(above, ts, i, cutoff) ==>
          l.pendingTransferTs == Some(ts[i].committedAt))
  }

  lemma WorkWaitsFor(a: Account, ts: seq<Transfer>, exhausted: bool, cutoff: int, now: int)
    ensures WaitsFor(WorkOn(a, ts, exhausted, cutoff, now).ledger, a.ledger.lastTransferNumber, ts, cutoff)
  {
    hide Pass, NoRecentGap, IsFirstRecentGap;
    var date := a.server.creationDate;
    var r := Pass(a.ledger, date, ts, cutoff, now);
    PassBlocks(a.ledger, date, ts, cutoff, now);
    var l1 := r.ledger.(pendingTransferTs := r.blockedAt);
    UpdateLedgerKeeps(l1, date, a.server.lastTransferNumber, 0, a.server.principal, now, false);
    forall i: nat | i < |ts| && IsFirstRecentGap(a.ledger.lastTransferNumber, ts, i, cutoff)
      ensures r.blockedAt == Some(ts[i].committedAt)
    {
      PassWaitsFor(a.ledger, date, ts, cutoff, now, i);
    }
  }

  /** Both forms of the processing step leave the right pending time, which decides about the repair. */
  lemma StepsWaitFor(a: Account, store: seq<Transfer>, burst: int, cutoff: int, now: int)
    requires burst >= 1
    ensures var above, ts := a.ledger.lastTransferNumber, Pending(store, a.server.creationDate, a.ledger.lastTransferNumber);
            && WaitsFor(OnePassWork(a, store, cutoff, now).ledger, above, ts, cutoff)
            && WaitsFor(BurstWork(a, store, burst, cutoff, now).ledger, above, if |ts| <= burst then ts else ts[..burst], cutoff)
  {
    hide Pass, Finish, Pending, NoRecentGap, IsFirstRecentGap;
    var ts := PendingOf(a, store);
    WorkWaitsFor(a, ts, true, cutoff, now);
    WorkWaitsFor(a, Take(ts, burst), |Take(ts, burst)| < burst, cutoff, now);
  }

  lemma {:induction false} PassGoesThrough(l: LedgerData, date: int, ts: seq<Transfer>, cutoff: int, now: int)
    requires NoRecentGap(l.lastTransferNumber, ts, cutoff)
    ensures StandsAt(Pass(l, date, ts, cutoff, now).ledger, if ts == [] then l.lastTransferNumber else ts[|ts| - 1].number,
                     if ts == [] then l.principal else ts[|ts| - 1].principal)
    decreases |ts|
  {
    if ts != [] {
      assert !IsRecentGapAt(l.lastTransferNumber, ts, 0, cutoff);
      var e := UpdateLedger(l, date, ts[0].number, ts[0].amount, ts[0].principal, now, false);
      UpdateLedgerKeeps(l, date, ts[0].number, ts[0].amount, ts[0].principal, now, false);
      RecentGapsOfRest(l.lastTransferNumber, ts, cutoff);
      hide LedgerSpec.UpdateLedger, NoRecentGap;
      PassGoesThrough(e.ledger, date, ts[1..], cutoff, now);
    }
  }

  /** The server has told of a later transfer, which is too old to hope for. */
  predicate IsAhead(a: Account, reach: int, cutoff: int) {
    a.server.lastTransferNumber > reach && a.server.lastTransferCommittedAt < cutoff
  }

  /**
   * Where the ledger stands after a step: before the first recent gap; or, without one, at the last
   * transfer that the step has looked at; or, when that was all and the server is ahead for long, where
   * the server is.
   */
  lemma WorkEnds(a: Account, ts: seq<Transfer>, exhausted: bool, cutoff: int, now: int)
    ensures var l, l', above := a.ledger, WorkOn(a, ts, exhausted, cutoff, now).ledger, a.ledger.lastTransferNumber;
            var reach := if ts == [] then above else ts[|ts| - 1].number;
            && (NoRecentGap(above, ts, cutoff) ==>
                  if exhausted && IsAhead(a, reach, cutoff) then
                    StandsAt(l', a.server.lastTransferNumber, a.server.principal)
                  else StandsAt(l', reach, if ts == [] then l.principal else ts[|ts| - 1].principal))
            && (forall i: nat :: i < |ts| && IsFirstRecentGap(above, ts, i, cutoff) ==>
                  StandsAt(l', if i == 0 then above else ts[i - 1].number, if i == 0 then l.principal else ts[i - 1].principal))
  {
    hide Pass, NoRecentGap, IsFirstRecentGap;
    var date, above := a.server.creationDate, a.ledger.lastTransferNumber;
    var r := Pass(a.ledger, date, ts, cutoff, now);
    PassBlocks(a.ledger, date, ts, cutoff, now);
    var l1 := r.ledger.(pendingTransferTs := r.blockedAt);
    UpdateLedgerKeeps(l1, date, a.server.lastTransferNumber, 0, a.server.principal, now, false);
    if NoRecentGap(above, ts, cutoff) {
      PassGoesThrough(a.ledger, date, ts, cutoff, now);
    }
    forall i: nat | i < |ts| && IsFirstRecentGap(above, ts, i, cutoff)
      ensures r.blockedAt.Some? && StandsAt(r.ledger, if i == 0 then above else ts[i - 1].number,
                                            if i == 0 then a.ledger.principal else ts[i - 1].principal)
    {
      PassWaitsFor(a.ledger, date, ts, cutoff, now, i);
    }
  }
}
