/**
 * The bursty Python procedure, called until it reports that it is done, against the one-pass
 * stored procedure.
 */
module Refinement {
  import opened Options
  import opened Int64
  import opened AccountModel
  import opened Gaps
  import opened LedgerSpec
  import opened SystemSpec

  // ---------- The table's order ----------

  ghost predicate Sorted(store: seq<Transfer>) {
    forall i, j :: 0 <= i < j < |store| ==> Precedes(store[i], store[j])
  }

  lemma {:induction false} PendingTwice(store: seq<Transfer>, date: int, low: int, high: int)
    requires low <= high
    ensures Pending(store, date, high) == Pending(Pending(store, date, low), date, high)
  {
    if store != [] {
      PendingTwice(store[1..], date, low, high);
      var rest := Pending(store[1..], date, low);
      if store[0].date == date && store[0].number > low {
        assert ([store[0]] + rest)[1..] == rest;
      }
    }
  }

  lemma {:induction false} PendingIsSorted(store: seq<Transfer>, date: int, above: int)
    requires Sorted(store)
    ensures Sorted(Pending(store, date, above))
  {
    if store != [] {
      PendingIsSorted(store[1..], date, above);
      PendingIsStored(store[1..], date, above);
    }
  }

  lemma {:induction false} NothingBelow(ts: seq<Transfer>, date: int, above: int)
    requires forall t :: t in ts ==> t.date == date && t.number > above
    ensures Pending(ts, date, above) == ts
  {
    if ts != [] {
      NothingBelow(ts[1..], date, above);
    }
  }

  lemma {:induction false} SuffixAbove(ts: seq<Transfer>, date: int, b: nat)
    requires Sorted(ts) && (forall t :: t in ts ==> t.date == date)
    requires 0 < b <= |ts|
    ensures Pending(ts, date, ts[b - 1].number) == ts[b..]
  {
    assert ts[0].number <= ts[b - 1].number by {
      if b > 1 { assert Precedes(ts[0], ts[b - 1]); }
    }
    if b == 1 {
      forall t | t in ts[1..] ensures t.number > ts[0].number {
        var k :| 0 <= k < |ts[1..]| && ts[1..][k] == t;
        assert Precedes(ts[0], ts[k + 1]);
      }
      NothingBelow(ts[1..], date, ts[0].number);
    } else {
      SuffixAbove(ts[1..], date, b - 1);
      assert ts[1..][b - 2] == ts[b - 1];
      assert ts[1..][b - 1..] == ts[b..];
    }
  }

  /** After the first `b` pending transfers, the others are pending. */
  lemma PendingAfter(store: seq<Transfer>, date: int, above: int, b: nat)
    requires Sorted(store)
    requires var ts := Pending(store, date, above); 0 < b <= |ts|
    ensures var ts := Pending(store, date, above); Pending(store, date, ts[b - 1].number) == ts[b..]
  {
    var ts := Pending(store, date, above);
    PendingIsSorted(store, date, above);
    PendingIsStored(store, date, above);
    assert ts[b - 1] in ts;
    PendingTwice(store, date, above, ts[b - 1].number);
    SuffixAbove(ts, date, b);
  }

  // ---------- Passes ----------

  /** A pass that is not blocked ends at the last transfer. */
  lemma {:induction false} PassEnd(l: LedgerData, date: int, ts: seq<Transfer>, cutoff: int, now: int)
    ensures var r := Pass(l, date, ts, cutoff, now);
            r.blockedAt.None? ==>
              r.ledger.lastTransferNumber == if ts == [] then l.lastTransferNumber else ts[|ts| - 1].number
    decreases |ts|
  {
    if ts != [] && !MustWait(l, ts[0], cutoff) {
      var e := UpdateLedger(l, date, ts[0].number, ts[0].amount, ts[0].principal, now, false);
      PassEnd(e.ledger, date, ts[1..], cutoff, now);
    }
  }

  lemma {:induction false} PassSplit(l: LedgerData, date: int, ts: seq<Transfer>, b: nat, cutoff: int, now: int)
    requires b <= |ts|
    ensures var r := Pass(l, date, ts[..b], cutoff, now);
            Pass(l, date, ts, cutoff, now) ==
            if r.blockedAt.Some? then r
            else Prepend(r.entries, r.log, Pass(r.ledger, date, ts[b..], cutoff, now))
    decreases b
  {
    if b == 0 {
      assert ts[0..] == ts;
    } else {
      assert ts[..b][0] == ts[0] && ts[..b][1..] == ts[1..][..b - 1] && ts[1..][b - 1..] == ts[b..];
      if !MustWait(l, ts[0], cutoff) {
        var e := UpdateLedger(l, date, ts[0].number, ts[0].amount, ts[0].principal, now, false);
        PassSplit(e.ledger, date, ts[1..], b - 1, cutoff, now);
        var r := Pass(e.ledger, date, ts[1..][..b - 1], cutoff, now);
        PrependTwice(e.entries, e.log, r.entries, r.log, Pass(r.ledger, date, ts[b..], cutoff, now));
      }
    }
  }

  /** The stored procedure starts with an empty pending time, the Python code with the old one. */
  lemma {:induction false} PassIgnoresPendingTs(
      l: LedgerData, date: int, ts: seq<Transfer>, cutoff: int, now: int, x: Option<int>)
    ensures var r := Pass(l, date, ts, cutoff, now);
            Pass(l.(pendingTransferTs := x), date, ts, cutoff, now)
            == r.(ledger := r.ledger.(pendingTransferTs := x))
    decreases |ts|
  {
    if ts != [] && !MustWait(l, ts[0], cutoff) {
      var e := UpdateLedger(l, date, ts[0].number, ts[0].amount, ts[0].principal, now, false);
      assert UpdateLedger(l.(pendingTransferTs := x), date, ts[0].number, ts[0].amount, ts[0].principal, now, false)
          == e.(ledger := e.ledger.(pendingTransferTs := x));
      PassIgnoresPendingTs(e.ledger, date, ts[1..], cutoff, now, x);
    }
  }

  // ---------- One burst, then one pass ----------

  function PrependWork(es: seq<Entry>, log: Option<LogItem>, w: Work): Work {
    w.(entries := es + w.entries, log := OrElse(w.log, log))
  }

  /** A burst is either the whole pass, or leaves the rest of it and fewer pending transfers. */
  lemma BurstThenPass(a: Account, store: seq<Transfer>, burst: int, cutoff: int, now: int)
    requires burst >= 1 && Sorted(store)
    ensures var w := BurstWork(a, store, burst, cutoff, now);
            var a1 := a.(ledger := w.ledger);
            && (w.done ==> w == OnePassWork(a, store, cutoff, now))
            && (!w.done ==> |PendingOf(a1, store)| < |PendingOf(a, store)|)
            && (!w.done ==> OnePassWork(a, store, cutoff, now)
                            == PrependWork(w.entries, w.log, OnePassWork(a1, store, cutoff, now)))
  {
    var ts := PendingOf(a, store);
    var date := a.server.creationDate;
    if |ts| >= burst {
      var r := Pass(a.ledger, date, ts[..burst], cutoff, now);
      PassSplit(a.ledger, date, ts, burst, cutoff, now);
      PassEnd(a.ledger, date, ts[..burst], cutoff, now);
      assert Take(ts, burst) == ts[..burst];
      if r.blockedAt.None? {
        PendingAfter(store, date, a.ledger.lastTransferNumber, burst);
        var rest := Pass(r.ledger, date, ts[burst..], cutoff, now);
        PassIgnoresPendingTs(r.ledger, date, ts[burst..], cutoff, now, None);
        FinishPrepended(r.entries, r.log, rest, date, LatestOf(a), cutoff, now);
      }
    }
  }

  lemma FinishPrepended(es: seq<Entry>, log: Option<LogItem>, r: Scan, date: int, latest: Latest, cutoff: int, now: int)
    ensures Finish(Prepend(es, log, r), true, date, latest, cutoff, now)
         == PrependWork(es, log, Finish(r, true, date, latest, cutoff, now))
  {
    var l := r.ledger.(pendingTransferTs := r.blockedAt);
    var c := CatchUp(l, date, latest, cutoff, now);
    assert (es + r.entries) + c.entries == es + (r.entries + c.entries);
  }

  // ---------- Until done ----------

  /** The loop of the ledger update processor, at a fixed time. */
  ghost function Drain(p: Params, s: State): State
    requires ValidParams(p) && Sorted(s.store)
    decreases s.wake, if s.account.Some? then |PendingOf(s.account.value, s.store)| else 0
  {
    if !s.wake || s.account.None? then s
    else
      BurstThenPass(s.account.value, s.store, p.burst, s.clock - p.maxDelay, s.clock);
      Drain(p, ProcessBurst(p, s))
  }

  /** How many transfers are still pending, for an account that is due. */
  function Remaining(s: State): nat {
    if s.wake && s.account.Some? then 1 + |PendingOf(s.account.value, s.store)| else 0
  }

  lemma DrainStep(p: Params, s: State)
    requires ValidParams(p) && Sorted(s.store) && ColumnsFit(s)
    ensures var t := ProcessBurst(p, s);
            && t.store == s.store && t.clock == s.clock && ColumnsFit(t)
            && Drain(p, t) == Drain(p, s)
            && (s.wake && s.account.Some? ==> Remaining(t) < Remaining(s))
            && (!s.wake || s.account.None? ==> Drain(p, t) == t)
  {
    if s.wake && s.account.Some? {
      var a, cutoff := s.account.value, s.clock - p.maxDelay;
      BurstThenPass(a, s.store, p.burst, cutoff, s.clock);
      WorkFits(a, s.store, p.burst, cutoff, s.clock);
    }
  }

  /** Readings of a clock that does not go back. */
  ghost predicate IsClock(start: int, times: seq<int>) {
    && (forall i :: 0 <= i < |times| ==> start <= times[i])
    && (forall i, j :: 0 <= i < j < |times| ==> times[i] <= times[j])
  }

  /** The loop when each burst reads the clock anew. */
  function DrainAt(p: Params, s: State, times: seq<int>): State
    requires ValidParams(p)
  {
    if times == [] then s
    else ProcessBurst(p, DrainAt(p, s, times[..|times| - 1]).(clock := times[|times| - 1]))
  }

  /** The measure of the loop falls whatever the clock says. */
  lemma BurstShrinks(p: Params, s: State, now: int)
    requires ValidParams(p) && Sorted(s.store) && ColumnsFit(s)
    ensures var t := ProcessBurst(p, s.(clock := now));
            && t.store == s.store && t.clock == now && ColumnsFit(t)
            && (s.wake && s.account.Some? ==> Remaining(t) < Remaining(s))
            && (t.wake && t.account.Some? ==> s.wake && s.account.Some?)
  {
    DrainStep(p, s.(clock := now));
  }

  /** When the clock stands still, the loop does what `Drain` says. */
  lemma {:induction false} DrainAtOneTime(p: Params, s: State, times: seq<int>, now: int)
    requires ValidParams(p) && Sorted(s.store) && ColumnsFit(s) && forall t :: t in times ==> t == now
    ensures var t := DrainAt(p, s, times).(clock := now);
            Sorted(t.store) && ColumnsFit(t) && Drain(p, t) == Drain(p, s.(clock := now))
  {
    if times != [] {
      var init := times[..|times| - 1];
      assert forall t :: t in init ==> t in times;
      DrainAtOneTime(p, s, init, now);
      assert times[|times| - 1] in times;
      DrainStep(p, DrainAt(p, s, init).(clock := now));
    }
  }

  /** The principal of the ledger is always one that was already in some column. */
  lemma WorkFits(a: Account, store: seq<Transfer>, burst: int, cutoff: int, now: int)
    requires burst >= 1 && In64(a.server.principal) && In64(a.ledger.principal)
    requires forall t :: t in store ==> ValidTransfer(t)
    ensures In64(BurstWork(a, store, burst, cutoff, now).ledger.principal)
    ensures In64(OnePassWork(a, store, cutoff, now).ledger.principal)
  {
    var ts, date := PendingOf(a, store), a.server.creationDate;
    PendingIsStored(store, date, a.ledger.lastTransferNumber);
    PassFits(a.ledger, date, ts, cutoff, now);
    PassFits(a.ledger, date, Take(ts, burst), cutoff, now);
  }

  lemma {:induction false} PassFits(l: LedgerData, date: int, ts: seq<Transfer>, cutoff: int, now: int)
    requires In64(l.principal) && forall t :: t in ts ==> ValidTransfer(t)
    ensures In64(Pass(l, date, ts, cutoff, now).ledger.principal)
    decreases |ts|
  {
    if ts != [] && !MustWait(l, ts[0], cutoff) {
      assert ts[0] in ts;
      var e := UpdateLedger(l, date, ts[0].number, ts[0].amount, ts[0].principal, now, false);
      PassFits(e.ledger, date, ts[1..], cutoff, now);
    }
  }

  /** The last item that a run has added to a history, if it has added any. */
  function LastSince<T>(before: seq<T>, after: seq<T>): Option<T> {
    if |after| > |before| then Some(after[|after| - 1]) else None
  }

  /** The outcome of a run, up to the items that it has added to the histories before the last one. */
  ghost predicate SameOutcome(s: State, many: State, one: State) {
    && many.account == one.account && many.entries == one.entries && many.wake == one.wake
    && s.log <= many.log && LastSince(s.log, many.log) == LastSince(s.log, one.log)
    && s.issued <= many.issued && LastSince(s.issued, many.issued) == LastSince(s.issued, one.issued)
    && s.signals <= many.signals && LastSince(s.signals, many.signals).Some? == LastSince(s.signals, one.signals).Some?
    && many.uidSeq >= one.uidSeq
    && one == many.(log := one.log, signals := one.signals, issued := one.issued, uidSeq := one.uidSeq)
  }

  lemma SameOutcomeAfter(s: State, a: Account, w: Work, w1: Work, many: State)
    requires s.wake && !w.done && w1.done
    requires w1.log.None? ==> w1.ledger.updateId == w.ledger.updateId
    requires var s1 := Commit(s, a, w); SameOutcome(s1, many, Commit(s1, a.(ledger := w.ledger), w1))
    ensures SameOutcome(s, many, Commit(s, a, PrependWork(w.entries, w.log, w1)))
  {
    assert (s.entries + w.entries) + w1.entries == s.entries + (w.entries + w1.entries);
  }

  /** Without a notification the update id has not moved. */
  lemma QuietWork(a: Account, store: seq<Transfer>, cutoff: int, now: int)
    ensures var w := OnePassWork(a, store, cutoff, now);
            w.log.None? ==> w.ledger.updateId == a.ledger.updateId
  {
    QuietPass(a.ledger, a.server.creationDate, PendingOf(a, store), cutoff, now);
  }

  lemma {:induction false} QuietPass(l: LedgerData, date: int, ts: seq<Transfer>, cutoff: int, now: int)
    ensures var r := Pass(l, date, ts, cutoff, now); r.log.None? ==> r.ledger.updateId == l.updateId
    decreases |ts|
  {
    if ts != [] && !MustWait(l, ts[0], cutoff) {
      var e := UpdateLedger(l, date, ts[0].number, ts[0].amount, ts[0].principal, now, false);
      QuietPass(e.ledger, date, ts[1..], cutoff, now);
    }
  }

  /**
   * Bursts of any size, repeated until done, leave the account, the ledger entries and the last
   * log entry of the single pass.
   */
  lemma {:induction false} BurstsRefineOnePass(p: Params, s: State)
    requires ValidParams(p) && Sorted(s.store) && s.wake && s.account.Some?
    ensures SameOutcome(s, Drain(p, s), ProcessOnePass(p, s)) && !Drain(p, s).wake
    decreases |PendingOf(s.account.value, s.store)|
  {
    hide BurstWork, OnePassWork, Pending, Pass;
    var a, cutoff := s.account.value, s.clock - p.maxDelay;
    var w := BurstWork(a, s.store, p.burst, cutoff, s.clock);
    BurstThenPass(a, s.store, p.burst, cutoff, s.clock);
    var s1 := ProcessBurst(p, s);
    if w.done {
      assert Drain(p, s1) == s1;
    } else {
      var a1 := a.(ledger := w.ledger);
      var w1 := OnePassWork(a1, s.store, cutoff, s.clock);
      BurstsRefineOnePass(p, s1);
      QuietWork(a1, s.store, cutoff, s.clock);
      SameOutcomeAfter(s, a, w, w1, Drain(p, s1));
    }
  }

  // ---------- The ledger signals ----------

  /** `n` transfers are a whole number of bursts. */
  predicate FillBursts(n: nat, burst: int)
    requires burst >= 1
  {
    n == 0 || (n >= burst && FillBursts(n - burst, burst))
  }

  /**
   * The pending transfers fill whole bursts, there is no recent gap, and the catch-up that follows
   * them moves the last transfer number but not the principal.
   */
  ghost predicate CatchesUpSilently(a: Account, store: seq<Transfer>, burst: int, cutoff: int)
    requires burst >= 1
  {
    var ts := PendingOf(a, store);
    && ts != [] && FillBursts(|ts|, burst)
    && NoRecentGap(a.ledger.lastTransferNumber, ts, cutoff)
    && a.server.lastTransferNumber > ts[|ts| - 1].number
    && a.server.lastTransferCommittedAt < cutoff
    && a.server.principal == ts[|ts| - 1].principal
  }

  /** A pass over valid transfers is silent only if it is blocked at once. */
  lemma {:induction false} PassPrincipal(l: LedgerData, date: int, ts: seq<Transfer>, cutoff: int, now: int)
    requires forall t :: t in ts ==> ValidTransfer(t)
    ensures var r := Pass(l, date, ts, cutoff, now);
            && (r.log.None? ==> r.ledger == l && (ts == [] || r.blockedAt.Some?))
            && (r.blockedAt.None? ==> r.ledger.principal == if ts == [] then l.principal else ts[|ts| - 1].principal)
    decreases |ts|
  {
    if ts != [] && !MustWait(l, ts[0], cutoff) {
      assert ts[0] in ts;
      var e := UpdateLedger(l, date, ts[0].number, ts[0].amount, ts[0].principal, now, false);
      PassPrincipal(e.ledger, date, ts[1..], cutoff, now);
    }
  }

  /** Between equal principals there is nothing to correct, and only then. */
  lemma CatchUpIsSilent(l: LedgerData, date: int, latest: Latest, cutoff: int, now: int)
    requires In64(latest.principal)
    ensures var c := CatchUp(l, date, latest, cutoff, now);
            && (IsLastTransferLost(l, latest, cutoff) ==> (c.log.None? <==> latest.principal == l.principal))
            && (c.log.None? ==> c.ledger.principal == l.principal)
  {
  }

  /** What the last part of the work adds to the last signal. */
  lemma QuietEnd(a: Account, store: seq<Transfer>, cutoff: int, now: int)
    requires In64(a.server.principal) && forall t :: t in store ==> ValidTransfer(t)
    ensures var w := OnePassWork(a, store, cutoff, now); var ts := PendingOf(a, store);
            var silent := ts == [] && a.server.lastTransferNumber > a.ledger.lastTransferNumber
                          && a.server.lastTransferCommittedAt < cutoff && a.server.principal == a.ledger.principal;
            && (silent ==> w.log.None?)
            && (w.log.None? ==>
                  && w.ledger.principal == a.ledger.principal
                  && (w.ledger.lastTransferNumber != a.ledger.lastTransferNumber <==> silent))
  {
    var ts, date := PendingOf(a, store), a.server.creationDate;
    PendingIsStored(store, date, a.ledger.lastTransferNumber);
    PassPrincipal(a.ledger, date, ts, cutoff, now);
    var r := Pass(a.ledger, date, ts, cutoff, now);
    CatchUpIsSilent(r.ledger.(pendingTransferTs := r.blockedAt), date, LatestOf(a), cutoff, now);
  }

  lemma LastSignalAfter(s: State, a: Account, w: Work, w1: Work, many: State)
    requires s.wake && !w.done && w1.done && w.log.Some?
    requires w1.log.None? ==> w1.ledger.updateId == w.ledger.updateId && w1.ledger.principal == w.ledger.principal
    requires var s1 := Commit(s, a, w);
             s1.signals <= many.signals && (LastSince(s1.signals, many.signals).Some? <==> w1.log.Some?)
    ensures var s1 := Commit(s, a, w); var one1 := Commit(s1, a.(ledger := w.ledger), w1);
            var one := Commit(s, a, PrependWork(w.entries, w.log, w1));
            LastSince(s.signals, many.signals) == LastSince(s.signals, one.signals) <==>
            if w1.log.Some? then LastSince(s1.signals, many.signals) == LastSince(s1.signals, one1.signals)
            else w1.ledger.lastTransferNumber == w.ledger.lastTransferNumber
  {
  }

  lemma DoneIsNotSilent(a: Account, store: seq<Transfer>, burst: int, cutoff: int, now: int)
    requires burst >= 1 && BurstWork(a, store, burst, cutoff, now).done
    ensures !CatchesUpSilently(a, store, burst, cutoff)
  {
    var ts := PendingOf(a, store);
    PassBlocks(a.ledger, a.server.creationDate, ts, cutoff, now);
    if |ts| >= burst {
      assert Take(ts, burst) == ts[..burst];
      PassSplit(a.ledger, a.server.creationDate, ts, burst, cutoff, now);
    }
  }

  /** What a burst that is not the last one leaves. */
  lemma AfterBurst(a: Account, store: seq<Transfer>, burst: int, cutoff: int, now: int)
    requires burst >= 1 && Sorted(store) && forall t :: t in store ==> ValidTransfer(t)
    requires !BurstWork(a, store, burst, cutoff, now).done
    ensures var w := BurstWork(a, store, burst, cutoff, now); var ts := PendingOf(a, store);
            var date := a.server.creationDate; var rest := PendingOf(a.(ledger := w.ledger), store);
            && w.log.Some? && burst <= |ts| && rest == ts[burst..]
            && w.ledger.lastTransferNumber == ts[burst - 1].number && w.ledger.principal == ts[burst - 1].principal
            && Pass(a.ledger, date, ts, cutoff, now).blockedAt == Pass(w.ledger, date, rest, cutoff, now).blockedAt
  {
    hide Pass, Pending, Sorted;
    var date, ts := a.server.creationDate, PendingOf(a, store);
    assert Take(ts, burst) == ts[..burst];
    PendingIsStored(store, date, a.ledger.lastTransferNumber);
    var r := Pass(a.ledger, date, ts[..burst], cutoff, now);
    PassSplit(a.ledger, date, ts, burst, cutoff, now);
    PassEnd(a.ledger, date, ts[..burst], cutoff, now);
    PassPrincipal(a.ledger, date, ts[..burst], cutoff, now);
    PendingAfter(store, date, a.ledger.lastTransferNumber, burst);
    PassIgnoresPendingTs(r.ledger, date, ts[burst..], cutoff, now, None);
  }

  /** How the condition looks after such a burst. */
  lemma SilentLater(a: Account, a1: Account, store: seq<Transfer>, burst: int, cutoff: int, now: int)
    requires burst >= 1 && a1 == a.(ledger := a1.ledger)
    requires var ts := PendingOf(a, store); var rest := PendingOf(a1, store); var date := a.server.creationDate;
             && burst <= |ts| && rest == ts[burst..]
             && a1.ledger.lastTransferNumber == ts[burst - 1].number && a1.ledger.principal == ts[burst - 1].principal
             && Pass(a.ledger, date, ts, cutoff, now).blockedAt == Pass(a1.ledger, date, rest, cutoff, now).blockedAt
    ensures CatchesUpSilently(a, store, burst, cutoff) <==>
            if PendingOf(a1, store) != [] then CatchesUpSilently(a1, store, burst, cutoff)
            else a.server.lastTransferNumber > a1.ledger.lastTransferNumber
                 && a.server.lastTransferCommittedAt < cutoff && a.server.principal == a1.ledger.principal
  {
    var ts, rest, date := PendingOf(a, store), PendingOf(a1, store), a.server.creationDate;
    PassBlocks(a.ledger, date, ts, cutoff, now);
    PassBlocks(a1.ledger, date, rest, cutoff, now);
    assert FillBursts(|ts|, burst) == FillBursts(|rest|, burst);
    if rest == [] {
      assert |ts| == burst;
    } else {
      assert rest[|rest| - 1] == ts[|ts| - 1];
    }
  }

  /**
   * The last ledger signal of the bursts agrees with that of the single pass, except when the last
   * burst does nothing but a silent catch-up: then it quotes an outdated last transfer number.
   */
  lemma {:induction false} SignalsAgreeUnlessSilent(p: Params, s: State)
    requires ValidParams(p) && Sorted(s.store) && s.wake && s.account.Some?
    requires In64(s.account.value.server.principal) && forall t :: t in s.store ==> ValidTransfer(t)
    ensures LastSince(s.signals, Drain(p, s).signals) == LastSince(s.signals, ProcessOnePass(p, s).signals)
       <==> !CatchesUpSilently(s.account.value, s.store, p.burst, s.clock - p.maxDelay)
    decreases |PendingOf(s.account.value, s.store)|
  {
    hide BurstWork, OnePassWork, Pending, Pass;
    var a, cutoff, now := s.account.value, s.clock - p.maxDelay, s.clock;
    var w := BurstWork(a, s.store, p.burst, cutoff, now);
    BurstThenPass(a, s.store, p.burst, cutoff, now);
    var s1 := ProcessBurst(p, s);
    if w.done {
      assert Drain(p, s1) == s1;
      DoneIsNotSilent(a, s.store, p.burst, cutoff, now);
    } else {
      var a1 := a.(ledger := w.ledger);
      var w1 := OnePassWork(a1, s.store, cutoff, now);
      AfterBurst(a, s.store, p.burst, cutoff, now);
      SilentLater(a, a1, s.store, p.burst, cutoff, now);
      BurstsRefineOnePass(p, s1);
      SignalsAgreeUnlessSilent(p, s1);
      QuietWork(a1, s.store, cutoff, now);
      QuietEnd(a1, s.store, cutoff, now);
      LastSignalAfter(s, a, w, w1, Drain(p, s1));
    }
  }
}
