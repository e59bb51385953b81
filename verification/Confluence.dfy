/**
 * Confluence: whatever the order and the repetition of arrivals, and however processing steps fall
 * between them, the ledger follows the server's chain.
 */
module Confluence {
  import opened Options
  import opened Int64
  import opened AccountModel
  import opened Gaps
  import opened LedgerSpec
  import opened StepEffects
  import opened SystemSpec
  import opened Refinement
  import opened WakeUps

  function ChainOf(server: Server, date: int): seq<Transfer> {
    if date in server then server[date] else []
  }

  datatype Line = Line(number: int, amount: int, principal: int)

  /** The ledger lines that a stretch of a chain calls for. */
  function LinesOf(c: seq<Transfer>): seq<Line> {
    if c == [] then [] else [Line(c[0].number, c[0].amount, c[0].principal)] + LinesOf(c[1..])
  }

  /** The transfer-bearing entries of a creation date. */
  function Bearing(es: seq<Entry>, date: int): seq<Line> {
    if es == [] then []
    else if es[0].transfer.Some? && es[0].transfer.value.0 == date
    then [Line(es[0].transfer.value.1, es[0].amount, es[0].principal)] + Bearing(es[1..], date)
    else Bearing(es[1..], date)
  }

  /** No entry bears a transfer of a later creation date. */
  ghost predicate NoLater(es: seq<Entry>, date: int) {
    forall e :: e in es && e.transfer.Some? ==> e.transfer.value.0 <= date
  }

  /** The ledger holds the first `k` transfers of the chain, in order, and no others of that date. */
  ghost predicate Follows(server: Server, a: Account, es: seq<Entry>, k: nat) {
    var c := ChainOf(server, a.server.creationDate);
    && k <= |c|
    && a.ledger.lastTransferNumber == NumberBefore(c, k)
    && Bearing(es, a.server.creationDate) == LinesOf(c[..k])
    && NoLater(es, a.server.creationDate)
  }

  ghost predicate Confluent(server: Server, s: State) {
    s.account.Some? ==> exists k: nat :: Follows(server, s.account.value, s.entries, k)
  }

  // ---------- When nothing is given up ----------

  /** Work on some pending transfers skips no gap, and does not catch up with a lost transfer. */
  ghost predicate GivesNothingUp(a: Account, ts: seq<Transfer>, exhausted: bool, cutoff: int) {
    var above := a.ledger.lastTransferNumber;
    var reach := if ts == [] then above else ts[|ts| - 1].number;
    && NothingSkipped(above, ts, cutoff)
    && !(exhausted && NoRecentGap(above, ts, cutoff)
         && a.server.lastTransferNumber > reach && a.server.lastTransferCommittedAt < cutoff)
  }

  ghost predicate BurstGivesNothingUp(p: Params, s: State)
    requires ValidParams(p)
  {
    s.wake && s.account.Some? ==>
      var ts := Take(PendingOf(s.account.value, s.store), p.burst);
      GivesNothingUp(s.account.value, ts, |ts| < p.burst, s.clock - p.maxDelay)
  }

  ghost predicate OnePassGivesNothingUp(p: Params, s: State) {
    s.wake && s.account.Some? ==>
      GivesNothingUp(s.account.value, PendingOf(s.account.value, s.store), true, s.clock - p.maxDelay)
  }

  ghost predicate NothingGivenUp(p: Params, s: State, step: Step)
    requires ValidParams(p)
  {
    && (step.Burst? ==> BurstGivesNothingUp(p, s))
    && (step.OnePass? ==> OnePassGivesNothingUp(p, s))
  }

  // ---------- Lists ----------

  lemma {:induction false} BearingTwice(es: seq<Entry>, fs: seq<Entry>, date: int)
    ensures Bearing(es + fs, date) == Bearing(es, date) + Bearing(fs, date)
  {
    if es == [] {
      assert es + fs == fs;
    } else {
      assert (es + fs)[1..] == es[1..] + fs;
      BearingTwice(es[1..], fs, date);
    }
  }

  lemma {:induction false} LinesTwice(c: seq<Transfer>, d: seq<Transfer>)
    ensures LinesOf(c + d) == LinesOf(c) + LinesOf(d)
  {
    if c == [] {
      assert c + d == d;
    } else {
      assert (c + d)[1..] == c[1..] + d;
      LinesTwice(c[1..], d);
    }
  }

  lemma {:induction false} CorrectionsBearNothing(id: int, principal: int, amounts: seq<int>, now: int, date: int)
    ensures Bearing(Postings(id, principal, amounts, now), date) == []
    ensures NoLater(Postings(id, principal, amounts, now), date)
    decreases |amounts|
  {
    if amounts != [] {
      CorrectionsBearNothing(id + 1, principal + amounts[0], amounts[1..], now, date);
    }
  }

  lemma {:induction false} NothingLaterBears(es: seq<Entry>, date: int, later: int)
    requires NoLater(es, date) && date < later
    ensures Bearing(es, later) == []
  {
    if es != [] {
      assert es[0] in es;
      NothingLaterBears(es[1..], date, later);
    }
  }

  /** What one ledger update adds to the lines. */
  lemma UpdateBears(l: LedgerData, date: int, number: int, amount: int, principal: int, now: int, always: bool)
    ensures var e := UpdateLedger(l, date, number, amount, principal, now, always);
            && Bearing(e.entries, date) == (if amount == 0 then [] else [Line(number, amount, principal)])
            && NoLater(e.entries, date)
            && (amount == 0 ==> forall d: int :: NoLater(e.entries, d))
  {
    var previous := principal - amount;
    var fix := CorrectingEntries(l.lastEntryId, l.principal, previous, now);
    CorrectionsBearNothing(l.lastEntryId, l.principal, Corrections(previous - l.principal), now, date);
    forall d: int ensures NoLater(fix, d) {
      CorrectionsBearNothing(l.lastEntryId, l.principal, Corrections(previous - l.principal), now, d);
    }
    if amount != 0 {
      var own := [Entry(l.lastEntryId + |fix| + 1, amount, principal, Some((date, number)), now)];
      BearingTwice(fix, own, date);
      assert own[1..] == [];
    } else {
      assert fix + [] == fix;
    }
  }

  // ---------- One processing step ----------

  /** The pending transfers are later links of the chain. */
  ghost predicate Ahead(c: seq<Transfer>, k: nat, ts: seq<Transfer>) {
    && k <= |c| && Sorted(ts)
    && forall t :: t in ts ==> exists j :: k <= j < |c| && c[j] == t
  }

  /** A later transfer names one that is not before the k-th. */
  lemma NumbersRise(c: seq<Transfer>, date: int, k: nat, j: nat)
    requires IsChain(c, date) && k < j < |c|
    ensures c[j].prev > NumberBefore(c, k)
  {
    ChainGrows(c, date, k, j);
    assert IsLink(c, date, k);
  }

  /** The first pending transfer either is the next link, or has a gap before it. */
  lemma NextLink(c: seq<Transfer>, date: int, k: nat, ts: seq<Transfer>)
    requires IsChain(c, date) && Ahead(c, k, ts) && ts != [] && ts[0].prev == NumberBefore(c, k)
    ensures k < |c| && ts[0] == c[k] && Ahead(c, k + 1, ts[1..])
  {
    assert ts[0] in ts;
    var j :| k <= j < |c| && c[j] == ts[0];
    assert IsLink(c, date, j);
    if k < j {
      NumbersRise(c, date, k, j);
      assert false;
    }
    forall t | t in ts[1..] ensures exists j :: k + 1 <= j < |c| && c[j] == t {
      var i :| 0 <= i < |ts[1..]| && ts[1..][i] == t;
      assert t == ts[i + 1] && t in ts && Precedes(ts[0], ts[i + 1]);
      var m :| k <= m < |c| && c[m] == t;
      assert m != k;
    }
  }

  /** A transfer after a gap is not the next link. */
  lemma LinkAfterGap(c: seq<Transfer>, date: int, k: nat, ts: seq<Transfer>)
    requires IsChain(c, date) && Ahead(c, k, ts) && ts != [] && ts[0].prev != NumberBefore(c, k)
    ensures k < |c| && c[k].number < ts[0].number
  {
    assert ts[0] in ts;
    var j :| k <= j < |c| && c[j] == ts[0];
    assert IsLink(c, date, j);
    ChainGrows(c, date, k, j);
  }

  lemma LinesFrom(c: seq<Transfer>, k: nat, k': nat)
    requires k < k' <= |c|
    ensures LinesOf(c[k..k']) == [Line(c[k].number, c[k].amount, c[k].principal)] + LinesOf(c[k + 1..k'])
  {
    assert c[k..k'][1..] == c[k + 1..k'];
  }

  /** A pass that skips nothing appends consecutive links. */
  lemma {:induction false} PassFollows(
      l: LedgerData, date: int, c: seq<Transfer>, k: nat, ts: seq<Transfer>, cutoff: int, now: int) returns (k': nat)
    requires IsChain(c, date) && Ahead(c, k, ts) && l.lastTransferNumber == NumberBefore(c, k)
    requires NothingSkipped(l.lastTransferNumber, ts, cutoff)
    ensures var r := Pass(l, date, ts, cutoff, now);
            && k <= k' <= |c| && r.ledger.lastTransferNumber == NumberBefore(c, k')
            && Bearing(r.entries, date) == LinesOf(c[k..k']) && NoLater(r.entries, date)
    decreases |ts|
  {
    k' := k;
    assert k <= |c|;
    if ts != [] && !MustWait(l, ts[0], cutoff) {
      assert !IsRecentGapAt(l.lastTransferNumber, ts, 0, cutoff);
      GapsOfRest(l.lastTransferNumber, ts, cutoff);
      NextLink(c, date, k, ts);
      assert IsLink(c, date, k);
      var e := UpdateLedger(l, date, ts[0].number, ts[0].amount, ts[0].principal, now, false);
      UpdateLedgerKeeps(l, date, ts[0].number, ts[0].amount, ts[0].principal, now, false);
      UpdateBears(l, date, ts[0].number, ts[0].amount, ts[0].principal, now, false);
      hide LedgerSpec.UpdateLedger, Ahead, NothingSkipped, IsChain;
      k' := PassFollows(e.ledger, date, c, k + 1, ts[1..], cutoff, now);
      BearingTwice(e.entries, Pass(e.ledger, date, ts[1..], cutoff, now).entries, date);
      LinesFrom(c, k, k');
    }
  }

  lemma PendingIsAhead(server: Server, a: Account, store: seq<Transfer>, k: nat)
    requires ValidServer(server) && ValidStore(server, store)
    requires var c := ChainOf(server, a.server.creationDate);
             k <= |c| && a.ledger.lastTransferNumber == NumberBefore(c, k)
    ensures IsChain(ChainOf(server, a.server.creationDate), a.server.creationDate)
    ensures Ahead(ChainOf(server, a.server.creationDate), k, PendingOf(a, store))
  {
    var date := a.server.creationDate;
    var c := ChainOf(server, date);
    PendingIsStored(store, date, a.ledger.lastTransferNumber);
    PendingIsSorted(store, date, a.ledger.lastTransferNumber);
    forall t | t in PendingOf(a, store) ensures exists j :: k <= j < |c| && c[j] == t {
      assert Known(server, t);
      var j :| 0 <= j < |c| && c[j] == t;
      if j < k - 1 { ChainGrows(c, date, j, k - 1); }
    }
  }

  /** The lines of a pass that starts with a transfer. */
  lemma PassBears(l: LedgerData, date: int, ts: seq<Transfer>, cutoff: int, now: int)
    requires ts != [] && !MustWait(l, ts[0], cutoff) && ts[0].amount != 0
    ensures var t := ts[0]; var l1 := UpdateLedger(l, date, t.number, t.amount, t.principal, now, false).ledger;
            && l1.lastTransferNumber == t.number
            && Bearing(Pass(l, date, ts, cutoff, now).entries, date)
               == [Line(t.number, t.amount, t.principal)] + Bearing(Pass(l1, date, ts[1..], cutoff, now).entries, date)
  {
    var t := ts[0];
    var e := UpdateLedger(l, date, t.number, t.amount, t.principal, now, false);
    UpdateLedgerKeeps(l, date, t.number, t.amount, t.principal, now, false);
    UpdateBears(l, date, t.number, t.amount, t.principal, now, false);
    BearingTwice(e.entries, Pass(e.ledger, date, ts[1..], cutoff, now).entries, date);
  }

  /** A pass that skips a gap appends lines that are not consecutive links. */
  lemma {:induction false} SkippingPassStrays(
      l: LedgerData, date: int, c: seq<Transfer>, k: nat, ts: seq<Transfer>, cutoff: int, now: int, k': nat)
    requires IsChain(c, date) && Ahead(c, k, ts) && l.lastTransferNumber == NumberBefore(c, k)
    requires !NothingSkipped(l.lastTransferNumber, ts, cutoff) && k <= k' <= |c|
    ensures Bearing(Pass(l, date, ts, cutoff, now).entries, date) != LinesOf(c[k..k'])
    decreases |ts|
  {
    hide Pass, Bearing, LedgerSpec.UpdateLedger, NothingSkipped, Ahead, IsChain;
    var above := l.lastTransferNumber;
    SkippedMeansReached(above, ts, cutoff);
    LinkIsValid(c, date, k, ts);
    var t := ts[0];
    PassBears(l, date, ts, cutoff, now);
    GapsOfRest(above, ts, cutoff);
    if k == k' {
      assert c[k..k'] == [];
    } else {
      LinesFrom(c, k, k');
      var l1 := UpdateLedger(l, date, t.number, t.amount, t.principal, now, false).ledger;
      if IsGapAt(above, ts, 0) {
        LinkAfterGap(c, date, k, ts);
      } else {
        NextLink(c, date, k, ts);
        SkippingPassStrays(l1, date, c, k + 1, ts[1..], cutoff, now, k');
      }
      HeadsAndTails(Line(t.number, t.amount, t.principal), Bearing(Pass(l1, date, ts[1..], cutoff, now).entries, date),
                    Line(c[k].number, c[k].amount, c[k].principal), LinesOf(c[k + 1..k']));
    }
  }

  lemma HeadsAndTails(x: Line, xs: seq<Line>, y: Line, ys: seq<Line>)
    requires x != y || xs != ys
    ensures [x] + xs != [y] + ys
  {
    assert ([x] + xs)[0] == x && ([y] + ys)[0] == y;
    assert ([x] + xs)[1..] == xs && ([y] + ys)[1..] == ys;
  }

  lemma SkippedMeansReached(above: int, ts: seq<Transfer>, cutoff: int)
    requires !NothingSkipped(above, ts, cutoff)
    ensures ts != [] && !IsRecentGapAt(above, ts, 0, cutoff)
  {
    var i :| 0 <= i < |ts| && IsSkippedAt(above, ts, i, cutoff);
    assert i > 0 ==> !IsRecentGapAt(above, ts, 0, cutoff);
  }

  lemma LinkIsValid(c: seq<Transfer>, date: int, k: nat, ts: seq<Transfer>)
    requires IsChain(c, date) && Ahead(c, k, ts) && ts != []
    ensures ts[0].amount != 0
  {
    assert ts[0] in ts;
    var j :| k <= j < |c| && c[j] == ts[0];
    assert IsLink(c, date, j);
  }

  lemma FirstOnesToo(c: seq<Transfer>, k: nat, all: seq<Transfer>, ts: seq<Transfer>)
    requires Ahead(c, k, all) && ts <= all
    ensures Ahead(c, k, ts)
  {
    assert forall i :: 0 <= i < |ts| ==> ts[i] == all[i] && ts[i] in all;
  }

  /** The lines of a beginning of the chain determine how long it is. */
  lemma LinesDetermine(server: Server, a: Account, a': Account, es: seq<Entry>, fs: seq<Entry>, k: nat, k': nat)
    requires Follows(server, a, es, k) && Follows(server, a', es + fs, k')
    requires a'.server.creationDate == a.server.creationDate
    ensures k <= k' && var date := a.server.creationDate;
                       Bearing(fs, date) == LinesOf(ChainOf(server, date)[k..k'])
  {
    var date := a.server.creationDate;
    var c := ChainOf(server, date);
    BearingTwice(es, fs, date);
    LinesCount(c[..k]);
    LinesCount(c[..k']);
    assert c[..k'] == c[..k] + c[k..k'];
    LinesTwice(c[..k], c[k..k']);
    assert LinesOf(c[..k']) == LinesOf(c[..k]) + Bearing(fs, date);
    assert LinesOf(c[..k'])[k..] == Bearing(fs, date);
    assert LinesOf(c[..k'])[k..] == LinesOf(c[k..k']);
  }

  lemma {:induction false} LinesCount(c: seq<Transfer>)
    ensures |LinesOf(c)| == |c|
  {
    if c != [] { LinesCount(c[1..]); }
  }

  /** The work of a step keeps the ledger a beginning of the chain, if it gives nothing up. */
  lemma WorkFollows(server: Server, a: Account, es: seq<Entry>, store: seq<Transfer>, ts: seq<Transfer>,
                    exhausted: bool, cutoff: int, now: int, k: nat)
    requires ValidServer(server) && ValidStore(server, store) && Follows(server, a, es, k)
    requires ts <= PendingOf(a, store) && GivesNothingUp(a, ts, exhausted, cutoff)
    ensures var w := WorkOn(a, ts, exhausted, cutoff, now);
            exists k': nat :: Follows(server, a.(ledger := w.ledger), es + w.entries, k')
  {
    hide Ahead, LedgerSpec.Pending, LedgerSpec.Pass, NothingSkipped, NoRecentGap, ValidStore, ValidServer;
    var date := a.server.creationDate;
    var c := ChainOf(server, date);
    PendingIsAhead(server, a, store, k);
    FirstOnesToo(c, k, PendingOf(a, store), ts);
    var k' := PassFollows(a.ledger, date, c, k, ts, cutoff, now);
    var r := Pass(a.ledger, date, ts, cutoff, now);
    PassEnd(a.ledger, date, ts, cutoff, now);
    PassBlocks(a.ledger, date, ts, cutoff, now);
    var w := WorkOn(a, ts, exhausted, cutoff, now);
    assert w.entries == r.entries && w.ledger.lastTransferNumber == r.ledger.lastTransferNumber;
    BearingTwice(es, w.entries, date);
    LinesTwice(c[..k], c[k..k']);
    assert c[..k] + c[k..k'] == c[..k'];
    assert Follows(server, a.(ledger := w.ledger), es + w.entries, k');
  }

  /** And if it gives something up, the ledger is no beginning of the chain any more. */
  lemma WorkStrays(server: Server, a: Account, es: seq<Entry>, store: seq<Transfer>, ts: seq<Transfer>,
                   exhausted: bool, cutoff: int, now: int, k: nat, k': nat)
    requires ValidServer(server) && ValidStore(server, store) && Follows(server, a, es, k)
    requires ts <= PendingOf(a, store) && !GivesNothingUp(a, ts, exhausted, cutoff)
    ensures var w := WorkOn(a, ts, exhausted, cutoff, now);
            !Follows(server, a.(ledger := w.ledger), es + w.entries, k')
  {
    hide Ahead, LedgerSpec.Pending, LedgerSpec.Pass, LedgerSpec.UpdateLedger, NothingSkipped, NoRecentGap, ValidStore,
         ValidServer, Follows;
    var date := a.server.creationDate;
    var c := ChainOf(server, date);
    var r, w := Pass(a.ledger, date, ts, cutoff, now), WorkOn(a, ts, exhausted, cutoff, now);
    if Follows(server, a.(ledger := w.ledger), es + w.entries, k') {
      LinesDetermine(server, a, a.(ledger := w.ledger), es, w.entries, k, k');
      FollowsMeans(server, a, es, k);
      FollowsMeans(server, a.(ledger := w.ledger), es + w.entries, k');
      PendingIsAhead(server, a, store, k);
      FirstOnesToo(c, k, PendingOf(a, store), ts);
      PassEnd(a.ledger, date, ts, cutoff, now);
      PassBlocks(a.ledger, date, ts, cutoff, now);
      CatchUpBearsNothing(r.ledger.(pendingTransferTs := r.blockedAt), date, LatestOf(a), cutoff, now);
      BearingTwice(r.entries, w.entries[|r.entries|..], date);
      assert w.entries == r.entries + w.entries[|r.entries|..];
      if NothingSkipped(a.ledger.lastTransferNumber, ts, cutoff) {
        var k1 := PassFollows(a.ledger, date, c, k, ts, cutoff, now);
        LinesCount(c[k..k1]);
        LinesCount(c[k..k']);
      } else {
        SkippingPassStrays(a.ledger, date, c, k, ts, cutoff, now, k');
      }
    }
  }

  lemma FollowsMeans(server: Server, a: Account, es: seq<Entry>, k: nat)
    requires Follows(server, a, es, k)
    ensures k <= |ChainOf(server, a.server.creationDate)|
    ensures a.ledger.lastTransferNumber == NumberBefore(ChainOf(server, a.server.creationDate), k)
  {
  }

  lemma CatchUpBearsNothing(l: LedgerData, date: int, latest: Latest, cutoff: int, now: int)
    ensures var c := CatchUp(l, date, latest, cutoff, now);
            && Bearing(c.entries, date) == []
            && c.ledger.lastTransferNumber
               == if IsLastTransferLost(l, latest, cutoff) then latest.number else l.lastTransferNumber
  {
    UpdateBears(l, date, latest.number, 0, latest.principal, now, false);
  }

  lemma BurstFollowsExactly(p: Params, server: Server, s: State)
    requires ValidParams(p) && ValidServer(server) && ValidStore(server, s.store) && Confluent(server, s)
    ensures Confluent(server, ProcessBurst(p, s)) <==> BurstGivesNothingUp(p, s)
  {
    hide Follows, LedgerSpec.Pass, LedgerSpec.Finish, LedgerSpec.Pending, GivesNothingUp, ValidServer, ValidStore;
    if s.wake && s.account.Some? {
      var a, cutoff, now := s.account.value, s.clock - p.maxDelay, s.clock;
      var k: nat :| Follows(server, a, s.entries, k);
      var few := Take(PendingOf(a, s.store), p.burst);
      assert few <= PendingOf(a, s.store);
      if GivesNothingUp(a, few, |few| < p.burst, cutoff) {
        WorkFollows(server, a, s.entries, s.store, few, |few| < p.burst, cutoff, now, k);
      } else {
        var s' := ProcessBurst(p, s);
        forall k': nat ensures !Follows(server, s'.account.value, s'.entries, k') {
          WorkStrays(server, a, s.entries, s.store, few, |few| < p.burst, cutoff, now, k, k');
        }
      }
    }
  }

  lemma OnePassFollowsExactly(p: Params, server: Server, s: State)
    requires ValidParams(p) && ValidServer(server) && ValidStore(server, s.store) && Confluent(server, s)
    ensures Confluent(server, ProcessOnePass(p, s)) <==> OnePassGivesNothingUp(p, s)
  {
    hide Follows, LedgerSpec.Pass, LedgerSpec.Finish, LedgerSpec.Pending, GivesNothingUp, ValidServer, ValidStore;
    if s.wake && s.account.Some? {
      var a, cutoff, now := s.account.value, s.clock - p.maxDelay, s.clock;
      var k: nat :| Follows(server, a, s.entries, k);
      var all := PendingOf(a, s.store);
      if GivesNothingUp(a, all, true, cutoff) {
        WorkFollows(server, a, s.entries, s.store, all, true, cutoff, now, k);
      } else {
        var s' := ProcessOnePass(p, s);
        forall k': nat ensures !Follows(server, s'.account.value, s'.entries, k') {
          WorkStrays(server, a, s.entries, s.store, all, true, cutoff, now, k, k');
        }
      }
    }
  }

  // ---------- The other steps ----------

  /** Entries that bear no transfer do not matter. */
  lemma MoreCorrectionsFollow(server: Server, a: Account, es: seq<Entry>, k: nat, a': Account, fix: seq<Entry>)
    requires Follows(server, a, es, k)
    requires a'.server.creationDate == a.server.creationDate
    requires a'.ledger.lastTransferNumber == a.ledger.lastTransferNumber
    requires Bearing(fix, a.server.creationDate) == [] && NoLater(fix, a.server.creationDate)
    ensures Follows(server, a', es + fix, k)
  {
    BearingTwice(es, fix, a.server.creationDate);
  }

  /** A new creation date starts its chain from the beginning. */
  lemma NewDateFollows(server: Server, a: Account, es: seq<Entry>, k: nat, a': Account, fix: seq<Entry>)
    requires Follows(server, a, es, k)
    requires a'.server.creationDate > a.server.creationDate && a'.ledger.lastTransferNumber == 0
    requires Bearing(fix, a'.server.creationDate) == [] && NoLater(fix, a'.server.creationDate)
    ensures Follows(server, a', es + fix, 0)
  {
    var date := a'.server.creationDate;
    NothingLaterBears(es, a.server.creationDate, date);
    BearingTwice(es, fix, date);
    var c := ChainOf(server, date);
    assert c[..0] == [];
  }

  lemma ResetFollows(server: Server, s: State, s': State)
    requires Confluent(server, s) && ResetsLedger(s, s')
    ensures Confluent(server, s')
  {
    hide Follows, LedgerSpec.UpdateLedger;
    var a, a' := s.account.value, s'.account.value;
    var k: nat :| Follows(server, a, s.entries, k);
    var date, isNew := a'.server.creationDate, a'.server.creationDate > a.server.creationDate;
    var l := if isNew then a.ledger.(pendingTransferTs := None) else a.ledger;
    var number, principal := if isNew then 0 else l.lastTransferNumber, if isNew then 0 else l.principal;
    UpdateBears(l, date, number, 0, principal, s.clock, true);
    UpdateLedgerTells(l, date, number, 0, principal, s.clock);
    var fix := ResetOf(a.ledger, isNew, date, s.clock).entries;
    if isNew {
      NewDateFollows(server, a, s.entries, k, a', fix);
    } else {
      MoreCorrectionsFollow(server, a, s.entries, k, a', fix);
    }
  }

  lemma KeptLedgerFollows(server: Server, s: State, s': State)
    requires Confluent(server, s) && KeepsLedger(s, s')
    ensures Confluent(server, s')
  {
    var k: nat :| Follows(server, s.account.value, s.entries, k);
    assert Follows(server, s'.account.value, s'.entries, k);
  }

  lemma UpdatingFollows(server: Server, s: State, m: UpdateMsg)
    requires Confluent(server, s)
    ensures Confluent(server, AccountUpdate(s, m))
  {
    hide AccountUpdate, KeepsLedger, ResetsLedger, Follows;
    var s' := AccountUpdate(s, m);
    UpdateEffect(s, m);
    if s.account.Some? {
      if KeepsLedger(s, s') {
        KeptLedgerFollows(server, s, s');
      } else {
        ResetFollows(server, s, s');
      }
    }
  }

  lemma ScanningFollows(p: Params, server: Server, s: State)
    requires Confluent(server, s)
    ensures Confluent(server, ScanAccount(p, s))
  {
    hide Follows, LedgerSpec.CorrectingEntries, LedgerSpec.NeedsRepair, SystemSpec.HasConfigProblem;
    if s.account.Some? {
      var a, s' := s.account.value, ScanAccount(p, s);
      var k: nat :| Follows(server, a, s.entries, k);
      if NeedsCorrection(a, s.clock) {
        CorrectionBearsNothing(a, s.clock);
        var es := CorrectingEntries(a.ledger.lastEntryId, a.ledger.principal, a.server.principal, s.clock);
        MoreCorrectionsFollow(server, a, s.entries, k, s'.account.value, es);
      } else {
        assert s.entries + [] == s.entries;
        MoreCorrectionsFollow(server, a, s.entries, k, s'.account.value, []);
      }
    }
  }

  lemma CorrectionBearsNothing(a: Account, now: int)
    ensures var es := CorrectingEntries(a.ledger.lastEntryId, a.ledger.principal, a.server.principal, now);
            Bearing(es, a.server.creationDate) == [] && NoLater(es, a.server.creationDate)
  {
    CorrectionsBearNothing(a.ledger.lastEntryId, a.ledger.principal, Corrections(a.server.principal - a.ledger.principal), now,
                           a.server.creationDate);
  }

  /** At every step that gives nothing up, the ledger goes on following the chain. */
  lemma CreatingFollows(server: Server, s: State, order: seq<int>)
    requires IsOrder(order) && Confluent(server, s)
    ensures Confluent(server, CreateAccount(s, order).0)
  {
    var s' := CreateAccount(s, order).0;
    if s' != s {
      assert ChainOf(server, DATE0)[..0] == [];
      assert Follows(server, s'.account.value, [], 0);
    }
  }

  lemma LeftLedgerFollows(server: Server, s: State, s': State)
    requires Confluent(server, s) && LeavesLedger(s, s')
    ensures Confluent(server, s')
  {
    if s'.account.Some? {
      var k: nat :| Follows(server, s.account.value, s.entries, k);
      assert Follows(server, s'.account.value, s'.entries, k);
    }
  }

  lemma StepFollows(p: Params, server: Server, s: State, now: int, step: Step)
    requires ValidParams(p) && ValidServer(server) && Allowed(server, step) && ValidStore(server, s.store)
    requires Confluent(server, s)
    requires NothingGivenUp(p, s.(clock := now), step)
    ensures Confluent(server, Apply(p, s, now, step))
  {
    hide Apply, LeavesLedger, BurstGivesNothingUp, OnePassGivesNothingUp, Follows;
    var s1 := s.(clock := now);
    if IsLedgerStep(step) {
      LedgerSteps(p, s, now, step);
      match step {
        case Update(m) => UpdatingFollows(server, s1, m);
        case ScanRow => ScanningFollows(p, server, s1);
        case Create(order) => CreatingFollows(server, s1, order);
        case Burst => BurstFollowsExactly(p, server, s1);
        case OnePass => OnePassFollowsExactly(p, server, s1);
      }
    } else {
      OtherStepsLeaveLedger(p, s, now, step);
      LeftLedgerFollows(server, s, Apply(p, s, now, step));
    }
  }

  lemma ServerChain(server: Server, date: int)
    requires ValidServer(server)
    ensures IsChain(ChainOf(server, date), date)
  {
  }

  lemma LinkOfChain(c: seq<Transfer>, date: int, k: nat)
    requires IsChain(c, date) && k < |c|
    ensures c[k].date == date && c[k].prev == NumberBefore(c, k)
  {
    assert IsLink(c, date, k);
  }

  lemma NextIsHigher(c: seq<Transfer>, date: int, k: nat)
    requires IsChain(c, date) && k < |c|
    ensures c[k].number > NumberBefore(c, k)
  {
    assert IsLink(c, date, k);
  }

  /** When all of the chain that the ledger has not reached is stored, and nobody is due, the ledger holds the whole chain. */
  lemma QuietLedgerIsComplete(server: Server, s: State)
    requires ValidServer(server) && Confluent(server, s) && NoLostWakeUp(s)
    requires s.account.Some? && !s.wake
    requires var a := s.account.value;
             forall t :: t in ChainOf(server, a.server.creationDate) && t.number > a.ledger.lastTransferNumber ==> t in s.store
    ensures var c := ChainOf(server, s.account.value.server.creationDate);
            && Bearing(s.entries, s.account.value.server.creationDate) == LinesOf(c)
            && s.account.value.ledger.lastTransferNumber == NumberBefore(c, |c|)
  {
    hide IsChain, ValidServer, ChainOf, Bearing, LinesOf;
    var a, date := s.account.value, s.account.value.server.creationDate;
    var c := ChainOf(server, date);
    var k: nat :| Follows(server, a, s.entries, k);
    if k < |c| {
      assert c[k] in c;
      ServerChain(server, date);
      LinkOfChain(c, date, k);
      NextIsHigher(c, date, k);
    }
    assert c[..k] == c;
  }
}
