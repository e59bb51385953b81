/**
 * The table of ledger entries. Its rows have no foreign key: they outlive the creditor's row, and stay
 * until the scanner finds them too old. When the creditor has been reserved again, his entry ids start
 * anew; and an entry whose id is still in the table cannot be inserted.
 */
module EntryTable {
  import opened Options
  import opened AccountModel
  import opened StepEffects
  import opened SystemSpec
  import opened WakeUps
  import opened Conservation
  import opened Ids
  import opened Relics
  import opened Runs
  import opened Witnesses

  /** `rows` are the rows of `ledger_entry` for the pair, of all reservations. */
  datatype World = World(state: State, rows: seq<Entry>)

  datatype Act = Do(step: Step) | CollectEntries(ids: set<int>)

  datatype Deed = Deed(now: int, act: Act)

  /** The entries that a step writes for a living account. */
  function Written(s: State, s': State): seq<Entry> {
    if s.account.Some? && s'.account.Some? && |s.entries| <= |s'.entries| then s'.entries[|s.entries|..] else []
  }

  /** The primary key allows only one row with an id. */
  ghost predicate Collides(es: seq<Entry>, rows: seq<Entry>) {
    exists e, f :: e in es && f in rows && e.id == f.id
  }

  /** The rows with the given ids that are older than the cut-off are removed. */
  function Kept(rows: seq<Entry>, ids: set<int>, cutoff: int): (kept: seq<Entry>)
    ensures forall e :: e in kept <==> e in rows && !(e.id in ids && e.addedAt < cutoff)
  {
    if rows == [] then []
    else if rows[0].id in ids && rows[0].addedAt < cutoff then Kept(rows[1..], ids, cutoff)
    else [rows[0]] + Kept(rows[1..], ids, cutoff)
  }

  class Table {
    var rows: seq<Entry>

    /** Goes through the rows of a block, and deletes those that are too old. */
    method ProcessRows(ids: set<int>, cutoff: int)
      modifies this
      ensures rows == Kept(old(rows), ids, cutoff)
      ensures forall e :: e in rows <==> e in old(rows) && !(e.id in ids && e.addedAt < cutoff)
    {
      ghost var whole := Kept(rows, ids, cutoff);
      var rest, kept := rows, [];
      while rest != []
        invariant whole == kept + Kept(rest, ids, cutoff)
        decreases |rest|
      {
        var row := rest[0];
        if row.id !in ids || row.addedAt >= cutoff {
          kept := kept + [row];
        }
        rest := rest[1..];
      }
      rows := kept;
    }
  }

  /** An insertion fails, and the transaction with it. */
  ghost predicate Fails(p: Params, w: World, d: Deed)
    requires ValidParams(p) && (d.act.Do? ==> ValidStep(d.act.step))
  {
    d.act.Do? && Collides(Written(w.state, Apply(p, w.state, d.now, d.act.step)), w.rows)
  }

  ghost function Perform(p: Params, w: World, d: Deed): World
    requires ValidParams(p) && (d.act.Do? ==> ValidStep(d.act.step))
  {
    match d.act
    case CollectEntries(ids) => World(w.state.(clock := d.now), Kept(w.rows, ids, d.now - p.ledgerRetention))
    case Do(step) =>
      var s' := Apply(p, w.state, d.now, step);
      if Fails(p, w, d) then World(w.state.(clock := d.now), w.rows)
      else World(s', w.rows + Written(w.state, s'))
  }

  // ---------- What steps write ----------

  /** The step begins a new reservation. */
  predicate Begins(s: State, step: Step) { step.Reserve? && s.creditor.None? }

  lemma AddingWrites(s: State, s': State)
    requires Adds(s, s') && (s.account.Some? <==> s'.account.Some?) && Conserved(s) && Conserved(s')
    ensures s'.past + s'.entries == s.past + s.entries + Written(s, s') && AddedAt(Written(s, s'), s.clock)
  {
    var es :| s'.entries == s.entries + es && AddedAt(es, s.clock);
    assert s.account.Some? ==> Written(s, s') == es;
  }

  lemma LedgerStepWrites(p: Params, server: Server, s: State, now: int, step: Step)
    requires ValidParams(p) && ValidServer(server) && Allowed(server, step) && IsLedgerStep(step) && !step.Create?
    requires s.clock <= now && Conserved(s) && ColumnsFit(s)
    ensures var s' := Apply(p, s, now, step);
            && s'.past + s'.entries == s.past + s.entries + Written(s, s') && AddedAt(Written(s, s'), now)
            && s'.creditor == s.creditor
  {
    hide Apply, ProcessBurst, ProcessOnePass, AccountUpdate, ScanAccount, Adds, Conserved, ColumnsFit;
    var s1 := s.(clock := now);
    TimeConserves(s, now);
    StepConserves(p, server, s, now, step);
    LedgerSteps(p, s, now, step);
    LedgerStepsStayInside(p, s, now, step);
    match step {
      case Update(m) => UpdatingAdds(s1, m);
      case ScanRow => ScanningAdds(p, s1);
      case _ => ProcessingAdds(p, s1);
    }
    AddingWrites(s1, Apply(p, s, now, step));
  }

  /** All other steps write nothing, and only a new reservation forgets what was written. */
  lemma OtherStepsWriteNothing(p: Params, s: State, now: int, step: Step)
    requires ValidParams(p) && ValidStep(step) && (!IsLedgerStep(step) || step.Create?) && Conserved(s)
    ensures var s' := Apply(p, s, now, step);
            Written(s, s') == [] && (!Begins(s, step) ==> s'.past + s'.entries == s.past + s.entries)
  {
    hide Apply, SystemSpec.FirstIssues, SystemSpec.Deletions, SystemSpec.LastIssues, IsDisposable, LeavesTransfers,
         Continued;
    if step.Create? {
      LedgerSteps(p, s, now, step);
    } else if IsLifecycle(step) {
      LifecycleSteps(p, s, now, step);
    } else if IsRequest(step) {
      RequestEffect(p, s, now, step);
    } else {
      TransferEffect(p, s, now, step);
    }
  }

  /** The ids of the last entries are a dense range. */
  lemma LastIdsAreDense(es: seq<Entry>, n: nat, id: int, rows: seq<Entry>)
    requires n <= |es| && Continued(es, id, 0)
    ensures Collides(es[n..], rows) <==> exists f :: f in rows && id + n < f.id <= id + |es|
  {
    var last := es[n..];
    if f :| f in rows && id + n < f.id <= id + |es| {
      var i := f.id - id - 1;
      assert IsContinuation(es[i], id + 1 + i, Before(es, 0, i));
      assert last[i - n] == es[i] && last[i - n] in last;
    }
    if e, f :| e in last && f in rows && e.id == f.id {
      var i :| 0 <= i < |last| && last[i] == e;
      assert IsContinuation(es[n + i], id + 1 + n + i, Before(es, 0, n + i));
    }
  }

  /**
   * A step on the ledger fails exactly if there is a row whose id it would use: one above the
   * ledger's last entry id, and no higher than that would become.
   */
  lemma FailsExactly(p: Params, server: Server, w: World, now: int, step: Step)
    requires ValidParams(p) && ValidServer(server) && Allowed(server, step) && IsLedgerStep(step) && !step.Create?
    requires Conserved(w.state) && ColumnsFit(w.state) && w.state.clock <= now && w.state.account.Some?
    ensures var s, s' := w.state, Apply(p, w.state, now, step);
            && s'.account.Some?
            && (Fails(p, w, Deed(now, Do(step))) <==>
                  exists f :: f in w.rows && s.account.value.ledger.lastEntryId < f.id <= s'.account.value.ledger.lastEntryId)
  {
    hide Apply, ColumnsFit, Collides, Continued;
    var s, s' := w.state, Apply(p, w.state, now, step);
    LedgerStepWrites(p, server, s, now, step);
    LedgerStepsStayInside(p, s, now, step);
    StepConserves(p, server, s, now, step);
    OtherStepsKeepLives(p, server, s, now, step);
    assert |s.entries| <= |s'.entries| by {
      assert |s'.past + s'.entries| == |s.past + s.entries + Written(s, s')|;
    }
    LastIdsAreDense(s'.entries, |s.entries|, FirstId(s'), w.rows);
  }

  // ---------- What is in the table ----------

  ghost predicate AllBefore(rows: seq<Entry>, ts: int) {
    forall e :: e in rows ==> e.addedAt < ts
  }

  /** No row comes from the future, and those of a creditor who is not active are as old as they must be. */
  ghost predicate RowsFit(p: Params, w: World) {
    var s := w.state;
    && (forall e :: e in w.rows ==> e.addedAt <= s.clock)
    && (s.creditor.None? || !s.creditor.value.activated ==> AllBefore(w.rows, s.clock - p.deactivatedRetention))
    && (s.creditor.Some? && s.creditor.value.deactivated ==>
          && s.creditor.value.activated && s.creditor.value.deactivationDate.Some?
          && forall e :: e in w.rows ==> DateOf(e.addedAt) <= s.creditor.value.deactivationDate.value)
  }

  ghost predicate GoodWorld(p: Params, server: Server, w: World) {
    Good(p, server, w.state) && RowsFit(p, w)
  }

  /** All rows belong to the present reservation. */
  ghost predicate IsClean(w: World) {
    forall e :: e in w.rows ==> e in w.state.past + w.state.entries
  }

  lemma TimeIsGood(p: Params, server: Server, s: State, now: int)
    requires ValidParams(p) && ValidServer(server) && Good(p, server, s) && s.clock <= now
    ensures Good(p, server, s.(clock := now))
  {
    hide Good, Apply;
    var step := Others(0, 0, 0);
    StepIsGood(p, server, s, now, step);
    LifecycleSteps(p, s, now, step);
    assert OtherAccounts(s.(clock := now), 0, 0, 0) == s.(clock := now) by { GoodHistoricId(p, server, s); }
  }

  lemma GoodHistoricId(p: Params, server: Server, s: State)
    requires Good(p, server, s)
    ensures s.creditor.Some? ==> s.creditor.value.largestHistoricEntryId >= 0
    ensures s.account.Some? ==> HasActiveCreditor(s)
    ensures Conserved(s) && ColumnsFit(s) && EntryIds(s)
  {
  }

  lemma FewerRowsFit(p: Params, w: World, w': World)
    requires RowsFit(p, w) && w'.state == w.state.(clock := w'.state.clock) && w.state.clock <= w'.state.clock
    requires forall e :: e in w'.rows ==> e in w.rows
    ensures RowsFit(p, w') && (IsClean(w) ==> IsClean(w'))
  {
  }

  lemma LifecycleKeepsRows(p: Params, w: World, now: int, step: Step)
    requires ValidParams(p) && ValidStep(step) && IsLifecycle(step) && RowsFit(p, w) && w.state.clock <= now
    ensures RowsFit(p, World(Apply(p, w.state, now, step), w.rows))
  {
    hide Apply, SystemSpec.Deletions, SystemSpec.LastIssues;
    LifecycleSteps(p, w.state, now, step);
    if step.RemoveTheCreditor? {
      forall e | e in w.rows && w.state.creditor.Some? && w.state.creditor.value.deactivated
                 && IsDisposable(p, w.state.creditor.value, now)
        ensures e.addedAt < now - p.deactivatedRetention
      {
        DaysPass(e.addedAt, now - p.deactivatedRetention);
      }
    }
    if step.Deactivate? {
      forall e | e in w.rows ensures DateOf(e.addedAt) <= DateOf(now) {
        DaysRise(e.addedAt, now);
      }
    }
  }

  lemma DaysRise(x: int, y: int)
    requires x <= y
    ensures DateOf(x) <= DateOf(y)
  {
  }

  /** The other steps do not change the creditor's status. */
  lemma OtherStepsKeepRows(p: Params, w: World, now: int, step: Step)
    requires ValidParams(p) && ValidStep(step) && !IsLifecycle(step) && (!IsLedgerStep(step) || step.Create?)
    requires RowsFit(p, w) && w.state.clock <= now
    ensures RowsFit(p, World(Apply(p, w.state, now, step), w.rows))
  {
    hide Apply, LeavesLedger, LeavesTransfers, SystemSpec.FirstIssues;
    ApplyKeepsTime(p, w.state, now, step);
    if step.Create? {
      LedgerSteps(p, w.state, now, step);
    } else if IsRequest(step) {
      RequestEffect(p, w.state, now, step);
    } else {
      TransferEffect(p, w.state, now, step);
    }
  }

  lemma LedgerStepKeepsRows(p: Params, server: Server, w: World, now: int, step: Step)
    requires ValidParams(p) && ValidServer(server) && Allowed(server, step) && IsLedgerStep(step) && !step.Create?
    requires GoodWorld(p, server, w) && w.state.clock <= now
    ensures var s' := Apply(p, w.state, now, step); RowsFit(p, World(s', w.rows + Written(w.state, s')))
  {
    hide Apply, Good;
    GoodHistoricId(p, server, w.state);
    ApplyKeepsTime(p, w.state, now, step);
    LedgerStepWrites(p, server, w.state, now, step);
  }

  /** Every deed keeps the rows in order, whether it fails or not. */
  lemma DeedKeepsWorld(p: Params, server: Server, w: World, d: Deed)
    requires ValidParams(p) && ValidServer(server) && GoodWorld(p, server, w) && IsPossible(server, w, d)
    ensures GoodWorld(p, server, Perform(p, w, d)) && Perform(p, w, d).state.clock == d.now
  {
    hide Apply, Good, RowsFit, Fails, Written;
    var w1 := World(w.state.(clock := d.now), w.rows);
    TimeIsGood(p, server, w.state, d.now);
    match d.act {
      case CollectEntries(_) => FewerRowsFit(p, w, Perform(p, w, d));
      case Do(step) =>
        FewerRowsFit(p, w, w1);
        StepIsGood(p, server, w.state, d.now, step);
        ApplyKeepsTime(p, w.state, d.now, step);
        GoodHistoricId(p, server, w.state);
        if IsLedgerStep(step) && !step.Create? {
          LedgerStepKeepsRows(p, server, w, d.now, step);
        } else {
          OtherStepsWriteNothing(p, w.state, d.now, step);
          assert w.rows + [] == w.rows;
          if IsLifecycle(step) {
            LifecycleKeepsRows(p, w, d.now, step);
          } else {
            OtherStepsKeepRows(p, w, d.now, step);
          }
        }
    }
  }

  // ---------- Runs ----------

  ghost predicate IsPossible(server: Server, w: World, d: Deed) {
    w.state.clock <= d.now && (d.act.Do? ==> Allowed(server, d.act.step))
  }

  /** The scanner of ledger entries has left no stale row. */
  ghost predicate NothingStale(p: Params, rows: seq<Entry>, now: int) {
    forall e :: e in rows ==> e.addedAt >= now - p.ledgerRetention
  }

  /** The scanner has gone over the table whenever a new reservation begins. */
  ghost predicate IsScanned(p: Params, w: World, d: Deed) {
    d.act.Do? && Begins(w.state, d.act.step) ==> NothingStale(p, w.rows, d.now)
  }

  ghost predicate IsRun(p: Params, server: Server, w: World, deeds: seq<Deed>)
    requires ValidParams(p)
    decreases |deeds|
  {
    deeds == [] || (IsPossible(server, w, deeds[0]) && IsScanned(p, w, deeds[0])
                    && IsRun(p, server, Perform(p, w, deeds[0]), deeds[1..]))
  }

  ghost function PerformAll(p: Params, server: Server, w: World, deeds: seq<Deed>): World
    requires ValidParams(p) && IsRun(p, server, w, deeds)
    decreases |deeds|
  {
    if deeds == [] then w else PerformAll(p, server, Perform(p, w, deeds[0]), deeds[1..])
  }

  /** No insertion fails. */
  ghost predicate Succeeds(p: Params, server: Server, w: World, deeds: seq<Deed>)
    requires ValidParams(p) && IsRun(p, server, w, deeds)
    decreases |deeds|
  {
    deeds == [] || (!Fails(p, w, deeds[0]) && Succeeds(p, server, Perform(p, w, deeds[0]), deeds[1..]))
  }

  // ---------- When entries are not kept longer than creditors ----------

  lemma FirstIsARow(rows: seq<Entry>)
    ensures rows == [] || rows[0] in rows
  {
  }

  /** At a new reservation, a table without stale rows has no rows at all. */
  lemma ScannedIsEmpty(p: Params, w: World, now: int)
    requires RowsFit(p, w) && w.state.creditor.None? && w.state.clock <= now
    requires p.ledgerRetention <= p.deactivatedRetention
    ensures NothingStale(p, w.rows, now) <==> w.rows == []
  {
    FirstIsARow(w.rows);
  }

  /** After the row has been removed, a scan of the whole table leaves nothing. */
  lemma ScanLeavesNothing(p: Params, server: Server, w: World, now: int)
    requires ValidParams(p) && GoodWorld(p, server, w) && w.state.creditor.None? && w.state.clock <= now
    requires p.ledgerRetention <= p.deactivatedRetention
    ensures Perform(p, w, Deed(now, CollectEntries(set e | e in w.rows :: e.id))).rows == []
  {
    hide Good;
    var ids := set e | e in w.rows :: e.id;
    assert forall e :: e in w.rows ==> e.id in ids;
    FirstIsARow(Kept(w.rows, ids, now - p.ledgerRetention));
  }

  lemma FreshIds(xs: seq<Entry>, es: seq<Entry>, rows: seq<Entry>)
    requires Increasing(xs + es) && forall f :: f in rows ==> f in xs
    ensures !Collides(es, rows)
  {
    forall e, f | e in es && f in rows ensures e.id != f.id {
      var i :| 0 <= i < |es| && es[i] == e;
      var j :| 0 <= j < |xs| && xs[j] == f;
      assert (xs + es)[|xs| + i] == e && (xs + es)[j] == f;
    }
  }

  /** A clean table stays clean, and takes all new entries. */
  lemma CleanDeedSucceeds(p: Params, server: Server, w: World, d: Deed)
    requires ValidParams(p) && ValidServer(server) && GoodWorld(p, server, w) && IsClean(w)
    requires IsPossible(server, w, d) && IsScanned(p, w, d) && p.ledgerRetention <= p.deactivatedRetention
    ensures !Fails(p, w, d) && IsClean(Perform(p, w, d))
  {
    hide Apply, Good, Increasing;
    match d.act {
      case CollectEntries(_) =>
      case Do(step) =>
        var s, s' := w.state, Apply(p, w.state, d.now, step);
        GoodHistoricId(p, server, s);
        if Begins(s, step) {
          OtherStepsWriteNothing(p, s, d.now, step);
          ScannedIsEmpty(p, w, d.now);
        } else {
          WritesAtTheEnd(p, server, s, d.now, step);
          StepIsGood(p, server, s, d.now, step);
          GoodHistoricId(p, server, s');
          AllEntriesIncrease(s');
          FreshIds(s.past + s.entries, Written(s, s'), w.rows);
        }
    }
  }

  lemma WritesAtTheEnd(p: Params, server: Server, s: State, now: int, step: Step)
    requires ValidParams(p) && ValidServer(server) && Allowed(server, step) && !Begins(s, step)
    requires Conserved(s) && ColumnsFit(s) && s.clock <= now
    ensures var s' := Apply(p, s, now, step);
            s'.past + s'.entries == s.past + s.entries + Written(s, s') && AddedAt(Written(s, s'), now)
  {
    hide Apply, Conserved, ColumnsFit, Written;
    if IsLedgerStep(step) && !step.Create? {
      LedgerStepWrites(p, server, s, now, step);
    } else {
      OtherStepsWriteNothing(p, s, now, step);
    }
  }

  lemma {:induction false} CleanRunSucceeds(p: Params, server: Server, w: World, deeds: seq<Deed>)
    requires ValidParams(p) && ValidServer(server) && GoodWorld(p, server, w) && IsClean(w)
    requires IsRun(p, server, w, deeds) && p.ledgerRetention <= p.deactivatedRetention
    ensures Succeeds(p, server, w, deeds)
    decreases |deeds|
  {
    if deeds != [] {
      hide GoodWorld, IsClean, Perform, Fails;
      CleanDeedSucceeds(p, server, w, deeds[0]);
      DeedKeepsWorld(p, server, w, deeds[0]);
      CleanRunSucceeds(p, server, Perform(p, w, deeds[0]), deeds[1..]);
    }
  }

  // ---------- When they are kept longer ----------

  function AsDeeds(events: seq<Event>): seq<Deed> {
    seq(|events|, i requires 0 <= i < |events| => Deed(events[i].now, Do(events[i].step)))
  }

  /** The entries of the present reservation are in the table. */
  ghost predicate IsRecorded(w: World) {
    forall e :: e in w.state.past + w.state.entries ==> e in w.rows
  }

  ghost predicate AllSince(rows: seq<Entry>, start: int) {
    forall e :: e in rows ==> e.addedAt >= start
  }

  lemma SuccessRecords(p: Params, server: Server, w: World, d: Deed, start: int)
    requires ValidParams(p) && ValidServer(server) && Good(p, server, w.state)
    requires d.act.Do? && IsPossible(server, w, d) && IsRecorded(w) && AllSince(w.rows, start) && start <= d.now
    ensures var w' := Perform(p, w, d); IsRecorded(w') && AllSince(w'.rows, start) && w.rows <= w'.rows
  {
    hide Apply, Good, Fails, Conserved, ColumnsFit, EntryIds;
    var s, s' := w.state, Apply(p, w.state, d.now, d.act.step);
    GoodHistoricId(p, server, s);
    if Begins(s, d.act.step) {
      OtherStepsWriteNothing(p, s, d.now, d.act.step);
      LifecycleSteps(p, s, d.now, d.act.step);
      assert s.entries == [] by { NoAccountNoEntries(s); }
    } else {
      WritesAtTheEnd(p, server, s, d.now, d.act.step);
    }
  }

  lemma NoAccountNoEntries(s: State)
    requires Conserved(s) && EntryIds(s) && s.creditor.None?
    ensures s.entries == []
  {
  }

  /** Deeds within the retention interval: nothing becomes stale. */
  lemma {:induction false} DeedsFollowRun(p: Params, server: Server, w: World, events: seq<Event>, start: int)
    requires ValidParams(p) && ValidServer(server) && Good(p, server, w.state) && Legal(server, w.state.clock, events)
    requires IsRecorded(w) && AllSince(w.rows, start)
    requires forall e :: e in events ==> start <= e.now <= start + p.ledgerRetention
    ensures IsRun(p, server, w, AsDeeds(events))
    ensures var w' := PerformAll(p, server, w, AsDeeds(events));
            && Good(p, server, w'.state) && w'.state.clock == Run(p, server, w.state, events).clock
            && IsRecorded(w') && AllSince(w'.rows, start) && w.rows <= w'.rows
            && (Succeeds(p, server, w, AsDeeds(events)) ==> w'.state == Run(p, server, w.state, events))
    decreases |events|
  {
    if events != [] {
      hide Apply, Good, IsRecorded, AllSince, Fails;
      var e, d := events[0], AsDeeds(events)[0];
      assert AsDeeds(events)[1..] == AsDeeds(events[1..]);
      assert e in events;
      SinceIsFresh(p, w.rows, start, e.now);
      SuccessRecords(p, server, w, d, start);
      TimeIsGood(p, server, w.state, e.now);
      StepIsGood(p, server, w.state, e.now, e.step);
      ApplyKeepsTime(p, w.state, e.now, e.step);
      DeedsFollowRun(p, server, Perform(p, w, d), events[1..], start);
      RunEnds(p, server, Perform(p, w, d).state, Apply(p, w.state, e.now, e.step), events[1..]);
    }
  }

  /** The clock at the end depends on the events only. */
  lemma {:induction false} RunEnds(p: Params, server: Server, s: State, t: State, events: seq<Event>)
    requires ValidParams(p) && s.clock == t.clock && Legal(server, s.clock, events)
    ensures Run(p, server, s, events).clock == Run(p, server, t, events).clock
    decreases |events|
  {
    if events != [] {
      hide Apply;
      ApplyKeepsTime(p, s, events[0].now, events[0].step);
      ApplyKeepsTime(p, t, events[0].now, events[0].step);
      var e := events[0];
      RunEnds(p, server, Apply(p, s, e.now, e.step), Apply(p, t, e.now, e.step), events[1..]);
    }
  }

  lemma SinceIsFresh(p: Params, rows: seq<Entry>, start: int, now: int)
    requires AllSince(rows, start) && now - p.ledgerRetention <= start
    ensures NothingStale(p, rows, now)
  {
  }

  lemma {:induction false} PerformTwice(p: Params, server: Server, w: World, xs: seq<Deed>, ys: seq<Deed>)
    requires ValidParams(p) && IsRun(p, server, w, xs) && IsRun(p, server, PerformAll(p, server, w, xs), ys)
    ensures IsRun(p, server, w, xs + ys)
    ensures Succeeds(p, server, w, xs + ys) ==>
              Succeeds(p, server, w, xs) && Succeeds(p, server, PerformAll(p, server, w, xs), ys)
    decreases |xs|
  {
    hide Perform, Fails;
    if xs == [] {
      assert xs + ys == ys;
    } else {
      assert (xs + ys)[1..] == xs[1..] + ys;
      PerformTwice(p, server, Perform(p, w, xs[0]), xs[1..], ys);
    }
  }

  function EmptyWorld(clock: int, uidSeq: int): World { World(Start(clock, uidSeq), []) }

  /** Two lives of a creditor, and the scanner finds nothing to collect between them. */
  function TwoLivesInTable(at: int, later: int): seq<Deed> {
    AsDeeds(FirstLife(at)) + (AsDeeds(SecondOpening(later)) + [Deed(later, Do(Burst))])
  }

  lemma EventTimes(at: int, later: int)
    ensures forall e :: e in FirstLife(at) ==> e.now == at
    ensures forall e :: e in SecondOpening(later) ==> e.now == later
  {
  }

  /** After the first life. */
  lemma FirstLifeInTable(p: Params, at: nat) returns (w: World)
    requires ValidParams(p)
    ensures ValidServer(OneTransfer(at)) && IsRun(p, OneTransfer(at), EmptyWorld(0, 0), AsDeeds(FirstLife(at)))
    ensures w == PerformAll(p, OneTransfer(at), EmptyWorld(0, 0), AsDeeds(FirstLife(at)))
    ensures Good(p, OneTransfer(at), w.state) && w.state.clock == at && IsRecorded(w) && AllSince(w.rows, at)
    ensures Succeeds(p, OneTransfer(at), EmptyWorld(0, 0), AsDeeds(FirstLife(at))) ==>
              && FirstEntry(at) in w.rows && w.state.account.None? && w.state.store == [Only(at)]
              && w.state.creditor.Some? && w.state.creditor.value.deactivated
              && w.state.creditor.value.deactivationDate == Some(DateOf(at))
  {
    hide FirstLife, Run, Legal, Good, DateOf, IsRun, Succeeds;
    var server, w0 := OneTransfer(at), EmptyWorld(0, 0);
    OneIsValid(at);
    StartIsGood(p, server, 0, 0);
    EventTimes(at, at);
    FirstLifeLeaves(p, at);
    DeedsFollowRun(p, server, w0, FirstLife(at), at);
    w := PerformAll(p, server, w0, AsDeeds(FirstLife(at)));
  }

  /** After the second opening, if nothing has failed so far, the posting fails. */
  lemma SecondPostingFails(p: Params, w: World, at: int, later: int)
    requires ValidParams(p) && IsOpen(w.state, later, 1, 10) && w.state.store == [Only(at)] && FirstEntry(at) in w.rows
    ensures Fails(p, w, Deed(later, Do(Burst)))
  {
    hide Apply, ProcessBurst;
    LedgerSteps(p, w.state, later, Burst);
    assert w.state.(clock := later) == w.state;
    FirstIsPosted(p, w.state, later, at);
    assert Written(w.state, Apply(p, w.state, later, Burst)) == [FirstEntry(later)];
    assert FirstEntry(later) in [FirstEntry(later)];
  }

  lemma OneDeed(p: Params, server: Server, w: World, now: int)
    requires ValidParams(p) && w.state.clock <= now
    ensures IsRun(p, server, w, [Deed(now, Do(Burst))])
    ensures Succeeds(p, server, w, [Deed(now, Do(Burst))]) ==> !Fails(p, w, Deed(now, Do(Burst)))
  {
    hide Perform, Fails;
    assert [Deed(now, Do(Burst))][1..] == [];
  }

  /** The first posting of the second life fails, because the row of the first one is still there. */
  lemma SecondLifeFails(p: Params, at: nat, later: int)
    requires ValidParams(p) && at <= later <= at + p.ledgerRetention && IsLongGone(p, at, later)
    ensures var server, w, deeds := OneTransfer(at), EmptyWorld(0, 0), TwoLivesInTable(at, later);
            ValidServer(server) && IsRun(p, server, w, deeds) && !Succeeds(p, server, w, deeds)
  {
    hide FirstLife, SecondOpening, Run, Legal, Good, IsRun, Succeeds, Fails, IsLongGone, DateOf;
    var server, w, opening, last := OneTransfer(at), EmptyWorld(0, 0), SecondOpening(later), [Deed(later, Do(Burst))];
    var w7 := FirstLifeInTable(p, at);
    EventTimes(at, later);
    FirstLifeLeaves(p, at);
    var s7 := Run(p, server, w.state, FirstLife(at));
    SecondLifeOpens(p, s7, at, later);
    DeedsFollowRun(p, server, w7, opening, at);
    RunEnds(p, server, s7, w7.state, opening);
    var w9 := PerformAll(p, server, w7, AsDeeds(opening));
    OneDeed(p, server, w9, later);
    PerformTwice(p, server, w7, AsDeeds(opening), last);
    PerformTwice(p, server, w, AsDeeds(FirstLife(at)), AsDeeds(opening) + last);
    if Succeeds(p, server, w, TwoLivesInTable(at, later)) {
      SecondLifeOpens(p, w7.state, at, later);
      SecondPostingFails(p, w9, at, later);
      assert false;
    }
  }

  /**
   * When the scanner of ledger entries has gone over the table at each new reservation, no insertion
   * of a ledger entry ever fails, exactly if entries are not kept longer than deactivated creditors.
   */
  lemma InsertionsSucceedExactly(p: Params)
    requires ValidParams(p)
    ensures (forall server: Server, clock: int, uidSeq: int, deeds: seq<Deed> ::
               ValidServer(server) && IsRun(p, server, EmptyWorld(clock, uidSeq), deeds) ==>
                 Succeeds(p, server, EmptyWorld(clock, uidSeq), deeds))
       <==> p.ledgerRetention <= p.deactivatedRetention
  {
    hide IsRun, Succeeds, GoodWorld;
    if p.ledgerRetention <= p.deactivatedRetention {
      forall server: Server, clock: int, uidSeq: int, deeds: seq<Deed>
        | ValidServer(server) && IsRun(p, server, EmptyWorld(clock, uidSeq), deeds)
        ensures Succeeds(p, server, EmptyWorld(clock, uidSeq), deeds)
      {
        EmptyIsGood(p, server, clock, uidSeq);
        CleanRunSucceeds(p, server, EmptyWorld(clock, uidSeq), deeds);
      }
    } else {
      var at, later := DAY - 1, DAY - 1 + Max(p.deactivatedRetention + 1, 0);
      LongGoneAfterDays(p, at, later);
      SecondLifeFails(p, at, later);
    }
  }

  lemma LongGoneAfterDays(p: Params, at: int, later: int)
    requires at == DAY - 1 && later == DAY - 1 + Max(p.deactivatedRetention + 1, 0)
    ensures IsLongGone(p, at, later)
  {
  }

  lemma EmptyIsGood(p: Params, server: Server, clock: int, uidSeq: int)
    ensures GoodWorld(p, server, EmptyWorld(clock, uidSeq)) && IsClean(EmptyWorld(clock, uidSeq))
  {
    StartIsGood(p, server, clock, uidSeq);
  }
}
