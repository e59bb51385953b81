/** Whole runs of a creditor's log: how its entries are numbered, and what a client sees of them. */
module LogFollowing {
  import opened Options
  import opened CreditorLog

  datatype Step =
    | Queued(entry: PendingLogEntry)
    | Processed(visited: seq<PendingLogEntry>)
    | Scanned(ids: set<int>, cutoff: int)
    | Reserved
    | Removed
    | Read

  /** What the client knows: where to go on, and the entries it has received. */
  datatype Client = Client(cursor: int, received: seq<LogEntry>)

  function Remove(s: State): State { s.(creditor := None) }

  function Apply(s: State, step: Step): State {
    match step
    case Queued(entry) => s.(pending := s.pending + {entry})
    case Processed(visited) => Process(s, visited)
    case Scanned(ids, cutoff) => s.(entries := Collected(s.entries, ids, cutoff))
    case Reserved => Reserve(s)
    case Removed => Remove(s)
    case Read => s
  }

  /** The client follows the page's link, be it `next` or `forthcoming`. */
  function ReadPage(s: State, c: Client, n: nat): Client
    requires n >= 1
  {
    match GetLogPage(s, c.cursor, n)
    case None => c
    case Some(page) => Client(page.cursor, c.received + page.items)
  }

  function Run(s: State, steps: seq<Step>): State
    decreases |steps|
  {
    if steps == [] then s else Run(Apply(s, steps[0]), steps[1..])
  }

  function Follow(s: State, c: Client, steps: seq<Step>, n: nat): Client
    requires n >= 1
    decreases |steps|
  {
    if steps == [] then c
    else Follow(Apply(s, steps[0]), if steps[0].Read? then ReadPage(s, c, n) else c, steps[1..], n)
  }

  // ---------- Numbering ----------

  ghost predicate Rising(entries: seq<LogEntry>) {
    forall i, j :: 0 <= i < j < |entries| ==> entries[i].id < entries[j].id
  }

  /** Since the reservation, every id has been given to one entry; older entries have smaller ids. */
  ghost predicate Dense(base: int, last: int, entries: seq<LogEntry>, written: seq<LogEntry>) {
    && base >= 0
    && last == base + |written|
    && (forall i :: 0 <= i < |written| ==> written[i].id == base + 1 + i)
    && (forall e :: e in entries ==> e.id <= base || e in written)
  }

  ghost predicate Numbered(s: State) {
    && Rising(s.entries)
    && (forall e :: e in s.entries ==> e.id > 0)
    && (s.creditor.Some? ==> Dense(s.base, s.creditor.value.lastLogEntryId, s.entries, s.written))
  }

  /** No stored id exceeds the last one, whatever was removed and reserved before. */
  lemma LastIdIsLargest(s: State, e: LogEntry)
    requires Numbered(s) && s.creditor.Some? && e in s.entries
    ensures 0 < e.id <= s.creditor.value.lastLogEntryId
  {
    if e.id > s.base {
      var i :| 0 <= i < |s.written| && s.written[i] == e;
    }
  }

  /** The same lines are added to the stored entries and to the history. */
  ghost predicate Grown(base: int, b: Book, h: Book) {
    b.row == h.row && Rising(b.entries) && (forall e :: e in b.entries ==> e.id > 0)
    && Dense(base, b.row.lastLogEntryId, b.entries, h.entries)
  }

  lemma AddLineGrows(base: int, b: Book, h: Book, line: Line)
    requires Grown(base, b, h)
    ensures Grown(base, AddLine(b, line), AddLine(h, line))
  {
    forall e | e in b.entries ensures e.id <= b.row.lastLogEntryId {
      if e.id > base {
        var i :| 0 <= i < |h.entries| && h.entries[i] == e;
      }
    }
    assert forall e :: e in AddLine(b, line).entries ==> e in b.entries || e == LogEntry(b.row.lastLogEntryId + 1, line);
  }

  lemma GrownRows(base: int, b: Book, h: Book)
    requires Grown(base, b, h)
    ensures b.row == h.row
  {
  }

  lemma RowMayChange(base: int, b: Book, h: Book, row: CreditorRow)
    requires Grown(base, b, h) && row.lastLogEntryId == b.row.lastLogEntryId
    ensures Grown(base, b.(row := row), h.(row := row))
  {
  }

  lemma AddEntryGrows(base: int, b: Book, h: Book, line: Line)
    requires Grown(base, b, h)
    ensures Grown(base, AddEntry(b, line), AddEntry(h, line))
    ensures b.entries <= AddEntry(b, line).entries && h.entries <= AddEntry(h, line).entries
  {
    hide Grown;
    AddLineGrows(base, b, h, line);
    GrownRows(base, b, h);
    var b1, h1 := AddLine(b, line), AddLine(h, line);
    var row := b1.row.(transfersListId := b1.row.transfersListId + 1, transfersListTs := line.addedAt);
    RowMayChange(base, b1, h1, row);
    AddLineGrows(base, b1.(row := row), h1.(row := row), TransfersListLine(row.transfersListId, line.addedAt));
  }

  lemma {:induction false} AddAllGrows(base: int, b: Book, h: Book, visited: seq<PendingLogEntry>)
    requires Grown(base, b, h)
    ensures Grown(base, AddAll(b, visited), AddAll(h, visited))
    ensures b.entries <= AddAll(b, visited).entries && h.entries <= AddAll(h, visited).entries
  {
    if visited != [] {
      var k := |visited| - 1;
      AddAllGrows(base, b, h, visited[..k]);
      hide AddEntry, Grown;
      AddEntryGrows(base, AddAll(b, visited[..k]), AddAll(h, visited[..k]), visited[k].line);
    }
  }

  lemma {:induction false} CollectedRises(entries: seq<LogEntry>, ids: set<int>, cutoff: int)
    requires Rising(entries)
    ensures Rising(Collected(entries, ids, cutoff))
  {
    if entries != [] {
      CollectedRises(entries[1..], ids, cutoff);
      forall e | e in Collected(entries[1..], ids, cutoff) ensures entries[0].id < e.id {
        var i :| 0 <= i < |entries[1..]| && entries[1..][i] == e;
      }
    }
  }

  lemma StepKeepsNumbers(s: State, step: Step)
    requires Numbered(s)
    ensures Numbered(Apply(s, step))
  {
    match step {
      case Processed(visited) =>
        if s.creditor.Some? {
          AddAllGrows(s.base, Book(s.creditor.value, s.entries), Book(s.creditor.value, s.written), visited);
        }
      case Scanned(ids, cutoff) => CollectedRises(s.entries, ids, cutoff);
      case _ =>
    }
  }

  /** In every run: ids are dense while the creditor's row lives, and rise across reservations. */
  lemma {:induction false} RunKeepsNumbers(s: State, steps: seq<Step>)
    requires Numbered(s)
    ensures Numbered(Run(s, steps))
    decreases |steps|
  {
    if steps != [] {
      StepKeepsNumbers(s, steps[0]);
      hide Apply, Numbered;
      RunKeepsNumbers(Apply(s, steps[0]), steps[1..]);
    }
  }

  // ---------- The list of transfers ----------

  function Changes(visited: seq<PendingLogEntry>): nat {
    if visited == [] then 0
    else Changes(visited[..|visited| - 1]) + if ChangesTransfersList(visited[|visited| - 1].line) then 1 else 0
  }

  /**
   * Each visited entry gets the next id; each creation and deletion of a transfer gets one id more,
   * and raises the list's update id by one.
   */
  lemma {:induction false} ProcessingCounts(b: Book, visited: seq<PendingLogEntry>)
    ensures var b' := AddAll(b, visited);
            && b'.row.transfersListId == b.row.transfersListId + Changes(visited)
            && b'.row.lastLogEntryId == b.row.lastLogEntryId + |visited| + Changes(visited)
            && |b'.entries| == |b.entries| + |visited| + Changes(visited)
            && (forall e :: e in visited ==> exists x :: x in b'.entries && x.line == e.line)
  {
    if visited != [] {
      var k := |visited| - 1;
      var b1 := AddAll(b, visited[..k]);
      ProcessingCounts(b, visited[..k]);
      var added := AddLine(b1, visited[k].line).entries;
      assert added <= AddEntry(b1, visited[k].line).entries;
      assert added[|added| - 1].line == visited[k].line;
      forall e | e in visited ensures exists x :: x in AddAll(b, visited).entries && x.line == e.line {
        if e in visited[..k] {
          var x :| x in b1.entries && x.line == e.line;
          assert x in AddAll(b, visited).entries;
        }
      }
    }
  }

  // ---------- Following ----------

  lemma {:induction false} AllComeAfter(entries: seq<LogEntry>, prev: int)
    requires forall e :: e in entries ==> e.id > prev
    ensures After(entries, prev) == entries
  {
    if entries != [] {
      AllComeAfter(entries[1..], prev);
    }
  }

  /** In a rising log, what comes after an id is a tail of the log. */
  lemma {:induction false} AfterIsATail(entries: seq<LogEntry>, prev: int) returns (j: nat)
    requires Rising(entries)
    ensures j <= |entries| && After(entries, prev) == entries[j..]
    ensures forall i :: 0 <= i < j ==> entries[i].id <= prev
    ensures forall i :: j <= i < |entries| ==> entries[i].id > prev
  {
    if entries == [] {
      j := 0;
    } else if entries[0].id > prev {
      j := 0;
      AllComeAfter(entries, prev);
    } else {
      var tail := entries[1..];
      var k := AfterIsATail(tail, prev);
      j := k + 1;
      assert forall i :: 0 < i < |entries| ==> entries[i] == tail[i - 1];
    }
  }

  lemma TailsMeet(entries: seq<LogEntry>, i: nat, j: nat)
    requires Rising(entries) && i < |entries| && j <= |entries|
    requires forall x :: 0 <= x < j ==> entries[x].id <= entries[i].id
    requires forall x :: j <= x < |entries| ==> entries[x].id > entries[i].id
    ensures j == i + 1
  {
    var pivot := entries[i];
    assert j > i;
    if i + 1 < |entries| {
      assert entries[i].id < entries[i + 1].id;
      assert j <= i + 1;
    }
  }

  lemma TailRises(entries: seq<LogEntry>, j: nat)
    requires Rising(entries) && j <= |entries|
    ensures Rising(entries[j..])
  {
  }

  /** Reading on after the k-th of the entries gives the entries after it. */
  lemma AfterSplits(entries: seq<LogEntry>, prev: int, k: nat)
    requires Rising(entries) && k < |After(entries, prev)|
    ensures After(entries, After(entries, prev)[k].id) == After(entries, prev)[k + 1..]
    ensures Rising(After(entries, prev)) && prev < After(entries, prev)[k].id
  {
    hide After, Rising;
    var rest := After(entries, prev);
    var j := AfterIsATail(entries, prev);
    assert rest[k] == entries[j + k];
    var j' := AfterIsATail(entries, rest[k].id);
    TailsMeet(entries, j + k, j');
    TailRises(entries, j);
    assert entries[j..][k + 1..] == entries[j'..];
  }

  /**
   * Since it started at `c0`, the client has received every entry that is still stored, up to the
   * cursor, once and in order; and nothing else.
   */
  ghost predicate Following(s: State, c0: int, c: Client) {
    && s.creditor.Some?
    && c0 <= c.cursor <= s.creditor.value.lastLogEntryId
    && Rising(c.received)
    && (forall e :: e in c.received ==> c0 < e.id <= c.cursor)
    && (forall e :: e in c.received && e.id > s.base ==> e in s.written)
    && (forall e :: e in s.entries && c0 < e.id <= c.cursor ==> e in c.received)
  }

  /** A page holds exactly the stored entries between the two cursors, in order. */
  lemma PageIsAnInterval(s: State, prev: int, n: nat)
    requires n >= 1 && Numbered(s) && s.creditor.Some? && prev <= s.creditor.value.lastLogEntryId
    ensures var page := GetLogPage(s, prev, n).value;
            && prev <= page.cursor <= s.creditor.value.lastLogEntryId
            && Rising(page.items)
            && (forall e :: e in page.items <==> e in s.entries && prev < e.id <= page.cursor)
  {
    hide Dense, Rising;
    var rest := After(s.entries, prev);
    AfterRises(s.entries, prev);
    forall e | e in s.entries ensures e.id <= s.creditor.value.lastLogEntryId { LastIdIsLargest(s, e); }
    if !GetLogPage(s, prev, n).value.isLast {
      PrefixIsAnInterval(rest, n);
      assert rest[n - 1] in rest;
    }
  }

  lemma AfterRises(entries: seq<LogEntry>, prev: int)
    requires Rising(entries)
    ensures Rising(After(entries, prev))
  {
    hide After;
    var j := AfterIsATail(entries, prev);
    TailRises(entries, j);
  }

  lemma PrefixIsAnInterval(rest: seq<LogEntry>, n: nat)
    requires Rising(rest) && 1 <= n <= |rest|
    ensures Rising(rest[..n])
    ensures forall e :: e in rest[..n] <==> e in rest && e.id <= rest[n - 1].id
  {
    forall e | e in rest && e.id <= rest[n - 1].id ensures e in rest[..n] {
      var i :| 0 <= i < |rest| && rest[i] == e;
      assert i < n ==> rest[..n][i] == e;
    }
  }

  lemma ReadingFollows(s: State, c0: int, c: Client, n: nat)
    requires n >= 1 && Numbered(s) && Following(s, c0, c)
    ensures Following(s, c0, ReadPage(s, c, n))
  {
    PageIsAnInterval(s, c.cursor, n);
    var items := GetLogPage(s, c.cursor, n).value.items;
    hide GetLogPage;
    forall e | e in items && e.id > s.base ensures e in s.written { assert e in s.entries; }
    RisingConcatenation(c.received, items, c.cursor);
  }

  lemma RisingConcatenation(xs: seq<LogEntry>, ys: seq<LogEntry>, cursor: int)
    requires Rising(xs) && Rising(ys)
    requires (forall e :: e in xs ==> e.id <= cursor) && (forall e :: e in ys ==> cursor < e.id)
    ensures Rising(xs + ys)
  {
    forall i, j | 0 <= i < j < |xs + ys| ensures (xs + ys)[i].id < (xs + ys)[j].id {
      if i < |xs| <= j {
        assert xs[i] in xs && ys[j - |xs|] in ys;
      }
    }
  }

  lemma {:induction false} NewIdsAreLarger(b: Book, visited: seq<PendingLogEntry>)
    ensures b.row.lastLogEntryId <= AddAll(b, visited).row.lastLogEntryId
    ensures forall e :: e in AddAll(b, visited).entries ==> e in b.entries || e.id > b.row.lastLogEntryId
  {
    if visited != [] {
      var k := |visited| - 1;
      NewIdsAreLarger(b, visited[..k]);
      NewIdIsLarger(AddAll(b, visited[..k]), visited[k].line);
    }
  }

  lemma NewIdIsLarger(b: Book, line: Line)
    ensures b.row.lastLogEntryId <= AddEntry(b, line).row.lastLogEntryId
    ensures forall e :: e in AddEntry(b, line).entries ==> e in b.entries || e.id > b.row.lastLogEntryId
  {
  }

  lemma ProcessingFollows(s: State, visited: seq<PendingLogEntry>, c0: int, c: Client)
    requires Numbered(s) && Following(s, c0, c)
    ensures Following(Process(s, visited), c0, c)
  {
    hide AddAll, Rising, Dense;
    var b, h := Book(s.creditor.value, s.entries), Book(s.creditor.value, s.written);
    AddAllGrows(s.base, b, h, visited);
    NewIdsAreLarger(b, visited);
    PrefixIsKept(s.written, AddAll(h, visited).entries);
  }

  lemma PrefixIsKept(xs: seq<LogEntry>, ys: seq<LogEntry>)
    requires xs <= ys
    ensures forall x :: x in xs ==> x in ys
  {
  }

  lemma StepFollows(s: State, step: Step, c0: int, c: Client)
    requires Numbered(s) && Following(s, c0, c) && !step.Removed?
    ensures Following(Apply(s, step), c0, c)
  {
    hide Numbered, Process;
    if step.Processed? {
      ProcessingFollows(s, step.visited, c0, c);
    }
  }

  /**
   * Whatever is queued, processed or removed from the log meanwhile: a client that follows the links
   * has received every entry that is still stored, up to its cursor, exactly once and in order.
   */
  lemma {:induction false} LogIsFollowed(s: State, c0: int, c: Client, steps: seq<Step>, n: nat)
    requires n >= 1 && Numbered(s) && Following(s, c0, c)
    requires forall step :: step in steps ==> !step.Removed?
    ensures Following(Run(s, steps), c0, Follow(s, c, steps, n))
    decreases |steps|
  {
    if steps != [] {
      var s', c' := Apply(s, steps[0]), if steps[0].Read? then ReadPage(s, c, n) else c;
      if steps[0].Read? {
        ReadingFollows(s, c0, c, n);
      } else {
        StepFollows(s, steps[0], c0, c);
      }
      StepKeepsNumbers(s, steps[0]);
      assert steps[0] in steps;
      hide Apply, ReadPage, Numbered, Following;
      LogIsFollowed(s', c0, c', steps[1..], n);
    }
  }

  lemma PageAdvances(s: State, prev: int, n: nat)
    requires n >= 1 && Numbered(s) && s.creditor.Some? && !GetLogPage(s, prev, n).value.isLast
    ensures var rest, page := After(s.entries, prev), GetLogPage(s, prev, n).value;
            |rest| >= n && page.items == rest[..n] && After(s.entries, page.cursor) == rest[n..]
  {
    AfterSplits(s.entries, prev, n - 1);
  }

  /** The same from the very beginning, for a client that starts at any id that has been reached. */
  lemma FollowersMissNothing(before: seq<Step>, c0: int, steps: seq<Step>, n: nat)
    requires n >= 1
    requires var s := Run(State(None, {}, [], 0, []), before);
             s.creditor.Some? && c0 <= s.creditor.value.lastLogEntryId
    requires forall step :: step in steps ==> !step.Removed?
    ensures var s := Run(State(None, {}, [], 0, []), before);
            var s', c := Run(s, steps), Follow(s, Client(c0, []), steps, n);
            && Rising(c.received)
            && (forall e :: e in s'.entries && c0 < e.id <= c.cursor ==> e in c.received)
            && (forall e :: e in c.received ==> c0 < e.id <= c.cursor)
  {
    var s := Run(State(None, {}, [], 0, []), before);
    RunKeepsNumbers(State(None, {}, [], 0, []), before);
    LogIsFollowed(s, c0, Client(c0, []), steps, n);
  }

  /** Following the `next` links up to the last page. */
  ghost function ReadAll(s: State, c: Client, n: nat): Client
    requires n >= 1 && Numbered(s) && s.creditor.Some?
    decreases |After(s.entries, c.cursor)|
  {
    if GetLogPage(s, c.cursor, n).value.isLast then ReadPage(s, c, n)
    else
      PageAdvances(s, c.cursor, n);
      ReadAll(s, ReadPage(s, c, n), n)
  }

  /** The pages up to the last one hold everything after the cursor, and lead to the last id. */
  lemma {:induction false} ReadAllGetsEverything(s: State, c: Client, n: nat)
    requires n >= 1 && Numbered(s) && s.creditor.Some?
    ensures ReadAll(s, c, n)
         == Client(s.creditor.value.lastLogEntryId, c.received + After(s.entries, c.cursor))
    decreases |After(s.entries, c.cursor)|
  {
    hide Numbered, After, ReadPage;
    if GetLogPage(s, c.cursor, n).value.isLast {
      LastPageHasTheRest(s, c, n);
    } else {
      NextPageGoesOn(s, c, n);
      ReadAllGetsEverything(s, ReadPage(s, c, n), n);
    }
  }

  lemma LastPageHasTheRest(s: State, c: Client, n: nat)
    requires n >= 1 && s.creditor.Some? && GetLogPage(s, c.cursor, n).value.isLast
    ensures ReadPage(s, c, n) == Client(s.creditor.value.lastLogEntryId, c.received + After(s.entries, c.cursor))
  {
  }

  lemma NextPageGoesOn(s: State, c: Client, n: nat)
    requires n >= 1 && Numbered(s) && s.creditor.Some? && !GetLogPage(s, c.cursor, n).value.isLast
    ensures var c' := ReadPage(s, c, n);
            && |After(s.entries, c'.cursor)| < |After(s.entries, c.cursor)|
            && c'.received + After(s.entries, c'.cursor) == c.received + After(s.entries, c.cursor)
  {
    hide Numbered, After;
    var rest := After(s.entries, c.cursor);
    PageAdvances(s, c.cursor, n);
    Associate(c.received, rest[..n], rest[n..]);
    assert rest[..n] + rest[n..] == rest;
  }

  // ---------- A cursor across a new reservation ----------

  /**
   * The creditor is removed and, whatever has been collected meanwhile, reserved again. A reader's
   * cursor precedes all new entries exactly if it is zero, or if the entry at the cursor, the one
   * before it or a later one is still stored.
   */
  lemma CursorSurvivesReservation(s: State, cursor: int, line: Line)
    requires Numbered(s) && s.creditor.None?
    ensures var s1 := Reserve(s);
            var s2 := Process(s1, [PendingLogEntry(0, line)]);
            var first := LogEntry(s1.creditor.value.lastLogEntryId + 1, line);
            && first in s2.entries
            && (first in After(s2.entries, cursor) <==> cursor <= 0 || exists e :: e in s.entries && cursor - 1 <= e.id)
  {
    var s1 := Reserve(s);
    var b := Book(s1.creditor.value, s1.entries);
    var visited := [PendingLogEntry(0, line)];
    assert visited[..0] == [];
    assert AddAll(b, visited) == AddEntry(b, line);
    var first := LogEntry(b.row.lastLogEntryId + 1, line);
    assert AddLine(b, line).entries <= AddEntry(b, line).entries;
    assert AddLine(b, line).entries[|b.entries|] == first;
    var relic := MaxId(s.entries);
  }

  const LINE := Line(Some("Account"), None, Some(1), None, 0, NO_DETAILS)

  function Entry(id: int): PendingLogEntry { PendingLogEntry(id, LINE) }

  /** Two entries are written and collected; then the creditor is reserved again, and gets a third. */
  const FIRST_LIFE := [Reserved] + [Queued(Entry(1))] + [Queued(Entry(2))] + [Processed([Entry(1), Entry(2)])]
  const SECOND_LIFE :=
    FIRST_LIFE + [Scanned({1, 2}, 1)] + [Removed] + [Reserved] + [Queued(Entry(3))] + [Processed([Entry(3)])]

  lemma {:induction false} RunTwice(s: State, xs: seq<Step>, ys: seq<Step>)
    ensures Run(s, xs + ys) == Run(Run(s, xs), ys)
    decreases |xs|
  {
    if xs == [] {
      assert xs + ys == ys;
    } else {
      assert (xs + ys)[1..] == xs[1..] + ys;
      RunTwice(Apply(s, xs[0]), xs[1..], ys);
    }
  }

  lemma LineChangesNoList()
    ensures !ChangesTransfersList(LINE)
  {
    assert |"Account"| != |TRANSFER|;
  }

  lemma EntriesAreAdded(row: CreditorRow, n: nat)
    requires n <= 2 && row.lastLogEntryId == 0
    ensures var visited := if n == 0 then [] else if n == 1 then [Entry(3)] else [Entry(1), Entry(2)];
            var b := AddAll(Book(row, []), visited);
            && b.row.lastLogEntryId == n
            && b.entries == if n == 0 then [] else if n == 1 then [LogEntry(1, LINE)] else [LogEntry(1, LINE), LogEntry(2, LINE)]
  {
    LineChangesNoList();
    var b := Book(row, []);
    assert [Entry(1), Entry(2)][..1] == [Entry(1)] && [Entry(1)][..0] == [];
    assert [Entry(3)][..0] == [];
    assert AddAll(b, []) == b;
    assert AddAll(b, [Entry(1)]) == AddEntry(AddAll(b, [Entry(1)][..0]), LINE);
    assert AddAll(b, [Entry(3)]) == AddEntry(AddAll(b, [Entry(3)][..0]), LINE);
  }

  lemma CollectsAll(entries: seq<LogEntry>)
    requires entries == [LogEntry(1, LINE), LogEntry(2, LINE)]
    ensures Collected(entries, {1, 2}, 1) == []
  {
    assert entries[1..] == [LogEntry(2, LINE)];
  }

  lemma RunMore(s: State, xs: seq<Step>, x: Step)
    ensures Run(s, xs + [x]) == Apply(Run(s, xs), x)
  {
    RunTwice(s, xs, [x]);
    assert Run(Run(s, xs), [x]) == Run(Apply(Run(s, xs), x), [x][1..]);
  }

  lemma FirstLife()
    ensures var s := Run(State(None, {}, [], 0, []), FIRST_LIFE);
            && s.creditor.Some? && s.creditor.value.lastLogEntryId == 2
            && s.entries == [LogEntry(1, LINE), LogEntry(2, LINE)]
  {
    hide AddAll;
    var empty := State(None, {}, [], 0, []);
    EntriesAreAdded(Apply(empty, Reserved).creditor.value, 2);
    assert [] + [Reserved] == [Reserved];
    RunMore(empty, [], Reserved);
    RunMore(empty, [Reserved], Queued(Entry(1)));
    RunMore(empty, [Reserved] + [Queued(Entry(1))], Queued(Entry(2)));
    RunMore(empty, [Reserved] + [Queued(Entry(1))] + [Queued(Entry(2))], Processed([Entry(1), Entry(2)]));
  }

  /** A reader who has read both entries, and goes on from there, never gets the third one. */
  lemma ReadersCanMissEntries()
    ensures var empty := State(None, {}, [], 0, []);
            var s := Run(empty, FIRST_LIFE); var s' := Run(empty, SECOND_LIFE);
            && s.creditor.Some? && ReadPage(s, Client(0, []), 5).cursor == 2
            && s'.entries == [LogEntry(1, LINE)] && After(s'.entries, 2) == []
  {
    hide AddAll, Run;
    var empty := State(None, {}, [], 0, []);
    FirstLife();
    var s := Run(empty, FIRST_LIFE);
    AllComeAfter(s.entries, 0);
    assert GetLogPage(s, 0, 5).Some? && GetLogPage(s, 0, 5).value.isLast;
    CollectsAll(s.entries);
    var e := Queued(Entry(3));
    RunMore(empty, FIRST_LIFE, Scanned({1, 2}, 1));
    RunMore(empty, FIRST_LIFE + [Scanned({1, 2}, 1)], Removed);
    RunMore(empty, FIRST_LIFE + [Scanned({1, 2}, 1)] + [Removed], Reserved);
    RunMore(empty, FIRST_LIFE + [Scanned({1, 2}, 1)] + [Removed] + [Reserved], e);
    RunMore(empty, FIRST_LIFE + [Scanned({1, 2}, 1)] + [Removed] + [Reserved] + [e], Processed([Entry(3)]));
    EntriesAreAdded(CreditorRow(0, 1, 0), 1);
  }
}
