/**
 * A creditor's log: pending entries are numbered and copied to the log, old entries are removed, and
 * a client follows the log page by page. The creditor's row may be removed and reserved again.
 */
module CreditorLog {
  import opened Options

  const OTH_TRANSFER := 1
  const OTH_TRANSFERS_LIST := 2
  const TRANSFER := "Transfer"

  datatype Details = Details(
    uri: Option<string>, data: Option<string>, debtorId: Option<int>, creationDate: Option<int>,
    transferNumber: Option<int>, transferUuid: Option<int>, principal: Option<int>, nextEntryId: Option<int>,
    finalizedAt: Option<int>, errorCode: Option<string>)

  /** The columns that pending and final log entries share. */
  datatype Line = Line(
    objectType: Option<string>, typeHint: Option<int>, updateId: Option<int>, isDeleted: Option<bool>,
    addedAt: int, details: Details)

  datatype PendingLogEntry = PendingLogEntry(id: int, line: Line)

  datatype LogEntry = LogEntry(id: int, line: Line)

  datatype CreditorRow = CreditorRow(lastLogEntryId: int, transfersListId: int, transfersListTs: int)

  // ---------- Which entries change the list of transfers ----------

  function ObjectType(line: Line): string {
    if line.objectType.Some? then line.objectType.value
    else match line.typeHint
      case Some(1) => TRANSFER
      case Some(2) => "TransfersList"
      case Some(3) => "CommittedTransfer"
      case Some(4) => "AccountLedger"
      case _ => "object"
  }

  predicate IsDeleted(line: Line) { line.isDeleted == Some(true) }

  predicate IsCreated(line: Line) { !IsDeleted(line) && line.updateId in {Some(1), None} }

  /** The Python rule. */
  predicate ChangesTransfersList(line: Line) {
    ObjectType(line) == TRANSFER && (IsCreated(line) || IsDeleted(line))
  }

  /** SQL's three truth values: `None` is unknown. */
  function And(x: Option<bool>, y: Option<bool>): Option<bool> {
    if x == Some(false) || y == Some(false) then Some(false) else if x.None? || y.None? then None else Some(true)
  }

  function Or(x: Option<bool>, y: Option<bool>): Option<bool> {
    if x == Some(true) || y == Some(true) then Some(true) else if x.None? || y.None? then None else Some(false)
  }

  function Equals<T(==)>(x: Option<T>, y: T): Option<bool> {
    if x.None? then None else Some(x.value == y)
  }

  /** The condition of the PL/pgSQL procedure, term by term. */
  function SqlRule(line: Line): Option<bool> {
    And(Or(And(Some(line.objectType.None?), Equals(line.typeHint, OTH_TRANSFER)), Equals(line.objectType, TRANSFER)),
        Or(Or(Some(line.updateId.None?), Equals(line.updateId, 1)), line.isDeleted))
  }

  /** An unknown condition counts as false, and so the two rules agree. */
  lemma RulesAgree(line: Line)
    ensures SqlRule(line) == Some(true) <==> ChangesTransfersList(line)
  {
  }

  /** The entry tells of a transfer that has been created or deleted. */
  predicate TellsOfMembership(line: Line) {
    && (line.objectType == Some("Transfer") || (line.objectType.None? && line.typeHint == Some(1)))
    && (line.isDeleted == Some(true) || line.updateId.None? || line.updateId == Some(1))
  }

  // ---------- Processing ----------

  /** The log and the creditor's row, while pending entries are being processed. */
  datatype Book = Book(row: CreditorRow, entries: seq<LogEntry>)

  const NO_DETAILS := Details(None, None, None, None, None, None, None, None, None, None)

  function TransfersListLine(updateId: int, addedAt: int): Line {
    Line(None, Some(OTH_TRANSFERS_LIST), Some(updateId), None, addedAt, NO_DETAILS)
  }

  function AddLine(b: Book, line: Line): Book {
    var id := b.row.lastLogEntryId + 1;
    Book(b.row.(lastLogEntryId := id), b.entries + [LogEntry(id, line)])
  }

  function AddEntry(b: Book, line: Line): Book {
    var b1 := AddLine(b, line);
    if !ChangesTransfersList(line) then b1
    else
      var row := b1.row.(transfersListId := b1.row.transfersListId + 1, transfersListTs := line.addedAt);
      AddLine(b1.(row := row), TransfersListLine(row.transfersListId, line.addedAt))
  }

  /**
   * An entry is copied to the log under the next id. After one that tells of a transfer that has been
   * created or deleted, another one gives the list of transfers its next update id, at the same time.
   */
  lemma EntryOutcome(b: Book, line: Line)
    ensures var b', id, listId := AddEntry(b, line), b.row.lastLogEntryId + 1, b.row.transfersListId + 1;
            if TellsOfMembership(line) then
              && b'.row == CreditorRow(id + 1, listId, line.addedAt)
              && b'.entries == b.entries + [LogEntry(id, line), LogEntry(id + 1, Line(
                   None, Some(2), Some(listId), None, line.addedAt,
                   Details(None, None, None, None, None, None, None, None, None, None)))]
            else b' == Book(b.row.(lastLogEntryId := id), b.entries + [LogEntry(id, line)])
  {
    assert TellsOfMembership(line) <==> ChangesTransfersList(line);
  }

  function AddAll(b: Book, visited: seq<PendingLogEntry>): Book {
    if visited == [] then b else AddEntry(AddAll(b, visited[..|visited| - 1]), visited[|visited| - 1].line)
  }

  /** `base` is the last id at the reservation, `written` all the entries written since then. */
  datatype State = State(
    creditor: Option<CreditorRow>, pending: set<PendingLogEntry>, entries: seq<LogEntry>,
    base: int, written: seq<LogEntry>)

  function Without(pending: set<PendingLogEntry>, visited: seq<PendingLogEntry>): set<PendingLogEntry> {
    set e | e in pending && e !in visited
  }

  function Process(s: State, visited: seq<PendingLogEntry>): State {
    var s1 := s.(pending := Without(s.pending, visited));
    if s.creditor.None? then s1
    else
      var b := AddAll(Book(s.creditor.value, s.entries), visited);
      s1.(creditor := Some(b.row), entries := b.entries,
          written := AddAll(Book(s.creditor.value, s.written), visited).entries)
  }

  /** The largest stored id, if any. */
  function MaxId(entries: seq<LogEntry>): (max: Option<int>)
    ensures max.None? <==> entries == []
    ensures forall e :: e in entries ==> e.id <= max.value
    ensures max.Some? ==> exists e :: e in entries && e.id == max.value
  {
    if entries == [] then None
    else
      var rest := MaxId(entries[1..]);
      Some(if rest.Some? && rest.value > entries[0].id then rest.value else entries[0].id)
  }

  /** A new row starts above the entries left behind by an earlier one. */
  function Reserve(s: State): State {
    if s.creditor.Some? then s
    else
      var relic := MaxId(s.entries);
      var last := if relic.None? then 0 else relic.value + 1;
      s.(creditor := Some(CreditorRow(last, 1, 0)), base := last, written := [])
  }

  /** A row of the scanner's block that is older than the cut-off. */
  predicate IsStale(e: LogEntry, ids: set<int>, cutoff: int) {
    e.id in ids && e.line.addedAt < cutoff
  }

  /** The scanner's block has the given ids; what is stale goes, the rest stays in order. */
  function Collected(entries: seq<LogEntry>, ids: set<int>, cutoff: int): (rest: seq<LogEntry>)
    ensures forall e :: e in rest <==> e in entries && !IsStale(e, ids, cutoff)
    ensures |rest| <= |entries|
  {
    if entries == [] then []
    else if IsStale(entries[0], ids, cutoff) then Collected(entries[1..], ids, cutoff)
    else [entries[0]] + Collected(entries[1..], ids, cutoff)
  }

  class Database {
    var creditor: Option<CreditorRow>
    var pending: set<PendingLogEntry>
    var entries: seq<LogEntry>
    ghost var base: int
    ghost var written: seq<LogEntry>

    ghost function View(): State
      reads this
    {
      State(creditor, pending, entries, base, written)
    }

    method AddLogEntry(line: Line)
      requires creditor.Some?
      modifies this`creditor, this`entries
      ensures creditor.Some? && Book(creditor.value, entries) == AddLine(old(Book(creditor.value, entries)), line)
    {
      var id := creditor.value.lastLogEntryId + 1;
      creditor := Some(creditor.value.(lastLogEntryId := id));
      entries := entries + [LogEntry(id, line)];
    }

    method ProcessPendingLogEntry(entry: PendingLogEntry)
      requires entry in pending
      modifies this`creditor, this`entries, this`pending
      ensures pending == old(pending) - {entry}
      ensures old(creditor.None?) ==> creditor.None? && entries == old(entries)
      ensures old(creditor.Some?) ==>
                creditor.Some? && Book(creditor.value, entries) == AddEntry(old(Book(creditor.value, entries)), entry.line)
    {
      if creditor.Some? {
        AddLogEntry(entry.line);
        if ObjectType(entry.line) == TRANSFER && (IsCreated(entry.line) || IsDeleted(entry.line)) {
          var row := creditor.value;
          creditor := Some(row.(transfersListId := row.transfersListId + 1, transfersListTs := entry.line.addedAt));
          AddLogEntry(TransfersListLine(creditor.value.transfersListId, entry.line.addedAt));
        }
      }
      pending := pending - {entry};
    }

    /** `visited` are the rows that the query returns: pending ones, each of them once. */
    method ProcessPendingLogEntries(visited: seq<PendingLogEntry>)
      requires forall e :: e in visited ==> e in pending
      requires forall i, j :: 0 <= i < j < |visited| ==> visited[i] != visited[j]
      modifies this
      ensures View() == Process(old(View()), visited)
    {
      ghost var s := View();
      for k := 0 to |visited|
        invariant pending == Without(s.pending, visited[..k]) && base == s.base && written == s.written
        invariant s.creditor.None? ==> creditor.None? && entries == s.entries
        invariant s.creditor.Some? ==>
                    creditor.Some? && Book(creditor.value, entries) == AddAll(Book(s.creditor.value, s.entries), visited[..k])
      {
        assert visited[..k + 1][..k] == visited[..k];
        assert visited[k] in pending by { assert visited[k] in visited; }
        ProcessPendingLogEntry(visited[k]);
      }
      assert visited[..|visited|] == visited;
      if s.creditor.Some? {
        written := AddAll(Book(s.creditor.value, s.written), visited).entries;
      }
    }

    /** One round of the PL/pgSQL loop, on the copy of the creditor's row. */
    method ProcessEntryInSql(row: CreditorRow, entry: PendingLogEntry) returns (cr: CreditorRow)
      modifies this`entries
      ensures Book(cr, entries) == AddEntry(old(Book(row, entries)), entry.line)
    {
      cr := row.(lastLogEntryId := row.lastLogEntryId + 1);
      entries := entries + [LogEntry(cr.lastLogEntryId, entry.line)];
      RulesAgree(entry.line);
      if SqlRule(entry.line) == Some(true) {
        cr := CreditorRow(cr.lastLogEntryId + 1, cr.transfersListId + 1, entry.line.addedAt);
        entries := entries + [LogEntry(cr.lastLogEntryId, TransfersListLine(cr.transfersListId, cr.transfersListTs))];
      }
    }

    /** The PL/pgSQL twin works on a copy of the creditor's row, and writes it back in the end. */
    method ProcessPendingLogEntriesInSql(visited: seq<PendingLogEntry>)
      requires forall e :: e in visited ==> e in pending
      requires forall i, j :: 0 <= i < j < |visited| ==> visited[i] != visited[j]
      modifies this
      ensures View() == Process(old(View()), visited)
    {
      hide AddEntry;
      ghost var s := View();
      var cr := creditor;
      for k := 0 to |visited|
        invariant pending == Without(s.pending, visited[..k]) && base == s.base && written == s.written
        invariant creditor == s.creditor
        invariant s.creditor.None? ==> cr.None? && entries == s.entries
        invariant s.creditor.Some? ==>
                    cr.Some? && Book(cr.value, entries) == AddAll(Book(s.creditor.value, s.entries), visited[..k])
      {
        assert visited[..k + 1][..k] == visited[..k];
        if cr.Some? {
          var row := ProcessEntryInSql(cr.value, visited[k]);
          cr := Some(row);
        }
        pending := pending - {visited[k]};
      }
      assert visited[..|visited|] == visited;
      if cr.Some? {
        creditor := cr;
        written := AddAll(Book(s.creditor.value, s.written), visited).entries;
      }
    }

    method ReserveCreditor() returns (ok: bool)
      modifies this
      ensures ok == old(creditor.None?) && View() == Reserve(old(View()))
    {
      if creditor.Some? {
        return false;
      }
      var relicLogEntryId := MaxId(entries);
      var last := if relicLogEntryId.None? then 0 else relicLogEntryId.value + 1;  // a gap
      creditor := Some(CreditorRow(last, 1, 0));
      base, written := last, [];
      return true;
    }

    /** Goes through the rows of a block, and deletes those that are too old. */
    method ProcessRows(ids: set<int>, cutoff: int)
      modifies this`entries
      ensures entries == Collected(old(entries), ids, cutoff)
      ensures forall e :: e in entries <==> e in old(entries) && !(e.id in ids && e.line.addedAt < cutoff)
    {
      ghost var whole := Collected(entries, ids, cutoff);
      var rest, kept := entries, [];
      while rest != []
        invariant whole == kept + Collected(rest, ids, cutoff)
        decreases |rest|
      {
        var row := rest[0];
        if row.id !in ids || row.line.addedAt >= cutoff {
          kept := kept + [row];
        }
        rest := rest[1..];
      }
      entries := kept;
    }
  }

  // ---------- Pages ----------

  /** The stored entries after the given one; they are stored in the order of their ids. */
  function After(entries: seq<LogEntry>, prev: int): (rest: seq<LogEntry>)
    ensures forall e :: e in rest <==> e in entries && e.id > prev
  {
    if entries == [] then []
    else if entries[0].id > prev then [entries[0]] + After(entries[1..], prev)
    else After(entries[1..], prev)
  }

  /** A page has either a `next` or a `forthcoming` link. */
  datatype Page = Page(items: seq<LogEntry>, isLast: bool, cursor: int)

  /** `None` when the creditor does not exist. */
  function GetLogPage(s: State, prev: int, n: nat): Option<Page>
    requires n >= 1
  {
    if s.creditor.None? then None
    else
      var rest := After(s.entries, prev);
      var items := if |rest| <= n then rest else rest[..n];
      Some(if |items| < n then Page(items, true, s.creditor.value.lastLogEntryId)
           else Page(items, false, items[|items| - 1].id))
  }
}
