/** What the read-only inspector counts, and when the next opening moves as many rows. */
module QuarantineInspection {
  import opened Options
  import opened QuarantineKeys
  import opened Quarantine

  /** The families, and then the quarantine itself. */
  const TABLES: seq<string> := FAMILIES + [QUARANTINE]

  /** One stored row of a table. */
  datatype Stored =
    | FamilyRow(at: At)
    | AsideRow(key: AsideKey)
    | IllegibleRow(text: string)

  function StoredIn(s: Shelf, table: string): set<Stored> {
    if table == QUARANTINE then
      (set q | q in s.aside :: AsideRow(q)) + (set text | text in s.illegible :: IllegibleRow(text))
    else set at | at in RowsIn(s, table) :: FamilyRow(at)
  }

  predicate Held(s: Shelf, row: Stored) {
    match row
    case FamilyRow(at) => at in s.rows
    case AsideRow(q) => q in s.aside
    case IllegibleRow(text) => text in s.illegible
  }

  predicate Fails(schema: Schema, s: Shelf, row: Stored) {
    match row
    case FamilyRow(at) => at in s.rows && !schema.decodes(at.table, s.rows[at])
    case AsideRow(_) => false
    case IllegibleRow(_) => true
  }

  function Reason(schema: Schema, s: Shelf, row: Stored): string
    requires Held(s, row)
  {
    match row
    case FamilyRow(at) => schema.explains(at.table, s.rows[at])
    case AsideRow(_) => ""
    case IllegibleRow(text) => schema.explains(QUARANTINE, s.illegible[text])
  }

  function Failing(schema: Schema, s: Shelf, all: set<Stored>): set<Stored> {
    set row | row in all && Fails(schema, s, row)
  }

  // ---- one table ---------------------------------------------------------

  /** What the engine gives: the table's rows, perhaps with a fault among them, no such table, or a fault. */
  datatype Access =
    | Opens(rowFault: Option<string>)
    | DoesNotExist
    | Faults(message: string)

  datatype TableStatus =
    | MissingTable
    | EmptyTable
    | Readable(rows: nat)
    | ReadFailed(message: string)
    | DecodeFailed(undecodable: nat, rows: nat, message: string)

  /** What one table is reported as, where `undecodable` of its `rows` rows do not decode. */
  predicate Reports(status: TableStatus, registered: bool, access: Access, rows: nat, undecodable: nat) {
    match access
    case Faults(message) => status == ReadFailed(message)
    case DoesNotExist => status == if registered then EmptyTable else MissingTable
    case Opens(fault) =>
      if rows == 0 then status == EmptyTable
      else if fault.Some? then status == ReadFailed(fault.value)
      else if undecodable == 0 then status == Readable(rows)
      else status.DecodeFailed? && status.undecodable == undecodable && status.rows == rows
  }

  /** The engine lists every stored row of the table once, in its own order. */
  predicate Lists(order: seq<Stored>, rows: set<Stored>) {
    && (forall i :: 0 <= i < |order| ==> order[i] in rows) && (forall row :: row in rows ==> row in order)
    && forall i, j :: 0 <= i < j < |order| ==> order[i] != order[j]
  }

  /** The reason given is that of the first row, in the order listed, that fails. */
  predicate FirstReason(schema: Schema, s: Shelf, order: seq<Stored>, message: string) {
    exists i :: 0 <= i < |order| && FailsFirst(schema, s, order, i) && Held(s, order[i])
                && message == Reason(schema, s, order[i])
  }

  predicate FailsFirst(schema: Schema, s: Shelf, order: seq<Stored>, i: nat)
    requires i < |order|
  {
    Fails(schema, s, order[i]) && forall j :: 0 <= j < i ==> !Fails(schema, s, order[j])
  }

  /** Read one table without changing it, its rows in the order the engine lists them. */
  method InspectRows(schema: Schema, s: Shelf, table: string, registered: bool, access: Access, order: seq<Stored>)
    returns (status: TableStatus)
    requires Lists(order, StoredIn(s, table))
    ensures Reports(status, registered, access, |StoredIn(s, table)|, |Failing(schema, s, StoredIn(s, table))|)
    ensures status.DecodeFailed? ==> FirstReason(schema, s, order, status.message)
  {
    match access
    case Faults(message) => return ReadFailed(message);
    case DoesNotExist => return if registered then EmptyTable else MissingTable;
    case Opens(fault) =>
      ListedAll(order, StoredIn(s, table));
      if order == [] { return EmptyTable; }
      if fault.Some? { return ReadFailed(fault.value); }
      var rows, undecodable, firstFailure := CountRows(schema, s, order);
      if firstFailure.Some? {
        status := DecodeFailed(undecodable, rows, firstFailure.value);
      } else {
        status := Readable(rows);
      }
  }

  function Members(order: seq<Stored>): set<Stored> {
    set row | row in order
  }

  lemma {:induction false} ListedAll(order: seq<Stored>, rows: set<Stored>)
    requires Lists(order, rows)
    ensures Members(order) == rows && |order| == |rows|
    ensures forall i :: 0 <= i < |order| ==> order[i] in rows
    decreases |order|
  {
    if order != [] {
      var last := order[|order| - 1];
      var rest := order[..|order| - 1];
      assert Lists(rest, rows - {last}) by {
        forall row | row in rows - {last} ensures row in rest {
          var i :| 0 <= i < |order| && order[i] == row;
          assert rest[i] == row;
        }
      }
      ListedAll(rest, rows - {last});
    }
  }

  lemma FailingOneMore(schema: Schema, s: Shelf, seen: set<Stored>, row: Stored)
    requires row !in seen
    ensures Failing(schema, s, seen + {row}) == Failing(schema, s, seen) + (if Fails(schema, s, row) then {row} else {})
    ensures |Failing(schema, s, seen + {row})| == |Failing(schema, s, seen)| + (if Fails(schema, s, row) then 1 else 0)
  {
    var more, less := Failing(schema, s, seen + {row}), Failing(schema, s, seen);
    assert row !in less;
    assert forall other :: other != row ==> (other in more <==> other in less);
    assert more == less + (if Fails(schema, s, row) then {row} else {});
  }

  method CountRows(schema: Schema, s: Shelf, order: seq<Stored>)
    returns (rows: nat, undecodable: nat, firstFailure: Option<string>)
    requires forall i :: 0 <= i < |order| ==> Held(s, order[i])
    requires forall i, j :: 0 <= i < j < |order| ==> order[i] != order[j]
    ensures rows == |order| && undecodable == |Failing(schema, s, Members(order))|
    ensures firstFailure.None? <==> Failing(schema, s, Members(order)) == {}
    ensures firstFailure.Some? ==> FirstReason(schema, s, order, firstFailure.value)
  {
    hide Failing, Fails, Reason, FirstReason;
    rows, undecodable, firstFailure := 0, 0, None;
    var i := 0;
    ghost var first := 0;
    NoneFailing(schema, s);
    assert Members(order[..0]) == {};
    while i < |order|
      invariant 0 <= i <= |order| && rows == i
      invariant undecodable == |Failing(schema, s, Members(order[..i]))|
      invariant firstFailure.None? <==> Failing(schema, s, Members(order[..i])) == {}
      invariant firstFailure.None? ==> forall j :: 0 <= j < i ==> !Fails(schema, s, order[j])
      invariant firstFailure.Some? ==>
        first < |order| && FailsFirst(schema, s, order, first) && firstFailure.value == Reason(schema, s, order[first])
    {
      var row := order[i];
      assert Members(order[..i + 1]) == Members(order[..i]) + {row} by { assert order[..i + 1] == order[..i] + [row]; }
      FailingOneMore(schema, s, Members(order[..i]), row);
      rows := rows + 1;
      if Fails(schema, s, row) {
        undecodable := undecodable + 1;
        if firstFailure.None? { first, firstFailure := i, Some(Reason(schema, s, row)); }
      }
      i := i + 1;
    }
    assert order[..i] == order;
    if firstFailure.Some? { ReasonFound(schema, s, order, first); }
  }

  lemma ReasonFound(schema: Schema, s: Shelf, order: seq<Stored>, first: nat)
    requires first < |order| && FailsFirst(schema, s, order, first) && Held(s, order[first])
    ensures FirstReason(schema, s, order, Reason(schema, s, order[first]))
  {
  }

  lemma NoneFailing(schema: Schema, s: Shelf)
    ensures Failing(schema, s, {}) == {}
  {
  }

  // ---- every table -------------------------------------------------------

  /** The sum of the undecodable counts over some tables, all of them read. */
  function Foretold(schema: Schema, s: Shelf, tables: seq<string>): nat {
    if tables == [] then 0
    else |Failing(schema, s, StoredIn(s, tables[0]))| + Foretold(schema, s, tables[1..])
  }

  lemma {:induction false} FamilyRowsCount(ats: set<At>)
    ensures |set at | at in ats :: FamilyRow(at)| == |ats|
    decreases |ats|
  {
    if ats != {} {
      var at :| at in ats;
      FamilyRowsCount(ats - {at});
      assert (set a | a in ats :: FamilyRow(a)) == (set a | a in ats - {at} :: FamilyRow(a)) + {FamilyRow(at)};
    }
  }

  lemma {:induction false} IllegibleRowsCount(texts: set<string>)
    ensures |set text | text in texts :: IllegibleRow(text)| == |texts|
    decreases |texts|
  {
    if texts != {} {
      var text :| text in texts;
      IllegibleRowsCount(texts - {text});
      assert (set x | x in texts :: IllegibleRow(x))
          == (set x | x in texts - {text} :: IllegibleRow(x)) + {IllegibleRow(text)};
    }
  }

  lemma FamilyFailures(schema: Schema, s: Shelf, table: string)
    requires table != QUARANTINE
    ensures |Failing(schema, s, StoredIn(s, table))| == |UnreadIn(schema, s, table)|
  {
    FamilyRowsCount(UnreadIn(schema, s, table));
    assert Failing(schema, s, StoredIn(s, table)) == set at | at in UnreadIn(schema, s, table) :: FamilyRow(at);
  }

  lemma QuarantineFailures(schema: Schema, s: Shelf)
    ensures |Failing(schema, s, StoredIn(s, QUARANTINE))| == |s.illegible|
  {
    IllegibleRowsCount(s.illegible.Keys);
    assert Failing(schema, s, StoredIn(s, QUARANTINE)) == set text | text in s.illegible.Keys :: IllegibleRow(text);
    assert |s.illegible.Keys| == |s.illegible|;
  }

  lemma {:induction false} ForetoldFrom(schema: Schema, s: Shelf, i: nat)
    requires i <= |FAMILIES|
    ensures Foretold(schema, s, TABLES[i..]) == UnreadFrom(schema, s, i) + |s.illegible|
    decreases |FAMILIES| - i
  {
    hide StoredIn, Failing;
    if i == |FAMILIES| {
      assert TABLES[i..] == [QUARANTINE] && [QUARANTINE][1..] == [];
      assert Foretold(schema, s, []) == 0;
      QuarantineFailures(schema, s);
    } else {
      FamiliesDistinct();
      assert TABLES[i..][0] == FAMILIES[i] && TABLES[i..][1..] == TABLES[i + 1..];
      FamilyFailures(schema, s, FAMILIES[i]);
      ForetoldFrom(schema, s, i + 1);
    }
  }

  /**
    The inspector's count, over the families and the quarantine, is how many
    rows the next opening moves if and only if every quarantine row decodes.
    Otherwise it is too high, because illegible quarantine rows are counted
    and never moved, and refuse the opening if anything else is to be moved.
  */
  lemma InspectorForetells(schema: Schema, s: Shelf)
    ensures Foretold(schema, s, TABLES) == |UnreadRows(schema, s)| + |s.illegible|
    ensures Foretold(schema, s, TABLES) == RowsMoved(schema, s) <==> s.illegible == map[]
  {
    hide Foretold;
    ForetoldFrom(schema, s, 0);
    UnreadSplit(schema, s, 0);
    assert TABLES[0..] == TABLES;
    IllegibleCounts(s);
    UnreadCounts(schema, s);
  }

  lemma IllegibleCounts(s: Shelf)
    ensures |s.illegible| == 0 <==> s.illegible == map[]
  {
  }

  lemma UnreadCounts(schema: Schema, s: Shelf)
    ensures |UnreadRows(schema, s)| == 0 <==> UnreadRows(schema, s) == {}
  {
  }
}
