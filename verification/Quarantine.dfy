/**
  Setting aside, at open, every stored row the current schema does not read.
  What decodes is a predicate the model knows nothing about.
*/
module Quarantine {
  import opened QuarantineKeys

  newtype byte = b: int | 0 <= b < 256

  type Archive = seq<byte>

  datatype At = At(table: string, key: string)

  datatype AsideKey = AsideKey(at: At, number: nat)

  datatype Aside = Aside(archive: Archive, error: string)

  /** How the schema reads an archive of a table: not at all, or with a reason it cannot. */
  datatype Schema = Schema(decodes: (string, Archive) -> bool, explains: (string, Archive) -> string)

  /**
    The family rows, the quarantine rows that decode, and the quarantine rows
    that do not, by their stored key. A stored quarantine key stands for its
    three parts, as `KeysInjective` shows.
  */
  datatype Shelf = Shelf(rows: map<At, Archive>, aside: map<AsideKey, Aside>, illegible: map<string, Archive>)

  predicate Unread(schema: Schema, s: Shelf, at: At) {
    at in s.rows && at.table in FAMILIES && !schema.decodes(at.table, s.rows[at])
  }

  /** How many rows found at one place have been set aside. */
  function CountAside(s: Shelf, at: At): nat {
    |set q | q in s.aside && q.at == at|
  }

  /** The rows set aside from one place are numbered from 1 without gaps. */
  ghost predicate Numbered(s: Shelf) {
    forall at: At, n: nat :: AsideKey(at, n) in s.aside <==> 1 <= n <= CountAside(s, at)
  }

  function RowAside(schema: Schema, s: Shelf, at: At): Aside
    requires at in s.rows
  {
    Aside(s.rows[at], schema.explains(at.table, s.rows[at]))
  }

  /** One commit: the row is retracted from its family and asserted into the quarantine. */
  function SetAside(schema: Schema, s: Shelf, at: At): Shelf
    requires at in s.rows
  {
    Shelf(s.rows - {at}, s.aside[AsideKey(at, CountAside(s, at) + 1) := RowAside(schema, s, at)], s.illegible)
  }

  function UnreadRows(schema: Schema, s: Shelf): set<At> {
    set at | at in s.rows && Unread(schema, s, at)
  }

  /** The keys the unread rows will be set aside under. */
  function ComingKeys(schema: Schema, s: Shelf): set<AsideKey> {
    set at | at in UnreadRows(schema, s) :: AsideKey(at, CountAside(s, at) + 1)
  }

  /** Where a store is going: everything unread set aside, everything else as it was. */
  function Opened(schema: Schema, s: Shelf): Shelf {
    Shelf(map at | at in s.rows && !Unread(schema, s, at) :: s.rows[at],
          s.aside + map q | q in ComingKeys(schema, s) :: RowAside(schema, s, q.at),
          s.illegible)
  }

  /** The stored keys of quarantined family rows are as distinct as the rows they stand for. */
  lemma StoredKeysDistinct(q: AsideKey, other: AsideKey)
    requires q.at.table in FAMILIES && other.at.table in FAMILIES
    ensures KeyText(q.at.table, q.at.key, q.number) == KeyText(other.at.table, other.at.key, other.number) <==> q == other
  {
    FamiliesSlashFree();
    KeysInjective(q.at.table, q.at.key, q.number, other.at.table, other.at.key, other.number);
  }

  // ---- one row set aside -------------------------------------------------

  lemma NextIsFree(s: Shelf, at: At)
    requires Numbered(s)
    ensures AsideKey(at, CountAside(s, at) + 1) !in s.aside
  {
    hide CountAside;
  }

  lemma CountWith(s: Shelf, s': Shelf, coming: AsideKey, other: At)
    requires coming !in s.aside && s'.aside.Keys == s.aside.Keys + {coming}
    ensures CountAside(s', other) == CountAside(s, other) + (if other == coming.at then 1 else 0)
  {
    var before := set q | q in s.aside && q.at == other;
    var after := set q | q in s'.aside && q.at == other;
    assert after == if other == coming.at then before + {coming} else before;
  }

  lemma CountAfter(schema: Schema, s: Shelf, at: At, other: At)
    requires Numbered(s) && at in s.rows
    ensures CountAside(SetAside(schema, s, at), other) == CountAside(s, other) + (if other == at then 1 else 0)
  {
    hide Numbered, CountAside;
    NextIsFree(s, at);
    var coming := AsideKey(at, CountAside(s, at) + 1);
    CountWith(s, SetAside(schema, s, at), coming, other);
  }

  lemma SetAsideNumbers(schema: Schema, s: Shelf, at: At)
    requires Numbered(s) && at in s.rows
    ensures Numbered(SetAside(schema, s, at))
  {
    hide CountAside;
    var s' := SetAside(schema, s, at);
    forall other: At, n: nat ensures AsideKey(other, n) in s'.aside <==> 1 <= n <= CountAside(s', other) {
      CountAfter(schema, s, at, other);
      assert AsideKey(other, n) in s.aside <==> 1 <= n <= CountAside(s, other);
    }
  }

  /** Setting one row aside changes nothing about where the store is going. */
  lemma SetAsideTowards(schema: Schema, s: Shelf, at: At)
    requires Numbered(s) && Unread(schema, s, at)
    ensures Opened(schema, SetAside(schema, s, at)) == Opened(schema, s)
  {
    var s' := SetAside(schema, s, at);
    OpenedRows(schema, s, at);
    OpenedAside(schema, s, at);
  }

  lemma OpenedRows(schema: Schema, s: Shelf, at: At)
    requires Unread(schema, s, at)
    ensures Opened(schema, SetAside(schema, s, at)).rows == Opened(schema, s).rows
  {
    var s' := SetAside(schema, s, at);
    forall other ensures other in Opened(schema, s').rows <==> other in Opened(schema, s).rows {
      assert other != at ==> (Unread(schema, s', other) <==> Unread(schema, s, other));
    }
  }

  lemma ComingAfter(schema: Schema, s: Shelf, at: At)
    requires Numbered(s) && Unread(schema, s, at)
    ensures ComingKeys(schema, SetAside(schema, s, at)) == ComingKeys(schema, s) - {AsideKey(at, CountAside(s, at) + 1)}
  {
    hide CountAside;
    var s' := SetAside(schema, s, at);
    forall q ensures q in ComingKeys(schema, s')
                 <==> q in ComingKeys(schema, s) - {AsideKey(at, CountAside(s, at) + 1)} {
      CountAfter(schema, s, at, q.at);
      assert q in ComingKeys(schema, s') <==> q.at in UnreadRows(schema, s') && q.number == CountAside(s', q.at) + 1;
      assert q in ComingKeys(schema, s) <==> q.at in UnreadRows(schema, s) && q.number == CountAside(s, q.at) + 1;
    }
  }

  lemma OpenedAside(schema: Schema, s: Shelf, at: At)
    requires Numbered(s) && Unread(schema, s, at)
    ensures Opened(schema, SetAside(schema, s, at)).aside == Opened(schema, s).aside
  {
    hide CountAside, ComingKeys, Numbered;
    var s' := SetAside(schema, s, at);
    var coming := AsideKey(at, CountAside(s, at) + 1);
    ComingAfter(schema, s, at);
    ComingAreUnread(schema, s);
    ComingAreUnread(schema, s');
    FreshComes(schema, s, at);
    forall q ensures q in Opened(schema, s').aside <==> q in Opened(schema, s).aside {}
    forall q | q in Opened(schema, s').aside ensures Opened(schema, s').aside[q] == Opened(schema, s).aside[q] {}
  }

  lemma FreshComes(schema: Schema, s: Shelf, at: At)
    requires Unread(schema, s, at)
    ensures AsideKey(at, CountAside(s, at) + 1) in ComingKeys(schema, s)
  {
    assert at in UnreadRows(schema, s);
  }

  lemma ComingAreUnread(schema: Schema, s: Shelf)
    ensures forall q :: q in ComingKeys(schema, s) ==> Unread(schema, s, q.at)
  {
  }

  // ---- interruption ------------------------------------------------------

  /** Set the listed rows aside one commit after another, and stop. */
  ghost function Moved(schema: Schema, s: Shelf, moves: seq<At>): Shelf
    decreases |moves|
  {
    if moves == [] || moves[0] !in s.rows then s
    else Moved(schema, SetAside(schema, s, moves[0]), moves[1..])
  }

  ghost predicate Interrupted(schema: Schema, s: Shelf, moves: seq<At>)
    decreases |moves|
  {
    moves == [] || (s.illegible == map[] && Unread(schema, s, moves[0]) && Interrupted(schema, SetAside(schema, s, moves[0]), moves[1..]))
  }

  /**
    However many unread rows were moved, and in whatever order, before the
    opening died, opening again ends where an opening that did not die ends.
  */
  lemma {:induction false} InterruptionIsHarmless(schema: Schema, s: Shelf, moves: seq<At>)
    requires Numbered(s) && Interrupted(schema, s, moves)
    ensures Numbered(Moved(schema, s, moves))
    ensures Opened(schema, Moved(schema, s, moves)) == Opened(schema, s)
    decreases |moves|
  {
    hide Opened, SetAside, Numbered;
    if moves != [] {
      SetAsideNumbers(schema, s, moves[0]);
      SetAsideTowards(schema, s, moves[0]);
      InterruptionIsHarmless(schema, SetAside(schema, s, moves[0]), moves[1..]);
    }
  }

  /** A store with every row readable is already opened, so opening twice is opening once. */
  lemma NothingComes(schema: Schema, s: Shelf)
    requires forall at :: !Unread(schema, s, at)
    ensures UnreadRows(schema, s) == {} && Opened(schema, s) == s
  {
    hide CountAside;
    assert ComingKeys(schema, s) == {};
    assert Opened(schema, s).rows == s.rows && Opened(schema, s).aside == s.aside;
  }

  /** Nothing is left to move, and there is nothing more to do. */
  lemma OpenedIsOpened(schema: Schema, s: Shelf)
    ensures UnreadRows(schema, Opened(schema, s)) == {}
    ensures Opened(schema, Opened(schema, s)) == Opened(schema, s)
  {
    hide CountAside;
    var o := Opened(schema, s);
    forall at ensures !Unread(schema, o, at) {}
    NothingComes(schema, o);
  }

  /** One unread row as it is kept: its archive unchanged, the reason it was not read, under the next number of its place. */
  ghost predicate KeptAsEvidence(schema: Schema, s: Shelf, aside: map<AsideKey, Aside>, at: At) {
    && at in s.rows
    && exists n: nat :: AsideKey(at, n) in aside && AsideKey(at, n) !in s.aside
                   && (forall m: nat :: AsideKey(at, m) in s.aside ==> m < n)
                   && aside[AsideKey(at, n)].archive == s.rows[at]
                   && aside[AsideKey(at, n)].error == schema.explains(at.table, s.rows[at])
  }

  /**
    What an opening leaves of every row: a row that is read where it was, one
    that is not out of its family and kept as evidence, and what was set aside
    before as it was; nothing else is set aside.
  */
  lemma OpenedKeepsEvidence(schema: Schema, s: Shelf)
    requires Numbered(s)
    ensures var o := Opened(schema, s);
            && (forall at :: at in o.rows <==> at in s.rows && !Unread(schema, s, at))
            && (forall at :: at in o.rows ==> o.rows[at] == s.rows[at])
            && (forall at :: Unread(schema, s, at) ==> KeptAsEvidence(schema, s, o.aside, at))
            && (forall q :: q in s.aside ==> q in o.aside && o.aside[q] == s.aside[q])
            && (forall q :: q in o.aside && q !in s.aside ==> Unread(schema, s, q.at) && q.number == CountAside(s, q.at) + 1)
  {
    hide CountAside;
    var o := Opened(schema, s);
    forall at | Unread(schema, s, at) ensures KeptAsEvidence(schema, s, o.aside, at) {
      NextIsFree(s, at);
      FreshComes(schema, s, at);
      var key := AsideKey(at, CountAside(s, at) + 1);
      assert key in o.aside && o.aside[key] == RowAside(schema, s, at);
      forall m: nat | AsideKey(at, m) in s.aside ensures m < key.number {}
    }
    forall q | q in s.aside ensures q in o.aside && o.aside[q] == s.aside[q] {
      if q in ComingKeys(schema, s) { NextIsFree(s, q.at); assert false; }
    }
  }

  // ---- conservation ------------------------------------------------------

  /** How many copies of an archive found at one place the store holds, in its family or set aside. */
  function Copies(s: Shelf, at: At, archive: Archive): nat {
    (if at in s.rows && s.rows[at] == archive then 1 else 0)
    + |CopiesAside(s, at, archive)|
  }

  function CopiesAside(s: Shelf, at: At, archive: Archive): set<AsideKey> {
    set q | q in s.aside && q.at == at && s.aside[q].archive == archive
  }

  lemma SetAsideConserves(schema: Schema, s: Shelf, moved: At, at: At, archive: Archive)
    requires Numbered(s) && moved in s.rows
    ensures Copies(SetAside(schema, s, moved), at, archive) == Copies(s, at, archive)
  {
    hide CountAside, Numbered;
    NextIsFree(s, moved);
    CopiesAfter(s, SetAside(schema, s, moved), AsideKey(moved, CountAside(s, moved) + 1), RowAside(schema, s, moved),
                at, archive);
  }

  lemma CopiesAfter(s: Shelf, s': Shelf, coming: AsideKey, row: Aside, at: At, archive: Archive)
    requires coming !in s.aside && s'.aside == s.aside[coming := row]
    ensures |CopiesAside(s', at, archive)|
              == |CopiesAside(s, at, archive)| + (if coming.at == at && row.archive == archive then 1 else 0)
  {
    var before, after := CopiesAside(s, at, archive), CopiesAside(s', at, archive);
    assert coming !in before;
    assert forall q :: q != coming ==> (q in after <==> q in before);
    if coming.at == at && row.archive == archive {
      assert after == before + {coming};
    } else {
      assert after == before;
    }
  }

  /** What opening does to any store: nothing lost, nothing duplicated, readable rows in place, numbers unbroken. */
  lemma {:induction false} MovesConserve(schema: Schema, s: Shelf, moves: seq<At>, at: At, archive: Archive)
    requires Numbered(s) && Interrupted(schema, s, moves)
    ensures Copies(Moved(schema, s, moves), at, archive) == Copies(s, at, archive)
    ensures at in s.rows && !Unread(schema, s, at) ==>
              at in Moved(schema, s, moves).rows && Moved(schema, s, moves).rows[at] == s.rows[at]
    ensures Moved(schema, s, moves).illegible == s.illegible
    decreases |moves|
  {
    hide Copies, Numbered, CountAside;
    if moves != [] {
      SetAsideNumbers(schema, s, moves[0]);
      SetAsideConserves(schema, s, moves[0], at, archive);
      MovesConserve(schema, SetAside(schema, s, moves[0]), moves[1..], at, archive);
    }
  }

  /** Every archive, at every place, is held as often as before. */
  ghost predicate Conserves(s: Shelf, s': Shelf) {
    && s'.illegible == s.illegible
    && forall at, archive :: Copies(s', at, archive) == Copies(s, at, archive)
  }

  lemma AllConserved(schema: Schema, s: Shelf, moves: seq<At>)
    requires Numbered(s) && Interrupted(schema, s, moves)
    ensures Conserves(s, Moved(schema, s, moves))
  {
    hide Copies, Numbered;
    forall at, archive ensures Copies(Moved(schema, s, moves), at, archive) == Copies(s, at, archive) {
      MovesConserve(schema, s, moves, at, archive);
    }
    MovesConserve(schema, s, moves, At("", ""), []);
  }

  // ---- the opening -------------------------------------------------------

  function UnreadIn(schema: Schema, s: Shelf, table: string): set<At> {
    set at | at in s.rows && at.table == table && !schema.decodes(at.table, s.rows[at])
  }

  function RowsIn(s: Shelf, table: string): set<At> {
    set at | at in s.rows && at.table == table
  }

  /** Numbering a row to set aside reads the whole quarantine, so one illegible row there refuses the opening. */
  predicate Refuses(schema: Schema, s: Shelf) {
    s.illegible != map[] && UnreadRows(schema, s) != {}
  }

  /** How many rows the next opening moves. */
  function RowsMoved(schema: Schema, s: Shelf): nat {
    if Refuses(schema, s) then 0 else |UnreadRows(schema, s)|
  }

  class Opening {
    var shelf: Shelf

    constructor (shelf: Shelf)
      ensures this.shelf == shelf
    {
      this.shelf := shelf;
    }

    /**
      Move aside each row of one family that does not decode, one commit a row;
      refused at the first such row when the quarantine cannot be read whole.
    */
    method QuarantineUndecodable(schema: Schema, table: string) returns (refused: bool, moved: seq<At>)
      requires Numbered(shelf) && table in FAMILIES
      modifies this
      ensures refused <==> old(shelf).illegible != map[] && UnreadIn(schema, old(shelf), table) != {}
      ensures refused ==> shelf == old(shelf) && moved == []
      ensures Interrupted(schema, old(shelf), moved) && Moved(schema, old(shelf), moved) == shelf
      ensures Numbered(shelf) && shelf.illegible == old(shelf).illegible
      ensures !refused ==> UnreadIn(schema, shelf, table) == {} && |moved| == |UnreadIn(schema, old(shelf), table)|
      ensures forall other :: other != table ==> UnreadIn(schema, shelf, other) == UnreadIn(schema, old(shelf), other)
    {
      hide CountAside;
      refused, moved := false, [];
      var rest := RowsIn(shelf, table);
      while rest != {}
        invariant Numbered(shelf) && rest <= RowsIn(shelf, table) && shelf.illegible == old(shelf).illegible
        invariant forall at :: at in rest ==> at in old(shelf).rows && shelf.rows[at] == old(shelf).rows[at]
        invariant UnreadIn(schema, shelf, table) <= rest
        invariant shelf.illegible != map[] ==> shelf == old(shelf) && moved == []
        invariant Interrupted(schema, old(shelf), moved) && Moved(schema, old(shelf), moved) == shelf
        invariant forall other :: other != table ==> UnreadIn(schema, shelf, other) == UnreadIn(schema, old(shelf), other)
        invariant |moved| + |UnreadIn(schema, shelf, table)| == |UnreadIn(schema, old(shelf), table)|
      {
        var at :| at in rest;
        rest := rest - {at};
        if schema.decodes(table, shelf.rows[at]) { continue; }
        assert at in UnreadIn(schema, shelf, table);
        if shelf.illegible != map[] { return true, moved; }
        SetAsideNumbers(schema, shelf, at);
        MovedOneMore(schema, old(shelf), moved, at);
        UnreadAfter(schema, shelf, at, table);
        shelf := SetAside(schema, shelf, at);
        moved := moved + [at];
      }
    }

    /**
      Move aside the undecodable rows of every family, or refuse and change
      nothing. When it does not refuse, the result is the opened store, with
      every archive kept.
    */
    method QuarantineUndecodableRows(schema: Schema) returns (refused: bool, moved: seq<At>)
      requires Numbered(shelf)
      modifies this
      ensures refused <==> Refuses(schema, old(shelf))
      ensures |moved| == RowsMoved(schema, old(shelf))
      ensures shelf == if refused then old(shelf) else Opened(schema, old(shelf))
      ensures Numbered(shelf) && Interrupted(schema, old(shelf), moved) && Moved(schema, old(shelf), moved) == shelf
      ensures Conserves(old(shelf), shelf)
    {
      hide CountAside, Opened, Conserves, Numbered, SetAside;
      refused, moved := false, [];
      var i := 0;
      UnreadSplit(schema, shelf, 0);
      while i < |FAMILIES|
        invariant 0 <= i <= |FAMILIES| && Numbered(shelf) && shelf.illegible == old(shelf).illegible
        invariant Interrupted(schema, old(shelf), moved) && Moved(schema, old(shelf), moved) == shelf
        invariant shelf.illegible != map[] ==> shelf == old(shelf) && moved == []
        invariant forall j :: 0 <= j < i ==> UnreadIn(schema, shelf, FAMILIES[j]) == {}
        invariant forall j :: i <= j < |FAMILIES| ==>
          UnreadIn(schema, shelf, FAMILIES[j]) == UnreadIn(schema, old(shelf), FAMILIES[j])
        invariant |moved| + UnreadFrom(schema, old(shelf), i) == |UnreadRows(schema, old(shelf))|
      {
        FamiliesDistinct();
        var more;
        refused, more := QuarantineUndecodable(schema, FAMILIES[i]);
        if refused {
          UnreadThere(schema, old(shelf), FAMILIES[i]);
          AllConserved(schema, old(shelf), moved);
          return;
        }
        MovedAgain(schema, old(shelf), moved, more);
        moved := moved + more;
        i := i + 1;
      }
      InterruptionIsHarmless(schema, old(shelf), moved);
      NothingUnread(schema, shelf);
      AllConserved(schema, old(shelf), moved);
    }
  }

  /** The undecodable rows of the families not yet read. */
  function UnreadFrom(schema: Schema, s: Shelf, i: nat): nat
    requires i <= |FAMILIES|
    decreases |FAMILIES| - i
  {
    if i == |FAMILIES| then 0 else |UnreadIn(schema, s, FAMILIES[i])| + UnreadFrom(schema, s, i + 1)
  }

  function UnreadAmong(schema: Schema, s: Shelf, tables: seq<string>): set<At> {
    set at | at in s.rows && at.table in tables && !schema.decodes(at.table, s.rows[at])
  }

  lemma OneFamilyMore(schema: Schema, s: Shelf, table: string, tables: seq<string>)
    requires table !in tables
    ensures |UnreadAmong(schema, s, [table] + tables)| == |UnreadIn(schema, s, table)| + |UnreadAmong(schema, s, tables)|
  {
    assert UnreadAmong(schema, s, [table] + tables) == UnreadIn(schema, s, table) + UnreadAmong(schema, s, tables);
    assert UnreadIn(schema, s, table) !! UnreadAmong(schema, s, tables);
  }

  lemma {:induction false} UnreadSplit(schema: Schema, s: Shelf, i: nat)
    requires i <= |FAMILIES|
    ensures UnreadFrom(schema, s, i) == |UnreadAmong(schema, s, FAMILIES[i..])|
    ensures i == 0 ==> UnreadFrom(schema, s, 0) == |UnreadRows(schema, s)|
    decreases |FAMILIES| - i
  {
    hide UnreadIn, UnreadAmong;
    if i == |FAMILIES| {
      NoFamilyLeft(schema, s);
    } else {
      FamiliesDistinct();
      UnreadSplit(schema, s, i + 1);
      assert FAMILIES[i..] == [FAMILIES[i]] + FAMILIES[i + 1..];
      OneFamilyMore(schema, s, FAMILIES[i], FAMILIES[i + 1..]);
    }
    AllFamilies(schema, s);
    assert FAMILIES[0..] == FAMILIES;
  }

  lemma NoFamilyLeft(schema: Schema, s: Shelf)
    ensures UnreadAmong(schema, s, FAMILIES[|FAMILIES|..]) == {}
  {
  }

  lemma AllFamilies(schema: Schema, s: Shelf)
    ensures UnreadAmong(schema, s, FAMILIES) == UnreadRows(schema, s)
  {
  }

  lemma UnreadThere(schema: Schema, s: Shelf, table: string)
    requires table in FAMILIES && UnreadIn(schema, s, table) != {}
    ensures UnreadRows(schema, s) != {}
  {
    var at :| at in UnreadIn(schema, s, table);
    assert at in UnreadRows(schema, s);
  }

  lemma {:induction false} MovedAgain(schema: Schema, s: Shelf, first: seq<At>, second: seq<At>)
    requires Interrupted(schema, s, first) && Interrupted(schema, Moved(schema, s, first), second)
    ensures Interrupted(schema, s, first + second)
    ensures Moved(schema, s, first + second) == Moved(schema, Moved(schema, s, first), second)
    decreases |first|
  {
    hide SetAside;
    if first == [] {
      assert first + second == second;
    } else {
      assert (first + second)[0] == first[0] && (first + second)[1..] == first[1..] + second;
      MovedAgain(schema, SetAside(schema, s, first[0]), first[1..], second);
    }
  }

  lemma MovedOneMore(schema: Schema, s: Shelf, moved: seq<At>, at: At)
    requires Interrupted(schema, s, moved) && Unread(schema, Moved(schema, s, moved), at)
    requires Moved(schema, s, moved).illegible == map[]
    ensures Interrupted(schema, s, moved + [at])
    ensures Moved(schema, s, moved + [at]) == SetAside(schema, Moved(schema, s, moved), at)
  {
    hide SetAside;
    var here := Moved(schema, s, moved);
    assert [at][1..] == [];
    assert Interrupted(schema, SetAside(schema, here, at), []);
    assert Moved(schema, here, [at]) == Moved(schema, SetAside(schema, here, at), []);
    MovedAgain(schema, s, moved, [at]);
  }

  lemma UnreadAfter(schema: Schema, s: Shelf, at: At, table: string)
    requires Unread(schema, s, at) && at.table == table
    ensures UnreadIn(schema, SetAside(schema, s, at), table) == UnreadIn(schema, s, table) - {at}
    ensures |UnreadIn(schema, SetAside(schema, s, at), table)| + 1 == |UnreadIn(schema, s, table)|
    ensures forall other :: other != table ==>
              UnreadIn(schema, SetAside(schema, s, at), other) == UnreadIn(schema, s, other)
  {
    assert at in UnreadIn(schema, s, table);
    assert UnreadIn(schema, SetAside(schema, s, at), table) == UnreadIn(schema, s, table) - {at};
  }

  lemma NothingUnread(schema: Schema, s: Shelf)
    requires forall j :: 0 <= j < |FAMILIES| ==> UnreadIn(schema, s, FAMILIES[j]) == {}
    ensures Opened(schema, s) == s
  {
    forall at ensures at !in UnreadRows(schema, s) {
      if at.table in FAMILIES {
        var j :| 0 <= j < |FAMILIES| && FAMILIES[j] == at.table;
        assert at !in UnreadIn(schema, s, FAMILIES[j]);
      }
    }
    assert UnreadRows(schema, s) == {};
    assert ComingKeys(schema, s) == {};
    forall at | at in s.rows ensures !Unread(schema, s, at) {
      assert at !in UnreadRows(schema, s);
    }
    assert Opened(schema, s).rows == s.rows;
  }
}
