/** The in-memory and the SQLite transaction store, and that they simulate each other. */
module StoreAdapters {
  import opened Options
  import opened Lists
  import opened Stores

  type Table = map<string, Row>

  // ----- the insertion-ordered map

  predicate Unique(rows: seq<Row>) {
    forall i, j :: 0 <= i < j < |rows| ==> rows[i].id != rows[j].id
  }

  predicate HasId(rows: seq<Row>, id: string) {
    exists x <- rows :: x.id == id
  }

  /** The row with the id, where it is. */
  function Replace(rows: seq<Row>, r: Row): seq<Row> {
    if rows == [] then []
    else
      var n := |rows| - 1;
      if rows[n].id == r.id then rows[..n] + [r] else Replace(rows[..n], r) + [rows[n]]
  }

  /** `Map.set`: an existing key keeps its place, a new one comes last. */
  function Put(rows: seq<Row>, r: Row): seq<Row> {
    if HasId(rows, r.id) then Replace(rows, r) else rows + [r]
  }

  function Find(rows: seq<Row>, id: string): Option<Row> {
    if rows == [] then None
    else if rows[|rows| - 1].id == id then Some(rows[|rows| - 1])
    else Find(rows[..|rows| - 1], id)
  }

  /** The table with the same rows. */
  function AsTable(rows: seq<Row>): Table {
    if rows == [] then map[] else AsTable(rows[..|rows| - 1])[rows[|rows| - 1].id := rows[|rows| - 1]]
  }

  /** The stores hold the same rows. */
  predicate Same(rows: seq<Row>, table: Table) {
    Unique(rows) && table == AsTable(rows)
  }

  lemma UniqueFront(rows: seq<Row>)
    requires Unique(rows) && rows != []
    ensures Unique(rows[..|rows| - 1]) && forall r <- rows[..|rows| - 1] :: r.id != rows[|rows| - 1].id
  {
  }

  lemma UniqueAppend(rows: seq<Row>, r: Row)
    requires Unique(rows) && forall x <- rows :: x.id != r.id
    ensures Unique(rows + [r])
  {
  }

  lemma {:induction false} TableIds(rows: seq<Row>)
    ensures forall id :: id in AsTable(rows) <==> exists r <- rows :: r.id == id
    ensures forall id <- AsTable(rows) :: AsTable(rows)[id] in rows && AsTable(rows)[id].id == id
  {
    if rows != [] {
      var n := |rows| - 1;
      TableIds(rows[..n]);
      assert rows == rows[..n] + [rows[n]];
      assert rows[n] in rows;
    }
  }

  lemma {:induction false} TableRow(rows: seq<Row>, r: Row)
    requires Unique(rows) && r in rows
    ensures r.id in AsTable(rows) && AsTable(rows)[r.id] == r
  {
    var n := |rows| - 1;
    UniqueFront(rows);
    if r != rows[n] {
      assert rows == rows[..n] + [rows[n]];
      TableRow(rows[..n], r);
    }
  }

  lemma TableSnoc(rows: seq<Row>, r: Row)
    ensures AsTable(rows + [r]) == AsTable(rows)[r.id := r]
  {
    assert (rows + [r])[..|rows|] == rows;
  }

  lemma TableTwice(table: Table, r: Row, last: Row)
    ensures last.id == r.id ==> table[last.id := last][r.id := r] == table[r.id := r]
    ensures last.id != r.id ==> table[last.id := last][r.id := r] == table[r.id := r][last.id := last]
  {
  }

  lemma ReplaceSteps(rows: seq<Row>, r: Row)
    requires rows != []
    ensures var n := |rows| - 1;
      Replace(rows, r) == if rows[n].id == r.id then rows[..n] + [r] else Replace(rows[..n], r) + [rows[n]]
  {
  }

  lemma HasIdFront(rows: seq<Row>, id: string)
    requires rows != []
    ensures HasId(rows, id) <==> HasId(rows[..|rows| - 1], id) || rows[|rows| - 1].id == id
  {
    assert rows == rows[..|rows| - 1] + [rows[|rows| - 1]];
  }

  lemma {:induction false} ReplaceSame(rows: seq<Row>, r: Row)
    requires Unique(rows) && HasId(rows, r.id)
    ensures Same(Replace(rows, r), AsTable(rows)[r.id := r])
    ensures forall x <- Replace(rows, r) :: x == r || x in rows
  {
    hide Unique, Replace, AsTable, HasId;
    var n := |rows| - 1;
    HasIdNone(r.id);
    HasIdFront(rows, r.id);
    UniqueFront(rows);
    ReplaceSteps(rows, r);
    assert rows == rows[..n] + [rows[n]];
    TableSnoc(rows[..n], rows[n]);
    TableTwice(AsTable(rows[..n]), r, rows[n]);
    if rows[n].id == r.id {
      UniqueAppend(rows[..n], r);
      TableSnoc(rows[..n], r);
    } else {
      ReplaceSame(rows[..n], r);
      UniqueAppend(Replace(rows[..n], r), rows[n]);
      TableSnoc(Replace(rows[..n], r), rows[n]);
    }
  }

  lemma HasIdNone(id: string)
    ensures !HasId([], id)
  {
  }

  /** Saving keeps the stores the same. */
  lemma SaveSame(rows: seq<Row>, r: Row)
    requires Unique(rows)
    ensures Same(Put(rows, r), AsTable(rows)[r.id := r])
    ensures forall x <- Put(rows, r) :: x == r || x in rows
  {
    hide Unique, Replace, AsTable;
    if HasId(rows, r.id) {
      ReplaceSame(rows, r);
    } else {
      UniqueAppend(rows, r);
      TableSnoc(rows, r);
    }
  }

  /** Where a saved row goes. */
  lemma {:induction false} ReplacePlace(rows: seq<Row>, r: Row)
    requires Unique(rows)
    ensures forall i | 0 <= i < |rows| && rows[i].id == r.id :: Replace(rows, r) == rows[i := r]
  {
    if rows != [] {
      var n := |rows| - 1;
      UniqueFront(rows);
      ReplacePlace(rows[..n], r);
      assert rows == rows[..n] + [rows[n]];
      assert rows[n] in rows;
    }
  }

  lemma PutPlace(rows: seq<Row>, r: Row)
    requires Unique(rows)
    ensures forall i | 0 <= i < |rows| && rows[i].id == r.id :: Put(rows, r) == rows[i := r]
    ensures (forall x <- rows :: x.id != r.id) ==> Put(rows, r) == rows + [r]
  {
    hide Replace;
    ReplacePlace(rows, r);
    forall i | 0 <= i < |rows| && rows[i].id == r.id ensures Put(rows, r) == rows[i := r] {
      assert rows[i] in rows;
    }
  }

  lemma PutRows(rows: seq<Row>, r: Row)
    requires Unique(rows)
    ensures forall x: Row :: x in Put(rows, r) <==> x == r || (x in rows && x.id != r.id)
  {
    hide Put;
    PutPlace(rows, r);
    if i :| 0 <= i < |rows| && rows[i].id == r.id {
      var next := rows[i := r];
      forall x: Row ensures x in next <==> x == r || (x in rows && x.id != r.id) {
        if x in rows && x.id != r.id {
          var j :| 0 <= j < |rows| && rows[j] == x;
          assert next[j] == x;
        }
        if x in next && x != r {
          var j :| 0 <= j < |next| && next[j] == x;
          assert rows[j] == x && j != i;
        }
        assert next[i] == r;
      }
    }
  }

  lemma {:induction false} FindRow(rows: seq<Row>, id: string)
    requires Unique(rows)
    ensures Find(rows, id).None? <==> forall x <- rows :: x.id != id
    ensures Find(rows, id).Some? ==> var r := Find(rows, id).value; r in rows && r.id == id && forall x <- rows :: x.id == id ==> x == r
  {
    if rows != [] {
      var n := |rows| - 1;
      UniqueFront(rows);
      FindRow(rows[..n], id);
      assert rows == rows[..n] + [rows[n]];
    }
  }

  lemma EmptyUnique()
    ensures Unique([])
  {
  }

  /** Looking up an id finds the same row. */
  lemma {:induction false} FindSame(rows: seq<Row>, id: string)
    ensures Find(rows, id) == if id in AsTable(rows) then Some(AsTable(rows)[id]) else None
  {
    if rows != [] {
      FindSame(rows[..|rows| - 1], id);
    }
  }

  // ----- deleting

  function Young(cutoff: int): Row -> bool {
    (r: Row) => r.timestamp >= cutoff
  }

  function Old(cutoff: int): Row -> bool {
    (r: Row) => r.timestamp < cutoff
  }

  function DeleteRows(table: Table, cutoff: int): Table {
    map id | id in table && table[id].timestamp >= cutoff :: table[id]
  }

  lemma {:induction false} DeleteCount(rows: seq<Row>, cutoff: int)
    ensures |Filter(Old(cutoff), rows)| + |Filter(Young(cutoff), rows)| == |rows|
  {
    if rows != [] {
      DeleteCount(rows[..|rows| - 1], cutoff);
    }
  }

  lemma {:induction false} TableSize(rows: seq<Row>)
    requires Unique(rows)
    ensures |AsTable(rows)| == |rows|
  {
    hide Unique;
    if rows != [] {
      var n := |rows| - 1;
      UniqueFront(rows);
      TableSize(rows[..n]);
      TableIds(rows[..n]);
      assert AsTable(rows).Keys == AsTable(rows[..n]).Keys + {rows[n].id};
    }
  }

  lemma DeleteStep(table: Table, r: Row, cutoff: int)
    requires r.id !in table
    ensures DeleteRows(table[r.id := r], cutoff)
      == if r.timestamp >= cutoff then DeleteRows(table, cutoff)[r.id := r] else DeleteRows(table, cutoff)
  {
  }

  lemma {:induction false} FilterUnique(rows: seq<Row>, p: Row -> bool)
    requires Unique(rows)
    ensures Unique(Filter(p, rows))
  {
    hide Unique;
    if rows == [] {
      EmptyUnique();
    } else {
      var n := |rows| - 1;
      UniqueFront(rows);
      FilterUnique(rows[..n], p);
      if p(rows[n]) {
        UniqueAppend(Filter(p, rows[..n]), rows[n]);
      } else {
        assert Filter(p, rows[..n]) + [] == Filter(p, rows[..n]);
      }
    }
  }

  /** Both stores delete the same keys. */
  lemma {:induction false} DeleteSame(rows: seq<Row>, cutoff: int)
    requires Unique(rows)
    ensures Same(Filter(Young(cutoff), rows), DeleteRows(AsTable(rows), cutoff))
  {
    hide Unique, DeleteRows;
    FilterUnique(rows, Young(cutoff));
    if rows == [] {
      NothingToDelete(cutoff);
    } else {
      var n := |rows| - 1;
      UniqueFront(rows);
      DeleteSame(rows[..n], cutoff);
      TableIds(rows[..n]);
      DeleteStep(AsTable(rows[..n]), rows[n], cutoff);
      var kept := Filter(Young(cutoff), rows[..n]);
      if rows[n].timestamp >= cutoff {
        assert (kept + [rows[n]])[..|kept|] == kept;
      } else {
        assert kept + [] == kept;
      }
    }
  }

  lemma NothingToDelete(cutoff: int)
    ensures DeleteRows(map[], cutoff) == map[]
  {
  }

  /** And both report how many: the rows that are gone. */
  lemma DeletedSame(rows: seq<Row>, cutoff: int)
    requires Unique(rows)
    ensures |AsTable(rows)| - |DeleteRows(AsTable(rows), cutoff)| == |Filter(Old(cutoff), rows)|
  {
    hide Unique, DeleteRows, AsTable;
    DeleteCount(rows, cutoff);
    DeleteSame(rows, cutoff);
    TableSize(rows);
    TableSize(Filter(Young(cutoff), rows));
  }

  // ----- ranges

  datatype Range = Range(oldest: Option<int>, newest: Option<int>)

  function Rows(xs: seq<Row>): set<Row> {
    set x | x in xs
  }

  predicate Bounds(rows: set<Row>, r: Range) {
    && (rows == {} ==> r == Range(None, None))
    && (rows != {} ==>
      && r.oldest.Some? && r.newest.Some?
      && (exists x <- rows :: x.timestamp == r.oldest.value) && (exists x <- rows :: x.timestamp == r.newest.value)
      && forall x <- rows :: r.oldest.value <= x.timestamp <= r.newest.value)
  }

  /** The range of a set of rows is unique, so the ends of a sorted list are the table's MIN and MAX. */
  lemma BoundsUnique(rows: set<Row>, a: Range, b: Range)
    requires Bounds(rows, a) && Bounds(rows, b)
    ensures a == b
  {
  }

  // ----- enumerations of a table

  /** The engine visits every row of the table once, in some order. */
  predicate Scans(scan: seq<Row>, table: Table) {
    Same(scan, table)
  }

  /** Two enumerations of the same rows have the same rows. */
  lemma {:induction false} ScansAgree(a: seq<Row>, b: seq<Row>)
    requires Unique(a) && Unique(b) && AsTable(a) == AsTable(b)
    ensures multiset(a) == multiset(b)
  {
    forall r: Row ensures multiset(a)[r] == multiset(b)[r] {
      TableIds(a);
      TableIds(b);
      if r in a {
        TableRow(a, r);
      }
      if r in b {
        TableRow(b, r);
      }
      UniqueOnce(a, r);
      UniqueOnce(b, r);
    }
  }

  lemma {:induction false} UniqueOnce(rows: seq<Row>, r: Row)
    requires Unique(rows)
    ensures multiset(rows)[r] == if r in rows then 1 else 0
  {
    if rows != [] {
      var n := |rows| - 1;
      UniqueFront(rows);
      UniqueOnce(rows[..n], r);
      assert rows == rows[..n] + [rows[n]];
    }
  }

  // ----- the stores

  lemma AgeNothing(cutoff: int)
    ensures Filter(Young(cutoff), []) == [] && Filter(Old(cutoff), []) == []
  {
  }

  lemma AgeStep(rows: seq<Row>, i: nat, cutoff: int)
    requires i < |rows|
    ensures Filter(Young(cutoff), rows[..i + 1]) == Filter(Young(cutoff), rows[..i]) + if rows[i].timestamp < cutoff then [] else [rows[i]]
    ensures Filter(Old(cutoff), rows[..i + 1]) == Filter(Old(cutoff), rows[..i]) + if rows[i].timestamp < cutoff then [rows[i]] else []
  {
    assert rows[..i + 1][..i] == rows[..i];
  }

  lemma YoungIn(rows: seq<Row>, cutoff: int)
    ensures forall r :: r in Filter(Young(cutoff), rows) <==> r in rows && !(r.timestamp < cutoff)
  {
  }

  class MemoryStore {
    var rows: seq<Row>

    ghost predicate Valid()
      reads this
    {
      Unique(rows)
    }

    constructor ()
      ensures Valid() && rows == []
    {
      rows := [];
    }

    /** A row with the id is replaced where it is, a new one comes last, and no other row moves or changes. */
    method Save(r: Row)
      requires Valid()
      modifies this
      ensures Valid() && rows == Put(old(rows), r)
      ensures forall i | 0 <= i < |old(rows)| && old(rows)[i].id == r.id :: rows == old(rows)[i := r]
      ensures (forall x <- old(rows) :: x.id != r.id) ==> rows == old(rows) + [r]
      ensures forall x: Row :: x in rows <==> x == r || (x in old(rows) && x.id != r.id)
    {
      SaveSame(rows, r);
      PutPlace(rows, r);
      PutRows(rows, r);
      rows := Put(rows, r);
    }

    /** Nothing exactly when no row has the id; otherwise the one row that has it. */
    method Get(id: string) returns (r: Option<Row>)
      requires Valid()
      ensures r.None? <==> forall x <- rows :: x.id != id
      ensures r.Some? ==> r.value in rows && r.value.id == id && forall x <- rows :: x.id == id ==> x == r.value
      ensures r == Find(rows, id)
    {
      FindRow(rows, id);
      r := Find(rows, id);
    }

    /** One filter after another, then the sort and the cut. */
    method List(f: Filters) returns (txs: seq<Row>)
      ensures txs == Listing(rows, f)
    {
      txs := FilterAll(rows, f);
      txs := Sort(txs);
      if f.limit > 0 {
        txs := if f.limit < |txs| then txs[..f.limit] else txs;
      }
    }

    method DeleteOlderThan(cutoff: int) returns (deleted: nat)
      requires Valid()
      modifies this
      ensures Valid() && rows == Filter(Young(cutoff), old(rows)) && deleted == |old(rows)| - |rows|
      ensures forall r :: r in rows <==> r in old(rows) && !(r.timestamp < cutoff)
    {
      hide Filter, Unique;
      FilterUnique(rows, Young(cutoff));
      AgeNothing(cutoff);
      var kept := [];
      deleted := 0;
      for i := 0 to |rows|
        invariant rows == old(rows) && kept == Filter(Young(cutoff), rows[..i]) && deleted == |Filter(Old(cutoff), rows[..i])|
      {
        AgeStep(rows, i, cutoff);
        if rows[i].timestamp < cutoff {
          deleted := deleted + 1;
        } else {
          kept := kept + [rows[i]];
        }
      }
      assert rows[..|rows|] == rows;
      DeleteCount(rows, cutoff);
      YoungIn(rows, cutoff);
      rows := kept;
    }

    /** First and last of the rows sorted by time. */
    method GetRetentionRange() returns (r: Range)
      ensures Bounds(Rows(rows), r)
    {
      var all := Sort(rows);
      EndsBound(rows);
      if |all| == 0 {
        return Range(None, None);
      }
      return Range(Some(all[|all| - 1].timestamp), Some(all[0].timestamp));
    }
  }

  /** The ends of the sorted rows bound them. */
  lemma EndsBound(rows: seq<Row>)
    ensures var all := Sort(rows);
      Bounds(Rows(rows), if all == [] then Range(None, None) else Range(Some(all[|all| - 1].timestamp), Some(all[0].timestamp)))
  {
    hide Sort;
    SortSorted(rows);
    var all, stored := Sort(rows), Rows(rows);
    forall x: Row ensures x in stored <==> x in all {
      assert x in multiset(all) <==> x in multiset(rows);
    }
    if all != [] {
      assert all[0] in stored && all[|all| - 1] in stored;
      forall x | x in stored ensures all[|all| - 1].timestamp <= x.timestamp <= all[0].timestamp {
        var k :| 0 <= k < |all| && all[k] == x;
      }
    }
  }

  function DirectionIs(f: Filters): Row -> bool {
    (r: Row) => f.direction.Some? ==> r.direction == f.direction.value
  }

  function StatusIs(f: Filters): Row -> bool {
    (r: Row) => f.status.Some? ==> r.status == f.status.value
  }

  function SenderIs(f: Filters): Row -> bool {
    (r: Row) => f.senderId.Some? ==> r.senderId == f.senderId
  }

  function ReceiverIs(f: Filters): Row -> bool {
    (r: Row) => f.receiverId.Some? ==> r.receiverId == f.receiverId
  }

  function FromOn(f: Filters): Row -> bool {
    (r: Row) => f.from.Some? ==> r.timestamp >= f.from.value
  }

  function UpTo(f: Filters): Row -> bool {
    (r: Row) => f.to.Some? ==> r.timestamp <= f.to.value
  }

  function Every(a: Row -> bool, b: Row -> bool): Row -> bool {
    (r: Row) => a(r) && b(r)
  }

  lemma {:induction false} FilterTwice(a: Row -> bool, b: Row -> bool, rows: seq<Row>)
    ensures Filter(b, Filter(a, rows)) == Filter(Every(a, b), rows)
  {
    hide Filter, Every;
    if rows != [] {
      var n := |rows| - 1;
      FilterTwice(a, b, rows[..n]);
      assert rows == rows[..n] + [rows[n]];
      FilterTwiceStep(a, b, rows[..n], rows[n]);
    } else {
      FilterNothing(a);
      FilterNothing(b);
      FilterNothing(Every(a, b));
    }
  }

  lemma FilterTwiceStep(a: Row -> bool, b: Row -> bool, rows: seq<Row>, r: Row)
    requires Filter(b, Filter(a, rows)) == Filter(Every(a, b), rows)
    ensures Filter(b, Filter(a, rows + [r])) == Filter(Every(a, b), rows + [r])
  {
    hide Filter;
    if a(r) {
      FilterTaken(a, rows, r);
      if b(r) {
        FilterTaken(b, Filter(a, rows), r);
        FilterTaken(Every(a, b), rows, r);
      } else {
        FilterDropped(b, Filter(a, rows), r);
        FilterDropped(Every(a, b), rows, r);
      }
    } else {
      FilterDropped(a, rows, r);
      FilterDropped(Every(a, b), rows, r);
    }
  }

  lemma FilterTaken(a: Row -> bool, rows: seq<Row>, r: Row)
    requires a(r)
    ensures Filter(a, rows + [r]) == Filter(a, rows) + [r]
  {
    hide Filter;
    FilterAppend(a, rows, r);
  }

  lemma FilterDropped(a: Row -> bool, rows: seq<Row>, r: Row)
    requires !a(r)
    ensures Filter(a, rows + [r]) == Filter(a, rows)
  {
    hide Filter;
    FilterAppend(a, rows, r);
    assert Filter(a, rows) + [] == Filter(a, rows);
  }

  lemma {:induction false} FilterAlways(a: Row -> bool, rows: seq<Row>)
    requires forall r :: a(r)
    ensures Filter(a, rows) == rows
  {
    hide Filter;
    if rows != [] {
      var n := |rows| - 1;
      FilterAlways(a, rows[..n]);
      assert rows == rows[..n] + [rows[n]];
      FilterTaken(a, rows[..n], rows[n]);
    } else {
      FilterNothing(a);
    }
  }

  function AllOf(f: Filters): Row -> bool {
    Every(Every(Every(Every(Every(DirectionIs(f), StatusIs(f)), SenderIs(f)), ReceiverIs(f)), FromOn(f)), UpTo(f))
  }

  lemma AllOfMatches(f: Filters, rows: seq<Row>)
    ensures Filter(AllOf(f), rows) == Filter(Matching(f), rows)
  {
    forall r: Row ensures AllOf(f)(r) == Matching(f)(r) {
      AllOfMeans(f, r);
    }
    FilterEqual(AllOf(f), Matching(f), rows);
  }

  lemma AllOfMeans(f: Filters, r: Row)
    ensures AllOf(f)(r) == Matches(r, f)
  {
  }

  /** The chain of filters keeps exactly the rows that match all of them. */
  method FilterAll(rows: seq<Row>, f: Filters) returns (txs: seq<Row>)
    ensures txs == Filter(Matching(f), rows)
  {
    hide Filter, Every;
    txs := FilterFirst(DirectionIs(f), f.direction.Some?, rows);
    var p := DirectionIs(f);
    txs := FilterMore(p, StatusIs(f), f.status.Some?, rows, txs);
    p := Every(p, StatusIs(f));
    txs := FilterMore(p, SenderIs(f), f.senderId.Some?, rows, txs);
    p := Every(p, SenderIs(f));
    txs := FilterMore(p, ReceiverIs(f), f.receiverId.Some?, rows, txs);
    p := Every(p, ReceiverIs(f));
    txs := FilterMore(p, FromOn(f), f.from.Some?, rows, txs);
    p := Every(p, FromOn(f));
    txs := FilterMore(p, UpTo(f), f.to.Some?, rows, txs);
    AllOfMatches(f, rows);
  }

  method FilterFirst(p: Row -> bool, given: bool, rows: seq<Row>) returns (next: seq<Row>)
    requires !given ==> forall r :: p(r)
    ensures next == Filter(p, rows)
  {
    if given {
      next := Filter(p, rows);
    } else {
      FilterAlways(p, rows);
      next := rows;
    }
  }

  /** One optional filter more. */
  method FilterMore(done: Row -> bool, p: Row -> bool, given: bool, rows: seq<Row>, txs: seq<Row>) returns (next: seq<Row>)
    requires txs == Filter(done, rows) && (!given ==> forall r :: p(r))
    ensures next == Filter(Every(done, p), rows)
  {
    FilterTwice(done, p, rows);
    if given {
      next := Filter(p, txs);
    } else {
      FilterAlways(p, txs);
      next := txs;
    }
  }

  /** The table; what the engine decides is the order in which it visits rows with equal timestamps. */
  class TableStore {
    var table: Table

    /** The id is the key. */
    ghost predicate Valid()
      reads this
    {
      forall id <- table :: table[id].id == id
    }

    constructor ()
      ensures Valid() && table == map[]
    {
      table := map[];
    }

    /** INSERT OR REPLACE: the rows are the saved one and all others but the one with its id. */
    method Save(r: Row)
      requires Valid()
      modifies this
      ensures Valid()
      ensures forall x: Row :: x in table.Values <==> x == r || (x in old(table.Values) && x.id != r.id)
    {
      table := table[r.id := r];
      forall x: Row ensures x in table.Values <==> x == r || (x in old(table.Values) && x.id != r.id) {
        assert r.id in table;
        if x in old(table.Values) && x.id != r.id {
          var id :| id in old(table) && old(table)[id] == x;
          assert table[id] == x;
        }
      }
    }

    /** Nothing exactly when no row has the id; otherwise the one row that has it. */
    method Get(id: string) returns (r: Option<Row>)
      requires Valid()
      ensures r.None? <==> forall x <- table.Values :: x.id != id
      ensures r.Some? ==> r.value in table.Values && r.value.id == id && forall x <- table.Values :: x.id == id ==> x == r.value
    {
      if id !in table {
        return None;
      }
      return Some(table[id]);
    }

    /** The query is built condition by condition, then ordered and limited. */
    method List(f: Filters, scan: seq<Row>) returns (txs: seq<Row>)
      requires Scans(scan, table)
      ensures txs == Listing(scan, f)
    {
      hide Filter, Sort;
      var where := (r: Row) => true;
      where := if f.direction.Some? then DirectionIs(f) else where;
      where := if f.status.Some? then Every(where, StatusIs(f)) else where;
      where := if f.senderId.Some? then Every(where, SenderIs(f)) else where;
      where := if f.receiverId.Some? then Every(where, ReceiverIs(f)) else where;
      where := if f.from.Some? then Every(where, FromOn(f)) else where;
      where := if f.to.Some? then Every(where, UpTo(f)) else where;
      WhereMatches(where, f, scan);
      txs := Sort(Filter(where, scan));
      if f.limit > 0 {
        txs := if f.limit < |txs| then txs[..f.limit] else txs;
      }
    }

    /** DELETE, reporting the number of rows changed. */
    method DeleteOlderThan(cutoff: int) returns (changes: int)
      requires Valid()
      modifies this
      ensures Valid() && table == DeleteRows(old(table), cutoff) && changes == |old(table)| - |table|
      ensures forall id :: id in table <==> id in old(table) && !(old(table)[id].timestamp < cutoff)
      ensures forall id <- table :: table[id] == old(table)[id]
    {
      var before := |table|;
      table := map id | id in table && table[id].timestamp >= cutoff :: table[id];
      changes := before - |table|;
    }

    /** MIN and MAX over all rows. */
    method GetRetentionRange(scan: seq<Row>) returns (r: Range)
      requires Scans(scan, table)
      ensures Bounds(Rows(scan), r)
    {
      r := Range(None, None);
      for i := 0 to |scan|
        invariant Bounds(Rows(scan[..i]), r)
      {
        BoundsStep(scan, i, r);
        var t := scan[i].timestamp;
        r := Widen(r, t);
      }
      assert scan[..|scan|] == scan;
    }
  }

  function Widen(r: Range, t: int): Range {
    Range(Some(if r.oldest.Some? && r.oldest.value <= t then r.oldest.value else t),
          Some(if r.newest.Some? && r.newest.value >= t then r.newest.value else t))
  }

  lemma BoundsStep(scan: seq<Row>, i: nat, r: Range)
    requires i < |scan| && Bounds(Rows(scan[..i]), r)
    ensures Bounds(Rows(scan[..i + 1]), Widen(r, scan[i].timestamp))
  {
    var before, after := Rows(scan[..i]), Rows(scan[..i + 1]);
    assert scan[..i + 1] == scan[..i] + [scan[i]];
    assert after == before + {scan[i]};
  }

  lemma WhereMatches(where: Row -> bool, f: Filters, scan: seq<Row>)
    requires forall r :: where(r) == Matches(r, f)
    ensures Filter(where, scan) == Filter(Matching(f), scan)
  {
    FilterEqual(where, Matching(f), scan);
  }

  // ----- the simulation

  datatype Command = SaveRow(r: Row) | DeleteOld(cutoff: int)

  /** The memory store's rows and the counts its deletions reported. */
  function MemoryRun(commands: seq<Command>): (seq<Row>, seq<int>) {
    if commands == [] then ([], [])
    else
      var (rows, counts) := MemoryRun(commands[..|commands| - 1]);
      match commands[|commands| - 1]
      case SaveRow(r) => (Put(rows, r), counts)
      case DeleteOld(cutoff) => (Filter(Young(cutoff), rows), counts + [|Filter(Old(cutoff), rows)|])
  }

  function TableRun(commands: seq<Command>): (Table, seq<int>) {
    if commands == [] then (map[], [])
    else
      var (table, counts) := TableRun(commands[..|commands| - 1]);
      match commands[|commands| - 1]
      case SaveRow(r) => (table[r.id := r], counts)
      case DeleteOld(cutoff) => (DeleteRows(table, cutoff), counts + [|table| - |DeleteRows(table, cutoff)|])
  }

  /** After any run of saves and deletions the stores hold the same rows and have reported the same counts. */
  lemma {:induction false} RunsSame(commands: seq<Command>)
    ensures Same(MemoryRun(commands).0, TableRun(commands).0) && MemoryRun(commands).1 == TableRun(commands).1
  {
    hide Same, Put, Filter, DeleteRows, AsTable;
    if commands == [] {
      NothingSame();
    } else {
      RunsSame(commands[..|commands| - 1]);
      var (rows, counts) := MemoryRun(commands[..|commands| - 1]);
      SameMeans(rows, TableRun(commands[..|commands| - 1]).0);
      match commands[|commands| - 1]
      case SaveRow(r) => SaveSame(rows, r);
      case DeleteOld(cutoff) =>
        DeleteSame(rows, cutoff);
        DeletedSame(rows, cutoff);
    }
  }

  lemma NothingSame()
    ensures Same([], map[])
  {
  }

  lemma SameMeans(rows: seq<Row>, table: Table)
    requires Same(rows, table)
    ensures Unique(rows) && table == AsTable(rows)
  {
  }

  /** And every query answers the same: lookups, ranges, and listings up to the order of equal timestamps. */
  lemma QueriesSame(rows: seq<Row>, table: Table, scan: seq<Row>, id: string, f: Filters, a: Range, b: Range)
    requires Same(rows, table) && Scans(scan, table)
    ensures Find(rows, id) == if id in table then Some(table[id]) else None
    ensures Bounds(Rows(rows), a) && Bounds(Rows(scan), b) ==> a == b
    ensures var x, y := Listing(rows, f), Listing(scan, f);
      && |x| == |y| && (forall i :: 0 <= i < |x| ==> x[i].timestamp == y[i].timestamp)
      && (x != [] ==> multiset(Newer(x, LastInstant(x))) == multiset(Newer(y, LastInstant(x))))
      && (|x| == |Filter(Matching(f), rows)| ==> multiset(x) == multiset(y))
  {
    hide Listing, Bounds, Find, Newer, Filter;
    FindSame(rows, id);
    ScansAgree(rows, scan);
    ListingsAgree(rows, scan, f);
    assert Rows(rows) == Rows(scan) by {
      forall x: Row ensures x in rows <==> x in scan {
        assert x in multiset(rows) <==> x in multiset(scan);
      }
    }
    if Bounds(Rows(rows), a) && Bounds(Rows(scan), b) {
      BoundsUnique(Rows(rows), a, b);
    }
  }

  // ----- prune

  const NO_FILTERS := Filters(None, None, None, None, None, None, 0)

  /** What `logs prune --dry-run` prints is what `logs prune` then deletes, with either store. */
  lemma DryRunCount(rows: seq<Row>, table: Table, scan: seq<Row>, cutoff: int)
    requires Same(rows, table) && Scans(scan, table)
    ensures |Filter(Old(cutoff), Listing(rows, NO_FILTERS))| == |Filter(Old(cutoff), rows)|
    ensures |Filter(Old(cutoff), Listing(scan, NO_FILTERS))| == |table| - |DeleteRows(table, cutoff)|
  {
    hide Sort;
    ListingAll(rows, cutoff);
    ListingAll(scan, cutoff);
    DeletedSame(scan, cutoff);
  }

  lemma ListingAll(scan: seq<Row>, cutoff: int)
    ensures |Filter(Old(cutoff), Listing(scan, NO_FILTERS))| == |Filter(Old(cutoff), scan)|
  {
    hide Sort;
    FilterAlways(Matching(NO_FILTERS), scan);
    SortSorted(scan);
    FilterReordered(Old(cutoff), Sort(scan), scan);
    var a, b := Filter(Old(cutoff), Sort(scan)), Filter(Old(cutoff), scan);
    assert |multiset(a)| == |a| && |multiset(b)| == |b|;
  }
}
