/** The columns of a Kanban board of a shared result: the merge of query groups with
    the stored column order, and cards drawn where a pending move will take them. */
module Kanban {
  import opened Platforms

  datatype Row = Row(path: string, values: map<string, Value>)

  /** A group under its authoritative identity. */
  datatype Column = Column(id: string, rows: seq<Row>)

  datatype Request = Request(path: string, property: string, source: string, destination: string)

  /** A move in flight; the ticket tells two moves of one card apart. */
  datatype Pending = Pending(request: Request, ticket: nat)

  // ----- rows and columns

  function Paths(rows: seq<Row>): set<string> { set i | 0 <= i < |rows| :: rows[i].path }

  predicate NoRepeat(rows: seq<Row>) { forall i, j :: 0 <= i < j < |rows| ==> rows[i].path != rows[j].path }

  function Concat(parts: seq<seq<Row>>): seq<Row> {
    if parts == [] then [] else parts[0] + Concat(parts[1..])
  }

  function RowsOf(columns: seq<Column>): (parts: seq<seq<Row>>)
    ensures |parts| == |columns| && forall i :: 0 <= i < |parts| ==> parts[i] == columns[i].rows
  {
    seq(|columns|, i requires 0 <= i < |columns| => columns[i].rows)
  }

  function AllRows(columns: seq<Column>): seq<Row> { Concat(RowsOf(columns)) }

  /** No path in two of the parts, nor twice in one. */
  predicate Apart(parts: seq<seq<Row>>) {
    && (forall i :: 0 <= i < |parts| ==> NoRepeat(parts[i]))
    && (forall i, j :: 0 <= i < j < |parts| ==> Paths(parts[i]) !! Paths(parts[j]))
  }

  predicate OwnIds(columns: seq<Column>) { forall i, j :: 0 <= i < j < |columns| ==> columns[i].id != columns[j].id }

  predicate Laid(columns: seq<Column>) { OwnIds(columns) && Apart(RowsOf(columns)) }

  function Locate(columns: seq<Column>, path: string): (found: Option<Column>)
    ensures found.Some? ==> found.value in columns && path in Paths(found.value.rows)
    ensures found.None? ==> forall i :: 0 <= i < |columns| ==> path !in Paths(columns[i].rows)
  {
    if columns == [] then None
    else if path in Paths(columns[0].rows) then Some(columns[0])
    else Locate(columns[1..], path)
  }

  function Home(columns: seq<Column>, path: string): Option<string> {
    var found := Locate(columns, path);
    if found.Some? then Some(found.value.id) else None
  }

  predicate HasColumn(columns: seq<Column>, id: string) { exists i :: 0 <= i < |columns| && columns[i].id == id }

  /** Every pending move is of another card, out of its column and into another. */
  predicate Settled(columns: seq<Column>, pending: seq<Pending>) {
    && (forall k :: 0 <= k < |pending| ==> Stands(columns, pending[k].request))
    && (forall k, l :: 0 <= k < l < |pending| ==> pending[k].request.path != pending[l].request.path)
  }

  predicate Stands(columns: seq<Column>, request: Request) {
    Home(columns, request.path) == Some(request.source) && request.source != request.destination && HasColumn(columns, request.destination)
  }

  /** The column that a card belongs in: where its pending move goes, or its own. */
  function Place(columns: seq<Column>, pending: seq<Pending>, path: string): Option<string> {
    if pending == [] then Home(columns, path)
    else if pending[|pending| - 1].request.path == path then Some(pending[|pending| - 1].request.destination)
    else Place(columns, pending[..|pending| - 1], path)
  }

  /** Exactly the rows that belong in the column, once each. */
  ghost predicate Shown(rows: seq<Row>, columns: seq<Column>, pending: seq<Pending>, id: string) {
    NoRepeat(rows) && forall r :: r in rows <==> r in AllRows(columns) && Place(columns, pending, r.path) == Some(id)
  }

  // ----- the order of the result

  function At(order: map<string, nat>, path: string): nat { if path in order then order[path] else 0 }

  predicate Sorted(rows: seq<Row>, order: map<string, nat>) {
    forall i, j :: 0 <= i < j < |rows| ==> At(order, rows[i].path) < At(order, rows[j].path)
  }

  /** The order has every card at a place of its own, and every column follows it. */
  predicate Ordered(columns: seq<Column>, order: map<string, nat>) {
    && (forall i :: 0 <= i < |columns| ==> Sorted(columns[i].rows, order))
    && (forall a, b :: a in AllRows(columns) && b in AllRows(columns) && At(order, a.path) == At(order, b.path) ==> a.path == b.path)
  }

  function Without(rows: seq<Row>, path: string): (left: seq<Row>)
    ensures forall r :: r in left <==> r in rows && r.path != path
  {
    if rows == [] then []
    else if rows[0].path == path then Without(rows[1..], path)
    else [rows[0]] + Without(rows[1..], path)
  }

  lemma {:induction false} WithoutOnce(rows: seq<Row>, path: string)
    requires NoRepeat(rows)
    ensures NoRepeat(Without(rows, path))
  {
    if rows != [] {
      WithoutOnce(rows[1..], path);
      var left := Without(rows[1..], path);
      forall i | 0 <= i < |left| ensures left[i].path != rows[0].path { assert left[i] in rows[1..]; }
    }
  }

  lemma {:induction false} WithoutSorted(rows: seq<Row>, path: string, order: map<string, nat>)
    requires Sorted(rows, order)
    ensures Sorted(Without(rows, path), order)
  {
    if rows != [] {
      WithoutSorted(rows[1..], path, order);
      var left := Without(rows[1..], path);
      forall i | 0 <= i < |left| ensures At(order, rows[0].path) < At(order, left[i].path) { assert left[i] in rows[1..]; }
    }
  }

  /** How many rows come before place `at`. */
  function Before(rows: seq<Row>, order: map<string, nat>, at: nat): (n: nat)
    ensures n <= |rows|
  {
    if rows == [] then 0
    else Before(rows[..|rows| - 1], order, at) + if At(order, rows[|rows| - 1].path) < at then 1 else 0
  }

  lemma {:induction false} BeforeSplits(rows: seq<Row>, order: map<string, nat>, at: nat)
    requires Sorted(rows, order)
    ensures forall i :: 0 <= i < |rows| ==> (i < Before(rows, order, at) <==> At(order, rows[i].path) < at)
  {
    if rows != [] { BeforeSplits(rows[..|rows| - 1], order, at); }
  }

  function Inserted(rows: seq<Row>, order: map<string, nat>, row: Row): seq<Row> {
    var n := Before(rows, order, At(order, row.path));
    rows[..n] + [row] + rows[n..]
  }

  lemma {:induction false} InsertedKeeps(rows: seq<Row>, order: map<string, nat>, row: Row)
    requires NoRepeat(rows) && row.path !in Paths(rows)
    ensures NoRepeat(Inserted(rows, order, row))
    ensures forall r :: r in Inserted(rows, order, row) <==> r in rows || r == row
  {
    var n := Before(rows, order, At(order, row.path));
    assert rows == rows[..n] + rows[n..];
    forall i | 0 <= i < |rows| ensures rows[i].path != row.path { assert rows[i].path in Paths(rows); }
  }

  lemma {:induction false} InsertedSorted(rows: seq<Row>, order: map<string, nat>, row: Row)
    requires Sorted(rows, order) && forall i :: 0 <= i < |rows| ==> At(order, rows[i].path) != At(order, row.path)
    ensures Sorted(Inserted(rows, order, row), order)
  {
    BeforeSplits(rows, order, At(order, row.path));
  }

  // ----- where rows are

  lemma {:induction false} ConcatHas(parts: seq<seq<Row>>, r: Row)
    ensures r in Concat(parts) <==> exists i :: 0 <= i < |parts| && r in parts[i]
  {
    if parts != [] {
      ConcatHas(parts[1..], r);
      if r in Concat(parts[1..]) {
        var i :| 0 <= i < |parts[1..]| && r in parts[1..][i];
        assert r in parts[i + 1];
      }
      if i :| 0 <= i < |parts| && r in parts[i] { if i > 0 { assert parts[i] == parts[1..][i - 1]; } }
    }
  }

  lemma {:induction false} LocatedAt(columns: seq<Column>, i: nat, r: Row)
    requires Laid(columns) && i < |columns| && r in columns[i].rows
    ensures Locate(columns, r.path) == Some(columns[i])
  {
    assert r.path in Paths(columns[i].rows);
    var found := Locate(columns, r.path).value;
    var j :| 0 <= j < |columns| && columns[j] == found;
    assert r.path in Paths(RowsOf(columns)[i]) && r.path in Paths(RowsOf(columns)[j]);
  }

  lemma {:induction false} RowHome(columns: seq<Column>, i: nat, r: Row)
    requires Laid(columns) && i < |columns|
    ensures r in columns[i].rows <==> r in AllRows(columns) && Home(columns, r.path) == Some(columns[i].id)
  {
    ConcatHas(RowsOf(columns), r);
    if r in columns[i].rows { assert r in RowsOf(columns)[i]; LocatedAt(columns, i, r); }
    if r in AllRows(columns) && Home(columns, r.path) == Some(columns[i].id) {
      var j :| 0 <= j < |columns| && r in RowsOf(columns)[j];
      LocatedAt(columns, j, r);
    }
  }

  lemma {:induction false} OneRowPerPath(columns: seq<Column>, a: Row, b: Row)
    requires Laid(columns) && a in AllRows(columns) && b in AllRows(columns) && a.path == b.path
    ensures a == b
  {
    ConcatHas(RowsOf(columns), a);
    ConcatHas(RowsOf(columns), b);
    var i :| 0 <= i < |columns| && a in RowsOf(columns)[i];
    var j :| 0 <= j < |columns| && b in RowsOf(columns)[j];
    LocatedAt(columns, i, a);
    LocatedAt(columns, j, b);
    assert columns[i].id == columns[j].id;
    assert i == j;
    assert NoRepeat(RowsOf(columns)[i]);
  }

  lemma {:induction false} PlaceStands(columns: seq<Column>, pending: seq<Pending>, r: Row)
    requires Laid(columns) && Settled(columns, pending) && r in AllRows(columns)
    ensures Place(columns, pending, r.path).Some? && HasColumn(columns, Place(columns, pending, r.path).value)
  {
    if pending == [] {
      ConcatHas(RowsOf(columns), r);
      var i :| 0 <= i < |columns| && r in RowsOf(columns)[i];
      LocatedAt(columns, i, r);
    } else {
      assert Stands(columns, pending[|pending| - 1].request);
      PlaceStands(columns, pending[..|pending| - 1], r);
    }
  }

  lemma {:induction false} HomeUntilMoved(columns: seq<Column>, pending: seq<Pending>, path: string)
    requires forall k :: 0 <= k < |pending| ==> pending[k].request.path != path
    ensures Place(columns, pending, path) == Home(columns, path)
  {
    if pending != [] { HomeUntilMoved(columns, pending[..|pending| - 1], path); }
  }

  // ----- one pending move, seen from one column

  lemma {:induction false} HomeShown(columns: seq<Column>, c: nat)
    requires Laid(columns) && c < |columns|
    ensures Shown(columns[c].rows, columns, [], columns[c].id)
  {
    assert NoRepeat(RowsOf(columns)[c]);
    forall r ensures r in columns[c].rows <==> r in AllRows(columns) && Place(columns, [], r.path) == Some(columns[c].id) {
      RowHome(columns, c, r);
    }
  }

  /** The place of every other card stays, and the moved one was at home before. */
  lemma {:induction false} PlaceNext(columns: seq<Column>, pending: seq<Pending>, n: nat, path: string)
    requires Settled(columns, pending) && n < |pending|
    ensures path != pending[n].request.path ==> Place(columns, pending[..n + 1], path) == Place(columns, pending[..n], path)
    ensures path == pending[n].request.path ==> Place(columns, pending[..n + 1], path) == Some(pending[n].request.destination)
    ensures path == pending[n].request.path ==> Place(columns, pending[..n], path) == Some(pending[n].request.source)
  {
    assert pending[..n + 1][..n] == pending[..n];
    if path == pending[n].request.path {
      HomeUntilMoved(columns, pending[..n], path);
      assert Stands(columns, pending[n].request);
    }
  }

  lemma {:induction false} LeavesSource(rows: seq<Row>, columns: seq<Column>, pending: seq<Pending>, n: nat)
    requires Laid(columns) && Settled(columns, pending) && n < |pending|
    requires Shown(rows, columns, pending[..n], pending[n].request.source)
    ensures Shown(Without(rows, pending[n].request.path), columns, pending[..n + 1], pending[n].request.source)
  {
    var request := pending[n].request;
    WithoutOnce(rows, request.path);
    assert Stands(columns, request);
    forall r ensures r in Without(rows, request.path) <==> r in AllRows(columns) && Place(columns, pending[..n + 1], r.path) == Some(request.source) {
      PlaceNext(columns, pending, n, r.path);
    }
  }

  lemma {:induction false} NotYetThere(rows: seq<Row>, columns: seq<Column>, pending: seq<Pending>, n: nat)
    requires Laid(columns) && Settled(columns, pending) && n < |pending|
    requires Shown(rows, columns, pending[..n], pending[n].request.destination)
    ensures pending[n].request.path !in Paths(rows)
  {
    var request := pending[n].request;
    assert Stands(columns, request);
    if request.path in Paths(rows) {
      var i :| 0 <= i < |rows| && rows[i].path == request.path;
      assert rows[i] in rows;
      PlaceNext(columns, pending, n, request.path);
    }
  }

  lemma {:induction false} ReachesDestination(rows: seq<Row>, columns: seq<Column>, pending: seq<Pending>, n: nat, row: Row, order: map<string, nat>)
    requires Laid(columns) && Settled(columns, pending) && n < |pending|
    requires Shown(rows, columns, pending[..n], pending[n].request.destination)
    requires row in AllRows(columns) && row.path == pending[n].request.path
    ensures Shown(Inserted(rows, order, row), columns, pending[..n + 1], pending[n].request.destination)
  {
    var request := pending[n].request;
    NotYetThere(rows, columns, pending, n);
    InsertedKeeps(rows, order, row);
    forall r ensures r in Inserted(rows, order, row) <==> r in AllRows(columns) && Place(columns, pending[..n + 1], r.path) == Some(request.destination) {
      PlaceNext(columns, pending, n, r.path);
      if r in AllRows(columns) && r.path == row.path { OneRowPerPath(columns, r, row); }
    }
  }

  lemma {:induction false} ElsewhereStays(rows: seq<Row>, columns: seq<Column>, pending: seq<Pending>, n: nat, id: string)
    requires Laid(columns) && Settled(columns, pending) && n < |pending|
    requires Shown(rows, columns, pending[..n], id) && id != pending[n].request.source && id != pending[n].request.destination
    ensures Shown(rows, columns, pending[..n + 1], id)
  {
    forall r ensures r in rows <==> r in AllRows(columns) && Place(columns, pending[..n + 1], r.path) == Some(id) {
      PlaceNext(columns, pending, n, r.path);
    }
  }

  function RowWith(rows: seq<Row>, path: string): (row: Row)
    requires path in Paths(rows)
    ensures row in rows && row.path == path
  {
    if rows[0].path == path then rows[0] else assert path in Paths(rows[1..]); RowWith(rows[1..], path)
  }

  lemma {:induction false} InColumn(columns: seq<Column>, column: Column, row: Row)
    requires column in columns && row in column.rows
    ensures row in AllRows(columns)
  {
    ConcatHas(RowsOf(columns), row);
    var i :| 0 <= i < |columns| && columns[i] == column;
    assert row in RowsOf(columns)[i];
  }

  lemma {:induction false} OthersDiffer(rows: seq<Row>, columns: seq<Column>, order: map<string, nat>, row: Row)
    requires Ordered(columns, order) && row in AllRows(columns) && row.path !in Paths(rows)
    requires forall r :: r in rows ==> r in AllRows(columns)
    ensures forall i :: 0 <= i < |rows| ==> At(order, rows[i].path) != At(order, row.path)
  {
    forall i | 0 <= i < |rows| ensures At(order, rows[i].path) != At(order, row.path) {
      assert rows[i] in rows && rows[i].path in Paths(rows);
    }
  }

  // ----- a column as it is drawn

  /** One pending move made in the rows of a column. */
  function Redrawn(columns: seq<Column>, order: map<string, nat>, rows: seq<Row>, id: string, request: Request): seq<Row> {
    if id == request.source then Without(rows, request.path)
    else if id == request.destination && request.path !in Paths(rows) then
      var found := Locate(columns, request.path);
      if found.Some? then Inserted(rows, order, RowWith(found.value.rows, request.path)) else rows
    else rows
  }

  /** The rows of a column, with the pending moves made in turn. */
  function Drawn(columns: seq<Column>, order: map<string, nat>, pending: seq<Pending>, column: Column): seq<Row> {
    if pending == [] then column.rows
    else
      var n := |pending| - 1;
      Redrawn(columns, order, Drawn(columns, order, pending[..n], column), column.id, pending[n].request)
  }

  lemma {:induction false} DrawnNext(columns: seq<Column>, order: map<string, nat>, pending: seq<Pending>, n: nat, column: Column)
    requires n < |pending|
    ensures Drawn(columns, order, pending[..n + 1], column)
         == Redrawn(columns, order, Drawn(columns, order, pending[..n], column), column.id, pending[n].request)
  {
    assert pending[..n + 1][..n] == pending[..n];
  }

  lemma {:induction false} RedrawnShows(columns: seq<Column>, order: map<string, nat>, rows: seq<Row>, id: string, pending: seq<Pending>, n: nat)
    requires Laid(columns) && Settled(columns, pending) && n < |pending| && Shown(rows, columns, pending[..n], id)
    ensures Shown(Redrawn(columns, order, rows, id, pending[n].request), columns, pending[..n + 1], id)
    ensures Ordered(columns, order) && Sorted(rows, order) ==> Sorted(Redrawn(columns, order, rows, id, pending[n].request), order)
  {
    var request := pending[n].request;
    assert Stands(columns, request);
    if id == request.source {
      LeavesSource(rows, columns, pending, n);
      if Sorted(rows, order) { WithoutSorted(rows, request.path, order); }
    } else if id == request.destination {
      NotYetThere(rows, columns, pending, n);
      var found := Locate(columns, request.path).value;
      var row := RowWith(found.rows, request.path);
      InColumn(columns, found, row);
      ReachesDestination(rows, columns, pending, n, row, order);
      if Ordered(columns, order) && Sorted(rows, order) {
        OthersDiffer(rows, columns, order, row);
        InsertedSorted(rows, order, row);
      }
    } else {
      ElsewhereStays(rows, columns, pending, n, id);
    }
  }

  /** A column shows exactly the cards that belong there, in order when the board is. */
  lemma {:induction false} DrawnShows(columns: seq<Column>, order: map<string, nat>, pending: seq<Pending>, column: Column)
    requires Laid(columns) && Settled(columns, pending) && column in columns
    ensures Shown(Drawn(columns, order, pending, column), columns, pending, column.id)
    ensures Ordered(columns, order) ==> Sorted(Drawn(columns, order, pending, column), order)
  {
    if pending == [] {
      var c :| 0 <= c < |columns| && columns[c] == column;
      HomeShown(columns, c);
    } else {
      var n := |pending| - 1;
      DrawnShows(columns, order, pending[..n], column);
      RedrawnShows(columns, order, Drawn(columns, order, pending[..n], column), column.id, pending, n);
      assert pending[..n + 1] == pending;
    }
  }

  /** Whatever moves are pending, every column is drawn in the order of the result. */
  ghost predicate DrawsInOrder(columns: seq<Column>, order: map<string, nat>) {
    forall column, pending :: column in columns && Settled(columns, pending) ==> Sorted(Drawn(columns, order, pending, column), order)
  }

  lemma {:induction false} UnsortedColumn(columns: seq<Column>, order: map<string, nat>, i: nat)
    requires DrawsInOrder(columns, order) && i < |columns|
    ensures Sorted(columns[i].rows, order)
  {
    assert columns[i] in columns && Settled(columns, []);
    assert Sorted(Drawn(columns, order, [], columns[i]), order);
  }

  /** A card that may be moved beside another has another place than it. */
  lemma {:induction false} PlacesDiffer(columns: seq<Column>, order: map<string, nat>, i: nat, a: Row, j: nat, b: Row)
    requires Laid(columns) && DrawsInOrder(columns, order)
    requires i < |columns| && a in columns[i].rows && j < |columns| && b in columns[j].rows && a.path != b.path
    ensures At(order, a.path) != At(order, b.path)
  {
    RowHome(columns, i, a);
    RowHome(columns, j, b);
    InColumn(columns, columns[i], a);
    InColumn(columns, columns[j], b);
    UnsortedColumn(columns, order, j);
    if i != j {
      assert columns[i].id != columns[j].id;
      var pending := [Pending(Request(a.path, "", columns[i].id, columns[j].id), 0)];
      assert Stands(columns, pending[0].request);
      assert Settled(columns, pending);
      assert pending[..0] == [];
      assert Place(columns, [], b.path) == Home(columns, b.path);
      var rows := Drawn(columns, order, pending, columns[j]);
      DrawnShows(columns, order, pending, columns[j]);
      assert columns[j] in columns && Sorted(rows, order);
      assert a in rows && b in rows;
    }
  }

  /** Every column is drawn in order, whatever is pending, exactly when the columns
      follow the order and no two of their cards have the same place in it. */
  lemma {:induction false} OrderedWhateverMoves(columns: seq<Column>, order: map<string, nat>)
    requires Laid(columns)
    ensures DrawsInOrder(columns, order) <==> Ordered(columns, order)
  {
    if Ordered(columns, order) {
      forall column, pending | column in columns && Settled(columns, pending) ensures Sorted(Drawn(columns, order, pending, column), order) {
        DrawnShows(columns, order, pending, column);
      }
    }
    if DrawsInOrder(columns, order) {
      forall i | 0 <= i < |columns| ensures Sorted(columns[i].rows, order) { UnsortedColumn(columns, order, i); }
      forall a, b | a in AllRows(columns) && b in AllRows(columns) && a.path != b.path ensures At(order, a.path) != At(order, b.path) {
        ConcatHas(RowsOf(columns), a);
        ConcatHas(RowsOf(columns), b);
        var i :| 0 <= i < |columns| && a in RowsOf(columns)[i];
        var j :| 0 <= j < |columns| && b in RowsOf(columns)[j];
        PlacesDiffer(columns, order, i, a, j, b);
      }
    }
  }

  // ----- the whole board

  lemma {:induction false} ConcatApart(parts: seq<seq<Row>>)
    requires Apart(parts)
    ensures NoRepeat(Concat(parts))
  {
    if parts != [] {
      var head, tail := parts[0], Concat(parts[1..]);
      ConcatApart(parts[1..]);
      forall i, j | 0 <= i < |head| && 0 <= j < |tail| ensures head[i].path != tail[j].path {
        ConcatHas(parts[1..], tail[j]);
        assert tail[j] in tail;
        var k :| 0 <= k < |parts[1..]| && tail[j] in parts[1..][k];
        assert parts[1..][k] == parts[k + 1];
        assert tail[j].path in Paths(parts[k + 1]) && head[i].path in Paths(parts[0]);
      }
    }
  }

  lemma {:induction false} OnceEach(rows: seq<Row>, r: Row)
    requires NoRepeat(rows)
    ensures multiset(rows)[r] == if r in rows then 1 else 0
  {
    if rows != [] {
      assert rows == [rows[0]] + rows[1..];
      OnceEach(rows[1..], r);
    }
  }

  ghost predicate AllShown(shown: seq<seq<Row>>, columns: seq<Column>, pending: seq<Pending>) {
    |shown| <= |columns| && forall c :: 0 <= c < |shown| ==> Shown(shown[c], columns, pending, columns[c].id)
  }

  lemma {:induction false} ShownMore(shown: seq<seq<Row>>, rows: seq<Row>, columns: seq<Column>, pending: seq<Pending>)
    requires AllShown(shown, columns, pending) && |shown| < |columns| && Shown(rows, columns, pending, columns[|shown|].id)
    ensures AllShown(shown + [rows], columns, pending)
  {
  }

  /** However many moves are pending, the columns together show every card once. */
  lemma {:induction false} EveryCardOnce(columns: seq<Column>, pending: seq<Pending>, shown: seq<seq<Row>>)
    requires Laid(columns) && Settled(columns, pending) && |shown| == |columns|
    requires forall c :: 0 <= c < |columns| ==> Shown(shown[c], columns, pending, columns[c].id)
    ensures multiset(Concat(shown)) == multiset(AllRows(columns))
  {
    ShownApart(columns, pending, shown);
    ConcatApart(shown);
    ConcatApart(RowsOf(columns));
    forall r: Row ensures multiset(Concat(shown))[r] == multiset(AllRows(columns))[r] {
      ShownSomewhere(columns, pending, shown, r);
      OnceEach(Concat(shown), r);
      OnceEach(AllRows(columns), r);
    }
  }

  lemma {:induction false} ShownApart(columns: seq<Column>, pending: seq<Pending>, shown: seq<seq<Row>>)
    requires OwnIds(columns) && |shown| == |columns|
    requires forall c :: 0 <= c < |columns| ==> Shown(shown[c], columns, pending, columns[c].id)
    ensures Apart(shown)
  {
    forall i, j | 0 <= i < j < |shown| ensures Paths(shown[i]) !! Paths(shown[j]) {
      assert columns[i].id != columns[j].id;
      ShownPlaces(shown[i], columns, pending, columns[i].id);
      ShownPlaces(shown[j], columns, pending, columns[j].id);
    }
  }

  lemma {:induction false} ShownPlaces(rows: seq<Row>, columns: seq<Column>, pending: seq<Pending>, id: string)
    requires Shown(rows, columns, pending, id)
    ensures forall path :: path in Paths(rows) ==> Place(columns, pending, path) == Some(id)
  {
    forall path | path in Paths(rows) ensures Place(columns, pending, path) == Some(id) { var row := RowWith(rows, path); }
  }

  lemma {:induction false} ShownSomewhere(columns: seq<Column>, pending: seq<Pending>, shown: seq<seq<Row>>, r: Row)
    requires Laid(columns) && Settled(columns, pending) && |shown| == |columns|
    requires forall c :: 0 <= c < |columns| ==> Shown(shown[c], columns, pending, columns[c].id)
    ensures r in Concat(shown) <==> r in AllRows(columns)
  {
    ConcatHas(shown, r);
    if r in Concat(shown) {
      var i :| 0 <= i < |shown| && r in shown[i];
      assert Shown(shown[i], columns, pending, columns[i].id);
    }
    if r in AllRows(columns) {
      PlaceStands(columns, pending, r);
      var i :| 0 <= i < |columns| && columns[i].id == Place(columns, pending, r.path).value;
      assert Shown(shown[i], columns, pending, columns[i].id);
    }
  }

  // ----- columns in the stored order

  /** A query group; a group without identity belongs to an ungrouped result. */
  datatype QueryGroup = QueryGroup(id: Option<string>, rows: seq<Row>)

  datatype Refusal = Unidentified | OutOfOrder | Incomplete

  datatype Merge = Merged(columns: seq<Column>) | Refused(reason: Refusal)

  function Ids(columns: seq<Column>): (ids: seq<string>)
    ensures |ids| == |columns| && forall i :: 0 <= i < |ids| ==> ids[i] == columns[i].id
  {
    seq(|columns|, i requires 0 <= i < |columns| => columns[i].id)
  }

  /** The keys in order, each at its last place only. */
  function LastOnly(keys: seq<string>): (once: seq<string>)
    ensures forall k :: k in once <==> k in keys
    ensures forall i, j :: 0 <= i < j < |once| ==> once[i] != once[j]
  {
    if keys == [] then []
    else if keys[0] in keys[1..] then LastOnly(keys[1..])
    else [keys[0]] + LastOnly(keys[1..])
  }

  function Among(keys: seq<string>, known: seq<string>): seq<string> {
    if keys == [] then []
    else if keys[0] in known then [keys[0]] + Among(keys[1..], known)
    else Among(keys[1..], known)
  }

  /** The columns that come from a query group, in order. */
  function Found(columns: seq<Column>, known: seq<string>): seq<Column> {
    if columns == [] then []
    else if columns[|columns| - 1].id in known then Found(columns[..|columns| - 1], known) + [columns[|columns| - 1]]
    else Found(columns[..|columns| - 1], known)
  }

  /** `columns` shows every listed key once, the query groups as they are, in their own
      order, and an empty column for every other key. */
  predicate Merges(columns: seq<Column>, listed: seq<string>, groups: seq<Column>) {
    && Ids(columns) == LastOnly(listed)
    && Found(columns, Ids(groups)) == groups
    && forall i :: 0 <= i < |columns| && columns[i].id !in Ids(groups) ==> columns[i].rows == []
  }

  function LastPlace(keys: seq<string>): (last: map<string, nat>)
    ensures forall i :: 0 <= i < |keys| ==> keys[i] in last && i <= last[keys[i]]
    ensures forall k :: k in last ==> last[k] < |keys| && keys[last[k]] == k
  {
    if keys == [] then map[]
    else LastPlace(keys[..|keys| - 1])[keys[|keys| - 1] := |keys| - 1]
  }

  lemma {:induction false} LastHere(keys: seq<string>, i: nat)
    requires i < |keys|
    ensures LastPlace(keys)[keys[i]] == i <==> keys[i] !in keys[i + 1..]
  {
    var at := LastPlace(keys)[keys[i]];
    if at > i { assert keys[i + 1..][at - i - 1] == keys[i]; }
  }

  lemma {:induction false} FoundMore(columns: seq<Column>, column: Column, known: seq<string>)
    ensures column.id in known ==> Found(columns + [column], known) == Found(columns, known) + [column]
    ensures column.id !in known ==> Found(columns + [column], known) == Found(columns, known)
    ensures Ids(columns + [column]) == Ids(columns) + [column.id]
  {
    assert (columns + [column])[..|columns|] == columns;
  }

  lemma {:induction false} Peel(listed: seq<string>, i: nat, known: seq<string>)
    requires i < |listed|
    ensures LastOnly(listed[i..]) == (if listed[i] in listed[i + 1..] then [] else [listed[i]]) + LastOnly(listed[i + 1..])
    ensures listed[i] !in known ==> Among(LastOnly(listed[i..]), known) == Among(LastOnly(listed[i + 1..]), known)
    ensures Among(LastOnly(listed[i..]), known)
         == (if listed[i] in listed[i + 1..] || listed[i] !in known then [] else [listed[i]]) + Among(LastOnly(listed[i + 1..]), known)
  {
    var keys := listed[i..];
    assert keys[1..] == listed[i + 1..] && keys[0] == listed[i];
    if keys[0] !in keys[1..] {
      assert LastOnly(keys)[1..] == LastOnly(keys[1..]);
    }
  }

  /** The merge after the first `i` listed keys, with `taken` of the query groups shown. */
  predicate Midway(shown: seq<Column>, taken: nat, i: nat, listed: seq<string>, groups: seq<Column>) {
    && i <= |listed| && taken <= |groups|
    && Ids(shown) + LastOnly(listed[i..]) == LastOnly(listed)
    && Ids(groups[..taken]) + Among(LastOnly(listed[i..]), Ids(groups)) == Among(LastOnly(listed), Ids(groups))
    && Found(shown, Ids(groups)) == groups[..taken]
    && forall k :: 0 <= k < |shown| && shown[k].id !in Ids(groups) ==> shown[k].rows == []
  }

  lemma {:induction false} MergeSkips(shown: seq<Column>, taken: nat, i: nat, listed: seq<string>, groups: seq<Column>)
    requires Midway(shown, taken, i, listed, groups) && i < |listed| && listed[i] in listed[i + 1..]
    ensures Midway(shown, taken, i + 1, listed, groups)
  {
    Peel(listed, i, Ids(groups));
  }

  lemma {:induction false} MergeTakes(shown: seq<Column>, taken: nat, i: nat, listed: seq<string>, groups: seq<Column>)
    requires Midway(shown, taken, i, listed, groups) && i < |listed| && listed[i] !in listed[i + 1..]
    requires taken < |groups| && groups[taken].id == listed[i]
    ensures Midway(shown + [groups[taken]], taken + 1, i + 1, listed, groups)
  {
    assert Ids(groups)[taken] == listed[i];
    Peel(listed, i, Ids(groups));
    FoundMore(shown, groups[taken], Ids(groups));
    FoundMore(groups[..taken], groups[taken], []);
    assert groups[..taken + 1] == groups[..taken] + [groups[taken]];
    Joined(Ids(shown), [listed[i]], LastOnly(listed[i + 1..]));
    Joined(Ids(groups[..taken]), [listed[i]], Among(LastOnly(listed[i + 1..]), Ids(groups)));
  }

  lemma {:induction false} MergeFills(shown: seq<Column>, taken: nat, i: nat, listed: seq<string>, groups: seq<Column>)
    requires Midway(shown, taken, i, listed, groups) && i < |listed| && listed[i] !in listed[i + 1..]
    requires listed[i] !in Ids(groups)
    ensures Midway(shown + [Column(listed[i], [])], taken, i + 1, listed, groups)
  {
    Peel(listed, i, Ids(groups));
    FoundMore(shown, Column(listed[i], []), Ids(groups));
    Joined(Ids(shown), [listed[i]], LastOnly(listed[i + 1..]));
  }

  lemma {:induction false} MergeFails(shown: seq<Column>, taken: nat, i: nat, listed: seq<string>, groups: seq<Column>)
    requires Midway(shown, taken, i, listed, groups) && i < |listed| && listed[i] !in listed[i + 1..]
    requires listed[i] in Ids(groups) && (taken < |groups| ==> groups[taken].id != listed[i])
    ensures Among(LastOnly(listed), Ids(groups)) != Ids(groups)
  {
    Peel(listed, i, Ids(groups));
    assert Among(LastOnly(listed), Ids(groups))[taken] == listed[i];
  }

  lemma {:induction false} MergeEnds(shown: seq<Column>, taken: nat, listed: seq<string>, groups: seq<Column>)
    requires Midway(shown, taken, |listed|, listed, groups)
    ensures Ids(shown) == LastOnly(listed) && Ids(groups[..taken]) == Among(LastOnly(listed), Ids(groups))
    ensures taken == |groups| ==> groups[..taken] == groups
  {
    assert listed[|listed|..] == [];
    assert Ids(shown) + [] == Ids(shown) && Ids(groups[..taken]) + [] == Ids(groups[..taken]);
  }

  lemma {:induction false} MergeBegins(listed: seq<string>, groups: seq<Column>)
    ensures Midway([], 0, 0, listed, groups)
  {
    assert listed[0..] == listed && groups[..0] == [];
    assert Ids([]) + LastOnly(listed) == LastOnly(listed);
    assert Ids([]) + Among(LastOnly(listed), Ids(groups)) == Among(LastOnly(listed), Ids(groups));
  }

  /** It merges exactly when the query groups come in the stored order, each listed. */
  method MergeColumns(listed: seq<string>, groups: seq<Column>) returns (r: Merge)
    ensures r.Merged? <==> Among(LastOnly(listed), Ids(groups)) == Ids(groups)
    ensures r.Merged? ==> Merges(r.columns, listed, groups)
    ensures r.Refused? ==> r.reason != Unidentified
  {
    var last := LastPlace(listed);
    var shown: seq<Column> := [];
    var taken: nat := 0;
    var i: nat := 0;
    MergeBegins(listed, groups);
    while i < |listed|
      invariant Midway(shown, taken, i, listed, groups)
    {
      var id := listed[i];
      LastHere(listed, i);
      if last[id] != i {
        MergeSkips(shown, taken, i, listed, groups);
      } else if id in Ids(groups) {
        if taken == |groups| || groups[taken].id != id {
          MergeFails(shown, taken, i, listed, groups);
          return Refused(OutOfOrder);
        }
        MergeTakes(shown, taken, i, listed, groups);
        shown, taken := shown + [groups[taken]], taken + 1;
      } else {
        MergeFills(shown, taken, i, listed, groups);
        shown := shown + [Column(id, [])];
      }
      i := i + 1;
    }
    MergeEnds(shown, taken, listed, groups);
    if taken != |groups| {
      assert |Ids(groups[..taken])| < |Ids(groups)|;
      return Refused(Incomplete);
    }
    r := Merged(shown);
  }

  lemma {:induction false} ConcatAppend(parts: seq<seq<Row>>, part: seq<Row>)
    ensures Concat(parts + [part]) == Concat(parts) + part
  {
    if parts == [] { assert [part][1..] == [] && parts + [part] == [part]; }
    else {
      assert (parts + [part])[1..] == parts[1..] + [part];
      ConcatAppend(parts[1..], part);
    }
  }

  lemma {:induction false} AllRowsMore(columns: seq<Column>, column: Column)
    ensures AllRows(columns + [column]) == AllRows(columns) + column.rows
  {
    assert RowsOf(columns + [column]) == RowsOf(columns) + [column.rows];
    ConcatAppend(RowsOf(columns), column.rows);
  }

  lemma {:induction false} FoundRows(columns: seq<Column>, known: seq<string>)
    requires forall i :: 0 <= i < |columns| && columns[i].id !in known ==> columns[i].rows == []
    ensures AllRows(Found(columns, known)) == AllRows(columns)
    ensures forall c :: c in Found(columns, known) <==> c in columns && c.id in known
  {
    if columns != [] {
      var front, column := columns[..|columns| - 1], columns[|columns| - 1];
      assert columns == front + [column];
      FoundRows(front, known);
      AllRowsMore(front, column);
      AllRowsMore(Found(front, known), column);
    }
  }

  /** A merge loses no row, adds none, and keeps the rows of the columns apart. */
  lemma {:induction false} MergeKeepsRows(columns: seq<Column>, listed: seq<string>, groups: seq<Column>)
    requires Merges(columns, listed, groups) && Laid(groups)
    ensures AllRows(columns) == AllRows(groups) && Laid(columns)
    ensures forall c :: c in columns ==> c in groups || c.rows == []
  {
    FoundRows(columns, Ids(groups));
    forall i, j | 0 <= i < j < |columns| ensures columns[i].id != columns[j].id {
      assert LastOnly(listed)[i] != LastOnly(listed)[j];
    }
    forall c | c in columns ensures c in groups || c.rows == [] { }
    forall i | 0 <= i < |columns| ensures NoRepeat(RowsOf(columns)[i]) { FromGroup(columns, i, groups); }
    forall i, j | 0 <= i < j < |columns| ensures Paths(RowsOf(columns)[i]) !! Paths(RowsOf(columns)[j]) {
      FromGroups(columns[i], columns[j], groups);
    }
  }

  lemma {:induction false} FromGroup(columns: seq<Column>, i: nat, groups: seq<Column>)
    requires i < |columns| && (columns[i] in groups || columns[i].rows == []) && Laid(groups)
    ensures NoRepeat(RowsOf(columns)[i])
  {
    if columns[i] in groups {
      var g :| 0 <= g < |groups| && groups[g] == columns[i];
      assert NoRepeat(RowsOf(groups)[g]);
    }
  }

  lemma {:induction false} FromGroups(a: Column, b: Column, groups: seq<Column>)
    requires Laid(groups) && a.id != b.id && (a in groups || a.rows == []) && (b in groups || b.rows == [])
    ensures Paths(a.rows) !! Paths(b.rows)
  {
    if a in groups && b in groups {
      var g :| 0 <= g < |groups| && groups[g] == a;
      var h :| 0 <= h < |groups| && groups[h] == b;
      if g < h { assert Paths(RowsOf(groups)[g]) !! Paths(RowsOf(groups)[h]); }
      else { assert Paths(RowsOf(groups)[h]) !! Paths(RowsOf(groups)[g]); }
    }
  }

  // ----- a new result

  datatype Result = Result(
    property: Option<string>,                  // what the view groups by
    listed: Option<seq<Option<string>>>,       // the keys of a stored column order
    rows: seq<Row>,
    groups: seq<QueryGroup>)

  function Named(groups: seq<QueryGroup>): seq<Column> {
    if groups == [] then []
    else (if groups[0].id.Some? then [Column(groups[0].id.value, groups[0].rows)] else []) + Named(groups[1..])
  }

  predicate AllNamed(listed: seq<Option<string>>) { forall i :: 0 <= i < |listed| ==> listed[i].Some? }

  function Values(listed: seq<Option<string>>): seq<string>
    requires AllNamed(listed)
  {
    seq(|listed|, i requires 0 <= i < |listed| => listed[i].value)
  }

  function Ranks(rows: seq<Row>): (order: map<string, nat>)
    ensures forall path :: path in order ==> order[path] < |rows| && rows[order[path]].path == path
    ensures forall i :: 0 <= i < |rows| ==> rows[i].path in order
  {
    if rows == [] then map[] else Ranks(rows[..|rows| - 1])[rows[|rows| - 1].path := |rows| - 1]
  }

  /** A result has a row once, in at most one group, and its groups keep its order. */
  predicate Sound(next: Result) {
    && Laid(Named(next.groups))
    && (forall r :: r in AllRows(Named(next.groups)) ==> r in next.rows)
    && (forall g :: 0 <= g < |Named(next.groups)| ==> Sorted(Named(next.groups)[g].rows, Ranks(next.rows)))
  }

  /** The stored order names every group of the result, in the order of the groups. */
  predicate Mergeable(next: Result) {
    next.property.Some? && next.listed.Some? ==>
      AllNamed(next.listed.value) &&
      Among(LastOnly(Values(next.listed.value)), Ids(Named(next.groups))) == Ids(Named(next.groups))
  }

  predicate Lays(columns: seq<Column>, next: Result) {
    if next.property.None? then columns == []
    else if next.listed.None? then columns == Named(next.groups)
    else AllNamed(next.listed.value) && Merges(columns, Values(next.listed.value), Named(next.groups))
  }

  lemma {:induction false} LaysOrderly(columns: seq<Column>, next: Result)
    requires Sound(next) && Lays(columns, next)
    ensures Laid(columns) && Ordered(columns, Ranks(next.rows))
    ensures next.property.Some? ==> AllRows(columns) == AllRows(Named(next.groups))
  {
    var groups := Named(next.groups);
    if next.property.Some? {
      if next.listed.Some? { MergeKeepsRows(columns, Values(next.listed.value), groups); }
      forall i | 0 <= i < |columns| ensures Sorted(columns[i].rows, Ranks(next.rows)) { assert columns[i] in columns; }
    }
  }

  /** The moves that a new result leaves pending. */
  function Kept(pending: seq<Pending>, columns: seq<Column>, property: Option<string>): seq<Pending> {
    if pending == [] then []
    else
      var last := pending[|pending| - 1];
      Kept(pending[..|pending| - 1], columns, property) + if StillStands(last.request, columns, property) then [last] else []
  }

  predicate StillStands(request: Request, columns: seq<Column>, property: Option<string>) {
    property == Some(request.property) && Home(columns, request.path) == Some(request.source) && HasColumn(columns, request.destination)
  }

  /** Tickets are given out in turn, and no move is out of and into one column. */
  predicate Issued(pending: seq<Pending>, issued: nat) {
    && (forall k :: 0 <= k < |pending| ==> pending[k].ticket < issued && pending[k].request.source != pending[k].request.destination)
    && (forall k, l :: 0 <= k < l < |pending| ==> pending[k].request.path != pending[l].request.path && pending[k].ticket != pending[l].ticket)
  }

  /** One more move after moves of other cards. */
  lemma {:induction false} OneMoreIssued(pending: seq<Pending>, issued: nat, move: Pending)
    requires Issued(pending, issued) && move.ticket < issued && move.request.source != move.request.destination
    requires forall p :: p in pending ==> p.request.path != move.request.path && p.ticket != move.ticket
    ensures Issued(pending + [move], issued)
  {
  }

  lemma {:induction false} OneMoreSettled(columns: seq<Column>, pending: seq<Pending>, move: Pending)
    requires Settled(columns, pending) && Stands(columns, move.request)
    requires forall p :: p in pending ==> p.request.path != move.request.path
    ensures Settled(columns, pending + [move])
  {
  }

  lemma {:induction false} IssuedBefore(pending: seq<Pending>, issued: nat)
    requires Issued(pending, issued) && pending != []
    ensures Issued(pending[..|pending| - 1], issued)
    ensures forall p :: p in pending[..|pending| - 1] ==>
      p.request.path != pending[|pending| - 1].request.path && p.ticket != pending[|pending| - 1].ticket
  {
  }

  lemma {:induction false} KeptSettles(pending: seq<Pending>, issued: nat, columns: seq<Column>, property: Option<string>)
    requires Issued(pending, issued)
    ensures forall p :: p in Kept(pending, columns, property) <==> p in pending && StillStands(p.request, columns, property)
    ensures Settled(columns, Kept(pending, columns, property)) && Issued(Kept(pending, columns, property), issued)
  {
    if pending != [] {
      var front, last := pending[..|pending| - 1], pending[|pending| - 1];
      IssuedBefore(pending, issued);
      KeptSettles(front, issued, columns, property);
      assert pending == front + [last];
      if StillStands(last.request, columns, property) {
        OneMoreIssued(Kept(front, columns, property), issued, last);
        OneMoreSettled(columns, Kept(front, columns, property), last);
      }
    }
  }

  function Dropped(pending: seq<Pending>, ticket: nat): seq<Pending> {
    if pending == [] then []
    else
      var last := pending[|pending| - 1];
      Dropped(pending[..|pending| - 1], ticket) + if last.ticket != ticket then [last] else []
  }

  lemma {:induction false} DroppedSettles(pending: seq<Pending>, issued: nat, columns: seq<Column>, ticket: nat)
    requires Issued(pending, issued) && Settled(columns, pending)
    ensures forall p :: p in Dropped(pending, ticket) <==> p in pending && p.ticket != ticket
    ensures Settled(columns, Dropped(pending, ticket)) && Issued(Dropped(pending, ticket), issued)
  {
    if pending != [] {
      var front, last := pending[..|pending| - 1], pending[|pending| - 1];
      IssuedBefore(pending, issued);
      DroppedSettles(front, issued, columns, ticket);
      assert pending == front + [last];
      assert Stands(columns, last.request);
      if last.ticket != ticket {
        OneMoreIssued(Dropped(front, ticket), issued, last);
        OneMoreSettled(columns, Dropped(front, ticket), last);
      }
    }
  }

  /** A failed move puts its card back where it was, and moves no other card. */
  lemma {:induction false} DroppedReturns(pending: seq<Pending>, issued: nat, columns: seq<Column>, k: nat, path: string)
    requires Issued(pending, issued) && Settled(columns, pending) && k < |pending|
    ensures Place(columns, Dropped(pending, pending[k].ticket), path)
         == if path == pending[k].request.path then Some(pending[k].request.source) else Place(columns, pending, path)
  {
    var ticket, left := pending[k].ticket, Dropped(pending, pending[k].ticket);
    DroppedSettles(pending, issued, columns, ticket);
    assert Stands(columns, pending[k].request);
    if path == pending[k].request.path {
      forall i | 0 <= i < |left| ensures left[i].request.path != path { assert left[i] in pending; }
      HomeUntilMoved(columns, left, path);
    } else {
      DroppedElsewhere(pending, columns, ticket, path);
    }
  }

  lemma {:induction false} DroppedElsewhere(pending: seq<Pending>, columns: seq<Column>, ticket: nat, path: string)
    requires forall i :: 0 <= i < |pending| && pending[i].ticket == ticket ==> pending[i].request.path != path
    ensures Place(columns, Dropped(pending, ticket), path) == Place(columns, pending, path)
  {
    if pending != [] {
      var front, last := pending[..|pending| - 1], pending[|pending| - 1];
      DroppedElsewhere(front, columns, ticket, path);
      assert pending == front + [last];
      PlaceMore(columns, front, last, path);
      if last.ticket != ticket { PlaceMore(columns, Dropped(front, ticket), last, path); }
      else { assert Dropped(pending, ticket) == Dropped(front, ticket); }
    }
  }

  lemma {:induction false} PlaceMore(columns: seq<Column>, pending: seq<Pending>, move: Pending, path: string)
    ensures Place(columns, pending + [move], path)
         == if path == move.request.path then Some(move.request.destination) else Place(columns, pending, path)
  {
    assert (pending + [move])[..|pending|] == pending;
  }

  lemma {:induction false} PlaceOfPending(columns: seq<Column>, pending: seq<Pending>, k: nat)
    requires k < |pending| && forall i, j :: 0 <= i < j < |pending| ==> pending[i].request.path != pending[j].request.path
    ensures Place(columns, pending, pending[k].request.path) == Some(pending[k].request.destination)
  {
    if k < |pending| - 1 {
      assert pending[k].request.path != pending[|pending| - 1].request.path;
      PlaceOfPending(columns, pending[..|pending| - 1], k);
    }
  }

  /** Whether cards of the property may be moved by writing to it. */
  predicate CanMove(property: string, path: string) {
    && !("formula." <= property)
    && ("file." <= property ==> property == "file.folder")
    && (property != "file.folder" ==> |path| >= 3 && path[|path| - 3..] == ".md")
  }

  predicate Moving(pending: seq<Pending>, path: string) { exists k :: 0 <= k < |pending| && pending[k].request.path == path }

  class Board {
    var property: Option<string>
    var columns: seq<Column>
    var order: map<string, nat>
    var pending: seq<Pending>
    var issued: nat

    ghost predicate Valid() reads this {
      Laid(columns) && Settled(columns, pending) && Issued(pending, issued)
    }

    constructor ()
      ensures Valid() && columns == [] && pending == []
    {
      property, columns, order, pending, issued := None, [], map[], [], 0;
    }

    /** The rows of a column, with the pending moves already made. */
    method DisplayedRows(column: Column) returns (rows: seq<Row>)
      requires Valid() && column in columns
      ensures Shown(rows, columns, pending, column.id) && rows == Drawn(columns, order, pending, column)
      ensures Ordered(columns, order) ==> Sorted(rows, order)
    {
      rows := column.rows;
      var n: nat := 0;
      while n < |pending|
        invariant n <= |pending| && rows == Drawn(columns, order, pending[..n], column)
      {
        var request := pending[n].request;
        DrawnNext(columns, order, pending, n, column);
        if column.id == request.source {
          rows := Without(rows, request.path);
        } else if column.id == request.destination && request.path !in Paths(rows) {
          var found := Locate(columns, request.path);
          if found.Some? { rows := Inserted(rows, order, RowWith(found.value.rows, request.path)); }
        }
        n := n + 1;
      }
      assert pending[..n] == pending;
      DrawnShows(columns, order, pending, column);
    }

    /** The cards of the whole board, column by column. */
    method AllDisplayed() returns (cards: seq<Row>, ghost shown: seq<seq<Row>>)
      requires Valid()
      ensures multiset(cards) == multiset(AllRows(columns))
      ensures cards == Concat(shown) && |shown| == |columns|
      ensures forall c :: 0 <= c < |columns| ==> Shown(shown[c], columns, pending, columns[c].id)
    {
      cards, shown := [], [];
      var i: nat := 0;
      while i < |columns|
        invariant i <= |columns| && |shown| == i && cards == Concat(shown)
        invariant AllShown(shown, columns, pending)
      {
        var rows := DisplayedRows(columns[i]);
        ConcatAppend(shown, rows);
        ShownMore(shown, rows, columns, pending);
        cards, shown, i := cards + rows, shown + [rows], i + 1;
      }
      EveryCardOnce(columns, pending, shown);
    }

    /** A move shows at once; `leaves` and `takes` say whether the host lets the source
        group be written and the target group be a destination. */
    method Move(path: string, destination: string, leaves: bool, takes: bool) returns (started: bool)
      requires Valid()
      modifies this`pending, this`issued
      ensures Valid()
      ensures started <==> !Moving(old(pending), path) && property.Some? && CanMove(property.value, path) && leaves && takes
                           && Home(columns, path).Some? && HasColumn(columns, destination) && Home(columns, path) != Some(destination)
      ensures !started ==> pending == old(pending)
      ensures started ==> pending == old(pending) + [Pending(Request(path, property.value, Home(columns, path).value, destination), old(issued))]
      ensures started ==> forall p :: Place(columns, pending, p) == if p == path then Some(destination) else Place(columns, old(pending), p)
    {
      if Moving(pending, path) || property.None? || !CanMove(property.value, path) || !leaves { return false; }
      var source := Home(columns, path);
      if source.None? || !HasColumn(columns, destination) || !takes || source.value == destination { return false; }
      var move := Pending(Request(path, property.value, source.value, destination), issued);
      forall p ensures Place(columns, pending + [move], p) == if p == path then Some(destination) else Place(columns, pending, p) {
        PlaceMore(columns, pending, move, p);
      }
      assert Stands(columns, move.request);
      pending, issued := pending + [move], issued + 1;
      return true;
    }

    /** The host refused a move. Only that very move is taken back. */
    method Fail(move: Pending)
      requires Valid()
      modifies this`pending
      ensures Valid() && pending == Dropped(old(pending), move.ticket)
      ensures move in old(pending) ==>
        forall p :: Place(columns, pending, p) == if p == move.request.path then Home(columns, p) else Place(columns, old(pending), p)
      ensures !(exists k :: 0 <= k < |old(pending)| && old(pending)[k].ticket == move.ticket) ==> pending == old(pending)
    {
      DroppedSettles(pending, issued, columns, move.ticket);
      if move in pending {
        ghost var k :| 0 <= k < |pending| && pending[k] == move;
        assert Stands(columns, move.request);
        forall p ensures Place(columns, Dropped(pending, move.ticket), p) == if p == move.request.path then Home(columns, p) else Place(columns, pending, p) {
          DroppedReturns(pending, issued, columns, k, p);
        }
      }
      NothingDropped(pending, move.ticket);
      pending := Dropped(pending, move.ticket);
    }

    /** What a move reports after the host took it. */
    method Finish(move: Pending) returns (moved: bool)
      requires Valid()
      ensures moved ==> property == Some(move.request.property)
      ensures moved ==> Place(columns, pending, move.request.path) == Some(move.request.destination)
                        || Moving(pending, move.request.path)
    {
      if property != Some(move.request.property) { return false; }
      if move in pending {
        ghost var k :| 0 <= k < |pending| && pending[k] == move;
        PlaceOfPending(columns, pending, k);
        return true;
      }
      moved := Home(columns, move.request.path) == Some(move.request.destination);
      if moved && !Moving(pending, move.request.path) { HomeUntilMoved(columns, pending, move.request.path); }
    }

    /** A new result. When its groups do not fit the stored order the columns stay, but
        the row order is already the new one. */
    method Update(next: Result) returns (r: Merge)
      requires Valid() && Sound(next)
      modifies this`property, this`order, this`columns, this`pending
      ensures Valid() && property == next.property && order == Ranks(next.rows)
      ensures r.Merged? <==> Mergeable(next)
      ensures r.Merged? ==> columns == r.columns && Lays(columns, next) && Ordered(columns, order)
      ensures r.Merged? ==> pending == Kept(old(pending), columns, property)
      ensures r.Refused? ==> columns == old(columns) && pending == old(pending)
      ensures DrawsInOrder(columns, order) <==> r.Merged? || Ordered(old(columns), Ranks(next.rows))
    {
      property, order := next.property, Ranks(next.rows);
      r := Arrange(next);
      if r.Refused? {
        OrderedWhateverMoves(columns, order);
        return;
      }
      MergedOrders(r.columns, next);
      Replace(r.columns);
    }

    /** The new columns, and those pending moves that still stand on them. */
    method Replace(laid: seq<Column>)
      requires Valid() && Laid(laid)
      modifies this`columns, this`pending
      ensures Valid() && columns == laid && pending == Kept(old(pending), laid, property)
    {
      KeptSettles(pending, issued, laid, property);
      columns := laid;
      pending := Prune(pending, laid, property);
    }
  }

  lemma {:induction false} MergedOrders(columns: seq<Column>, next: Result)
    requires Sound(next) && Lays(columns, next)
    ensures Laid(columns) && Ordered(columns, Ranks(next.rows)) && DrawsInOrder(columns, Ranks(next.rows))
  {
    LaysOrderly(columns, next);
    OrderedWhateverMoves(columns, Ranks(next.rows));
  }

  /** The columns of a result. */
  method Arrange(next: Result) returns (r: Merge)
    ensures r.Merged? <==> Mergeable(next)
    ensures r.Merged? ==> Lays(r.columns, next)
  {
    var groups := Named(next.groups);
    if next.property.None? { return Merged([]); }
    if next.listed.None? { return Merged(groups); }
    if !AllNamed(next.listed.value) { return Refused(Unidentified); }
    r := MergeColumns(Values(next.listed.value), groups);
  }

  method Prune(pending: seq<Pending>, columns: seq<Column>, property: Option<string>) returns (kept: seq<Pending>)
    ensures kept == Kept(pending, columns, property)
  {
    kept := [];
    var n: nat := 0;
    while n < |pending|
      invariant n <= |pending| && kept == Kept(pending[..n], columns, property)
    {
      assert pending[..n + 1][..n] == pending[..n];
      if StillStands(pending[n].request, columns, property) { kept := kept + [pending[n]]; }
      n := n + 1;
    }
    assert pending[..n] == pending;
  }

  lemma {:induction false} NothingDropped(pending: seq<Pending>, ticket: nat)
    ensures (forall k :: 0 <= k < |pending| ==> pending[k].ticket != ticket) ==> Dropped(pending, ticket) == pending
  {
    if pending != [] { NothingDropped(pending[..|pending| - 1], ticket); }
  }

  // ----- a refused result

  /** One column of two notes. */
  function TwoNotes(first: Row, second: Row, listed: seq<Option<string>>): Result {
    Result(Some("status"), Some(listed), [first, second], [QueryGroup(Some("open"), [first, second])])
  }

  lemma {:induction false} OneNamed(groups: seq<QueryGroup>)
    requires |groups| == 1 && groups[0].id.Some?
    ensures Named(groups) == [Column(groups[0].id.value, groups[0].rows)]
  {
    assert groups[1..] == [] && Named([]) == [];
  }

  lemma {:induction false} TwoNotesSound(first: Row, second: Row, listed: seq<Option<string>>)
    requires first.path != second.path
    ensures Sound(TwoNotes(first, second, listed)) && Ranks(TwoNotes(first, second, listed).rows) == map[first.path := 0, second.path := 1]
  {
    var next := TwoNotes(first, second, listed);
    OneNamed(next.groups);
    assert next.rows[..1] == [first] && next.rows[..0] == [];
    assert Concat([[first, second]]) == [first, second] + Concat([]);
    assert RowsOf(Named(next.groups)) == [[first, second]];
    assert Ranks([first]) == map[first.path := 0];
  }

  lemma {:induction false} OneListed(first: Row, second: Row, columns: seq<Column>)
    requires Lays(columns, TwoNotes(first, second, [Some("open")]))
    ensures columns == [Column("open", [first, second])]
  {
    var next := TwoNotes(first, second, [Some("open")]);
    var groups := Named(next.groups);
    OneNamed(next.groups);
    var listed := Values(next.listed.value);
    assert listed == ["open"] && LastOnly(listed) == ["open"];
    assert |columns| == |Ids(columns)| == 1 && Ids(columns)[0] == "open";
    assert columns[..0] == [] && columns == [columns[0]];
    assert "open" == Ids(groups)[0];
    assert Found(columns, Ids(groups)) == Found([], Ids(groups)) + [columns[0]] == columns;
  }

  lemma {:induction false} ListsDecide(first: Row, second: Row)
    ensures Mergeable(TwoNotes(first, second, [Some("open")])) && !Mergeable(TwoNotes(first, second, []))
  {
    var groups := Named(TwoNotes(first, second, []).groups);
    OneNamed(TwoNotes(first, second, []).groups);
    assert Ids(groups) == ["open"];
    assert ["open"][1..] == [] && Values([Some("open")]) == ["open"] && Values([]) == [];
    assert LastOnly(["open"]) == ["open"] && Among(["open"], ["open"]) == ["open"] + Among([], ["open"]);
  }

  /** The same two notes, the other way round, with an order that does not list their column. */
  lemma {:induction false} TurnedRound(a: Row, b: Row, sent: Result, resent: Result)
    requires a.path != b.path && sent == TwoNotes(a, b, [Some("open")]) && resent == TwoNotes(b, a, [])
    ensures Sound(sent) && Mergeable(sent) && Sound(resent) && !Mergeable(resent)
    ensures resent.rows == [b, a] && !Sorted([a, b], Ranks(resent.rows))
  {
    TwoNotesSound(a, b, [Some("open")]);
    TwoNotesSound(b, a, []);
    ListsDecide(a, b);
    ListsDecide(b, a);
    assert At(Ranks(resent.rows), b.path) == 0 && At(Ranks(resent.rows), a.path) == 1;
  }

  /** The host sends two notes, then the same notes turned round, in a result that is
      refused. The column is drawn as before, against the new order. */
  method RefusedStaysBehind(a: Row, b: Row) returns (rows: seq<Row>, order: map<string, nat>, answer: Merge)
    requires a.path != b.path
    ensures answer.Refused? && order == Ranks([b, a])
    ensures rows == [a, b] && !Sorted(rows, order)
  {
    var sent, resent := TwoNotes(a, b, [Some("open")]), TwoNotes(b, a, []);
    TurnedRound(a, b, sent, resent);
    var board := new Board();
    answer := board.Update(sent);
    OneListed(a, b, board.columns);
    var column := Column("open", [a, b]);
    assert board.columns[0] == column && board.pending == [];
    answer := board.Update(resent);
    rows := board.DisplayedRows(column);
    order := board.order;
  }

  // ----- dragging a column

  /** The columns while one is dragged to place `target`. */
  function DropAt(original: seq<Column>, dragged: Column, target: nat): (preview: seq<Column>)
    requires OwnIds(original) && dragged in original && target < |original|
    ensures multiset(preview) == multiset(original) && preview[target] == dragged
  {
    var rest := Others(original, dragged);
    OthersCount(original, dragged);
    SpliceCount(rest, dragged, target);
    rest[..target] + [dragged] + rest[target..]
  }

  lemma {:induction false} SpliceCount(rest: seq<Column>, dragged: Column, target: nat)
    requires target <= |rest|
    ensures multiset(rest[..target] + [dragged] + rest[target..]) == multiset(rest) + multiset{dragged}
  {
    assert rest == rest[..target] + rest[target..];
  }

  function Others(columns: seq<Column>, dragged: Column): seq<Column> {
    if columns == [] then []
    else (if columns[0] == dragged then [] else [columns[0]]) + Others(columns[1..], dragged)
  }

  lemma {:induction false} OthersCount(columns: seq<Column>, dragged: Column)
    requires OwnIds(columns)
    ensures dragged !in columns ==> Others(columns, dragged) == columns
    ensures dragged in columns ==> multiset(Others(columns, dragged)) + multiset{dragged} == multiset(columns)
    ensures dragged in columns ==> |Others(columns, dragged)| == |columns| - 1
  {
    if columns != [] {
      assert columns == [columns[0]] + columns[1..];
      OthersCount(columns[1..], dragged);
    }
  }
}
