/**
 A partial table that answers like the whole one (apps/server/src/lookups.ts `resolveLookups`, `offPageNeeds`,
 `appendRows`, `bindEntryValues`; the read is apps/server/src/masterdata-sync.ts `selectRows`).

 A query table reaches the engine as its first 200 rows. The rows a stored configuration names beyond those
 are fetched by value, which the database compares as text, and appended. The engine looks rows up with a
 strict first match.
 */
module Lookups {
  import opened Options

  datatype Cell = Null | Text(s: string) | Num(n: int) | Flag(b: bool)

  /** A stored cell: a scalar, or a nested value that no column can show. */
  datatype RawCell = Scalar(cell: Cell) | Nested(json: string)
  type RawRow = map<string, RawCell>
  type Row = seq<Cell>

  datatype Table = Table(columns: seq<string>, rows: seq<Row>, partial: bool)

  /** How each side prints a cell: `pg` is the database's `->>`, `js` is JavaScript's String. */
  datatype World = World(pg: Cell -> string, js: Cell -> string)

  /** The cached rows of each table, in the order of its own query. */
  type Cache = map<string, seq<RawRow>>

  const ENUM_MAX := 200

  // ---- The first page ---------------------------------------------------------------------------------

  /** `asVal`. */
  function AsCell(r: RawRow, col: string): Cell {
    if col in r && r[col].Scalar? then r[col].cell else Null
  }

  function Project(r: RawRow, columns: seq<string>): (row: Row)
    ensures |row| == |columns|
  {
    seq(|columns|, i requires 0 <= i < |columns| => AsCell(r, columns[i]))
  }

  function ProjectAll(rows: seq<RawRow>, columns: seq<string>): (t: seq<Row>)
    ensures |t| == |rows|
    ensures forall i :: 0 <= i < |t| ==> t[i] == Project(rows[i], columns)
  {
    seq(|rows|, i requires 0 <= i < |rows| => Project(rows[i], columns))
  }

  /** The canonical table: whole, or its start marked `partial`. It is read as 201 rows. */
  function Canonical(rows: seq<RawRow>, columns: seq<string>): Table {
    var read := if |rows| > ENUM_MAX + 1 then rows[..ENUM_MAX + 1] else rows;
    if |read| > ENUM_MAX then Table(columns, ProjectAll(read[..ENUM_MAX], columns), true)
    else Table(columns, ProjectAll(read, columns), false)
  }

  /** The whole table under the same columns. */
  function Whole(rows: seq<RawRow>, columns: seq<string>): Table {
    Table(columns, ProjectAll(rows, columns), false)
  }

  // ---- Looking up -----------------------------------------------------------------------------------------

  function Column(columns: seq<string>, col: string): Option<nat> {
    if columns == [] then None
    else if columns[0] == col then Some(0)
    else match Column(columns[1..], col) case None => None case Some(i) => Some(i + 1)
  }

  lemma {:induction false} ColumnIs(columns: seq<string>, col: string)
    ensures Column(columns, col).Some? <==> col in columns
    ensures Column(columns, col).Some? ==>
        Column(columns, col).value < |columns| && columns[Column(columns, col).value] == col
  {
    if columns != [] { ColumnIs(columns[1..], col); }
  }

  /** The first row whose cell in column `i` is `u`. */
  function Find(rows: seq<Row>, i: nat, u: Cell): Option<Row> {
    if rows == [] then None
    else if i < |rows[0]| && rows[0][i] == u then Some(rows[0])
    else Find(rows[1..], i, u)
  }

  function Lookup(t: Table, col: string, u: Cell): Option<Row> {
    match Column(t.columns, col) case None => None case Some(i) => Find(t.rows, i, u)
  }

  // ---- What a configuration needs beyond the page -----------------------------------------------------------

  /** The values a parameter or a column of the configuration holds, looked up in `table` by `col`. */
  datatype Want = Want(table: string, col: string, values: seq<Cell>)
  datatype Need = Need(table: string, col: string, values: seq<Cell>)

  predicate OnPage(t: Table, col: string, v: Cell) {
    Lookup(t, col, v).Some?
  }

  predicate Unbound(tables: map<string, Table>, table: string, col: string, v: Cell) {
    v != Null && v != Text("") && !(table in tables && OnPage(tables[table], col, v))
  }

  function Missing(tables: map<string, Table>, table: string, col: string, values: seq<Cell>): seq<Cell> {
    if values == [] then []
    else (if Unbound(tables, table, col, values[0]) then [values[0]] else []) + Missing(tables, table, col, values[1..])
  }

  /** `[...new Set([...a, ...b])]`. */
  function Union(a: seq<Cell>, b: seq<Cell>): seq<Cell>
    decreases b
  {
    if b == [] then a
    else Union(if b[0] in a then a else a + [b[0]], b[1..])
  }

  function AddNeed(needs: seq<Need>, table: string, col: string, missing: seq<Cell>): seq<Need> {
    if needs == [] then [Need(table, col, Union([], missing))]
    else if needs[0].table == table && needs[0].col == col then
      [needs[0].(values := Union(needs[0].values, missing))] + needs[1..]
    else [needs[0]] + AddNeed(needs[1..], table, col, missing)
  }

  /** `offPageNeeds`: one need for each table and column. */
  function Needs(tables: map<string, Table>, wants: seq<Want>): seq<Need> {
    if wants == [] then []
    else
      var before, x := Needs(tables, wants[..|wants| - 1]), wants[|wants| - 1];
      var missing := Missing(tables, x.table, x.col, x.values);
      if missing == [] then before else AddNeed(before, x.table, x.col, missing)
  }

  // ---- Fetching and appending -------------------------------------------------------------------------------

  function PgText(w: World, r: RawRow, col: string): Option<string> {
    if col !in r then None
    else match r[col] case Nested(json) => Some(json) case Scalar(c) => if c == Null then None else Some(w.pg(c))
  }

  predicate Selects(w: World, r: RawRow, col: string, values: seq<Cell>) {
    PgText(w, r, col).Some? && exists v :: v in values && w.js(v) == PgText(w, r, col).value
  }

  /** `selectRows` by value, in the table's own order. */
  function Select(w: World, rows: seq<RawRow>, col: string, values: seq<Cell>): seq<RawRow> {
    if rows == [] then []
    else (if Selects(w, rows[0], col, values) then [rows[0]] else []) + Select(w, rows[1..], col, values)
  }

  /** The fetched rows that are not on the table yet. */
  function Fresh(table: Table, raw: seq<RawRow>): seq<Row> {
    if raw == [] then []
    else
      var row := Project(raw[0], table.columns);
      (if row in table.rows then [] else [row]) + Fresh(table, raw[1..])
  }

  /** `appendRows`. */
  function Append(table: Table, raw: seq<RawRow>): Table {
    if raw == [] || Fresh(table, raw) == [] then table else table.(rows := table.rows + Fresh(table, raw))
  }

  function Fetch(w: World, cache: Cache, n: Need): seq<RawRow> {
    if n.table in cache then Select(w, cache[n.table], n.col, n.values) else []
  }

  function Bind(w: World, cache: Cache, tables: map<string, Table>, needs: seq<Need>): map<string, Table> {
    if needs == [] then tables
    else
      var before, n := Bind(w, cache, tables, needs[..|needs| - 1]), needs[|needs| - 1];
      if n.table in before then before[n.table := Append(before[n.table], Fetch(w, cache, n))] else before
  }

  /** `bindEntryValues`. */
  function Bound(w: World, cache: Cache, tables: map<string, Table>, wants: seq<Want>): map<string, Table> {
    Bind(w, cache, tables, Needs(tables, wants))
  }

  /** The loop that collects the needs. */
  method OffPageNeeds(tables: map<string, Table>, wants: seq<Want>) returns (needs: seq<Need>)
    ensures needs == Needs(tables, wants)
  {
    needs := [];
    var n := 0;
    while n < |wants|
      invariant n <= |wants| && needs == Needs(tables, wants[..n])
    {
      assert wants[..n + 1][..n] == wants[..n];
      var missing := Missing(tables, wants[n].table, wants[n].col, wants[n].values);
      if missing != [] { needs := AddNeed(needs, wants[n].table, wants[n].col, missing); }
      n := n + 1;
    }
    assert wants[..|wants|] == wants;
  }

  /** `bindEntryValues`. `touched` is false where it answers the canonical lookups themselves. */
  method BindEntryValues(w: World, cache: Cache, canonical: map<string, Table>, wants: seq<Want>)
    returns (tables: map<string, Table>, touched: bool)
    ensures tables == Bound(w, cache, canonical, wants)
    ensures touched <==> tables != canonical
  {
    var needs := OffPageNeeds(canonical, wants);
    tables, touched := canonical, false;
    var i := 0;
    while i < |needs|
      invariant i <= |needs| && tables == Bind(w, cache, canonical, needs[..i])
      invariant tables.Keys == canonical.Keys
      invariant forall k :: k in canonical ==> |canonical[k].rows| <= |tables[k].rows|
      invariant touched ==> exists k :: k in canonical && |canonical[k].rows| < |tables[k].rows|
      invariant !touched ==> tables == canonical
    {
      assert needs[..i + 1][..i] == needs[..i];
      var n := needs[i];
      if n.table in tables {
        var t := tables[n.table];
        var next := Append(t, Fetch(w, cache, n));
        if next != t {
          ghost var k0 :=
            if touched then (var k :| k in canonical && |canonical[k].rows| < |tables[k].rows|; k) else n.table;
          tables, touched := tables[n.table := next], true;
          assert k0 in canonical && |canonical[k0].rows| < |tables[k0].rows|;
        } else {
          assert tables[n.table := next] == tables;
        }
      }
      i := i + 1;
    }
    assert needs[..|needs|] == needs;
  }

  // ---- The extended table answers like the whole ---------------------------------------------------------------

  lemma {:induction false} FindJoined(a: seq<Row>, b: seq<Row>, i: nat, u: Cell)
    ensures Find(a + b, i, u) == if Find(a, i, u).Some? then Find(a, i, u) else Find(b, i, u)
  {
    if a == [] {
      assert a + b == b;
    } else {
      assert (a + b)[1..] == a[1..] + b;
      FindJoined(a[1..], b, i, u);
    }
  }

  lemma {:induction false} FoundIn(rows: seq<Row>, i: nat, u: Cell)
    ensures Find(rows, i, u).Some? <==> exists r :: r in rows && i < |r| && r[i] == u
  {
    if rows != [] {
      FoundIn(rows[1..], i, u);
      assert rows == [rows[0]] + rows[1..];
    }
  }

  predicate Asked(w: World, values: seq<Cell>, u: Cell) {
    exists v :: v in values && w.js(v) == w.pg(u)
  }

  /** A row whose cell is `u` prints as `u` does; so it is fetched exactly when that text was asked for. */
  lemma SelectedByValue(w: World, r: RawRow, col: string, values: seq<Cell>, u: Cell)
    requires AsCell(r, col) == u && u != Null
    ensures Selects(w, r, col, values) <==> Asked(w, values, u)
  {
    assert PgText(w, r, col) == Some(w.pg(u));
  }

  lemma FreshOne(t: Table, r: RawRow, rest: seq<RawRow>)
    ensures Fresh(t, [r] + rest) ==
        (if Project(r, t.columns) in t.rows then [] else [Project(r, t.columns)]) + Fresh(t, rest)
  {
    assert ([r] + rest)[1..] == rest;
  }

  /**
   Of the fetched rows not on the table, the first with `u` is the first of all rows with `u`: either every
   row that holds `u` is fetched or none is, in the table's order, and none of them is on the table.
   */
  lemma {:induction false} FreshFinds(w: World, t: Table, rows: seq<RawRow>, col: string, i: nat, values: seq<Cell>,
                                      u: Cell)
    requires i < |t.columns| && t.columns[i] == col && u != Null && Find(t.rows, i, u).None?
    ensures Find(Fresh(t, Select(w, rows, col, values)), i, u)
              == if Asked(w, values, u) then Find(ProjectAll(rows, t.columns), i, u) else None
  {
    if rows != [] {
      var r, rest := rows[0], Select(w, rows[1..], col, values);
      var row := Project(r, t.columns);
      FreshFinds(w, t, rows[1..], col, i, values, u);
      assert ProjectAll(rows, t.columns)[1..] == ProjectAll(rows[1..], t.columns);
      FoundIn(t.rows, i, u);
      if row[i] == u { SelectedByValue(w, r, col, values, u); }
      if Selects(w, r, col, values) {
        FreshOne(t, r, rest);
        FindJoined(if row in t.rows then [] else [row], Fresh(t, rest), i, u);
        assert Select(w, rows, col, values) == [r] + rest;
      } else {
        assert Select(w, rows, col, values) == rest;
      }
    }
  }

  lemma ProjectSplit(rows: seq<RawRow>, n: nat, columns: seq<string>)
    requires n <= |rows|
    ensures ProjectAll(rows, columns) == ProjectAll(rows[..n], columns) + ProjectAll(rows[n..], columns)
  {
  }

  lemma CanonicalIs(rows: seq<RawRow>, columns: seq<string>)
    ensures Canonical(rows, columns)
              == if |rows| > ENUM_MAX then Table(columns, ProjectAll(rows[..ENUM_MAX], columns), true)
                 else Table(columns, ProjectAll(rows, columns), false)
  {
    if |rows| > ENUM_MAX + 1 { assert rows[..ENUM_MAX + 1][..ENUM_MAX] == rows[..ENUM_MAX]; }
  }

  /** The canonical rows are the first of the whole. */
  lemma CanonicalStarts(rows: seq<RawRow>, columns: seq<string>)
    ensures var n := if |rows| > ENUM_MAX then ENUM_MAX else |rows|;
            && Canonical(rows, columns).rows == ProjectAll(rows[..n], columns)
            && Whole(rows, columns).rows == Canonical(rows, columns).rows + ProjectAll(rows[n..], columns)
            && (Canonical(rows, columns).partial <==> |rows| > ENUM_MAX)
  {
    CanonicalIs(rows, columns);
    assert rows[..|rows|] == rows;
    ProjectSplit(rows, if |rows| > ENUM_MAX then ENUM_MAX else |rows|, columns);
  }

  lemma AppendRows(t: Table, raw: seq<RawRow>)
    ensures Append(t, raw) == t.(rows := t.rows + Fresh(t, raw))
  {
    assert t.rows + [] == t.rows;
  }

  lemma PageFinds(rows: seq<RawRow>, columns: seq<string>, i: nat, u: Cell)
    ensures var page := Canonical(rows, columns);
            Find(page.rows, i, u).Some? ==> Find(Whole(rows, columns).rows, i, u) == Find(page.rows, i, u)
    ensures Canonical(rows, columns).columns == columns
  {
    CanonicalStarts(rows, columns);
    var n := if |rows| > ENUM_MAX then ENUM_MAX else |rows|;
    FindJoined(Canonical(rows, columns).rows, ProjectAll(rows[n..], columns), i, u);
  }

  /**
   A table extended by one read answers like the whole one on the page and for what was asked, and knows no other
   value.
   */
  lemma ExtendedAnswers(w: World, rows: seq<RawRow>, columns: seq<string>, col: string, values: seq<Cell>, u: Cell)
    requires col in columns && u != Null
    ensures var page := Canonical(rows, columns); var extended := Append(page, Select(w, rows, col, values));
            && extended.columns == columns && page.rows <= extended.rows
            && Lookup(extended, col, u)
                 == if OnPage(page, col, u) || Asked(w, values, u) then Lookup(Whole(rows, columns), col, u) else None
  {
    var page := Canonical(rows, columns);
    var raw := Select(w, rows, col, values);
    ColumnIs(columns, col);
    var i := Column(columns, col).value;
    PageFinds(rows, columns, i, u);
    AppendRows(page, raw);
    FindJoined(page.rows, Fresh(page, raw), i, u);
    if Find(page.rows, i, u).None? { FreshFinds(w, page, rows, col, i, values, u); }
  }

  // ---- From the configuration's values to that one read ----------------------------------------------------------

  lemma {:induction false} UnionHas(a: seq<Cell>, b: seq<Cell>, v: Cell)
    ensures v in Union(a, b) <==> v in a || v in b
    decreases b
  {
    if b != [] {
      UnionHas(if b[0] in a then a else a + [b[0]], b[1..], v);
      assert b == [b[0]] + b[1..];
    }
  }

  lemma {:induction false} MissingHas(tables: map<string, Table>, table: string, col: string, values: seq<Cell>,
                                      v: Cell)
    ensures v in Missing(tables, table, col, values) <==> v in values && Unbound(tables, table, col, v)
  {
    if values != [] {
      MissingHas(tables, table, col, values[1..], v);
      assert values == [values[0]] + values[1..];
    }
  }

  /** The need of a table and column, if there is one. */
  function NeedOf(needs: seq<Need>, table: string, col: string): Option<Need> {
    if needs == [] then None
    else if needs[0].table == table && needs[0].col == col then Some(needs[0])
    else NeedOf(needs[1..], table, col)
  }

  ghost predicate Apart(needs: seq<Need>) {
    forall i, j :: 0 <= i < j < |needs| ==> needs[i].table != needs[j].table || needs[i].col != needs[j].col
  }

  lemma {:induction false} NeedOfIs(needs: seq<Need>, table: string, col: string)
    ensures NeedOf(needs, table, col).Some? <==> exists n :: n in needs && n.table == table && n.col == col
    ensures NeedOf(needs, table, col).Some? ==> NeedOf(needs, table, col).value in needs
  {
    if needs != [] {
      NeedOfIs(needs[1..], table, col);
      assert needs == [needs[0]] + needs[1..];
    }
  }

  lemma {:induction false} AddNeedIs(needs: seq<Need>, table: string, col: string, missing: seq<Cell>, t: string,
                                     c: string)
    ensures NeedOf(AddNeed(needs, table, col, missing), t, c)
              == if (t, c) != (table, col) then NeedOf(needs, t, c)
                 else
                   var had := if NeedOf(needs, t, c).Some? then NeedOf(needs, t, c).value.values else [];
                   Some(Need(table, col, Union(had, missing)))
  {
    if needs != [] {
      if !(needs[0].table == table && needs[0].col == col) {
        AddNeedIs(needs[1..], table, col, missing, t, c);
        assert ([needs[0]] + AddNeed(needs[1..], table, col, missing))[1..] == AddNeed(needs[1..], table, col, missing);
      } else {
        assert ([needs[0].(values := Union(needs[0].values, missing))] + needs[1..])[1..] == needs[1..];
      }
    }
  }

  lemma {:induction false} AddNeedIn(needs: seq<Need>, table: string, col: string, missing: seq<Cell>, n: Need)
    requires n in AddNeed(needs, table, col, missing)
    ensures n in needs || (n.table == table && n.col == col)
  {
    if needs != [] && !(needs[0].table == table && needs[0].col == col) && n != needs[0] {
      AddNeedIn(needs[1..], table, col, missing, n);
    }
  }

  lemma {:induction false} AddNeedApart(needs: seq<Need>, table: string, col: string, missing: seq<Cell>)
    requires Apart(needs)
    ensures Apart(AddNeed(needs, table, col, missing))
  {
    if needs != [] && !(needs[0].table == table && needs[0].col == col) {
      AddNeedApart(needs[1..], table, col, missing);
      forall n | n in AddNeed(needs[1..], table, col, missing)
        ensures n.table != needs[0].table || n.col != needs[0].col
      {
        AddNeedIn(needs[1..], table, col, missing, n);
        if n in needs[1..] { var i :| 0 <= i < |needs[1..]| && needs[1..][i] == n; assert needs[i + 1] == n; }
      }
    }
  }

  /** Some want asks for `v` there, and it is not on the page. */
  predicate Wanted(tables: map<string, Table>, wants: seq<Want>, table: string, col: string, v: Cell) {
    Unbound(tables, table, col, v) && exists x :: x in wants && x.table == table && x.col == col && v in x.values
  }

  /** The needs hold exactly the wanted values, once for each table and column. */
  lemma {:induction false} NeedsAreWanted(tables: map<string, Table>, wants: seq<Want>, table: string, col: string,
                                          v: Cell)
    ensures Apart(Needs(tables, wants))
    ensures var n := NeedOf(Needs(tables, wants), table, col);
            (n.Some? && v in n.value.values) <==> Wanted(tables, wants, table, col, v)
  {
    if wants != [] {
      var earlier, x := wants[..|wants| - 1], wants[|wants| - 1];
      var before := Needs(tables, earlier);
      NeedsAreWanted(tables, earlier, table, col, v);
      assert wants == earlier + [x];
      var missing := Missing(tables, x.table, x.col, x.values);
      MissingHas(tables, x.table, x.col, x.values, v);
      if missing != [] {
        AddNeedApart(before, x.table, x.col, missing);
        AddNeedIs(before, x.table, x.col, missing, table, col);
        var had := if NeedOf(before, x.table, x.col).Some? then NeedOf(before, x.table, x.col).value.values else [];
        UnionHas(had, missing, v);
      }
    }
  }

  /** Every need comes from a want. */
  lemma {:induction false} NeedsComeFrom(tables: map<string, Table>, wants: seq<Want>, n: Need)
    requires n in Needs(tables, wants)
    ensures exists x :: x in wants && x.table == n.table && x.col == n.col
  {
    var earlier, x := wants[..|wants| - 1], wants[|wants| - 1];
    assert wants == earlier + [x];
    var missing := Missing(tables, x.table, x.col, x.values);
    if n in Needs(tables, earlier) {
      NeedsComeFrom(tables, earlier, n);
    } else {
      AddNeedIn(Needs(tables, earlier), x.table, x.col, missing, n);
    }
  }

  lemma {:induction false} NeedOfMore(needs: seq<Need>, n: Need, table: string, col: string)
    ensures NeedOf(needs + [n], table, col)
              == if NeedOf(needs, table, col).Some? then NeedOf(needs, table, col)
                 else if n.table == table && n.col == col then Some(n) else None
  {
    if needs == [] {
      assert needs + [n] == [n];
    } else {
      assert (needs + [n])[1..] == needs[1..] + [n];
      NeedOfMore(needs[1..], n, table, col);
    }
  }

  /** A table with one need is read once. */
  lemma {:induction false} BindOnce(w: World, cache: Cache, tables: map<string, Table>, needs: seq<Need>,
                                    table: string, col: string)
    requires table in tables && Apart(needs) && forall n :: n in needs && n.table == table ==> n.col == col
    ensures table in Bind(w, cache, tables, needs)
    ensures Bind(w, cache, tables, needs)[table]
              == match NeedOf(needs, table, col)
                 case None => tables[table]
                 case Some(n) => Append(tables[table], Fetch(w, cache, n))
  {
    if needs != [] {
      var before, n := needs[..|needs| - 1], needs[|needs| - 1];
      assert needs == before + [n];
      BindOnce(w, cache, tables, before, table, col);
      NeedOfMore(before, n, table, col);
      NeedOfIs(before, table, col);
      assert forall i :: 0 <= i < |before| ==> before[i] == needs[i];
    }
  }

  /** Every use of `table` looks it up by `col`. */
  ghost predicate KeyedBy(wants: seq<Want>, table: string, col: string) {
    forall x :: x in wants && x.table == table ==> x.col == col
  }

  lemma BoundTable(w: World, cache: Cache, tables: map<string, Table>, wants: seq<Want>, table: string, col: string)
    requires table in tables && KeyedBy(wants, table, col)
    ensures table in Bound(w, cache, tables, wants)
    ensures Bound(w, cache, tables, wants)[table]
              == match NeedOf(Needs(tables, wants), table, col)
                 case None => tables[table]
                 case Some(n) => Append(tables[table], Fetch(w, cache, n))
  {
    var needs := Needs(tables, wants);
    NeedsAreWanted(tables, wants, table, col, Null);
    forall n | n in needs && n.table == table ensures n.col == col {
      NeedsComeFrom(tables, wants, n);
      var x :| x in wants && x.table == n.table && x.col == n.col;
    }
    BindOnce(w, cache, tables, needs, table, col);
  }

  /** The text of `u` was asked for: some wanted value prints in JavaScript as `u` does in the database. */
  ghost predicate Reads(w: World, tables: map<string, Table>, wants: seq<Want>, table: string, col: string, u: Cell) {
    exists v :: Wanted(tables, wants, table, col, v) && w.js(v) == w.pg(u)
  }

  /**
   A table that every parameter and column looks up by one column: bound to a configuration's values it answers
   for every value on the page, and for every value whose text was asked for, as the whole table would, and
   knows no other. The page stays its start.
   */
  lemma BoundAnswers(w: World, cache: Cache, tables: map<string, Table>, wants: seq<Want>, table: string,
                     columns: seq<string>, col: string, u: Cell)
    requires table in cache && table in tables && tables[table] == Canonical(cache[table], columns)
    requires col in columns && u != Null && KeyedBy(wants, table, col)
    ensures var bound := Bound(w, cache, tables, wants);
            && table in bound && tables[table].rows <= bound[table].rows
            && Lookup(bound[table], col, u)
                 == if OnPage(tables[table], col, u) || Reads(w, tables, wants, table, col, u)
                    then Lookup(Whole(cache[table], columns), col, u) else None
  {
    BoundTable(w, cache, tables, wants, table, col);
    var need := NeedOf(Needs(tables, wants), table, col);
    forall v ensures (need.Some? && v in need.value.values) <==> Wanted(tables, wants, table, col, v) {
      NeedsAreWanted(tables, wants, table, col, v);
    }
    match need {
      case Some(n) =>
        NeedNames(Needs(tables, wants), table, col);
        ExtendedAnswers(w, cache[table], columns, col, n.values, u);
      case None =>
        ColumnIs(columns, col);
        PageFinds(cache[table], columns, Column(columns, col).value, u);
    }
  }

  lemma {:induction false} NeedNames(needs: seq<Need>, table: string, col: string)
    ensures NeedOf(needs, table, col).Some? ==>
        NeedOf(needs, table, col).value.table == table && NeedOf(needs, table, col).value.col == col
  {
    if needs != [] { NeedNames(needs[1..], table, col); }
  }

  /**
   The exact condition for a value the configuration holds and the whole table stores beyond the page: its row
   is found, and is the right one, if and only if some wanted value prints as the database prints this one. One
   that prints alike on both sides always is.
   */
  lemma StoredValueFoundIff(w: World, cache: Cache, tables: map<string, Table>, wants: seq<Want>,
      table: string, columns: seq<string>, col: string, v: Cell)
    requires table in cache && table in tables && tables[table] == Canonical(cache[table], columns)
    requires col in columns && KeyedBy(wants, table, col)
    requires Wanted(tables, wants, table, col, v) && Lookup(Whole(cache[table], columns), col, v).Some?
    ensures var bound := Bound(w, cache, tables, wants);
            && table in bound
            && (Lookup(bound[table], col, v) == Lookup(Whole(cache[table], columns), col, v) <==>
                Reads(w, tables, wants, table, col, v))
            && (w.js(v) == w.pg(v) ==> Reads(w, tables, wants, table, col, v))
  {
    BoundAnswers(w, cache, tables, wants, table, columns, col, v);
  }

  // ---- When nothing changes -----------------------------------------------------------------------------------------

  lemma {:induction false} NoNeeds(tables: map<string, Table>, wants: seq<Want>)
    requires forall table, col, v :: !Wanted(tables, wants, table, col, v)
    ensures Needs(tables, wants) == []
  {
    if wants != [] {
      var earlier, x := wants[..|wants| - 1], wants[|wants| - 1];
      assert wants == earlier + [x];
      forall table, col, v ensures !Wanted(tables, earlier, table, col, v) {
        assert !Wanted(tables, wants, table, col, v);
      }
      NoNeeds(tables, earlier);
      var missing := Missing(tables, x.table, x.col, x.values);
      if missing != [] {
        MissingHas(tables, x.table, x.col, x.values, missing[0]);
        assert Wanted(tables, wants, x.table, x.col, missing[0]);
      }
    }
  }

  /** With nothing missing the canonical tables themselves come back. */
  lemma NothingMissing(w: World, cache: Cache, tables: map<string, Table>, wants: seq<Want>)
    requires forall table, col, v :: !Wanted(tables, wants, table, col, v)
    ensures Bound(w, cache, tables, wants) == tables
  {
    NoNeeds(tables, wants);
  }

  lemma {:induction false} NothingFresh(w: World, t: Table, rows: seq<RawRow>, col: string, values: seq<Cell>)
    requires forall r :: r in rows ==> Project(r, t.columns) in t.rows
    ensures Fresh(t, Select(w, rows, col, values)) == []
  {
    if rows != [] {
      assert rows[0] in rows && rows == [rows[0]] + rows[1..];
      NothingFresh(w, t, rows[1..], col, values);
      var rest := Select(w, rows[1..], col, values);
      if Selects(w, rows[0], col, values) {
        assert Select(w, rows, col, values) == [rows[0]] + rest;
        FreshOne(t, rows[0], rest);
      } else {
        assert Select(w, rows, col, values) == rest;
      }
    }
  }

  /** A table that fits the page is already whole: no value, however it prints, changes it. */
  lemma WholeTableStays(w: World, cache: Cache, tables: map<string, Table>, wants: seq<Want>, table: string,
                        columns: seq<string>, col: string)
    requires table in cache && table in tables && tables[table] == Canonical(cache[table], columns)
    requires |cache[table]| <= ENUM_MAX && KeyedBy(wants, table, col)
    ensures table in Bound(w, cache, tables, wants)
    ensures Bound(w, cache, tables, wants)[table] == tables[table] == Whole(cache[table], columns)
  {
    var rows := cache[table];
    BoundTable(w, cache, tables, wants, table, col);
    NeedNames(Needs(tables, wants), table, col);
    CanonicalStarts(rows, columns);
    assert rows[..|rows|] == rows;
    forall r | r in rows ensures Project(r, columns) in tables[table].rows {
      var i :| 0 <= i < |rows| && rows[i] == r;
      assert tables[table].rows[i] == Project(r, columns);
    }
    var need := NeedOf(Needs(tables, wants), table, col);
    if need.Some? { NothingFresh(w, tables[table], rows, col, need.value.values); }
  }

  // ---- Any number of key columns ------------------------------------------------------------------------------

  lemma {:induction false} FreshFindsAlike(t: Table, raw: seq<RawRow>, i: nat, u: Cell)
    requires Find(t.rows, i, u).None? && i < |t.columns|
    ensures Find(Fresh(t, raw), i, u) == Find(ProjectAll(raw, t.columns), i, u)
  {
    if raw != [] {
      var row := Project(raw[0], t.columns);
      FreshFindsAlike(t, raw[1..], i, u);
      FoundIn(t.rows, i, u);
      FindJoined(if row in t.rows then [] else [row], Fresh(t, raw[1..]), i, u);
      assert ProjectAll(raw, t.columns)[1..] == ProjectAll(raw[1..], t.columns);
    }
  }

  /** Appending adds the answers of the fetched rows, whether or not some were on the table already. */
  lemma AppendFinds(t: Table, raw: seq<RawRow>, i: nat, u: Cell)
    requires i < |t.columns|
    ensures Find(Append(t, raw).rows, i, u) ==
            if Find(t.rows, i, u).Some? then Find(t.rows, i, u) else Find(ProjectAll(raw, t.columns), i, u)
  {
    AppendRows(t, raw);
    FindJoined(t.rows, Fresh(t, raw), i, u);
    if Find(t.rows, i, u).None? { FreshFindsAlike(t, raw, i, u); }
  }

  /** The first row with `u` among the rows fetched for a table, need by need. */
  function Fetched(w: World, cache: Cache, needs: seq<Need>, table: string, columns: seq<string>, i: nat, u: Cell):
      Option<Row> {
    if needs == [] then None
    else
      var before, n := Fetched(w, cache, needs[..|needs| - 1], table, columns, i, u), needs[|needs| - 1];
      if before.Some? || n.table != table then before else Find(ProjectAll(Fetch(w, cache, n), columns), i, u)
  }

  lemma {:induction false} BindFinds(w: World, cache: Cache, tables: map<string, Table>, needs: seq<Need>,
                                     table: string, i: nat, u: Cell)
    requires table in tables && i < |tables[table].columns|
    ensures var bound := Bind(w, cache, tables, needs);
            && table in bound && bound[table].columns == tables[table].columns
            && Find(bound[table].rows, i, u) ==
               if Find(tables[table].rows, i, u).Some? then Find(tables[table].rows, i, u)
               else Fetched(w, cache, needs, table, tables[table].columns, i, u)
  {
    if needs != [] {
      var before, n := Bind(w, cache, tables, needs[..|needs| - 1]), needs[|needs| - 1];
      BindFinds(w, cache, tables, needs[..|needs| - 1], table, i, u);
      if n.table == table { AppendFinds(before[table], Fetch(w, cache, n), i, u); }
    }
  }

  /** Row `j` of the whole table holds `u` in column `i`. */
  predicate HoldsAt(rows: seq<RawRow>, columns: seq<string>, i: nat, u: Cell, j: nat) {
    j < |rows| && i < |columns| && AsCell(rows[j], columns[i]) == u
  }

  ghost predicate FirstAt(rows: seq<RawRow>, columns: seq<string>, i: nat, u: Cell, j: nat) {
    HoldsAt(rows, columns, i, u, j) && forall k: nat | k < j :: !HoldsAt(rows, columns, i, u, k)
  }

  /** What the row holds in `col` is there and prints as one of the values does; a nested value prints as its JSON. */
  predicate NamedBy(w: World, r: RawRow, col: string, values: seq<Cell>) {
    && col in r && r[col] != Scalar(Null)
    && exists v :: v in values && (r[col] == Nested(w.js(v)) || (r[col].Scalar? && w.pg(r[col].cell) == w.js(v)))
  }

  lemma SelectsNamed(w: World, r: RawRow, col: string, values: seq<Cell>)
    ensures Selects(w, r, col, values) <==> NamedBy(w, r, col, values)
  {
  }

  /** Need `n` fetches row `j`, which holds `u` in column `i`. */
  predicate Takes(w: World, rows: seq<RawRow>, columns: seq<string>, i: nat, u: Cell, n: Need, j: nat) {
    HoldsAt(rows, columns, i, u, j) && NamedBy(w, rows[j], n.col, n.values)
  }

  ghost predicate TakesFirst(w: World, rows: seq<RawRow>, columns: seq<string>, i: nat, u: Cell, n: Need, j: nat) {
    Takes(w, rows, columns, i, u, n, j) && forall k: nat | k < j :: !Takes(w, rows, columns, i, u, n, k)
  }

  ghost predicate TakesNone(w: World, rows: seq<RawRow>, columns: seq<string>, i: nat, u: Cell, n: Need) {
    forall j: nat | j < |rows| :: !Takes(w, rows, columns, i, u, n, j)
  }

  lemma HoldsLater(rows: seq<RawRow>, columns: seq<string>, i: nat, u: Cell)
    requires rows != []
    ensures forall j: nat | j > 0 :: HoldsAt(rows, columns, i, u, j) == HoldsAt(rows[1..], columns, i, u, j - 1)
  {
  }

  lemma TakesLater(w: World, rows: seq<RawRow>, columns: seq<string>, i: nat, u: Cell, n: Need)
    requires rows != []
    ensures forall j: nat | j > 0 ::
              Takes(w, rows, columns, i, u, n, j) == Takes(w, rows[1..], columns, i, u, n, j - 1)
  {
  }

  lemma {:induction false} FindIs(rows: seq<RawRow>, columns: seq<string>, i: nat, u: Cell) returns (j: nat)
    requires i < |columns|
    ensures match Find(ProjectAll(rows, columns), i, u)
            case Some(row) => FirstAt(rows, columns, i, u, j) && row == Project(rows[j], columns)
            case None => forall k: nat | k < |rows| :: !HoldsAt(rows, columns, i, u, k)
  {
    j := 0;
    if rows != [] && AsCell(rows[0], columns[i]) != u {
      var k := FindIs(rows[1..], columns, i, u);
      j := k + 1;
      assert ProjectAll(rows, columns)[1..] == ProjectAll(rows[1..], columns);
      HoldsLater(rows, columns, i, u);
    }
  }

  lemma SelectFinds(w: World, rows: seq<RawRow>, columns: seq<string>, i: nat, u: Cell, n: Need)
    requires i < |columns| && rows != []
    ensures Find(ProjectAll(Select(w, rows, n.col, n.values), columns), i, u) ==
            if Takes(w, rows, columns, i, u, n, 0) then Some(Project(rows[0], columns))
            else Find(ProjectAll(Select(w, rows[1..], n.col, n.values), columns), i, u)
  {
    var raw, rest := Select(w, rows, n.col, n.values), Select(w, rows[1..], n.col, n.values);
    SelectsNamed(w, rows[0], n.col, n.values);
    if Selects(w, rows[0], n.col, n.values) {
      assert raw == [rows[0]] + rest;
      assert ProjectAll(raw, columns)[1..] == ProjectAll(rest, columns);
    } else {
      assert raw == rest;
    }
  }

  lemma {:induction false} TakesIs(w: World, rows: seq<RawRow>, columns: seq<string>, i: nat, u: Cell, n: Need)
    returns (j: nat)
    requires i < |columns|
    ensures match Find(ProjectAll(Select(w, rows, n.col, n.values), columns), i, u)
            case Some(row) => TakesFirst(w, rows, columns, i, u, n, j) && row == Project(rows[j], columns)
            case None => TakesNone(w, rows, columns, i, u, n)
  {
    j := 0;
    if rows != [] {
      SelectFinds(w, rows, columns, i, u, n);
      if !Takes(w, rows, columns, i, u, n, 0) {
        var k := TakesIs(w, rows[1..], columns, i, u, n);
        j := k + 1;
        TakesLater(w, rows, columns, i, u, n);
      }
    }
  }

  /** The needs for other tables, and those that fetch no row with `u`. */
  ghost predicate PassesBy(w: World, cache: Cache, columns: seq<string>, i: nat, u: Cell, table: string, n: Need) {
    n.table == table ==> table !in cache || TakesNone(w, cache[table], columns, i, u, n)
  }

  /** Need `k` is the first to fetch a row with `u`, and row `j` is the first it fetches. */
  ghost predicate FetchesFirst(w: World, cache: Cache, columns: seq<string>, i: nat, u: Cell, table: string,
                               needs: seq<Need>, k: nat, j: nat) {
    && k < |needs| && needs[k].table == table && table in cache
    && TakesFirst(w, cache[table], columns, i, u, needs[k], j)
    && forall l: nat | l < k :: PassesBy(w, cache, columns, i, u, table, needs[l])
  }

  lemma MoreNeeds(w: World, cache: Cache, columns: seq<string>, i: nat, u: Cell, table: string,
                  needs: seq<Need>, n: nat, k: nat, j: nat)
    requires n <= |needs| && FetchesFirst(w, cache, columns, i, u, table, needs[..n], k, j)
    ensures FetchesFirst(w, cache, columns, i, u, table, needs, k, j)
  {
    forall l: nat | l < k ensures PassesBy(w, cache, columns, i, u, table, needs[l]) {
      assert PassesBy(w, cache, columns, i, u, table, needs[..n][l]);
    }
  }

  lemma {:induction false} FetchedIs(w: World, cache: Cache, needs: seq<Need>, table: string, columns: seq<string>,
                                     i: nat, u: Cell) returns (k: nat, j: nat)
    requires i < |columns|
    ensures match Fetched(w, cache, needs, table, columns, i, u)
            case Some(row) =>
              FetchesFirst(w, cache, columns, i, u, table, needs, k, j) && row == Project(cache[table][j], columns)
            case None => forall l: nat | l < |needs| :: PassesBy(w, cache, columns, i, u, table, needs[l])
  {
    k, j := 0, 0;
    if needs != [] {
      var last := |needs| - 1;
      var n := needs[last];
      k, j := FetchedIs(w, cache, needs[..last], table, columns, i, u);
      if Fetched(w, cache, needs[..last], table, columns, i, u).Some? {
        MoreNeeds(w, cache, columns, i, u, table, needs, last, k, j);
      } else {
        forall l: nat | l < last ensures PassesBy(w, cache, columns, i, u, table, needs[l]) {
          assert PassesBy(w, cache, columns, i, u, table, needs[..last][l]);
        }
        k := last;
        if n.table == table && table in cache { j := TakesIs(w, cache[table], columns, i, u, n); }
      }
    }
  }

  lemma FirstDoesNotPass(w: World, cache: Cache, columns: seq<string>, i: nat, u: Cell, table: string,
                         needs: seq<Need>, k: nat, j: nat)
    requires FetchesFirst(w, cache, columns, i, u, table, needs, k, j)
    ensures !PassesBy(w, cache, columns, i, u, table, needs[k])
  {
    assert Takes(w, cache[table], columns, i, u, needs[k], j);
  }

  lemma OneFirst(w: World, cache: Cache, columns: seq<string>, i: nat, u: Cell, table: string, needs: seq<Need>,
                 k: nat, j: nat, k': nat, j': nat)
    requires FetchesFirst(w, cache, columns, i, u, table, needs, k, j)
    requires FetchesFirst(w, cache, columns, i, u, table, needs, k', j')
    ensures k == k' && j == j'
  {
    FirstDoesNotPass(w, cache, columns, i, u, table, needs, k, j);
    FirstDoesNotPass(w, cache, columns, i, u, table, needs, k', j');
  }

  /**
   Row `j`, the first fetched with `u`, shows what row `f` shows, the first with `u` in the whole table.
   */
  ghost predicate AnswersAlike(w: World, cache: Cache, columns: seq<string>, i: nat, u: Cell, table: string,
                               needs: seq<Need>, k: nat, j: nat, f: nat) {
    && FetchesFirst(w, cache, columns, i, u, table, needs, k, j) && FirstAt(cache[table], columns, i, u, f)
    && Project(cache[table][j], columns) == Project(cache[table][f], columns)
  }

  /** Nothing to answer, or answered alike. */
  ghost predicate Answered(w: World, cache: Cache, needs: seq<Need>, table: string, columns: seq<string>,
                           i: nat, u: Cell)
    requires table in cache
  {
    || (forall f: nat | f < |cache[table]| :: !HoldsAt(cache[table], columns, i, u, f))
    || exists k: nat, j: nat, f: nat :: AnswersAlike(w, cache, columns, i, u, table, needs, k, j, f)
  }

  lemma FetchedAnswersIff(w: World, cache: Cache, needs: seq<Need>, table: string, columns: seq<string>,
                          i: nat, u: Cell)
    requires table in cache && i < |columns|
    ensures Answered(w, cache, needs, table, columns, i, u) <==>
              Fetched(w, cache, needs, table, columns, i, u) == Find(ProjectAll(cache[table], columns), i, u)
  {
    var rows := cache[table];
    var f := FindIs(rows, columns, i, u);
    var k, j := FetchedIs(w, cache, needs, table, columns, i, u);
    if Fetched(w, cache, needs, table, columns, i, u).Some? {
      assert HoldsAt(rows, columns, i, u, j);
      assert Project(rows[j], columns) == Project(rows[f], columns) ==>
          AnswersAlike(w, cache, columns, i, u, table, needs, k, j, f);
      forall k': nat, j': nat, f': nat | AnswersAlike(w, cache, columns, i, u, table, needs, k', j', f')
        ensures j' == j && f' == f
      {
        OneFirst(w, cache, columns, i, u, table, needs, k, j, k', j');
      }
    } else {
      forall k': nat, j': nat, f': nat ensures !AnswersAlike(w, cache, columns, i, u, table, needs, k', j', f') {
        if FetchesFirst(w, cache, columns, i, u, table, needs, k', j') {
          FirstDoesNotPass(w, cache, columns, i, u, table, needs, k', j');
        }
      }
    }
  }

  /**
   A table looked up by any number of columns. Once bound it answers `u` in `col` as the whole table does, if and only
   if `u` is on the page, or no row of the whole table holds it, or, of the reads for this table in the order of the
   needs, the first to fetch any row with `u` fetches first one that shows what the whole table's first row with `u`
   shows: no earlier read put another row with `u` ahead of it.
   */
  lemma BoundAnswersIff(w: World, cache: Cache, tables: map<string, Table>, wants: seq<Want>, table: string,
                        columns: seq<string>, col: string, u: Cell)
    requires table in cache && table in tables && tables[table] == Canonical(cache[table], columns)
    requires col in columns
    ensures var bound := Bound(w, cache, tables, wants); var needs := Needs(tables, wants);
            && table in bound && Column(columns, col).Some?
            && var i := Column(columns, col).value;
               (Lookup(bound[table], col, u) == Lookup(Whole(cache[table], columns), col, u) <==>
                  OnPage(tables[table], col, u) || Answered(w, cache, needs, table, columns, i, u))
  {
    ColumnIs(columns, col);
    var i := Column(columns, col).value;
    PageFinds(cache[table], columns, i, u);
    BindFinds(w, cache, tables, Needs(tables, wants), table, i, u);
    FetchedAnswersIff(w, cache, Needs(tables, wants), table, columns, i, u);
  }

  /**
   So a value asked for in its own column is answered as by the whole table unless an earlier read, by another column,
   fetched a row with it.
   */
  lemma OwnReadAnswers(w: World, cache: Cache, tables: map<string, Table>, wants: seq<Want>, table: string,
                       columns: seq<string>, col: string, u: Cell, k: nat)
    requires table in cache && table in tables && tables[table] == Canonical(cache[table], columns)
    requires col in columns && Column(columns, col).Some? && u != Null
    requires var needs := Needs(tables, wants); var i := Column(columns, col).value;
             && k < |needs| && needs[k].table == table && needs[k].col == col && Asked(w, needs[k].values, u)
             && forall l: nat | l < k :: PassesBy(w, cache, columns, i, u, table, needs[l])
    ensures table in Bound(w, cache, tables, wants)
    ensures Lookup(Bound(w, cache, tables, wants)[table], col, u) == Lookup(Whole(cache[table], columns), col, u)
  {
    BoundAnswersIff(w, cache, tables, wants, table, columns, col, u);
    ColumnIs(columns, col);
    var i, n, rows := Column(columns, col).value, Needs(tables, wants)[k], cache[table];
    var f := FindIs(rows, columns, i, u);
    if Find(ProjectAll(rows, columns), i, u).Some? {
      SelectedByValue(w, rows[f], col, n.values, u);
      assert TakesFirst(w, rows, columns, i, u, n, f);
      assert AnswersAlike(w, cache, columns, i, u, table, Needs(tables, wants), k, f, f);
    }
  }

  // ---- Two key columns ------------------------------------------------------------------------------------

  const AB := ["A", "B"]

  function Both(a: int, b: int): RawRow {
    map["A" := Scalar(Num(a)), "B" := Scalar(Num(b))]
  }

  /** 200 rows, then two that share their B. */
  function TwoKeyed(): seq<RawRow> {
    seq(ENUM_MAX, i => Both(0, 0)) + [Both(1, 7), Both(2, 7)]
  }

  function Print(c: Cell): string {
    if c == Num(0) then "0"
    else if c == Num(1) then "1"
    else if c == Num(2) then "2"
    else if c == Num(7) then "7"
    else "else"
  }

  function Plain(): World {
    World(c => Print(c), c => Print(c))
  }

  lemma {:induction false} ZerosNotSelected(rows: seq<RawRow>, tail: seq<RawRow>, col: string, v: Cell)
    requires (forall i :: 0 <= i < |rows| ==> rows[i] == Both(0, 0)) && (col == "A" || col == "B")
    requires (v == Num(2) || v == Num(7))
    ensures Select(Plain(), rows + tail, col, [v]) == Select(Plain(), tail, col, [v])
  {
    if rows == [] {
      assert rows + tail == tail;
    } else {
      assert (rows + tail)[1..] == rows[1..] + tail;
      ZerosNotSelected(rows[1..], tail, col, v);
      assert Print(v) != "0" && PgText(Plain(), Both(0, 0), col) == Some("0");
      assert !Selects(Plain(), Both(0, 0), col, [v]);
    }
  }

  lemma TailSelected()
    ensures Select(Plain(), [Both(1, 7), Both(2, 7)], "A", [Num(2)]) == [Both(2, 7)]
    ensures Select(Plain(), [Both(1, 7), Both(2, 7)], "B", [Num(7)]) == [Both(1, 7), Both(2, 7)]
  {
    var w, x, y := Plain(), Both(1, 7), Both(2, 7);
    assert PgText(w, x, "A") == Some("1") && PgText(w, y, "A") == Some("2")
        && PgText(w, x, "B") == PgText(w, y, "B") == Some("7");
    assert Num(2) in [Num(2)] && Num(7) in [Num(7)];
    SelectTwo(w, x, y, "A", [Num(2)]);
    SelectTwo(w, x, y, "B", [Num(7)]);
  }

  lemma SelectTwo(w: World, x: RawRow, y: RawRow, col: string, values: seq<Cell>)
    ensures Select(w, [x, y], col, values)
              == (if Selects(w, x, col, values) then [x] else []) + (if Selects(w, y, col, values) then [y] else [])
  {
    assert [x, y][1..] == [y] && [y][1..] == [];
    assert Select(w, [y], col, values) == (if Selects(w, y, col, values) then [y] else []) + [];
  }

  lemma ZeroPage() returns (page: Table)
    ensures page == Canonical(TwoKeyed(), AB)
    ensures page.columns == AB && forall r :: r in page.rows ==> r == [Num(0), Num(0)]
  {
    page := Canonical(TwoKeyed(), AB);
    CanonicalIs(TwoKeyed(), AB);
    var zeros := TwoKeyed()[..ENUM_MAX];
    forall r | r in page.rows ensures r == [Num(0), Num(0)] {
      var i :| 0 <= i < |page.rows| && page.rows[i] == r;
      assert zeros[i] == Both(0, 0);
      assert r == Project(Both(0, 0), AB);
    }
  }

  lemma ProjectBoth(a: int, b: int)
    ensures Project(Both(a, b), AB) == [Num(a), Num(b)]
  {
  }

  lemma {:induction false} ZerosNotFound(rows: seq<Row>, i: nat, u: Cell)
    requires i < 2 && u != Num(0) && forall j :: 0 <= j < |rows| ==> rows[j] == [Num(0), Num(0)]
    ensures Find(rows, i, u) == None
  {
    if rows != [] { ZerosNotFound(rows[1..], i, u); }
  }

  lemma TwoSelected()
    ensures Select(Plain(), TwoKeyed(), "A", [Num(2)]) == [Both(2, 7)]
    ensures Select(Plain(), TwoKeyed(), "B", [Num(7)]) == [Both(1, 7), Both(2, 7)]
  {
    var zeros, tail := seq(ENUM_MAX, i => Both(0, 0)), [Both(1, 7), Both(2, 7)];
    ZerosNotSelected(zeros, tail, "A", Num(2));
    ZerosNotSelected(zeros, tail, "B", Num(7));
    TailSelected();
  }

  lemma FreshOfOne(t: Table, r: RawRow)
    ensures Fresh(t, [r]) == if Project(r, t.columns) in t.rows then [] else [Project(r, t.columns)]
  {
    assert [r][1..] == [];
  }

  lemma FreshOfTwo(t: Table, x: RawRow, y: RawRow)
    requires Project(x, t.columns) !in t.rows && Project(y, t.columns) in t.rows
    ensures Fresh(t, [x, y]) == [Project(x, t.columns)]
  {
    FreshOfOne(t, y);
    FreshOne(t, x, [y]);
    assert [x] + [y] == [x, y];
  }

  /** The second read finds a row that stands before the first's in the whole table, and appends it after. */
  lemma SecondAppended(page: Table, x: RawRow, y: RawRow)
    requires Project(x, page.columns) != Project(y, page.columns)
    requires Project(x, page.columns) !in page.rows && Project(y, page.columns) !in page.rows
    ensures Append(Append(page, [y]), [x, y]).rows == page.rows + [Project(y, page.columns), Project(x, page.columns)]
  {
    var px, py := Project(x, page.columns), Project(y, page.columns);
    var one := Append(page, [y]);
    FreshOfOne(page, y);
    AppendRows(page, [y]);
    assert one.rows == page.rows + [py] && one.rows[|page.rows|] == py;
    FreshOfTwo(one, x, y);
    AppendRows(one, [x, y]);
    assert (page.rows + [py]) + [px] == page.rows + [py, px];
  }

  lemma TwoReads(page: Table)
    requires page == Canonical(TwoKeyed(), AB)
    ensures Append(Append(page, Select(Plain(), TwoKeyed(), "A", [Num(2)])),
        Select(Plain(), TwoKeyed(), "B", [Num(7)])).rows
              == page.rows + [[Num(2), Num(7)], [Num(1), Num(7)]]
    ensures Find(page.rows, 1, Num(7)) == None && page.columns == AB
  {
    var p := ZeroPage();
    TwoSelected();
    ZerosNotFound(page.rows, 1, Num(7));
    ProjectBoth(1, 7);
    ProjectBoth(2, 7);
    SecondAppended(page, Both(1, 7), Both(2, 7));
  }

  /**
   Looked up by two columns, a table can answer with another row than the whole one does, though both reads are
   exact.
   */
  lemma TwoKeyColumnsMayDiffer()
    ensures var cache: Cache := map["T" := TwoKeyed()];
            var tables := map["T" := Canonical(TwoKeyed(), AB)];
            var wants := [Want("T", "A", [Num(2)]), Want("T", "B", [Num(7)])];
            var bound := Bound(Plain(), cache, tables, wants);
            "T" in bound && Lookup(bound["T"], "B", Num(7)) != Lookup(Whole(TwoKeyed(), AB), "B", Num(7))
  {
    var w := Plain();
    var cache: Cache := map["T" := TwoKeyed()];
    var page := Canonical(TwoKeyed(), AB);
    var tables := map["T" := page];
    TwoReads(page);
    var a, b := Want("T", "A", [Num(2)]), Want("T", "B", [Num(7)]);
    var na, nb := Need("T", "A", [Num(2)]), Need("T", "B", [Num(7)]);
    TwoNeeds(tables, page);
    BindTwo(w, cache, tables, na, nb);
    var bound := Bind(w, cache, tables, [na, nb]);
    FindJoined(page.rows, [[Num(2), Num(7)], [Num(1), Num(7)]], 1, Num(7));
    ColumnB();
    WholeAnswer(page);
  }

  lemma BindTwo(w: World, cache: Cache, tables: map<string, Table>, na: Need, nb: Need)
    requires na.table in tables && nb.table == na.table
    ensures na.table in Bind(w, cache, tables, [na, nb])
    ensures Bind(w, cache, tables, [na, nb])[na.table] ==
        Append(Append(tables[na.table], Fetch(w, cache, na)), Fetch(w, cache, nb))
  {
    assert [na, nb][..1] == [na] && [na][..0] == [];
    assert Bind(w, cache, tables, []) == tables;
    assert Bind(w, cache, tables, [na]) == tables[na.table := Append(tables[na.table], Fetch(w, cache, na))];
  }

  lemma ColumnB()
    ensures Column(AB, "A") == Some(0) && Column(AB, "B") == Some(1)
  {
    assert AB[1..] == ["B"];
  }

  lemma WholeAnswer(page: Table)
    requires page == Canonical(TwoKeyed(), AB)
    ensures Lookup(Whole(TwoKeyed(), AB), "B", Num(7)) == Some([Num(1), Num(7)])
  {
    var tail := [Both(1, 7), Both(2, 7)];
    TwoReads(page);
    CanonicalStarts(TwoKeyed(), AB);
    assert TwoKeyed()[ENUM_MAX..] == tail;
    FindJoined(page.rows, ProjectAll(tail, AB), 1, Num(7));
    ProjectBoth(1, 7);
    assert ProjectAll(tail, AB)[0] == [Num(1), Num(7)];
    ColumnB();
  }

  lemma TwoNeeds(tables: map<string, Table>, page: Table)
    requires page == Canonical(TwoKeyed(), AB) && tables == map["T" := page]
    ensures Needs(tables, [Want("T", "A", [Num(2)]), Want("T", "B", [Num(7)])]) ==
        [Need("T", "A", [Num(2)]), Need("T", "B", [Num(7)])]
  {
    var a, b := Want("T", "A", [Num(2)]), Want("T", "B", [Num(7)]);
    var p := ZeroPage();
    ZerosNotFound(page.rows, 0, Num(2));
    ZerosNotFound(page.rows, 1, Num(7));
    ColumnB();
    assert Missing(tables, "T", "A", [Num(2)]) == [Num(2)] by { assert [Num(2)][1..] == []; }
    assert Missing(tables, "T", "B", [Num(7)]) == [Num(7)] by { assert [Num(7)][1..] == []; }
    assert Union([], [Num(2)]) == [Num(2)] && Union([], [Num(7)]) == [Num(7)] by {
      assert [Num(2)][1..] == [] && [Num(7)][1..] == [];
    }
    assert [a, b][..1] == [a] && [a][..0] == [];
    assert Needs(tables, [a]) == [Need("T", "A", [Num(2)])];
    assert [Need("T", "A", [Num(2)])][1..] == [];
    assert AddNeed([], "T", "B", [Num(7)]) == [Need("T", "B", [Num(7)])];
  }
}
