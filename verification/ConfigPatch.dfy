/**
 One edit to a configuration's inputs (apps/server/src/config-patch.ts): validated against the model,
 then merged into the row key by key, its provenance with it.
 */
module ConfigPatch {
  import opened Options
  import opened Canon

  datatype Side = Internal | External

  datatype Type = TString | TNumber | TBoolean
  datatype Cell = Input | OptionsCell | Formula
  datatype Param = Param(key: string, typ: Type, readonly: bool, multicombo: bool, hasOptions: bool)
  datatype Column = Column(key: string, typ: Type, cell: Cell)
  datatype Table = Table(key: string, items: bool, columns: seq<Column>)
  datatype Model = Model(params: seq<Param>, tables: seq<Table>)

  /** A table's row: its cells by column key. */
  type Cells = map<string, Value>

  datatype Patch = Patch(
    put: map<string, Value>, unset: seq<string>, batches: Option<seq<nat>>, tables: map<string, seq<Cells>>)

  const PRICE_COL := "unitprice"
  const QTY_COL := "quantity"

  // ---- Why a value is refused ---------------------------------------------------------------------

  predicate Scalar(v: Value) {
    v.VNull? || v.VBool? || v.VNum? || v.VStr?
  }

  predicate Strings(v: Value) {
    v.VArr? && forall x :: x in v.items ==> x.VStr?
  }

  predicate OfType(v: Value, t: Type) {
    match t
    case TString => v.VStr?
    case TNumber => v.VNum?
    case TBoolean => v.VBool?
  }

  predicate NonNegative(v: Value) {
    v.VNum? && (v.text == "" || v.text[0] != '-')
  }

  datatype Reason =
    | ReadOnly
    | NotAField
    | NotATable
    | NotAColumn
    | Expects(typ: Type)
    | ExpectsList
    | ExpectsPrice
    | SetBySupplier
    | Computed

  function ParamProblem(p: Param, v: Option<Value>): Option<Reason> {
    if p.readonly then Some(ReadOnly)
    else if v.None? then None
    else if p.multicombo then (if Strings(v.value) || v.value.VNull? then None else Some(ExpectsList))
    else if !Scalar(v.value) then Some(Expects(p.typ))
    else if v.value.VNull? || p.hasOptions then None
    else if OfType(v.value, p.typ) then None
    else Some(Expects(p.typ))
  }

  function ColumnOf(columns: seq<Column>, key: string): Option<Column> {
    if columns == [] then None
    else if columns[0].key == key then Some(columns[0])
    else ColumnOf(columns[1..], key)
  }

  function CellProblem(def: Table, key: string, v: Value, side: Side): Option<Reason> {
    if key == PRICE_COL && def.items then
      if side.External? then Some(SetBySupplier)
      else if v.VNull? || NonNegative(v) then None
      else Some(ExpectsPrice)
    else
      match ColumnOf(def.columns, key)
      case None => Some(NotAColumn)
      case Some(c) =>
        if c.cell.Formula? && side.External? then Some(Computed)
        else if v.VNull? then None
        else if c.cell.OptionsCell? then (if Scalar(v) || Strings(v) then None else Some(Expects(c.typ)))
        else if OfType(v, c.typ) then None
        else Some(Expects(c.typ))
  }

  /** `new Map(parameters.map(p => [p.key, p]))`: a later parameter of the same key wins. */
  function ParamOf(params: seq<Param>, key: string): (r: Option<Param>)
    ensures r.Some? ==> r.value in params && r.value.key == key
    ensures r.None? ==> forall p :: p in params ==> p.key != key
  {
    if params == [] then None
    else if params[|params| - 1].key == key then Some(params[|params| - 1])
    else ParamOf(params[..|params| - 1], key)
  }

  function TableOf(tables: seq<Table>, key: string): (r: Option<Table>)
    ensures r.Some? ==> r.value in tables && r.value.key == key
    ensures r.None? ==> forall t :: t in tables ==> t.key != key
  {
    if tables == [] then None
    else if tables[|tables| - 1].key == key then Some(tables[|tables| - 1])
    else TableOf(tables[..|tables| - 1], key)
  }

  function FieldProblem(model: Model, key: string, v: Option<Value>): Option<Reason> {
    match ParamOf(model.params, key)
    case None => Some(NotAField)
    case Some(p) => ParamProblem(p, v)
  }

  datatype Problem =
    | OnField(key: string, reason: Reason)
    | OnTable(key: string)
    | OnCell(table: string, col: string, reason: Reason)

  /** A problem the patch has, said once and declaratively. */
  ghost predicate IsProblem(model: Model, patch: Patch, side: Side, x: Problem) {
    match x
    case OnField(k, reason) =>
      || (k in patch.put && FieldProblem(model, k, Some(patch.put[k])) == Some(reason))
      || (k in patch.unset && FieldProblem(model, k, None) == Some(reason))
    case OnTable(k) => k in patch.tables && TableOf(model.tables, k).None?
    case OnCell(k, col, reason) =>
      && k in patch.tables
      && TableOf(model.tables, k).Some?
      && exists r :: r in patch.tables[k] && BadCell(TableOf(model.tables, k).value, r, side, col, reason)
  }

  ghost predicate BadCell(def: Table, r: Cells, side: Side, col: string, reason: Reason) {
    col in r && CellProblem(def, col, r[col], side) == Some(reason)
  }

  ghost predicate Accepts(model: Model, patch: Patch, side: Side) {
    forall x :: !IsProblem(model, patch, side, x)
  }

  /** Every problem with one row of a table, each once. */
  method RowProblems(def: Table, r: Cells, side: Side, before: seq<Problem>) returns (out: seq<Problem>)
    ensures forall x ::
        x in out <==> x in before || (x.OnCell? && x.table == def.key && BadCell(def, r, side, x.col, x.reason))
  {
    out := before;
    var todo := r.Keys;
    while todo != {}
      invariant todo <= r.Keys
      invariant forall x :: x in out <==>
                  x in before
                      || (x.OnCell? && x.table == def.key && x.col !in todo && BadCell(def, r, side, x.col, x.reason))
    {
      var col :| col in todo;
      todo := todo - {col};
      var p := CellProblem(def, col, r[col], side);
      if p.Some? && OnCell(def.key, col, p.value) !in out {
        out := out + [OnCell(def.key, col, p.value)];
      }
    }
  }

  /** `patchProblems`: it lists exactly the problems there are, so an empty list is an acceptable patch. */
  method PatchProblems(model: Model, patch: Patch, side: Side) returns (out: seq<Problem>)
    ensures forall x :: x in out <==> IsProblem(model, patch, side, x)
    ensures out == [] <==> Accepts(model, patch, side)
  {
    out := [];
    var todo := patch.put.Keys;
    while todo != {}
      invariant todo <= patch.put.Keys
      invariant forall x :: x in out <==>
                  x.OnField? && x.key in patch.put && x.key !in todo
                      && FieldProblem(model, x.key, Some(patch.put[x.key])) == Some(x.reason)
    {
      var k :| k in todo;
      todo := todo - {k};
      var p := FieldProblem(model, k, Some(patch.put[k]));
      if p.Some? { out := out + [OnField(k, p.value)]; }
    }
    ghost var puts := out;
    for i := 0 to |patch.unset|
      invariant forall x :: x in out <==>
                  x in puts || (x.OnField? && x.key in patch.unset[..i]
                      && FieldProblem(model, x.key, None) == Some(x.reason))
    {
      var p := FieldProblem(model, patch.unset[i], None);
      assert patch.unset[..i + 1] == patch.unset[..i] + [patch.unset[i]];
      if p.Some? { out := out + [OnField(patch.unset[i], p.value)]; }
    }
    assert patch.unset[..|patch.unset|] == patch.unset;
    ghost var fields := out;
    var tables := patch.tables.Keys;
    while tables != {}
      invariant tables <= patch.tables.Keys
      invariant forall x ::
          x in out <==> x in fields || (!x.OnField? && TableKey(x) !in tables && IsProblem(model, patch, side, x))
    {
      var k :| k in tables;
      tables := tables - {k};
      var def := TableOf(model.tables, k);
      if def.None? {
        out := out + [OnTable(k)];
      } else {
        out := TableProblems(model, patch, side, k, out);
      }
    }
    assert forall x :: IsProblem(model, patch, side, x) ==> x in out;
    if out != [] { assert IsProblem(model, patch, side, out[0]); }
  }

  function TableKey(x: Problem): string {
    match x
    case OnField(k, _) => k
    case OnTable(k) => k
    case OnCell(k, _, _) => k
  }

  method TableProblems(model: Model, patch: Patch, side: Side, k: string, before: seq<Problem>)
    returns (out: seq<Problem>)
    requires k in patch.tables && TableOf(model.tables, k).Some?
    ensures forall x :: x in out <==> x in before || (x.OnCell? && x.table == k && IsProblem(model, patch, side, x))
  {
    var def, rows := TableOf(model.tables, k).value, patch.tables[k];
    out := before;
    for i := 0 to |rows|
      invariant forall x :: x in out <==>
                  || x in before
                  || (x.OnCell? && x.table == k
                      && exists r :: r in rows[..i] && BadCell(def, r, side, x.col, x.reason))
    {
      assert rows[..i + 1] == rows[..i] + [rows[i]];
      out := RowProblems(def, rows[i], side, out);
    }
    assert rows[..|rows|] == rows;
  }

  // ---- The default quantity -----------------------------------------------------------------------

  function Filled(r: Cells): Cells {
    if QTY_COL in r && !r[QTY_COL].VNull? then r else r[QTY_COL := VNum("1")]
  }

  function FilledRows(rows: seq<Cells>): (out: seq<Cells>)
    ensures |out| == |rows| && forall i :: 0 <= i < |rows| ==> out[i] == Filled(rows[i])
  {
    if rows == [] then [] else [Filled(rows[0])] + FilledRows(rows[1..])
  }

  /** The patch with every items row given a quantity. */
  function WithQuantities(model: Model, patch: Patch): Patch {
    patch.(tables := map k | k in patch.tables ::
      if exists t :: t in model.tables && t.items && t.key == k then FilledRows(patch.tables[k]) else patch.tables[k])
  }

  /** `defaultQuantities`: fills the patch's rows table by table, row by row. */
  method DefaultQuantities(model: Model, patch: Patch) returns (out: Patch)
    ensures out == WithQuantities(model, patch)
  {
    var tables := patch.tables;
    for i := 0 to |model.tables|
      invariant tables.Keys == patch.tables.Keys
      invariant forall k :: k in tables ==>
                  tables[k] ==
                    if exists t :: t in model.tables[..i] && t.items && t.key == k then FilledRows(patch.tables[k])
                    else patch.tables[k]
    {
      var t := model.tables[i];
      assert forall u :: u in model.tables[..i + 1] <==> u in model.tables[..i] || u == t;
      if t.items && t.key in tables {
        FilledTwice(patch.tables[t.key]);
        var rows := FillRows(tables[t.key]);
        tables := tables[t.key := rows];
      }
    }
    assert model.tables[..|model.tables|] == model.tables;
    out := patch.(tables := tables);
    assert out.tables == WithQuantities(model, patch).tables;
  }

  /** Its inner loop, over the rows of one table. */
  method FillRows(table: seq<Cells>) returns (rows: seq<Cells>)
    ensures rows == FilledRows(table)
  {
    rows := table;
    for j := 0 to |rows|
      invariant |rows| == |table|
      invariant forall m :: 0 <= m < |rows| ==> rows[m] == if m < j then Filled(table[m]) else table[m]
    {
      rows := rows[j := Filled(rows[j])];
    }
  }

  lemma FilledTwice(rows: seq<Cells>)
    ensures FilledRows(FilledRows(rows)) == FilledRows(rows)
  {
  }

  // ---- The merge ----------------------------------------------------------------------------------

  /** A written value, wherever it is stored. */
  datatype Datum = One(v: Value) | Rows(rows: seq<Cells>) | Quantities(qs: seq<nat>)
  datatype Sourced = Sourced(value: Datum, source: string)

  datatype InputRow = InputRow(
    entries: map<string, Value>, tables: map<string, seq<Cells>>, batches: seq<nat>,
    customer: Option<Value>, sources: map<string, Sourced>)

  /** One call: the patch, where its values came from, and the customer when it is written too. */
  datatype Edit = Edit(patch: Patch, sources: map<string, string>, customer: Option<Value>)

  /** The keys of `writtenOf`: what is written, by the key its source is filed under. */
  function WrittenKeys(e: Edit): set<string> {
    e.patch.put.Keys + e.patch.tables.Keys
      + (if e.patch.batches.Some? then {"batches"} else {})
      + (if e.customer.Some? then {"customer"} else {})
  }

  /** Its value under a key: a later spread wins. */
  function Written(e: Edit, k: string): Datum
    requires k in WrittenKeys(e)
  {
    if k == "customer" && e.customer.Some? then One(e.customer.value)
    else if k == "batches" && e.patch.batches.Some? then Quantities(e.patch.batches.value)
    else if k in e.patch.tables then Rows(e.patch.tables[k])
    else One(e.patch.put[k])
  }

  /** `(column || put) - drop…`, as SQL merges a jsonb object. */
  datatype Merge<V> = Merge(put: map<string, V>, drop: set<string>)

  function Merged<V>(column: map<string, V>, m: Merge<V>): map<string, V> {
    (column + m.put) - m.drop
  }

  datatype Update = Update(
    entries: Option<Merge<Value>>, tables: Option<Merge<seq<Cells>>>, batches: Option<seq<nat>>,
        sources: Option<Merge<Sourced>>)

  function KeySet(keys: seq<string>): set<string> {
    set k | k in keys
  }

  /** A cleared key loses its source, and so does a key written without one. */
  function DroppedSources(e: Edit): set<string> {
    KeySet(e.patch.unset) + (WrittenKeys(e) - e.sources.Keys)
  }

  function AddedSources(e: Edit): map<string, Sourced> {
    map k | k in WrittenKeys(e) && k in e.sources && k !in e.patch.unset :: Sourced(Written(e, k), e.sources[k])
  }

  /** `patchColumns`: a column is in the update only when the patch has something for it. */
  function PatchColumns(e: Edit): Update {
    var p := e.patch;
    var dropped := DroppedSources(e);
    var added := AddedSources(e);
    Update(
      if p.put != map[] || p.unset != [] then Some(Merge(p.put, KeySet(p.unset))) else None,
      if p.tables != map[] then Some(Merge(p.tables, {})) else None,
      p.batches,
      if dropped != {} || added != map[] then Some(Merge(added, dropped)) else None)
  }

  function Apply(row: InputRow, e: Edit): InputRow {
    var u := PatchColumns(e);
    InputRow(
      if u.entries.Some? then Merged(row.entries, u.entries.value) else row.entries,
      if u.tables.Some? then Merged(row.tables, u.tables.value) else row.tables,
      if u.batches.Some? then u.batches.value else row.batches,
      if e.customer.Some? then e.customer else row.customer,
      if u.sources.Some? then Merged(row.sources, u.sources.value) else row.sources)
  }

  /** What the handlers let through: a patch the model accepts, sources only for what is written. */
  ghost predicate Admitted(model: Model, e: Edit, side: Side) {
    && Accepts(model, e.patch, side)
    && e.sources.Keys <= WrittenKeys(e)
    && (side.External? ==> e.sources == map[] && e.customer.None?)
  }

  /** A call as it reaches the row: refused edits change nothing, items rows get their quantity first. */
  ghost function Call(model: Model, row: InputRow, e: Edit, side: Side): InputRow {
    if Admitted(model, e, side) then Apply(row, e.(patch := WithQuantities(model, e.patch))) else row
  }

  ghost function Calls(model: Model, batches: seq<nat>, edits: seq<(Edit, Side)>): InputRow {
    if edits == [] then InputRow(map[], map[], batches, None, map[])
    else
      var (e, side) := edits[|edits| - 1];
      Call(model, Calls(model, batches, edits[..|edits| - 1]), e, side)
  }

  // ---- Provenance ---------------------------------------------------------------------------------

  /** Everything stored under a key. */
  ghost function Stored(row: InputRow, k: string): set<Datum> {
    (if k in row.entries then {One(row.entries[k])} else {})
      + (if k in row.tables then {Rows(row.tables[k])} else {})
      + (if k == "batches" then {Quantities(row.batches)} else {})
      + (if k == "customer" && row.customer.Some? then {One(row.customer.value)} else {})
  }

  ghost predicate SourcesTrue(row: InputRow) {
    forall k :: k in row.sources ==> Stored(row, k) == {row.sources[k].value}
  }

  /** The model's keys: those a patch can write. */
  ghost predicate Writable(model: Model, k: string) {
    || (ParamOf(model.params, k).Some? && !ParamOf(model.params, k).value.readonly)
    || TableOf(model.tables, k).Some?
  }

  /** No writable key of the model is one of the two the server files its own sources under. */
  ghost predicate KeysApart(model: Model) {
    !Writable(model, "batches") && !Writable(model, "customer")
  }

  /** Parameters and tables share one namespace (checkModel). */
  ghost predicate OneNamespace(model: Model) {
    forall p, t :: p in model.params && t in model.tables ==> p.key != t.key
  }

  // ---- What one call does, column by column -------------------------------------------------------

  lemma MergedNothing<V>(column: map<string, V>)
    ensures Merged(column, Merge(map[], {})) == column
  {
  }

  /** Leaving a column out of the update is merging nothing into it. */
  lemma ColumnsAfter(row: InputRow, e: Edit)
    ensures Apply(row, e).entries == Merged(row.entries, Merge(e.patch.put, KeySet(e.patch.unset)))
    ensures Apply(row, e).tables == Merged(row.tables, Merge(e.patch.tables, {}))
    ensures Apply(row, e).sources == Merged(row.sources, Merge(AddedSources(e), DroppedSources(e)))
    ensures Apply(row, e).batches == (if e.patch.batches.Some? then e.patch.batches.value else row.batches)
    ensures Apply(row, e).customer == (if e.customer.Some? then e.customer else row.customer)
  {
    MergedNothing(row.entries);
    MergedNothing(row.tables);
    MergedNothing(row.sources);
    assert e.patch.unset == [] ==> KeySet(e.patch.unset) == {};
  }

  /** The patch names only keys of the model. */
  ghost predicate KeysAdmitted(model: Model, patch: Patch) {
    && (forall k :: k in patch.put || k in patch.unset ==>
          ParamOf(model.params, k).Some? && !ParamOf(model.params, k).value.readonly)
    && (forall k :: k in patch.tables ==> TableOf(model.tables, k).Some?)
  }

  lemma AcceptedKeys(model: Model, e: Edit, side: Side)
    requires Admitted(model, e, side)
    ensures KeysAdmitted(model, e.patch) && KeysAdmitted(model, WithQuantities(model, e.patch))
    ensures forall k :: k in e.patch.put ==> FieldProblem(model, k, Some(e.patch.put[k])).None?
  {
    forall k | k in e.patch.put || k in e.patch.unset
      ensures ParamOf(model.params, k).Some? && !ParamOf(model.params, k).value.readonly
      ensures k in e.patch.put ==> FieldProblem(model, k, Some(e.patch.put[k])).None?
    {
      if k in e.patch.put {
        var p := FieldProblem(model, k, Some(e.patch.put[k]));
        if p.Some? { assert IsProblem(model, e.patch, side, OnField(k, p.value)); }
      }
      if k in e.patch.unset {
        var p := FieldProblem(model, k, None);
        if p.Some? { assert IsProblem(model, e.patch, side, OnField(k, p.value)); }
      }
    }
    forall k | k in e.patch.tables
      ensures TableOf(model.tables, k).Some?
    {
      if TableOf(model.tables, k).None? { assert IsProblem(model, e.patch, side, OnTable(k)); }
    }
  }

  // ---- Every stored source tells the stored value ----------------------------------------------------

  /** Entries and tables hold keys of the model only, and no key is both. */
  ghost predicate ModelKeys(model: Model, row: InputRow) {
    && (forall k :: k in row.entries ==> ParamOf(model.params, k).Some? && !ParamOf(model.params, k).value.readonly)
    && (forall k :: k in row.tables ==> TableOf(model.tables, k).Some?)
  }

  lemma KeysKept(model: Model, row: InputRow, e: Edit)
    requires KeysAdmitted(model, e.patch) && ModelKeys(model, row)
    ensures ModelKeys(model, Apply(row, e))
  {
    ColumnsAfter(row, e);
  }

  lemma NotBoth(model: Model, row: InputRow, k: string)
    requires OneNamespace(model) && ModelKeys(model, row)
    ensures k in row.entries ==> k !in row.tables
    ensures KeysApart(model) && (k in row.entries || k in row.tables) ==> k != "batches" && k != "customer"
  {
  }

  lemma SourceAfter(row: InputRow, e: Edit, k: string)
    requires k in Apply(row, e).sources
    ensures k !in KeySet(e.patch.unset)
    ensures k in WrittenKeys(e) ==> Apply(row, e).sources[k].value == Written(e, k)
    ensures k !in WrittenKeys(e) ==> k in row.sources && Apply(row, e).sources[k] == row.sources[k]
  {
    ColumnsAfter(row, e);
    assert k !in DroppedSources(e);
    assert k in WrittenKeys(e) ==> k in AddedSources(e);
    assert k !in WrittenKeys(e) ==> k !in AddedSources(e);
  }

  lemma StoredUntouched(row: InputRow, e: Edit, k: string)
    requires k !in WrittenKeys(e) && k !in KeySet(e.patch.unset)
    ensures Stored(Apply(row, e), k) == Stored(row, k)
  {
    ColumnsAfter(row, e);
  }

  lemma StoredWritten(row: InputRow, e: Edit, k: string)
    requires k in WrittenKeys(e) && k !in KeySet(e.patch.unset)
    requires k in Apply(row, e).entries ==> k !in Apply(row, e).tables
    requires k in Apply(row, e).entries || k in Apply(row, e).tables ==> k != "batches" && k != "customer"
    ensures Stored(Apply(row, e), k) == {Written(e, k)}
  {
    ColumnsAfter(row, e);
    if k in e.patch.tables {
      assert k in Apply(row, e).tables;
    } else if k in e.patch.put {
      assert k in Apply(row, e).entries;
    }
  }

  lemma SourcesStayTrue(model: Model, row: InputRow, e: Edit)
    requires KeysAdmitted(model, e.patch) && SourcesTrue(row) && KeysApart(model) && OneNamespace(model)
    requires ModelKeys(model, row)
    ensures SourcesTrue(Apply(row, e))
  {
    KeysKept(model, row, e);
    forall k | k in Apply(row, e).sources
      ensures Stored(Apply(row, e), k) == {Apply(row, e).sources[k].value}
    {
      SourceAfter(row, e, k);
      NotBoth(model, Apply(row, e), k);
      if k in WrittenKeys(e) { StoredWritten(row, e, k); } else { StoredUntouched(row, e, k); }
    }
  }

  // ---- Types and quantities -----------------------------------------------------------------------

  /** What the model checks of a stored row, and that every items row has a quantity. */
  ghost predicate WellTyped(model: Model, row: InputRow) {
    && (forall k :: k in row.entries ==> FieldProblem(model, k, Some(row.entries[k])).None?)
    && (forall k, r ::
        k in row.tables && r in row.tables[k] ==>
            TableOf(model.tables, k).Some? && RowTyped(TableOf(model.tables, k).value, r))
  }

  ghost predicate RowTyped(def: Table, r: Cells) {
    && (forall c ::
        c in r ==> CellProblem(def, c, r[c], Internal).None? || (def.items && c == QTY_COL && r[c] == VNum("1")))
    && (def.items ==> QTY_COL in r && !r[QTY_COL].VNull?)
  }

  lemma CellForStaffToo(def: Table, c: string, v: Value, side: Side)
    requires CellProblem(def, c, v, side).None?
    ensures CellProblem(def, c, v, Internal).None?
  {
  }

  lemma AcceptedRow(model: Model, patch: Patch, side: Side, k: string, r: Cells, c: string)
    requires Accepts(model, patch, side) && k in patch.tables && TableOf(model.tables, k).Some? && r in patch.tables[k]
    requires c in r
    ensures CellProblem(TableOf(model.tables, k).value, c, r[c], Internal).None?
  {
    var def := TableOf(model.tables, k).value;
    var p := CellProblem(def, c, r[c], side);
    if p.Some? {
      assert BadCell(def, r, side, c, p.value);
      assert IsProblem(model, patch, side, OnCell(k, c, p.value));
    }
    CellForStaffToo(def, c, r[c], side);
  }

  /** A model names each table once (checkModel). */
  ghost predicate TablesOnce(model: Model) {
    forall t, u :: t in model.tables && u in model.tables && t.key == u.key ==> t == u
  }

  lemma FilledIsTyped(model: Model, patch: Patch, side: Side, k: string, r: Cells)
    requires Accepts(model, patch, side) && TablesOnce(model)
    requires k in patch.tables && TableOf(model.tables, k).Some? && r in WithQuantities(model, patch).tables[k]
    ensures RowTyped(TableOf(model.tables, k).value, r)
  {
    var def := TableOf(model.tables, k).value;
    var rows := patch.tables[k];
    if def.items {
      var i :| 0 <= i < |rows| && FilledRows(rows)[i] == r;
      assert r == Filled(rows[i]);
      forall c | c in r
        ensures CellProblem(def, c, r[c], Internal).None? || (c == QTY_COL && r[c] == VNum("1"))
      {
        if c in rows[i] && r[c] == rows[i][c] { AcceptedRow(model, patch, side, k, rows[i], c); }
      }
    } else {
      assert r in rows;
      forall c | c in r
        ensures CellProblem(def, c, r[c], Internal).None?
      {
        AcceptedRow(model, patch, side, k, r, c);
      }
    }
  }

  lemma EntriesTyped(model: Model, row: InputRow, e: Edit, side: Side)
    requires Admitted(model, e, side) && WellTyped(model, row)
    ensures forall k :: k in Apply(row, e).entries ==> FieldProblem(model, k, Some(Apply(row, e).entries[k])).None?
  {
    ColumnsAfter(row, e);
    AcceptedKeys(model, e, side);
    forall k | k in Apply(row, e).entries
      ensures FieldProblem(model, k, Some(Apply(row, e).entries[k])).None?
    {
      assert Apply(row, e).entries[k] == if k in e.patch.put then e.patch.put[k] else row.entries[k];
    }
  }

  lemma TablesTyped(model: Model, row: InputRow, e: Edit, side: Side, k: string, r: Cells)
    requires Admitted(model, e, side) && WellTyped(model, row) && TablesOnce(model)
    requires k in row.tables + WithQuantities(model, e.patch).tables
    requires r in (row.tables + WithQuantities(model, e.patch).tables)[k]
    ensures TableOf(model.tables, k).Some? && RowTyped(TableOf(model.tables, k).value, r)
  {
    AcceptedKeys(model, e, side);
    if k in e.patch.tables {
      FilledIsTyped(model, e.patch, side, k, r);
    }
  }

  lemma TypesKept(model: Model, row: InputRow, e: Edit, side: Side)
    requires Admitted(model, e, side) && WellTyped(model, row) && TablesOnce(model)
    ensures WellTyped(model, Apply(row, e.(patch := WithQuantities(model, e.patch))))
  {
    var f := e.(patch := WithQuantities(model, e.patch));
    EntriesTyped(model, row, e, side);
    ColumnsAfter(row, e);
    ColumnsAfter(row, f);
    assert Apply(row, f).entries == Apply(row, e).entries;
    MergedPut(row.tables, f.patch.tables);
    forall k, r | k in Apply(row, f).tables && r in Apply(row, f).tables[k]
      ensures TableOf(model.tables, k).Some? && RowTyped(TableOf(model.tables, k).value, r)
    {
      TablesTyped(model, row, e, side, k, r);
    }
  }

  lemma MergedPut<V>(column: map<string, V>, put: map<string, V>)
    ensures Merged(column, Merge(put, {})) == column + put
  {
  }

  // ---- The theorems -------------------------------------------------------------------------------

  /**
   Over any run of calls entries and tables stay well typed for the model, every items row has a quantity,
   and, with the server's two keys kept out of the model, every stored source tells the stored value.
   */
  lemma {:induction false} CallsKeep(model: Model, batches: seq<nat>, edits: seq<(Edit, Side)>)
    requires OneNamespace(model) && TablesOnce(model)
    ensures ModelKeys(model, Calls(model, batches, edits)) && WellTyped(model, Calls(model, batches, edits))
    ensures KeysApart(model) ==> SourcesTrue(Calls(model, batches, edits))
  {
    if edits != [] {
      var (e, side) := edits[|edits| - 1];
      var before := edits[..|edits| - 1];
      CallsKeep(model, batches, before);
      var row := Calls(model, batches, before);
      if Admitted(model, e, side) {
        var f := e.(patch := WithQuantities(model, e.patch));
        AcceptedKeys(model, e, side);
        KeysKept(model, row, f);
        TypesKept(model, row, e, side);
        if KeysApart(model) { SourcesStayTrue(model, row, f); }
      }
    }
  }

  const NoPatch := Patch(map[], [], None, map[])

  /** A call that writes one parameter null, with a source for it. */
  function NullParam(k: string): Edit {
    Edit(NoPatch.(put := map[k := VNull]), map[k := "said"], None)
  }

  function EmptyTable(k: string): Edit {
    Edit(NoPatch.(tables := map[k := []]), map[k := "said"], None)
  }

  lemma NullParamAdmitted(model: Model, k: string)
    requires ParamOf(model.params, k).Some? && !ParamOf(model.params, k).value.readonly
    ensures Admitted(model, NullParam(k), Internal)
    ensures WithQuantities(model, NullParam(k).patch) == NullParam(k).patch
  {
    var e := NullParam(k);
    forall x
      ensures !IsProblem(model, e.patch, Internal, x)
    {
      assert e.patch.put.Keys == {k} && e.patch.tables == map[];
    }
    assert WithQuantities(model, e.patch).tables == e.patch.tables;
  }

  lemma EmptyTableAdmitted(model: Model, k: string)
    requires TableOf(model.tables, k).Some?
    ensures Admitted(model, EmptyTable(k), Internal)
    ensures WithQuantities(model, EmptyTable(k).patch) == EmptyTable(k).patch
  {
    var e := EmptyTable(k);
    forall x
      ensures !IsProblem(model, e.patch, Internal, x)
    {
      assert e.patch.tables.Keys == {k} && e.patch.put == map[] && e.patch.tables[k] == [];
    }
    assert WithQuantities(model, e.patch).tables == e.patch.tables;
  }

  const TheBatches := Edit(NoPatch.(batches := Some([7])), map["batches" := "said"], None)
  const TheCustomer := Edit(NoPatch, map["customer" := "said"], Some(VStr("C1")))

  lemma ServerKeyAdmitted(model: Model, e: Edit)
    requires e == TheBatches || e == TheCustomer
    ensures Admitted(model, e, Internal) && WithQuantities(model, e.patch) == e.patch
  {
    forall x
      ensures !IsProblem(model, e.patch, Internal, x)
    {
    }
    assert WithQuantities(model, e.patch).tables == e.patch.tables;
  }

  lemma TwoCalls(model: Model, first: Edit, second: Edit)
    requires Admitted(model, first, Internal) && WithQuantities(model, first.patch) == first.patch
    requires Admitted(model, second, Internal) && WithQuantities(model, second.patch) == second.patch
    ensures Calls(model, [], [(first, Internal), (second, Internal)]) ==
        Apply(Apply(Calls(model, [], []), first), second)
  {
    var edits := [(first, Internal), (second, Internal)];
    assert edits[..1] == [(first, Internal)] && edits[..1][..0] == [];
    assert Calls(model, [], edits[..1]) == Apply(Calls(model, [], []), first);
  }

  /** The server's own key is sourced while the model's value stands beside it. */
  lemma TwoStoredUnderOne(row: InputRow, e: Edit, k: string)
    requires (k == "batches" && e == TheBatches) || (k == "customer" && e == TheCustomer)
    requires (k in row.entries && row.entries[k] == VNull) || k in row.tables
    ensures !SourcesTrue(Apply(row, e))
  {
    ColumnsAfter(row, e);
    var after := Apply(row, e);
    assert k in AddedSources(e) && k !in DroppedSources(e);
    assert k in after.sources;
    assert Written(e, k) in Stored(after, k);
    if k in row.tables {
      assert k in after.tables;
      assert Rows(after.tables[k]) in Stored(after, k);
    } else {
      assert k in after.entries;
      assert One(VNull) in Stored(after, k);
    }
  }

  /** A second call that sources the same key as the model's leaves two values stored under one source. */
  lemma ClashBreaks(model: Model, first: Edit, second: Edit, k: string)
    requires first == NullParam(k) || first == EmptyTable(k)
    requires Admitted(model, first, Internal) && WithQuantities(model, first.patch) == first.patch
    requires (k == "batches" && second == TheBatches) || (k == "customer" && second == TheCustomer)
    ensures !SourcesTrue(Calls(model, [], [(first, Internal), (second, Internal)]))
  {
    ServerKeyAdmitted(model, second);
    TwoCalls(model, first, second);
    var one := Apply(Calls(model, [], []), first);
    ColumnsAfter(Calls(model, [], []), first);
    if first == NullParam(k) {
      assert k in one.entries && one.entries[k] == VNull;
    } else {
      assert k in one.tables;
    }
    TwoStoredUnderOne(one, second, k);
  }

  /**
   Exactly when provenance can be trusted: every run keeps every source true if and only if the model has
   no writable parameter and no table named `batches` or `customer`. checkModel does not refuse one.
   */
  lemma SourcesTrueIffKeysApart(model: Model)
    requires OneNamespace(model) && TablesOnce(model)
    ensures (forall batches, edits :: SourcesTrue(Calls(model, batches, edits))) <==> KeysApart(model)
  {
    if KeysApart(model) {
      forall batches, edits
        ensures SourcesTrue(Calls(model, batches, edits))
      {
        CallsKeep(model, batches, edits);
      }
    } else {
      var k := if Writable(model, "batches") then "batches" else "customer";
      var second := if k == "batches" then TheBatches else TheCustomer;
      if TableOf(model.tables, k).Some? {
        EmptyTableAdmitted(model, k);
        ClashBreaks(model, EmptyTable(k), second, k);
      } else {
        NullParamAdmitted(model, k);
        ClashBreaks(model, NullParam(k), second, k);
      }
    }
  }

  /** Every key a call writes or clears. */
  function Touched(e: Edit): set<string> {
    WrittenKeys(e) + KeySet(e.patch.unset)
  }

  lemma MergesCommute<V>(c: map<string, V>, m: Merge<V>, n: Merge<V>)
    requires (m.put.Keys + m.drop) !! (n.put.Keys + n.drop)
    ensures Merged(Merged(c, m), n) == Merged(Merged(c, n), m)
  {
  }

  lemma SourcesCommute(row: InputRow, e: Edit, f: Edit)
    requires Touched(e) !! Touched(f)
    ensures Apply(Apply(row, e), f).sources == Apply(Apply(row, f), e).sources
  {
    var m, n := Merge(AddedSources(e), DroppedSources(e)), Merge(AddedSources(f), DroppedSources(f));
    assert m.put.Keys + m.drop <= Touched(e) && n.put.Keys + n.drop <= Touched(f);
    MergesCommute(row.sources, m, n);
    ColumnsAfter(row, e);
    ColumnsAfter(row, f);
    ColumnsAfter(Apply(row, e), f);
    ColumnsAfter(Apply(row, f), e);
  }

  lemma EntriesCommute(row: InputRow, e: Edit, f: Edit)
    requires Touched(e) !! Touched(f)
    ensures Apply(Apply(row, e), f).entries == Apply(Apply(row, f), e).entries
    ensures Apply(Apply(row, e), f).tables == Apply(Apply(row, f), e).tables
  {
    MergesCommute(row.entries, Merge(e.patch.put, KeySet(e.patch.unset)), Merge(f.patch.put, KeySet(f.patch.unset)));
    MergesCommute(row.tables, Merge(e.patch.tables, {}), Merge(f.patch.tables, {}));
    ColumnsAfter(row, e);
    ColumnsAfter(row, f);
    ColumnsAfter(Apply(row, e), f);
    ColumnsAfter(Apply(row, f), e);
  }

  /** Two calls with disjoint keys can land in either order. */
  lemma DisjointCallsCommute(row: InputRow, e: Edit, f: Edit)
    requires Touched(e) !! Touched(f)
    ensures Apply(Apply(row, e), f) == Apply(Apply(row, f), e)
  {
    SourcesCommute(row, e, f);
    EntriesCommute(row, e, f);
    if e.patch.batches.Some? { assert "batches" in Touched(e); }
    if f.patch.batches.Some? { assert "batches" in Touched(f); }
    if e.customer.Some? { assert "customer" in Touched(e); }
    if f.customer.Some? { assert "customer" in Touched(f); }
    BatchesAndCustomer(row, e, f);
  }

  lemma BatchesAndCustomer(row: InputRow, e: Edit, f: Edit)
    requires !(e.patch.batches.Some? && f.patch.batches.Some?) && !(e.customer.Some? && f.customer.Some?)
    ensures Apply(Apply(row, e), f).batches == Apply(Apply(row, f), e).batches
    ensures Apply(Apply(row, e), f).customer == Apply(Apply(row, f), e).customer
  {
    ColumnsAfter(row, e);
    ColumnsAfter(row, f);
    ColumnsAfter(Apply(row, e), f);
    ColumnsAfter(Apply(row, f), e);
  }
}
