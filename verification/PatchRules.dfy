/**
 The rules an edit is held to (apps/server/src/config-patch.ts), said of the model, the values and the row alone:
 what each field and cell takes and which refusal the others get, and what the row holds key by key afterwards.
 */
module PatchRules {
  import opened Options
  import opened Canon
  import opened ConfigPatch

  // ---- Fields -----------------------------------------------------------------------------------------------

  /** The parameter of this key; a later one of the same key wins. */
  ghost predicate IsField(model: Model, key: string, p: Param) {
    exists i :: 0 <= i < |model.params| && model.params[i] == p && p.key == key
                  && forall j :: i < j < |model.params| ==> model.params[j].key != key
  }

  ghost predicate NoField(model: Model, key: string) {
    forall p :: p in model.params ==> p.key != key
  }

  /** A text, a number or a yes or no, as the type says. */
  predicate IsA(v: Value, t: Type) {
    match v
    case VStr(_) => t.TString?
    case VNum(_) => t.TNumber?
    case VBool(_) => t.TBoolean?
    case _ => false
  }

  predicate ListOfTexts(v: Value) {
    v.VArr? && forall i :: 0 <= i < |v.items| ==> v.items[i].VStr?
  }

  /** What a field holds: nothing, texts if it takes several, any single value if it has options, else its type. */
  predicate FieldTakes(p: Param, v: Value) {
    || v == VNull
    || (if p.multicombo then ListOfTexts(v) else IsA(v, p.typ) || (p.hasOptions && exists t :: IsA(v, t)))
  }

  /** The refusal of a field's value; `v` is None for a field that is cleared. */
  ghost predicate FieldRefusal(model: Model, key: string, v: Option<Value>, reason: Reason) {
    match reason
    case NotAField => NoField(model, key)
    case ReadOnly => exists p :: IsField(model, key, p) && p.readonly
    case ExpectsList => v.Some? && exists p :: Refusing(model, key, p, v.value) && p.multicombo
    case Expects(t) => v.Some? && exists p :: Refusing(model, key, p, v.value) && !p.multicombo && p.typ == t
    case _ => false
  }

  ghost predicate Refusing(model: Model, key: string, p: Param, v: Value) {
    IsField(model, key, p) && !p.readonly && !FieldTakes(p, v)
  }

  // ---- Cells ------------------------------------------------------------------------------------------------

  ghost predicate IsTable(model: Model, key: string, t: Table) {
    exists i :: 0 <= i < |model.tables| && model.tables[i] == t && t.key == key
                  && forall j :: i < j < |model.tables| ==> model.tables[j].key != key
  }

  /** The column of this key, the first if there are several. */
  ghost predicate IsColumn(def: Table, key: string, c: Column) {
    exists i :: 0 <= i < |def.columns| && def.columns[i] == c && c.key == key
                  && forall j :: 0 <= j < i ==> def.columns[j].key != key
  }

  predicate IsPrice(def: Table, key: string) {
    def.items && key == PRICE_COL
  }

  predicate PriceTakes(v: Value) {
    v == VNull || (v.VNum? && !("-" <= v.text))
  }

  predicate CellTakes(c: Column, v: Value) {
    || v == VNull
    || (if c.cell.OptionsCell? then ListOfTexts(v) || exists t :: IsA(v, t) else IsA(v, c.typ))
  }

  ghost predicate CellRefusal(def: Table, key: string, v: Value, side: Side, reason: Reason) {
    match reason
    case SetBySupplier => IsPrice(def, key) && side == External
    case ExpectsPrice => IsPrice(def, key) && side == Internal && !PriceTakes(v)
    case NotAColumn => !IsPrice(def, key) && forall c :: c in def.columns ==> c.key != key
    case Computed => !IsPrice(def, key) && side == External && exists c :: IsColumn(def, key, c) && c.cell.Formula?
    case Expects(t) => !IsPrice(def, key) && exists c :: Misfit(def, key, c, v, side) && c.typ == t
    case _ => false
  }

  ghost predicate Misfit(def: Table, key: string, c: Column, v: Value, side: Side) {
    IsColumn(def, key, c) && !(c.cell.Formula? && side == External) && !CellTakes(c, v)
  }

  /** A client sets no price and no computed cell. */
  ghost predicate CellAccepted(def: Table, key: string, v: Value, side: Side) {
    if IsPrice(def, key) then side == Internal && PriceTakes(v)
    else exists c :: IsColumn(def, key, c) && !(c.cell.Formula? && side == External) && CellTakes(c, v)
  }

  // ---- Finding ----------------------------------------------------------------------------------------------

  lemma {:induction false} ParamIsField(params: seq<Param>, key: string)
    ensures ParamOf(params, key).Some? ==>
              exists i :: 0 <= i < |params| && params[i] == ParamOf(params, key).value
                            && forall j :: i < j < |params| ==> params[j].key != key
  {
    if params != [] {
      var before := params[..|params| - 1];
      if params[|params| - 1].key != key && ParamOf(params, key).Some? {
        ParamIsField(before, key);
        var i :| 0 <= i < |before| && before[i] == ParamOf(before, key).value
                   && forall j :: i < j < |before| ==> before[j].key != key;
        assert forall j :: i < j < |params| ==> params[j].key != key by {
          assert forall j :: 0 <= j < |before| ==> before[j] == params[j];
        }
      } else if ParamOf(params, key).Some? {
        assert params[|params| - 1] == ParamOf(params, key).value;
      }
    }
  }

  lemma FieldIsParam(model: Model, key: string)
    ensures ParamOf(model.params, key).None? <==> NoField(model, key)
    ensures forall p :: IsField(model, key, p) <==> ParamOf(model.params, key) == Some(p)
  {
    ParamIsField(model.params, key);
  }

  lemma {:induction false} TableIsTable(tables: seq<Table>, key: string)
    ensures TableOf(tables, key).Some? ==>
              exists i :: 0 <= i < |tables| && tables[i] == TableOf(tables, key).value
                            && forall j :: i < j < |tables| ==> tables[j].key != key
  {
    if tables != [] {
      var before := tables[..|tables| - 1];
      if tables[|tables| - 1].key != key && TableOf(tables, key).Some? {
        TableIsTable(before, key);
        var i :| 0 <= i < |before| && before[i] == TableOf(before, key).value
                   && forall j :: i < j < |before| ==> before[j].key != key;
        assert forall j :: i < j < |tables| ==> tables[j].key != key by {
          assert forall j :: 0 <= j < |before| ==> before[j] == tables[j];
        }
      } else if TableOf(tables, key).Some? {
        assert tables[|tables| - 1] == TableOf(tables, key).value;
      }
    }
  }

  lemma TableIsFound(model: Model, key: string)
    ensures forall t :: IsTable(model, key, t) <==> TableOf(model.tables, key) == Some(t)
  {
    TableIsTable(model.tables, key);
  }

  lemma {:induction false} ColumnIsColumn(columns: seq<Column>, key: string)
    ensures ColumnOf(columns, key).None? <==> forall c :: c in columns ==> c.key != key
    ensures ColumnOf(columns, key).Some? ==>
              exists i :: 0 <= i < |columns| && columns[i] == ColumnOf(columns, key).value && columns[i].key == key
                            && forall j :: 0 <= j < i ==> columns[j].key != key
  {
    if columns != [] && columns[0].key != key {
      var rest := columns[1..];
      ColumnIsColumn(rest, key);
      assert forall c :: c in columns <==> c == columns[0] || c in rest;
      if ColumnOf(rest, key).Some? {
        var i :| 0 <= i < |rest| && rest[i] == ColumnOf(rest, key).value && rest[i].key == key
                   && forall j :: 0 <= j < i ==> rest[j].key != key;
        assert columns[i + 1] == rest[i];
        assert forall j :: 0 <= j < i + 1 ==> columns[j].key != key by {
          assert forall j :: 0 <= j < i ==> rest[j] == columns[j + 1];
        }
      }
    }
  }

  lemma ColumnIsFound(def: Table, key: string)
    ensures ColumnOf(def.columns, key).None? <==> forall c :: c in def.columns ==> c.key != key
    ensures forall c :: IsColumn(def, key, c) <==> ColumnOf(def.columns, key) == Some(c)
  {
    ColumnIsColumn(def.columns, key);
  }

  // ---- Refusals ---------------------------------------------------------------------------------------------

  lemma SingleValues(v: Value)
    ensures (exists t :: IsA(v, t)) <==> v.VStr? || v.VNum? || v.VBool?
    ensures Strings(v) <==> ListOfTexts(v)
    ensures forall t :: OfType(v, t) <==> IsA(v, t)
  {
    if v.VStr? { assert IsA(v, TString); }
    if v.VNum? { assert IsA(v, TNumber); }
    if v.VBool? { assert IsA(v, TBoolean); }
  }

  /** A field's value is refused for exactly one reason, and for this one. */
  lemma FieldRefusedFor(model: Model, key: string, v: Option<Value>, reason: Reason)
    ensures FieldProblem(model, key, v) == Some(reason) <==> FieldRefusal(model, key, v, reason)
  {
    FieldIsParam(model, key);
    if v.Some? { SingleValues(v.value); }
    if ParamOf(model.params, key).Some? {
      assert IsField(model, key, ParamOf(model.params, key).value);
    }
  }

  lemma CellRefusedFor(def: Table, key: string, v: Value, side: Side, reason: Reason)
    ensures CellProblem(def, key, v, side) == Some(reason) <==> CellRefusal(def, key, v, side, reason)
  {
    ColumnIsFound(def, key);
    SingleValues(v);
    if ColumnOf(def.columns, key).Some? {
      assert IsColumn(def, key, ColumnOf(def.columns, key).value);
    }
  }

  lemma FieldAcceptedIff(model: Model, key: string, v: Option<Value>)
    ensures FieldProblem(model, key, v).None? <==>
              exists p :: IsField(model, key, p) && !p.readonly && (v.Some? ==> FieldTakes(p, v.value))
  {
    FieldIsParam(model, key);
    if v.Some? { SingleValues(v.value); }
  }

  lemma CellAcceptedIff(def: Table, key: string, v: Value, side: Side)
    ensures CellProblem(def, key, v, side).None? <==> CellAccepted(def, key, v, side)
  {
    ColumnIsFound(def, key);
    SingleValues(v);
  }

  // ---- Whole patches ----------------------------------------------------------------------------------------

  ghost predicate FieldsAccepted(model: Model, patch: Patch) {
    && (forall k :: k in patch.put ==>
          exists p :: IsField(model, k, p) && !p.readonly && FieldTakes(p, patch.put[k]))
    && (forall k :: k in patch.unset ==> exists p :: IsField(model, k, p) && !p.readonly)
  }

  ghost predicate RowAccepted(def: Table, r: Cells, side: Side) {
    forall col :: col in r ==> CellAccepted(def, col, r[col], side)
  }

  ghost predicate RowsAccepted(model: Model, key: string, rows: seq<Cells>, side: Side) {
    exists def :: IsTable(model, key, def) && forall r :: r in rows ==> RowAccepted(def, r, side)
  }

  ghost predicate TablesAccepted(model: Model, patch: Patch, side: Side) {
    forall k :: k in patch.tables ==> RowsAccepted(model, k, patch.tables[k], side)
  }

  lemma FieldsAcceptedIff(model: Model, patch: Patch, side: Side)
    ensures FieldsAccepted(model, patch) <==> forall k, reason :: !IsProblem(model, patch, side, OnField(k, reason))
  {
    forall k | k in patch.put
      ensures FieldProblem(model, k, Some(patch.put[k])).None? <==>
                exists p :: IsField(model, k, p) && !p.readonly && FieldTakes(p, patch.put[k])
    {
      FieldAcceptedIff(model, k, Some(patch.put[k]));
    }
    forall k | k in patch.unset
      ensures FieldProblem(model, k, None).None? <==> exists p :: IsField(model, k, p) && !p.readonly
    {
      FieldAcceptedIff(model, k, None);
    }
    if forall k, reason :: !IsProblem(model, patch, side, OnField(k, reason)) {
      forall k | k in patch.put ensures FieldProblem(model, k, Some(patch.put[k])).None? {
        var p := FieldProblem(model, k, Some(patch.put[k]));
        if p.Some? { assert IsProblem(model, patch, side, OnField(k, p.value)); }
      }
      forall k | k in patch.unset ensures FieldProblem(model, k, None).None? {
        var p := FieldProblem(model, k, None);
        if p.Some? { assert IsProblem(model, patch, side, OnField(k, p.value)); }
      }
    }
  }

  lemma RowAcceptedIff(def: Table, r: Cells, side: Side)
    ensures RowAccepted(def, r, side) <==> forall col, reason :: !BadCell(def, r, side, col, reason)
  {
    forall col | col in r
      ensures CellProblem(def, col, r[col], side).None? <==> CellAccepted(def, col, r[col], side)
    {
      CellAcceptedIff(def, col, r[col], side);
    }
    if forall col, reason :: !BadCell(def, r, side, col, reason) {
      forall col | col in r ensures CellProblem(def, col, r[col], side).None? {
        var p := CellProblem(def, col, r[col], side);
        if p.Some? { assert BadCell(def, r, side, col, p.value); }
      }
    }
  }

  lemma TableAcceptedIff(model: Model, patch: Patch, side: Side, k: string)
    requires k in patch.tables
    ensures RowsAccepted(model, k, patch.tables[k], side) <==>
              && !IsProblem(model, patch, side, OnTable(k))
              && forall col, reason :: !IsProblem(model, patch, side, OnCell(k, col, reason))
  {
    TableIsFound(model, k);
    if TableOf(model.tables, k).Some? {
      var def, rows := TableOf(model.tables, k).value, patch.tables[k];
      forall r | r in rows
        ensures RowAccepted(def, r, side) <==> forall col, reason :: !BadCell(def, r, side, col, reason)
      {
        RowAcceptedIff(def, r, side);
      }
      if forall col, reason :: !IsProblem(model, patch, side, OnCell(k, col, reason)) {
        forall r, col, reason | r in rows ensures !BadCell(def, r, side, col, reason) {
          assert !IsProblem(model, patch, side, OnCell(k, col, reason));
        }
      }
    }
  }

  /**
   A patch is accepted exactly if every field it writes is there, may be written and takes the value, every field it
   clears may be written, and every cell of its rows is in a table and a column that take it from this side.
   */
  lemma PatchAcceptedIff(model: Model, patch: Patch, side: Side)
    ensures Accepts(model, patch, side) <==> FieldsAccepted(model, patch) && TablesAccepted(model, patch, side)
  {
    FieldsAcceptedIff(model, patch, side);
    forall k | k in patch.tables
      ensures RowsAccepted(model, k, patch.tables[k], side) <==>
                && !IsProblem(model, patch, side, OnTable(k))
                && forall col, reason :: !IsProblem(model, patch, side, OnCell(k, col, reason))
    {
      TableAcceptedIff(model, patch, side, k);
    }
    if FieldsAccepted(model, patch) && TablesAccepted(model, patch, side) {
      forall x ensures !IsProblem(model, patch, side, x) {
        match x
        case OnField(k, reason) =>
        case OnTable(k) => if k in patch.tables { assert RowsAccepted(model, k, patch.tables[k], side); }
        case OnCell(k, col, reason) => if k in patch.tables { assert RowsAccepted(model, k, patch.tables[k], side); }
      }
    }
  }

  // ---- The row afterwards, key by key -----------------------------------------------------------------------

  /** What a call writes under a key: a column of the server's own over a table of that key over a parameter. */
  ghost predicate Writes(e: Edit, k: string, d: Datum) {
    if k == "customer" && e.customer.Some? then d == One(e.customer.value)
    else if k == "batches" && e.patch.batches.Some? then d == Quantities(e.patch.batches.value)
    else if k in e.patch.tables then d == Rows(e.patch.tables[k])
    else k in e.patch.put && d == One(e.patch.put[k])
  }

  ghost predicate Same<V>(a: map<string, V>, b: map<string, V>, k: string) {
    (k in a <==> k in b) && (k in a ==> b[k] == a[k])
  }

  /** Of one key: cleared, its entry is gone, even if it was written too; written, it holds what was written. */
  ghost predicate ValueAfter(row: InputRow, e: Edit, k: string, after: InputRow) {
    && (k in e.patch.unset ==> k !in after.entries)
    && (k in e.patch.put && k !in e.patch.unset ==> k in after.entries && after.entries[k] == e.patch.put[k])
    && (k !in e.patch.put && k !in e.patch.unset ==> Same(row.entries, after.entries, k))
    && (if k in e.patch.tables then k in after.tables && after.tables[k] == e.patch.tables[k]
        else Same(row.tables, after.tables, k))
  }

  /** And its source: that of what was written or none; gone with a cleared key. */
  ghost predicate SourceLeft(row: InputRow, e: Edit, k: string, after: InputRow) {
    && (k in e.patch.unset ==> k !in after.sources)
    && (forall d :: Writes(e, k, d) && k !in e.patch.unset ==>
          if k in e.sources then k in after.sources && after.sources[k] == Sourced(d, e.sources[k])
          else k !in after.sources)
    && ((forall d :: !Writes(e, k, d)) && k !in e.patch.unset ==> Same(row.sources, after.sources, k))
  }

  lemma ValuesAre(row: InputRow, e: Edit, k: string)
    ensures ValueAfter(row, e, k, Apply(row, e))
  {
    ColumnsAfter(row, e);
    assert k in KeySet(e.patch.unset) <==> k in e.patch.unset;
  }

  lemma WrittenIs(e: Edit, k: string)
    ensures forall d :: Writes(e, k, d) <==> k in WrittenKeys(e) && d == Written(e, k)
  {
  }

  lemma SourcesAre(row: InputRow, e: Edit, k: string)
    ensures SourceLeft(row, e, k, Apply(row, e))
  {
    ColumnsAfter(row, e);
    WrittenIs(e, k);
    var after := Apply(row, e).sources;
    assert k in KeySet(e.patch.unset) <==> k in e.patch.unset;
    assert after == Merged(row.sources, Merge(AddedSources(e), DroppedSources(e)));
    if k in WrittenKeys(e) { assert Writes(e, k, Written(e, k)); }
  }

  /** A call leaves every key of the row as asked, its value and its source. */
  lemma KeyAfter(row: InputRow, e: Edit, k: string)
    ensures ValueAfter(row, e, k, Apply(row, e)) && SourceLeft(row, e, k, Apply(row, e))
  {
    ValuesAre(row, e, k);
    SourcesAre(row, e, k);
  }

  // ---- Quantities -------------------------------------------------------------------------------------------

  ghost predicate QuantityGiven(before: Cells, after: Cells) {
    && after.Keys == before.Keys + {QTY_COL}
    && (forall c :: c in before && c != QTY_COL ==> after[c] == before[c])
    && after[QTY_COL] == if QTY_COL in before && before[QTY_COL] != VNull then before[QTY_COL] else VNum("1")
  }

  /** Every row sent for an items table has a quantity, 1 if none was typed; nothing else of the patch changes. */
  lemma QuantitiesGiven(model: Model, patch: Patch, k: string)
    requires k in patch.tables
    ensures var after := WithQuantities(model, patch);
            && after == patch.(tables := after.tables) && after.tables.Keys == patch.tables.Keys
            && |after.tables[k]| == |patch.tables[k]|
            && forall i :: 0 <= i < |patch.tables[k]| ==>
                 if exists t :: t in model.tables && t.items && t.key == k
                 then QuantityGiven(patch.tables[k][i], after.tables[k][i])
                 else after.tables[k][i] == patch.tables[k][i]
  {
  }
}
