/**
 What staff changed in a round (apps/server/src/project-lifecycle.ts, `revisionDiff`): the entries and
 batches with their values before and after, and the row counts of every table that changed.
 */
module RevisionDiff {
  import opened Options
  import opened Canon
  import opened ConfigPatch

  datatype Inputs = Inputs(entries: map<string, Value>, batches: seq<nat>, tables: map<string, seq<Cells>>)

  datatype Diff = Diff(
    entries: map<string, (Option<Value>, Option<Value>)>,
    tables: map<string, (nat, nat)>,
    batches: Option<(seq<nat>, seq<nat>)>)

  function Find(m: map<string, Value>, k: string): Option<Value> {
    if k in m then Some(m[k]) else None
  }

  /** `sameJson` reads a missing value as null (Canon.SameJsonIsSameMeaning). */
  function NullIfAbsent(v: Option<Value>): Value {
    if v.Some? then v.value else VNull
  }

  predicate EntryDiffers(base: Inputs, cur: Inputs, k: string) {
    NullIfAbsent(Find(base.entries, k)) != NullIfAbsent(Find(cur.entries, k))
  }

  /** A missing table is an empty one. */
  function RowsAt(x: Inputs, k: string): seq<Cells> {
    if k in x.tables then x.tables[k] else []
  }

  predicate TableDiffers(base: Inputs, cur: Inputs, k: string) {
    RowsAt(base, k) != RowsAt(cur, k)
  }

  // ---- What a diff is ---------------------------------------------------------------------------------

  /** `k` holds a value, and not null. */
  ghost predicate HasValue(m: map<string, Value>, k: string) {
    k in m && m[k] != VNull
  }

  /** The entries are the same at `k`, where null is as good as nothing. */
  ghost predicate AlikeAt(a: map<string, Value>, b: map<string, Value>, k: string) {
    (HasValue(a, k) <==> HasValue(b, k)) && (HasValue(a, k) ==> a[k] == b[k])
  }

  /** The tables are, where no table is as good as an empty one. */
  ghost predicate SameTable(a: map<string, seq<Cells>>, b: map<string, seq<Cells>>, k: string) {
    if k in a && k in b then a[k] == b[k] else (k in a ==> a[k] == []) && (k in b ==> b[k] == [])
  }

  ghost predicate Shows(m: map<string, Value>, k: string, v: Option<Value>) {
    match v case None => k !in m case Some(x) => k in m && m[k] == x
  }

  ghost predicate Counts(m: map<string, seq<Cells>>, k: string, n: nat) {
    if k in m then |m[k]| == n else n == 0
  }

  /** What a diff must be, of the two inputs themselves; null (None) when nothing differs. */
  ghost predicate IsDiff(base: Inputs, cur: Inputs, d: Option<Diff>) {
    match d
    case None =>
      && (forall k :: AlikeAt(base.entries, cur.entries, k))
      && (forall k :: SameTable(base.tables, cur.tables, k))
      && base.batches == cur.batches
    case Some(diff) =>
      && (forall k :: k in diff.entries <==> !AlikeAt(base.entries, cur.entries, k))
      && (forall k :: k in diff.entries ==>
            Shows(base.entries, k, diff.entries[k].0) && Shows(cur.entries, k, diff.entries[k].1))
      && (forall k :: k in diff.tables <==> !SameTable(base.tables, cur.tables, k))
      && (forall k :: k in diff.tables ==>
            Counts(base.tables, k, diff.tables[k].0) && Counts(cur.tables, k, diff.tables[k].1))
      && diff.batches == (if base.batches != cur.batches then Some((base.batches, cur.batches)) else None)
      && (diff.entries.Keys != {} || diff.tables.Keys != {} || diff.batches.Some?)
  }

  /** There is one such diff for two given inputs. */
  lemma OneDiff(base: Inputs, cur: Inputs, d: Option<Diff>, e: Option<Diff>)
    requires IsDiff(base, cur, d) && IsDiff(base, cur, e)
    ensures d == e
  {
    if d.Some? && e.Some? {
      forall k ensures k in d.value.entries <==> k in e.value.entries {}
      forall k | k in d.value.entries ensures d.value.entries[k] == e.value.entries[k] {}
      assert d.value.entries == e.value.entries;
      forall k ensures k in d.value.tables <==> k in e.value.tables {}
      forall k | k in d.value.tables ensures d.value.tables[k] == e.value.tables[k] {}
      assert d.value.tables == e.value.tables;
    } else if d.Some? {
      NotNothing(base, cur, d.value);
    } else if e.Some? {
      NotNothing(base, cur, e.value);
    }
  }

  lemma NotNothing(base: Inputs, cur: Inputs, d: Diff)
    requires IsDiff(base, cur, Some(d))
    ensures !IsDiff(base, cur, None)
  {
    if d.entries.Keys != {} {
      var k :| k in d.entries.Keys;
      assert !AlikeAt(base.entries, cur.entries, k);
    } else if d.tables.Keys != {} {
      var k :| k in d.tables.Keys;
      assert !SameTable(base.tables, cur.tables, k);
    }
  }

  lemma DiffersIff(base: Inputs, cur: Inputs, k: string)
    ensures EntryDiffers(base, cur, k) <==> !AlikeAt(base.entries, cur.entries, k)
    ensures TableDiffers(base, cur, k) <==> !SameTable(base.tables, cur.tables, k)
    ensures EntryDiffers(base, cur, k) ==> k in base.entries.Keys + cur.entries.Keys
    ensures TableDiffers(base, cur, k) ==> k in base.tables.Keys + cur.tables.Keys
  {
  }

  function ChangedEntries(base: Inputs, cur: Inputs): map<string, (Option<Value>, Option<Value>)> {
    map k | k in base.entries.Keys + cur.entries.Keys && EntryDiffers(base, cur, k) ::
      (Find(base.entries, k), Find(cur.entries, k))
  }

  function ChangedTables(base: Inputs, cur: Inputs): map<string, (nat, nat)> {
    map k | k in base.tables.Keys + cur.tables.Keys && TableDiffers(base, cur, k) ::
      (|RowsAt(base, k)|, |RowsAt(cur, k)|)
  }

  function DiffOf(base: Inputs, cur: Inputs): Option<Diff> {
    var entries, tables := ChangedEntries(base, cur), ChangedTables(base, cur);
    var batches := if base.batches != cur.batches then Some((base.batches, cur.batches)) else None;
    if entries.Keys == {} && tables.Keys == {} && batches.None? then None else Some(Diff(entries, tables, batches))
  }

  /** The diff as it is computed is what a diff must be. */
  lemma DiffIsDiff(base: Inputs, cur: Inputs)
    ensures IsDiff(base, cur, DiffOf(base, cur))
  {
    forall k
      ensures k in ChangedEntries(base, cur) <==> !AlikeAt(base.entries, cur.entries, k)
      ensures k in ChangedTables(base, cur) <==> !SameTable(base.tables, cur.tables, k)
    {
      DiffersIff(base, cur, k);
    }
  }

  /** The first pass, over the entries of both sides. */
  method DiffEntries(base: Inputs, cur: Inputs) returns (entries: map<string, (Option<Value>, Option<Value>)>)
    ensures entries == ChangedEntries(base, cur)
  {
    entries := map[];
    var keys := base.entries.Keys + cur.entries.Keys;
    var todo := keys;
    while todo != {}
      invariant todo <= keys
      invariant forall k :: k in entries <==> k in keys && k !in todo && EntryDiffers(base, cur, k)
      invariant forall k :: k in entries ==> entries[k] == (Find(base.entries, k), Find(cur.entries, k))
    {
      var k :| k in todo;
      todo := todo - {k};
      var a, b := Find(base.entries, k), Find(cur.entries, k);
      if NullIfAbsent(a) != NullIfAbsent(b) { entries := entries[k := (a, b)]; }
    }
  }

  /** The second, over their tables. */
  method DiffTables(base: Inputs, cur: Inputs) returns (tables: map<string, (nat, nat)>)
    ensures tables == ChangedTables(base, cur)
  {
    tables := map[];
    var keys := base.tables.Keys + cur.tables.Keys;
    var todo := keys;
    while todo != {}
      invariant todo <= keys
      invariant forall k :: k in tables <==> k in keys && k !in todo && TableDiffers(base, cur, k)
      invariant forall k :: k in tables ==> tables[k] == (|RowsAt(base, k)|, |RowsAt(cur, k)|)
    {
      var k :| k in todo;
      todo := todo - {k};
      var a, b := RowsAt(base, k), RowsAt(cur, k);
      if a != b { tables := tables[k := (|a|, |b|)]; }
    }
  }

  /** `revisionDiff` as it runs: two passes over the keys of both sides. */
  method ReviseDiff(base: Inputs, cur: Inputs) returns (d: Option<Diff>)
    ensures d == DiffOf(base, cur) && IsDiff(base, cur, d)
  {
    var entries := DiffEntries(base, cur);
    var tables := DiffTables(base, cur);
    var batchesChanged := base.batches != cur.batches;
    if entries.Keys == {} && tables.Keys == {} && !batchesChanged {
      d := None;
    } else {
      d := Some(Diff(entries, tables, if batchesChanged then Some((base.batches, cur.batches)) else None));
    }
    DiffIsDiff(base, cur);
  }

  // ---- A diff rebuilds what it was taken from -------------------------------------------------------

  /** The baseline with a diff's entries and batches put over it. */
  function Rebuilt(base: Inputs, d: Diff): Inputs {
    base.(
      entries := map k | k in base.entries.Keys + d.entries.Keys && (k in d.entries ==> d.entries[k].1.Some?) ::
        if k in d.entries then d.entries[k].1.value else base.entries[k],
      batches := if d.batches.Some? then d.batches.value.1 else base.batches)
  }

  ghost predicate SameUpToNull(a: map<string, Value>, b: map<string, Value>) {
    forall k :: AlikeAt(a, b, k)
  }

  lemma DiffRebuilds(base: Inputs, cur: Inputs)
    ensures DiffOf(base, cur).Some? ==>
              var r := Rebuilt(base, DiffOf(base, cur).value);
              SameUpToNull(r.entries, cur.entries) && r.batches == cur.batches
    ensures DiffOf(base, cur).None? <==>
              SameUpToNull(base.entries, cur.entries) && base.batches == cur.batches
                && forall k :: SameTable(base.tables, cur.tables, k)
  {
    var d := DiffOf(base, cur);
    DiffIsDiff(base, cur);
    if d.Some? {
      var r := Rebuilt(base, d.value);
      forall k ensures AlikeAt(r.entries, cur.entries, k) {
        assert k in d.value.entries <==> !AlikeAt(base.entries, cur.entries, k);
      }
      NotNothing(base, cur, d.value);
    }
  }
}
