/**
 The quote's command id (apps/server/src/config-quote.ts): a hash of what is being quoted, so that the
 same picks retried find the quotation already posted and other picks never do.
 */
module QuoteCommand {
  import opened Options
  import opened Canon

  /** A pick: a candidate by its index, and a batch quantity. */
  datatype Pick = Pick(idx: nat, qty: nat)

  /** The comparator of the sort. */
  predicate NotAfter(a: Pick, b: Pick) {
    a.idx < b.idx || (a.idx == b.idx && a.qty <= b.qty)
  }

  function InsertPick(p: Pick, sorted: seq<Pick>): (r: seq<Pick>)
    ensures multiset(r) == multiset{p} + multiset(sorted)
  {
    if sorted == [] || NotAfter(p, sorted[0]) then [p] + sorted
    else
      assert sorted == [sorted[0]] + sorted[1..];
      [sorted[0]] + InsertPick(p, sorted[1..])
  }

  function SortPicks(picks: seq<Pick>): (r: seq<Pick>)
    ensures multiset(r) == multiset(picks)
  {
    if picks == [] then []
    else
      assert picks == [picks[0]] + picks[1..];
      InsertPick(picks[0], SortPicks(picks[1..]))
  }

  /** A whole number as JavaScript prints it. */
  function Digits(n: nat): (t: string)
    ensures NumText(t) && '0' <= t[|t| - 1] <= '9'
  {
    var d := [(n % 10 + 48) as char];
    if n < 10 then d else Digits(n / 10) + d
  }

  /** What one quote is: its owner, the calculation's assignments, the picks, the row data, what it replaces. */
  datatype Quoting = Quoting(
    tenant: string, project: string, assignments: seq<Js>, picks: seq<Pick>, tables: Js, replaced: Option<nat>)

  ghost predicate Wellformed(q: Quoting) {
    && (forall a :: a in q.assignments ==> Proper(a))
    && Proper(q.tables)
    && '|' !in q.tenant && '|' !in q.project
  }

  function AssignmentOf(q: Quoting, p: Pick): Js {
    if p.idx < |q.assignments| then q.assignments[p.idx] else Null
  }

  function PickJson(q: Quoting, p: Pick): Js {
    Obj([Prop("assignment", Some(AssignmentOf(q, p))), Prop("batchQty", Some(Num(Digits(p.qty))))])
  }

  function PicksJson(q: Quoting, picks: seq<Pick>): (r: seq<Js>)
    ensures |r| == |picks| && forall i :: 0 <= i < |r| ==> r[i] == PickJson(q, picks[i])
  {
    if picks == [] then [] else [PickJson(q, picks[0])] + PicksJson(q, picks[1..])
  }

  /** The object that is printed; an undefined `replaces` is left out. */
  function BodyOf(sel: Js, tables: Js, replaced: Option<Js>): Js {
    Obj([Prop("sel", Some(sel)), Prop("tables", Some(tables)), Prop("replaces", replaced)])
  }

  function Body(q: Quoting): Js {
    BodyOf(Arr(PicksJson(q, SortPicks(q.picks))), q.tables,
           if q.replaced.Some? then Some(Num(Digits(q.replaced.value))) else None)
  }

  /** The text that is hashed. */
  function RawText(q: Quoting): string {
    q.tenant + ("|" + (q.project + ("|" + CanonicalJson(Body(q)))))
  }

  function CommandId(hash: string -> string, q: Quoting): string {
    hash(RawText(q))
  }

  ghost predicate Injective(hash: string -> string) {
    forall x, y :: hash(x) == hash(y) ==> x == y
  }

  /** What the id stands for: the picks as (assignment, quantity) pairs in the sorted order. */
  ghost function Quoted(q: Quoting): seq<(Value, nat)> {
    var s := SortPicks(q.picks);
    seq(|s|, i requires 0 <= i < |s| => (Meaning(AssignmentOf(q, s[i])), s[i].qty))
  }

  // ---- Sorting is blind to the order the picks came in --------------------------------------------

  ghost predicate InOrder(s: seq<Pick>) {
    forall i, j :: 0 <= i < j < |s| ==> NotAfter(s[i], s[j])
  }

  lemma {:induction false} InsertInOrder(p: Pick, s: seq<Pick>)
    requires InOrder(s)
    ensures InOrder(InsertPick(p, s))
  {
    if s != [] && !NotAfter(p, s[0]) {
      InsertInOrder(p, s[1..]);
      var rest := InsertPick(p, s[1..]);
      forall j | 0 <= j < |rest|
        ensures NotAfter(s[0], rest[j])
      {
        assert rest[j] in multiset(rest);
        assert rest[j] == p || rest[j] in s[1..];
      }
    }
  }

  lemma {:induction false} SortInOrder(picks: seq<Pick>)
    ensures InOrder(SortPicks(picks))
  {
    if picks != [] {
      SortInOrder(picks[1..]);
      InsertInOrder(picks[0], SortPicks(picks[1..]));
    }
  }

  lemma FirstIsLeast(a: seq<Pick>, b: seq<Pick>)
    requires InOrder(a) && a != [] && b != [] && multiset(a) == multiset(b)
    ensures NotAfter(a[0], b[0])
  {
    assert b[0] in multiset(b);
    assert b[0] in a;
  }

  lemma RestOfMultiset(a: seq<Pick>)
    requires a != []
    ensures multiset(a[1..]) == multiset(a) - multiset{a[0]}
  {
    assert a == [a[0]] + a[1..];
  }

  lemma {:induction false} OrderIsUnique(a: seq<Pick>, b: seq<Pick>)
    requires InOrder(a) && InOrder(b) && multiset(a) == multiset(b)
    ensures a == b
  {
    if a == [] || b == [] {
      assert |multiset(a)| == |a| && |multiset(b)| == |b|;
    } else {
      FirstIsLeast(a, b);
      FirstIsLeast(b, a);
      RestOfMultiset(a);
      RestOfMultiset(b);
      OrderIsUnique(a[1..], b[1..]);
    }
  }

  lemma SortIsBlind(a: seq<Pick>, b: seq<Pick>)
    requires multiset(a) == multiset(b)
    ensures SortPicks(a) == SortPicks(b)
  {
    SortInOrder(a);
    SortInOrder(b);
    OrderIsUnique(SortPicks(a), SortPicks(b));
  }

  // ---- Reading the text back ----------------------------------------------------------------------

  lemma {:induction false} DigitsInjective(m: nat, n: nat)
    requires Digits(m) == Digits(n)
    ensures m == n
  {
    assert Digits(m)[|Digits(m)| - 1] as int == m % 10 + 48;
    assert Digits(n)[|Digits(n)| - 1] as int == n % 10 + 48;
    if m >= 10 && n >= 10 {
      assert Digits(m)[..|Digits(m)| - 1] == Digits(m / 10);
      assert Digits(n)[..|Digits(n)| - 1] == Digits(n / 10);
      DigitsInjective(m / 10, n / 10);
    }
  }

  /** The part before the first bar is the same in equal texts. */
  lemma BarCut(a: string, x: string, b: string, y: string)
    requires '|' !in a && '|' !in b && a + ("|" + x) == b + ("|" + y)
    ensures a == b && x == y
  {
    var u := a + ("|" + x);
    assert u[|a|] == '|' && (b + ("|" + y))[|b|] == '|';
    if |a| < |b| {
      BarInside(a, x, b, y);
    } else if |b| < |a| {
      BarInside(b, y, a, x);
    }
    SplitSame(a, "|" + x, b, "|" + y);
    SplitSame("|", x, "|", y);
  }

  lemma BarInside(a: string, x: string, b: string, y: string)
    requires |a| < |b| && a + ("|" + x) == b + ("|" + y)
    ensures '|' in b
  {
    assert (a + ("|" + x))[|a|] == '|';
    assert (b + ("|" + y))[|a|] == b[|a|];
  }

  lemma PickProper(q: Quoting, p: Pick)
    requires Wellformed(q)
    ensures Proper(PickJson(q, p))
  {
  }

  lemma BodyProper(q: Quoting)
    requires Wellformed(q)
    ensures Proper(Body(q))
  {
    var items := PicksJson(q, SortPicks(q.picks));
    forall x | x in items
      ensures Proper(x)
    {
      var i :| 0 <= i < |items| && items[i] == x;
      PickProper(q, SortPicks(q.picks)[i]);
    }
    assert Proper(Arr(items));
    assert q.replaced.Some? ==> Proper(Num(Digits(q.replaced.value)));
  }

  /** One field of an object's meaning. */
  lemma FieldMeaning(v: Js, i: nat)
    requires v.Obj? && Proper(v) && i < |v.entries| && v.entries[i].value.Some?
    ensures v.entries[i].key in Meaning(v).fields
    ensures Meaning(v).fields[v.entries[i].key] == Meaning(v.entries[i].value.value)
  {
    OneEntryPerKey(v, v.entries[i]);
  }

  lemma SamePick(q: Quoting, p: Pick, r: Quoting, s: Pick)
    requires Wellformed(q) && Wellformed(r) && Meaning(PickJson(q, p)) == Meaning(PickJson(r, s))
    ensures Meaning(AssignmentOf(q, p)) == Meaning(AssignmentOf(r, s)) && p.qty == s.qty
  {
    PickProper(q, p);
    PickProper(r, s);
    FieldMeaning(PickJson(q, p), 0);
    FieldMeaning(PickJson(q, p), 1);
    FieldMeaning(PickJson(r, s), 0);
    FieldMeaning(PickJson(r, s), 1);
    DigitsInjective(p.qty, s.qty);
  }

  ghost function Picked(q: Quoting): Value {
    Meaning(Arr(PicksJson(q, SortPicks(q.picks))))
  }

  /** What the hashed body means, as a map. */
  ghost function Face(q: Quoting): map<string, Value> {
    map["sel" := Picked(q), "tables" := Meaning(q.tables)]
      + (if q.replaced.Some? then map["replaces" := VNum(Digits(q.replaced.value))] else map[])
  }

  lemma KeysOfBody(sel: Js, tables: Js, replaced: Option<Js>)
    ensures KeysOf(BodyOf(sel, tables, replaced).entries) ==
            {"sel", "tables"} + (if replaced.Some? then {"replaces"} else {})
  {
    var e := BodyOf(sel, tables, replaced).entries;
    assert e[0].key == "sel" && e[1].key == "tables" && e[2].key == "replaces";
    assert forall x :: x in e <==> x == e[0] || x == e[1] || x == e[2];
  }

  lemma ValuesOfBody(sel: Js, tables: Js, replaced: Option<Js>)
    requires Proper(BodyOf(sel, tables, replaced))
    ensures var m := Meaning(BodyOf(sel, tables, replaced)).fields;
            && "sel" in m && m["sel"] == Meaning(sel) && "tables" in m && m["tables"] == Meaning(tables)
            && (replaced.Some? ==> "replaces" in m && m["replaces"] == Meaning(replaced.value))
  {
    var body := BodyOf(sel, tables, replaced);
    FieldMeaning(body, 0);
    FieldMeaning(body, 1);
    if replaced.Some? { FieldMeaning(body, 2); }
  }

  lemma MapOfThree<V>(m: map<string, V>, a: string, b: string, c: string, third: bool)
    requires |a| < |b| < |c| && m.Keys == {a, b} + (if third then {c} else {})
    ensures m == map[a := m[a], b := m[b]] + (if third then map[c := m[c]] else map[])
  {
  }

  lemma FieldsOfBody(sel: Js, tables: Js, replaced: Option<Js>)
    requires Proper(BodyOf(sel, tables, replaced))
    ensures Meaning(BodyOf(sel, tables, replaced)) ==
            VObj(map["sel" := Meaning(sel), "tables" := Meaning(tables)]
                 + (if replaced.Some? then map["replaces" := Meaning(replaced.value)] else map[]))
  {
    var m := Meaning(BodyOf(sel, tables, replaced)).fields;
    assert m.Keys == {"sel", "tables"} + (if replaced.Some? then {"replaces"} else {}) by {
      KeysOfBody(sel, tables, replaced);
    }
    ValuesOfBody(sel, tables, replaced);
    MapOfThree(m, "sel", "tables", "replaces", replaced.Some?);
  }

  lemma BodyMeans(q: Quoting)
    requires Wellformed(q)
    ensures Meaning(Body(q)) == VObj(Face(q))
  {
    BodyProper(q);
    FieldsOfBody(Arr(PicksJson(q, SortPicks(q.picks))), q.tables,
                 if q.replaced.Some? then Some(Num(Digits(q.replaced.value))) else None);
  }

  lemma SamePickAt(q: Quoting, r: Quoting, i: nat)
    requires Wellformed(q) && Wellformed(r) && Picked(q) == Picked(r)
    requires i < |SortPicks(q.picks)| && i < |SortPicks(r.picks)|
    ensures i < |Quoted(q)| && i < |Quoted(r)| && Quoted(q)[i] == Quoted(r)[i]
  {
    var a, b := PicksJson(q, SortPicks(q.picks)), PicksJson(r, SortPicks(r.picks));
    assert Picked(q).items[i] == Meaning(a[i]) && Picked(r).items[i] == Meaning(b[i]);
    SamePick(q, SortPicks(q.picks)[i], r, SortPicks(r.picks)[i]);
  }

  lemma SamePicked(q: Quoting, r: Quoting)
    requires Wellformed(q) && Wellformed(r) && Picked(q) == Picked(r)
    ensures Quoted(q) == Quoted(r)
  {
    assert |Picked(q).items| == |SortPicks(q.picks)| == |Quoted(q)|;
    assert |Picked(r).items| == |SortPicks(r.picks)| == |Quoted(r)|;
    forall i | 0 <= i < |Quoted(q)| ensures Quoted(q)[i] == Quoted(r)[i] { SamePickAt(q, r, i); }
  }

  lemma SameFace(q: Quoting, r: Quoting)
    requires Wellformed(q) && Wellformed(r) && Face(q) == Face(r)
    ensures Meaning(q.tables) == Meaning(r.tables) && q.replaced == r.replaced && Quoted(q) == Quoted(r)
  {
    assert Face(q)["sel"] == Face(r)["sel"] && Face(q)["tables"] == Face(r)["tables"];
    SamePicked(q, r);
    assert "replaces" in Face(q) <==> q.replaced.Some?;
    assert "replaces" in Face(r) <==> r.replaced.Some?;
    if q.replaced.Some? {
      assert Face(q)["replaces"] == Face(r)["replaces"];
      DigitsInjective(q.replaced.value, r.replaced.value);
    }
  }

  /** What one pick of the hashed body means. */
  lemma PickMeans(q: Quoting, p: Pick)
    requires Wellformed(q)
    ensures Meaning(PickJson(q, p)) ==
            VObj(map["assignment" := Meaning(AssignmentOf(q, p)), "batchQty" := VNum(Digits(p.qty))])
  {
    PickProper(q, p);
    var e := PickJson(q, p).entries;
    FieldMeaning(PickJson(q, p), 0);
    FieldMeaning(PickJson(q, p), 1);
    assert forall x :: x in e <==> x == e[0] || x == e[1];
    assert KeysOf(e) == {"assignment", "batchQty"};
  }

  lemma SamePickMeans(q: Quoting, p: Pick, r: Quoting, s: Pick)
    requires Wellformed(q) && Wellformed(r)
    requires Meaning(AssignmentOf(q, p)) == Meaning(AssignmentOf(r, s)) && p.qty == s.qty
    ensures Meaning(PickJson(q, p)) == Meaning(PickJson(r, s))
  {
    PickMeans(q, p);
    PickMeans(r, s);
  }

  lemma SameItemsMean(a: seq<Js>, b: seq<Js>)
    requires |a| == |b| && forall i :: 0 <= i < |a| ==> Meaning(a[i]) == Meaning(b[i])
    ensures Meaning(Arr(a)) == Meaning(Arr(b))
  {
    assert Meaning(Arr(a)).items == Meaning(Arr(b)).items;
  }

  lemma QuotedDecidesPicked(q: Quoting, r: Quoting)
    requires Wellformed(q) && Wellformed(r) && Quoted(q) == Quoted(r)
    ensures Picked(q) == Picked(r)
  {
    var a, b := PicksJson(q, SortPicks(q.picks)), PicksJson(r, SortPicks(r.picks));
    assert |Quoted(q)| == |a| && |Quoted(r)| == |b|;
    forall i | 0 <= i < |a|
      ensures Meaning(a[i]) == Meaning(b[i])
    {
      assert Quoted(q)[i] == Quoted(r)[i];
      SamePickMeans(q, SortPicks(q.picks)[i], r, SortPicks(r.picks)[i]);
    }
    SameItemsMean(a, b);
  }

  lemma FaceDecidesText(q: Quoting, r: Quoting)
    requires Wellformed(q) && Wellformed(r) && Face(q) == Face(r)
    ensures CanonicalJson(Body(q)) == CanonicalJson(Body(r))
  {
    BodyMeans(q);
    BodyMeans(r);
    BodyProper(q);
    BodyProper(r);
    PrintsAlikeIffMeansAlike(Body(q), Body(r));
  }

  // ---- The theorems -------------------------------------------------------------------------------

  /** Two quotes that are alike: owner, row data up to key order, replaced document and list of picks. */
  ghost predicate QuotedAlike(q: Quoting, r: Quoting) {
    && q.tenant == r.tenant && q.project == r.project
    && Meaning(q.tables) == Meaning(r.tables) && q.replaced == r.replaced && Quoted(q) == Quoted(r)
  }

  /** Whatever the hash, quotes that are alike have one id. */
  lemma AlikeKeepsId(hash: string -> string, q: Quoting, r: Quoting)
    requires Wellformed(q) && Wellformed(r) && QuotedAlike(q, r)
    ensures CommandId(hash, q) == CommandId(hash, r)
  {
    QuotedDecidesPicked(q, r);
    assert Face(q) == Face(r);
    FaceDecidesText(q, r);
  }

  /** Reordering the picks, or the keys of a row or of an assignment, at any depth, leaves the id alone. */
  lemma ReorderKeepsId(hash: string -> string, q: Quoting, r: Quoting)
    requires Wellformed(q) && Wellformed(r)
    requires r == q.(picks := r.picks, tables := r.tables, assignments := r.assignments)
    requires multiset(q.picks) == multiset(r.picks) && Meaning(q.tables) == Meaning(r.tables)
    requires |q.assignments| == |r.assignments|
    requires forall i :: 0 <= i < |q.assignments| ==> Meaning(q.assignments[i]) == Meaning(r.assignments[i])
    ensures CommandId(hash, q) == CommandId(hash, r)
  {
    SortIsBlind(q.picks, r.picks);
    forall p: Pick ensures Meaning(AssignmentOf(q, p)) == Meaning(AssignmentOf(r, p)) {
    }
    assert Quoted(q) == Quoted(r);
    AlikeKeepsId(hash, q, r);
  }

  /** With an injective hash, two ids are equal if and only if the quotes are alike. */
  lemma EqualIdsIffQuotedAlike(hash: string -> string, q: Quoting, r: Quoting)
    requires Injective(hash) && Wellformed(q) && Wellformed(r)
    ensures CommandId(hash, q) == CommandId(hash, r) <==> QuotedAlike(q, r)
  {
    if CommandId(hash, q) == CommandId(hash, r) {
      SameText(q, r);
    }
    if QuotedAlike(q, r) {
      AlikeKeepsId(hash, q, r);
    }
  }

  lemma SameText(q: Quoting, r: Quoting)
    requires Wellformed(q) && Wellformed(r) && RawText(q) == RawText(r)
    ensures QuotedAlike(q, r)
  {
    var x, y := CanonicalJson(Body(q)), CanonicalJson(Body(r));
    BarCut(q.tenant, q.project + ("|" + x), r.tenant, r.project + ("|" + y));
    BarCut(q.project, x, r.project, y);
    BodyProper(q);
    BodyProper(r);
    PrintsAlikeIffMeansAlike(Body(q), Body(r));
    BodyMeans(q);
    BodyMeans(r);
    SameFace(q, r);
  }

  // ---- The same, said of the calculation itself --------------------------------------------------------------

  /** What a pick stands for: the assignment its index names in the calculation, or null past its end. */
  ghost function StandsFor(assignments: seq<Js>, p: Pick): Value {
    if p.idx < |assignments| then Meaning(assignments[p.idx]) else VNull
  }

  /** The picks by index and then quantity. */
  ghost predicate Listed(picks: seq<Pick>, list: seq<Pick>) {
    && multiset(list) == multiset(picks)
    && forall i, j :: 0 <= i < j < |list| ==>
         list[i].idx < list[j].idx || (list[i].idx == list[j].idx && list[i].qty <= list[j].qty)
  }

  /** Both lists quote the same quantities of the same assignments, line by line. */
  ghost predicate SameLines(q: Quoting, a: seq<Pick>, r: Quoting, b: seq<Pick>) {
    && |a| == |b|
    && forall i :: 0 <= i < |a| ==>
         a[i].qty == b[i].qty && StandsFor(q.assignments, a[i]) == StandsFor(r.assignments, b[i])
  }

  lemma ListedIsSorted(picks: seq<Pick>, list: seq<Pick>)
    requires Listed(picks, list)
    ensures list == SortPicks(picks)
  {
    assert InOrder(list);
    SortInOrder(picks);
    OrderIsUnique(list, SortPicks(picks));
  }

  lemma SortedIsListed(picks: seq<Pick>)
    ensures Listed(picks, SortPicks(picks))
  {
    SortInOrder(picks);
    var s := SortPicks(picks);
    forall i, j | 0 <= i < j < |s|
      ensures s[i].idx < s[j].idx || (s[i].idx == s[j].idx && s[i].qty <= s[j].qty)
    {
      assert NotAfter(s[i], s[j]);
    }
  }

  /** The quoted list is what the sorted picks stand for. */
  lemma QuotedIs(q: Quoting, i: nat)
    requires i < |SortPicks(q.picks)|
    ensures |Quoted(q)| == |SortPicks(q.picks)|
    ensures Quoted(q)[i] == (StandsFor(q.assignments, SortPicks(q.picks)[i]), SortPicks(q.picks)[i].qty)
  {
  }

  /**
   The law of the id, over the calculations and the picks themselves. Under an injective hash two ids are equal if and
   only if tenant, project, row data and replaced quotation agree and the picks, in the order of their indices and
   quantities, name the same assignments at the same quantities.
   */
  lemma EqualIdsIffSameLines(hash: string -> string, q: Quoting, r: Quoting, a: seq<Pick>, b: seq<Pick>)
    requires Injective(hash) && Wellformed(q) && Wellformed(r) && Listed(q.picks, a) && Listed(r.picks, b)
    ensures CommandId(hash, q) == CommandId(hash, r) <==>
              && q.tenant == r.tenant && q.project == r.project && q.replaced == r.replaced
              && Meaning(q.tables) == Meaning(r.tables) && SameLines(q, a, r, b)
  {
    EqualIdsIffQuotedAlike(hash, q, r);
    ListedIsSorted(q.picks, a);
    ListedIsSorted(r.picks, b);
    if Quoted(q) == Quoted(r) {
      assert |Quoted(q)| == |a| && |Quoted(r)| == |b|;
      forall i | 0 <= i < |a|
        ensures a[i].qty == b[i].qty && StandsFor(q.assignments, a[i]) == StandsFor(r.assignments, b[i])
      {
        QuotedIs(q, i);
        QuotedIs(r, i);
      }
    }
    if SameLines(q, a, r, b) {
      forall i | 0 <= i < |a| ensures Quoted(q)[i] == Quoted(r)[i] {
        QuotedIs(q, i);
        QuotedIs(r, i);
      }
      assert Quoted(q) == Quoted(r);
    }
  }

  /** Every list of picks has such an order. */
  lemma EveryPickIsListed(picks: seq<Pick>)
    ensures exists list :: Listed(picks, list)
  {
    SortedIsListed(picks);
  }
}
