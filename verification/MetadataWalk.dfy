/**
 Marking personal fields on an entity's properties (b1-mcp-server/src/services/b1-metadata-manager.ts
 `applyPersonalFieldFlags`, `ensurePersonalFieldsByTable`). Two walks over (complex type, table) pairs: one
 collects the tables to load, the other matches the fields against them. Type graphs may be cyclic.
 */
module MetadataWalk {
  import opened Options

  /** `field` is the alias or the name; `childTable` is "" when the property has none. */
  datatype Prop = Prop(name: string, field: string, complex: Option<string>, childTable: string)
  type Types = map<string, seq<Prop>>

  datatype EntitySet = EntitySet(table: string, props: seq<Prop>)

  /** A type in a table context; the table is normalized. */
  datatype Node = Node(typeName: string, table: string)

  /** `norm` trims and upper-cases. `service` fetches a table's personal fields, normalized, or fails. */
  datatype World = World(
    types: Types, norm: string -> string, service: string -> Option<set<(string, string)>>, production: bool)

  function PropsOf(types: Types, name: string): seq<Prop> {
    if name in types then types[name] else []
  }

  function TableOf(p: Prop, table: string): string {
    if p.childTable != "" then p.childTable else table
  }

  // ---- The graph ---------------------------------------------------------------------------------------

  predicate IsRoot(w: World, e: EntitySet, n: Node) {
    exists p :: p in e.props && RootBy(w, p, n)
  }

  predicate RootBy(w: World, p: Prop, n: Node) {
    p.complex.Some? && p.childTable != "" && n == Node(p.complex.value, w.norm(p.childTable))
  }

  predicate EdgeBy(w: World, a: Node, p: Prop, b: Node) {
    p.complex.Some? && b == Node(p.complex.value, if p.childTable != "" then w.norm(p.childTable) else a.table)
  }

  predicate Edge(w: World, a: Node, b: Node) {
    a.typeName in w.types && exists p :: p in w.types[a.typeName] && EdgeBy(w, a, p, b)
  }

  ghost predicate Path(w: World, path: seq<Node>) {
    path != [] && forall i :: 0 < i < |path| ==> EdgeAt(w, path, i)
  }

  ghost predicate EdgeAt(w: World, path: seq<Node>, i: nat)
    requires 0 < i < |path|
  {
    Edge(w, path[i - 1], path[i])
  }

  ghost predicate Reach(w: World, a: Node, b: Node) {
    exists path :: Path(w, path) && path[0] == a && path[|path| - 1] == b
  }

  /** The pairs the entity reaches. */
  ghost predicate Reachable(w: World, e: EntitySet, n: Node) {
    exists r :: IsRoot(w, e, r) && Reach(w, r, n)
  }

  lemma ReachSelf(w: World, a: Node)
    ensures Reach(w, a, a)
  {
    assert Path(w, [a]);
  }

  lemma ReachOn(w: World, a: Node, b: Node, c: Node)
    requires Edge(w, a, b) && Reach(w, b, c)
    ensures Reach(w, a, c)
  {
    var path :| Path(w, path) && path[0] == b && path[|path| - 1] == c;
    var longer := [a] + path;
    forall i: nat | 0 < i < |longer| ensures EdgeAt(w, longer, i) {
      if i > 1 { assert EdgeAt(w, path, i - 1); }
    }
    assert Path(w, longer);
  }

  /** Every successor of `n` is in `v`. */
  ghost predicate Done(w: World, n: Node, v: set<Node>) {
    forall b :: Edge(w, n, b) ==> b in v
  }

  lemma {:induction false} ClosedHoldsPath(w: World, v: set<Node>, path: seq<Node>)
    requires (forall n :: n in v ==> Done(w, n, v)) && Path(w, path) && path[0] in v
    ensures path[|path| - 1] in v
  {
    if |path| > 1 {
      var shorter := path[..|path| - 1];
      forall i: nat | 0 < i < |shorter| ensures EdgeAt(w, shorter, i) { assert EdgeAt(w, path, i); }
      ClosedHoldsPath(w, v, shorter);
      assert EdgeAt(w, path, |path| - 1);
      assert Done(w, path[|path| - 2], v);
    }
  }

  // ---- A finite universe of pairs, for termination --------------------------------------------------------

  ghost predicate ClosedIn(w: World, all: set<Node>) {
    forall n :: n in all ==> Done(w, n, all)
  }

  ghost function AllProps(types: Types, names: set<string>): set<Prop> {
    set name, p | name in names && name in types && p in types[name] :: p
  }

  ghost function Universe(w: World, e: EntitySet): set<Node> {
    var props := AllProps(w.types, w.types.Keys) + (set p | p in e.props);
    set p, q | p in props && q in props && p.complex.Some? :: Node(p.complex.value, w.norm(q.childTable))
  }

  lemma UniverseCloses(w: World, e: EntitySet)
    ensures ClosedIn(w, Universe(w, e))
    ensures forall n :: IsRoot(w, e, n) ==> n in Universe(w, e)
  {
    var props := AllProps(w.types, w.types.Keys) + (set p | p in e.props);
    forall n, b | n in Universe(w, e) && Edge(w, n, b) ensures b in Universe(w, e) {
      var p, q :| p in props && q in props && p.complex.Some? && n == Node(p.complex.value, w.norm(q.childTable));
      var r :| r in w.types[n.typeName] && EdgeBy(w, n, r, b);
      assert n.typeName in w.types.Keys;
      assert r in AllProps(w.types, w.types.Keys);
    }
  }

  // ---- The collecting walk ------------------------------------------------------------------------------------

  /** What a walk from `start` did to the visited pairs. */
  ghost predicate Walked(w: World, start: Node, v: set<Node>, v': set<Node>) {
    && v <= v'
    && start in v'
    && (forall n :: n in v' && n !in v ==> Reach(w, start, n) && Done(w, n, v'))
  }

  /** In the middle of a walk: `here` has followed its first `i` properties. */
  ghost predicate Walking(w: World, here: Node, visited: set<Node>, v: set<Node>, i: nat)
    requires i <= |PropsOf(w.types, here.typeName)|
  {
    && visited + {here} <= v
    && (forall n :: n in v && n !in visited ==> Reach(w, here, n) && (n == here || Done(w, n, v)))
    && (forall j, b :: 0 <= j < i && EdgeBy(w, here, PropsOf(w.types, here.typeName)[j], b) ==> b in v)
  }

  lemma WalkStarts(w: World, here: Node, visited: set<Node>)
    ensures Walking(w, here, visited, visited + {here}, 0)
  {
    ReachSelf(w, here);
  }

  /** A property of its own leads on, another leads nowhere. */
  lemma WalkGoesOn(w: World, here: Node, visited: set<Node>, v: set<Node>, i: nat, v': set<Node>)
    requires i < |PropsOf(w.types, here.typeName)| && Walking(w, here, visited, v, i)
    requires var p := PropsOf(w.types, here.typeName)[i];
             if p.complex.None? then v' == v
             else
               var table := if p.childTable != "" then w.norm(p.childTable) else here.table;
               Walked(w, Node(p.complex.value, table), v, v')
    ensures Walking(w, here, visited, v', i + 1)
  {
    var props := PropsOf(w.types, here.typeName);
    var p := props[i];
    assert p in props;
    if p.complex.Some? {
      var next := Node(p.complex.value, if p.childTable != "" then w.norm(p.childTable) else here.table);
      assert EdgeBy(w, here, p, next) && Edge(w, here, next);
      forall n | n in v' && n !in visited ensures Reach(w, here, n) && (n == here || Done(w, n, v')) {
        if n !in v { ReachOn(w, here, next, n); }
      }
    }
  }

  lemma WalkEnds(w: World, here: Node, visited: set<Node>, v: set<Node>)
    requires Walking(w, here, visited, v, |PropsOf(w.types, here.typeName)|)
    ensures Walked(w, here, visited, v)
  {
    var props := PropsOf(w.types, here.typeName);
    forall b | Edge(w, here, b) ensures b in v {
      var p :| p in props && EdgeBy(w, here, p, b);
      var j :| 0 <= j < |props| && props[j] == p;
    }
  }

  ghost predicate HasTable(w: World, tables: set<string>, b: Node) {
    exists t :: t in tables && w.norm(t) == b.table
  }

  /** Every pair that one visited meanwhile leads to has its table collected. */
  ghost predicate Collected(w: World, v: set<Node>, v': set<Node>, tables: set<string>) {
    forall n, b :: n in v' && n !in v && Edge(w, n, b) ==> HasTable(w, tables, b)
  }

  /** Every table added is one a visited pair has. */
  ghost predicate OnlyVisited(w: World, tables: set<string>, tables': set<string>, v: set<Node>) {
    forall t :: t in tables' ==> t in tables || HasNode(w, v, t)
  }

  ghost predicate HasNode(w: World, v: set<Node>, t: string) {
    exists n :: n in v && n.table == w.norm(t)
  }

  lemma NodeStays(w: World, v: set<Node>, v': set<Node>, t: string)
    requires HasNode(w, v, t) && v <= v'
    ensures HasNode(w, v', t)
  {
    var n :| n in v && n.table == w.norm(t);
  }

  /** A table goes in, and a walk from it follows. */
  lemma OnlyVisitedOn(w: World, tables: set<string>, had: set<string>, nested: string, tables': set<string>,
                      v: set<Node>, v': set<Node>, next: Node)
    requires OnlyVisited(w, tables, had, v) && OnlyVisited(w, had + {nested}, tables', v') && v <= v'
    requires next in v' && next.table == w.norm(nested)
    ensures OnlyVisited(w, tables, tables', v')
  {
    forall t | t in tables' && t !in tables ensures HasNode(w, v', t) {
      if t in had { NodeStays(w, v, v', t); }
    }
  }

  /** `collectComplexTypeTables`. */
  method CollectTables(w: World, typeName: string, table: string, visited: set<Node>, tables: set<string>,
                       ghost all: set<Node>)
    returns (visited': set<Node>, tables': set<string>)
    requires ClosedIn(w, all) && Node(typeName, w.norm(table)) in all && visited <= all
    ensures visited' <= all && tables <= tables'
    ensures Walked(w, Node(typeName, w.norm(table)), visited, visited')
    ensures Collected(w, visited, visited', tables') && OnlyVisited(w, tables, tables', visited')
    decreases all - visited
  {
    visited', tables' := visited, tables;
    var here := Node(typeName, w.norm(table));
    if here in visited { return; }
    visited' := visited' + {here};
    WalkStarts(w, here, visited);
    var props := PropsOf(w.types, typeName);
    var i := 0;
    while i < |props|
      invariant i <= |props| && visited' <= all && tables <= tables' && Walking(w, here, visited, visited', i)
      invariant forall j, b :: 0 <= j < i && EdgeBy(w, here, props[j], b) ==> HasTable(w, tables', b)
      invariant Collected(w, visited + {here}, visited', tables') && OnlyVisited(w, tables, tables', visited')
    {
      var p := props[i];
      ghost var before := visited';
      if p.complex.Some? {
        var nested := TableOf(p, table);
        ghost var next := Node(p.complex.value, w.norm(nested));
        assert Edge(w, here, next) by { assert p in props && EdgeBy(w, here, p, next); }
        assert Done(w, here, all);
        ghost var had := tables';
        tables' := tables' + {nested};
        visited', tables' := CollectTables(w, p.complex.value, nested, visited', tables', all);
        assert nested in tables' && forall b :: HasTable(w, had, b) ==> HasTable(w, tables', b);
        OnlyVisitedOn(w, tables, had, nested, tables', before, visited', next);
      }
      WalkGoesOn(w, here, visited, before, i, visited');
      i := i + 1;
    }
    WalkEnds(w, here, visited, visited');
    forall b | Edge(w, here, b) ensures HasTable(w, tables', b) {
      var p :| p in props && EdgeBy(w, here, p, b);
      var j :| 0 <= j < |props| && props[j] == p;
    }
  }

  /** After some of the entity's properties: what is visited is reached, and complete. */
  ghost predicate Rooted(w: World, e: EntitySet, v: set<Node>, i: nat)
    requires i <= |e.props|
  {
    && (forall n :: n in v ==> Reachable(w, e, n) && Done(w, n, v))
    && (forall j, r :: 0 <= j < i && RootBy(w, e.props[j], r) ==> r in v)
  }

  lemma RootWalked(w: World, e: EntitySet, v: set<Node>, i: nat, v': set<Node>)
    requires i < |e.props| && Rooted(w, e, v, i)
    requires var p := e.props[i];
             if p.complex.Some? && p.childTable != "" then
               Walked(w, Node(p.complex.value, w.norm(p.childTable)), v, v')
             else v' == v
    ensures Rooted(w, e, v', i + 1)
  {
    var p := e.props[i];
    assert p in e.props;
    if p.complex.Some? && p.childTable != "" {
      var r := Node(p.complex.value, w.norm(p.childTable));
      assert RootBy(w, p, r) && IsRoot(w, e, r);
    }
  }

  /** A walk from every root visits exactly the reachable pairs. */
  lemma VisitedIsReachable(w: World, e: EntitySet, v: set<Node>, n: Node)
    requires Rooted(w, e, v, |e.props|)
    ensures n in v <==> Reachable(w, e, n)
  {
    if Reachable(w, e, n) {
      var r :| IsRoot(w, e, r) && Reach(w, r, n);
      RootVisited(w, e, v, r);
      var path :| Path(w, path) && path[0] == r && path[|path| - 1] == n;
      ClosedHoldsPath(w, v, path);
    }
  }

  lemma RootVisited(w: World, e: EntitySet, v: set<Node>, r: Node)
    requires Rooted(w, e, v, |e.props|) && IsRoot(w, e, r)
    ensures r in v
  {
    var p :| p in e.props && RootBy(w, p, r);
    var j :| 0 <= j < |e.props| && e.props[j] == p;
  }

  /** Every reachable pair's table is among the collected. */
  lemma ReachableHasTable(w: World, e: EntitySet, v: set<Node>, tables: set<string>, n: Node)
    requires Rooted(w, e, v, |e.props|) && Reachable(w, e, n) && Collected(w, {}, v, tables)
    requires forall r :: IsRoot(w, e, r) ==> HasTable(w, tables, r)
    ensures HasTable(w, tables, n)
  {
    var r :| IsRoot(w, e, r) && Reach(w, r, n);
    var path :| Path(w, path) && path[0] == r && path[|path| - 1] == n;
    if |path| > 1 {
      RootVisited(w, e, v, r);
      var shorter := path[..|path| - 1];
      forall i: nat | 0 < i < |shorter| ensures EdgeAt(w, shorter, i) { assert EdgeAt(w, path, i); }
      ClosedHoldsPath(w, v, shorter);
      assert EdgeAt(w, path, |path| - 1);
      assert Edge(w, path[|path| - 2], n);
    }
  }

  /** After some of the entity's properties: what is visited, and the tables it has. */
  ghost predicate Collecting(w: World, e: EntitySet, v: set<Node>, tables: set<string>, i: nat)
    requires i <= |e.props|
  {
    && Rooted(w, e, v, i) && e.table in tables && Collected(w, {}, v, tables) && OnlyVisited(w, {e.table}, tables, v)
    && (forall j, r :: 0 <= j < i && RootBy(w, e.props[j], r) ==> HasTable(w, tables, r))
  }

  lemma CollectsOn(w: World, e: EntitySet, v: set<Node>, tables: set<string>, i: nat, v': set<Node>,
                   tables': set<string>)
    requires i < |e.props| && Collecting(w, e, v, tables, i)
    requires var p := e.props[i];
             if p.complex.Some? && p.childTable != "" then
               && Walked(w, Node(p.complex.value, w.norm(p.childTable)), v, v') && Collected(w, v, v', tables')
               && tables + {p.childTable} <= tables' && OnlyVisited(w, tables + {p.childTable}, tables', v')
             else v' == v && tables' == tables
    ensures Collecting(w, e, v', tables', i + 1)
  {
    var p := e.props[i];
    RootWalked(w, e, v, i, v');
    if p.complex.Some? && p.childTable != "" {
      assert p.childTable in tables' && forall b :: HasTable(w, tables, b) ==> HasTable(w, tables', b);
      OnlyVisitedOn(w, {e.table}, tables, p.childTable, tables', v, v', Node(p.complex.value, w.norm(p.childTable)));
    }
  }

  lemma RootIsRoot(w: World, e: EntitySet, p: Prop)
    requires p in e.props && p.complex.Some? && p.childTable != ""
    ensures IsRoot(w, e, Node(p.complex.value, w.norm(p.childTable)))
  {
    assert RootBy(w, p, Node(p.complex.value, w.norm(p.childTable)));
  }

  lemma AllCollected(w: World, e: EntitySet, v: set<Node>, tables: set<string>)
    requires Collecting(w, e, v, tables, |e.props|)
    ensures forall n :: n in v <==> Reachable(w, e, n)
    ensures forall n :: Reachable(w, e, n) ==> HasTable(w, tables, n)
  {
    forall r | IsRoot(w, e, r) ensures HasTable(w, tables, r) {
      var p :| p in e.props && RootBy(w, p, r);
      var j :| 0 <= j < |e.props| && e.props[j] == p;
    }
    forall n ensures n in v <==> Reachable(w, e, n) { VisitedIsReachable(w, e, v, n); }
    forall n | Reachable(w, e, n) ensures HasTable(w, tables, n) { ReachableHasTable(w, e, v, tables, n); }
  }

  /** The first half of `applyPersonalFieldFlags`: the tables to load. */
  method CollectAll(w: World, e: EntitySet) returns (visited: set<Node>, tables: set<string>)
    ensures forall n :: n in visited <==> Reachable(w, e, n)
    ensures e.table in tables && forall n :: Reachable(w, e, n) ==> HasTable(w, tables, n)
    ensures OnlyVisited(w, {e.table}, tables, visited)
  {
    UniverseCloses(w, e);
    ghost var all := Universe(w, e);
    visited, tables := {}, {e.table};
    var i := 0;
    while i < |e.props|
      invariant i <= |e.props| && visited <= all && Collecting(w, e, visited, tables, i)
    {
      var p := e.props[i];
      ghost var before, had := visited, tables;
      if p.complex.Some? && p.childTable != "" {
        tables := tables + {p.childTable};
        RootIsRoot(w, e, p);
        visited, tables := CollectTables(w, p.complex.value, p.childTable, visited, tables, all);
      }
      CollectsOn(w, e, before, had, i, visited, tables);
      i := i + 1;
    }
    AllCollected(w, e, visited, tables);
  }

  // ---- The manager ------------------------------------------------------------------------------------------------

  /** Whose property: the entity's own, or a complex type's, which is shared by all its uses. */
  datatype Owner = Entity | Complex(name: string)
  type Key = (Owner, string)

  predicate Scalar(w: World, name: string, p: Prop) {
    name in w.types && p in w.types[name] && p.complex.None?
  }

  /** The mark of `k` is the answer for one of the tables its type was visited under. */
  ghost predicate MarkedUnder(w: World, personal: set<(string, string)>, k: Key, value: bool, v: set<Node>,
                              table: string, p: Prop) {
    && k.0.Complex? && Node(k.0.name, table) in v && Scalar(w, k.0.name, p) && p.name == k.1
    && value == ((table, w.norm(p.field)) in personal)
  }

  predicate MarkIs(w: World, personal: set<(string, string)>, name: string, prop: string, value: bool, table: string,
                   p: Prop) {
    Scalar(w, name, p) && p.name == prop && value == ((table, w.norm(p.field)) in personal)
  }

  predicate RootMark(w: World, personal: set<(string, string)>, table: string, prop: string, value: bool, p: Prop) {
    p.complex.None? && p.name == prop && value == ((w.norm(table), w.norm(p.field)) in personal)
  }

  ghost predicate Sound(w: World, personal: set<(string, string)>, marks: map<Key, bool>, k: Key, v: set<Node>) {
    k.0.Complex? && k in marks && exists table, p :: MarkedUnder(w, personal, k, marks[k], v, table, p)
  }

  ghost predicate SameMark(a: map<Key, bool>, b: map<Key, bool>, k: Key) {
    (k in a <==> k in b) && (k in a ==> a[k] == b[k])
  }

  ghost predicate AllMarked(w: World, n: Node, touched: set<Key>) {
    forall p :: Scalar(w, n.typeName, p) ==> (Complex(n.typeName), p.name) in touched
  }

  lemma AllHereMarked(w: World, here: Node, touched: set<Key>)
    requires var props := PropsOf(w.types, here.typeName);
             forall j :: 0 <= j < |props| && props[j].complex.None? ==>
                           (Complex(here.typeName), props[j].name) in touched
    ensures AllMarked(w, here, touched)
  {
    var props := PropsOf(w.types, here.typeName);
    forall p | Scalar(w, here.typeName, p) ensures (Complex(here.typeName), p.name) in touched {
      var j :| 0 <= j < |props| && props[j] == p;
    }
  }

  /** Field `p` of the type of `k`, in one of the tables the entity reaches that type under. */
  ghost predicate Use(w: World, e: EntitySet, k: Key, table: string, p: Prop) {
    k.0.Complex? && Reachable(w, e, Node(k.0.name, table)) && Scalar(w, k.0.name, p) && p.name == k.1
  }

  predicate InTable(w: World, personal: set<(string, string)>, table: string, p: Prop) {
    (table, w.norm(p.field)) in personal
  }

  /** The one mark is the answer for every table. */
  ghost predicate RightEverywhere(w: World, e: EntitySet, personal: set<(string, string)>, k: Key, value: bool) {
    forall table, p :: Use(w, e, k, table, p) ==> value == InTable(w, personal, table, p)
  }

  /** Every table gives the same answer. */
  ghost predicate TablesAgree(w: World, e: EntitySet, personal: set<(string, string)>, k: Key) {
    forall table, p, table', p' :: Use(w, e, k, table, p) && Use(w, e, k, table', p') ==>
      InTable(w, personal, table, p) == InTable(w, personal, table', p')
  }

  /** A mark that is right for one table is right for all, if and only if the tables agree. */
  lemma OneMarkFitsIff(w: World, e: EntitySet, personal: set<(string, string)>, k: Key, value: bool, at: string,
                       q: Prop)
    requires Use(w, e, k, at, q) && value == InTable(w, personal, at, q)
    ensures RightEverywhere(w, e, personal, k, value) <==> TablesAgree(w, e, personal, k)
  {
    if TablesAgree(w, e, personal, k) {
      forall table, p | Use(w, e, k, table, p) ensures value == InTable(w, personal, table, p) {
        assert InTable(w, personal, at, q) == InTable(w, personal, table, p);
      }
    }
  }

  /** The service's answer for a table is about that table. */
  ghost predicate ServiceOk(w: World) {
    forall t, r :: w.service(t).Some? && r in w.service(t).value ==> r.0 == t
  }

  /** The service holds the field of the table to be personal. */
  predicate Held(w: World, table: string, field: string) {
    table != "" && w.service(table).Some? && (table, field) in w.service(table).value
  }

  /** A table of the entity: its own, or one it reaches a type under. */
  ghost predicate HasTableOf(w: World, e: EntitySet, t: string) {
    t == w.norm(e.table) || exists n :: Reachable(w, e, n) && n.table == t
  }

  predicate OwnField(p: Prop, name: string) {
    p.complex.None? && p.name == name
  }

  /** A table whose fields the service does not give, which throws in production. */
  predicate Fails(w: World, table: string) {
    table != "" && w.service(table).None? && w.production
  }

  class Manager {
    var personal: set<(string, string)>
    var loaded: set<string>
    var healthy: bool
    var marks: map<Key, bool>

    constructor ()
      ensures personal == {} && loaded == {} && healthy && marks == map[]
    {
      personal, loaded, healthy, marks := {}, {}, true, map[];
    }

    /** The cache holds what the service says of the tables loaded so far, and nothing else. */
    ghost predicate CacheTrue(w: World)
      reads this`personal, this`loaded
    {
      && (forall t :: t in loaded ==> t != "" && w.service(t).Some?)
      && (forall r :: r in personal <==> r.0 in loaded && Held(w, r.0, r.1))
    }

    /** `ensurePersonalFieldsByTable`; false where it throws. */
    method EnsurePersonalFields(w: World, table: string, force: bool) returns (ok: bool)
      modifies this`personal, this`loaded, this`healthy
      ensures var t := w.norm(table); var asks := t != "" && (force || t !in old(loaded));
              && ok == !(asks && w.service(t).None? && w.production)
              && loaded == (if asks && w.service(t).Some? then old(loaded) + {t} else old(loaded))
              && healthy == (if asks then w.service(t).Some? else old(healthy))
              && forall r :: r in personal <==>
                   if asks && w.service(t).Some? then (r in old(personal) && r.0 != t) || r in w.service(t).value
                   else r in old(personal)
      ensures ServiceOk(w) && old(CacheTrue(w)) ==> CacheTrue(w)
    {
      var t := w.norm(table);
      if t == "" || (!force && t in loaded) { return true; }
      match w.service(t)
      case None =>
        healthy := false;
        ok := !w.production;
      case Some(rows) =>
        personal := (set r | r in personal && r.0 != t) + rows;
        loaded := loaded + {t};
        healthy := true;
        ok := true;
    }

    /** `markComplexTypeProperties`. `touched` collects the marks it set. */
    method MarkType(w: World, typeName: string, table: string, visited: set<Node>, ghost touched: set<Key>,
                    ghost all: set<Node>)
      returns (visited': set<Node>, ghost touched': set<Key>)
      requires ClosedIn(w, all) && Node(typeName, w.norm(table)) in all && visited <= all
      requires forall k :: k in touched ==> Sound(w, personal, marks, k, visited)
      modifies this`marks
      ensures visited' <= all && touched <= touched'
      ensures Walked(w, Node(typeName, w.norm(table)), visited, visited')
      ensures forall k :: k in touched' ==> Sound(w, personal, marks, k, visited')
      ensures forall k :: k !in touched' ==> SameMark(marks, old(marks), k)
      ensures forall n :: n in visited' && n !in visited ==> AllMarked(w, n, touched')
      decreases all - visited, 0
    {
      visited', touched' := visited, touched;
      var here := Node(typeName, w.norm(table));
      if here in visited { return; }
      visited' := visited' + {here};
      WalkStarts(w, here, visited);
      StillSound(w, personal, marks, touched, visited, visited');
      var props := PropsOf(w.types, typeName);
      var i := 0;
      while i < |props|
        invariant i <= |props| && visited' <= all && touched <= touched' && Walking(w, here, visited, visited', i)
        invariant forall k :: k in touched' ==> Sound(w, personal, marks, k, visited')
        invariant forall k :: k !in touched' ==> SameMark(marks, old(marks), k)
        invariant forall n :: n in visited' && n !in visited && n != here ==> AllMarked(w, n, touched')
        invariant forall j :: 0 <= j < i && props[j].complex.None? ==> (Complex(typeName), props[j].name) in touched'
      {
        ghost var before := visited';
        visited', touched' := MarkProp(w, here, i, table, visited', touched', all);
        WalkGoesOn(w, here, visited, before, i, visited');
        i := i + 1;
      }
      WalkEnds(w, here, visited, visited');
      AllHereMarked(w, here, touched');
    }

    /** The loop's body: a complex property is walked, any other marked. */
    method MarkProp(w: World, here: Node, i: nat, table: string, visited: set<Node>, ghost touched: set<Key>,
                    ghost all: set<Node>)
      returns (visited': set<Node>, ghost touched': set<Key>)
      requires ClosedIn(w, all) && here in all && visited <= all && here in visited && here.table == w.norm(table)
      requires i < |PropsOf(w.types, here.typeName)|
      requires forall k :: k in touched ==> Sound(w, personal, marks, k, visited)
      modifies this`marks
      ensures visited' <= all && touched <= touched'
      ensures var p := PropsOf(w.types, here.typeName)[i];
              if p.complex.None? then visited' == visited && (Complex(here.typeName), p.name) in touched'
              else
                var next := if p.childTable != "" then w.norm(p.childTable) else here.table;
                Walked(w, Node(p.complex.value, next), visited, visited')
      ensures forall k :: k in touched' ==> Sound(w, personal, marks, k, visited')
      ensures forall k :: k !in touched' ==> SameMark(marks, old(marks), k)
      ensures forall n :: n in visited' && n !in visited ==> AllMarked(w, n, touched')
      decreases all - visited, 1
    {
      visited', touched' := visited, touched;
      var p := PropsOf(w.types, here.typeName)[i];
      if p.complex.Some? {
        var nested := TableOf(p, table);
        var next := Node(p.complex.value, w.norm(nested));
        assert EdgeBy(w, here, p, next) && Edge(w, here, next);
        assert Done(w, here, all);
        visited', touched' := MarkType(w, p.complex.value, nested, visited, touched, all);
      } else {
        ghost var was := marks;
        var k := (Complex(here.typeName), p.name);
        marks := marks[k := (here.table, w.norm(p.field)) in personal];
        assert MarkedUnder(w, personal, k, marks[k], visited, here.table, p);
        OneMoreMark(w, personal, was, marks, touched, k, visited);
        touched' := touched + {k};
      }
    }

    /** A table's personal fields were loaded, or could not be, which throws in production. A blank table has none. */
    ghost predicate Asked(w: World, table: string)
      reads this`loaded
    {
      table == "" || table in loaded || (w.service(table).None? && !w.production)
    }

    /** The loading loop, in any order. */
    method LoadAll(w: World, tables: set<string>, force: bool) returns (ok: bool)
      modifies this`personal, this`loaded, this`healthy
      ensures ok ==> forall t :: t in tables ==> Asked(w, w.norm(t))
      ensures !ok ==> exists t :: t in tables && Fails(w, w.norm(t))
      ensures ServiceOk(w) && old(CacheTrue(w)) ==> CacheTrue(w)
      ensures old(loaded) <= loaded
    {
      var rest := tables;
      while rest != {}
        invariant rest <= tables && old(loaded) <= loaded
        invariant ServiceOk(w) && old(CacheTrue(w)) ==> CacheTrue(w)
        invariant forall t :: t in tables && t !in rest ==> Asked(w, w.norm(t))
        decreases |rest|
      {
        var t :| t in rest;
        ok := EnsurePersonalFields(w, t, force);
        if !ok { return; }
        rest := rest - {t};
      }
      ok := true;
    }

    /** The mark of `k` is the answer for the entity's table, or for a table its type is reached under. */
    ghost predicate MarkedRight(w: World, e: EntitySet, k: Key)
      reads this`marks, this`personal
    {
      k in marks
      && match k.0
         case Entity => exists p :: p in e.props && RootMark(w, personal, e.table, k.1, marks[k], p)
         case Complex(name) =>
           exists table, p :: Reachable(w, e, Node(name, table)) && MarkIs(w, personal, name, k.1, marks[k], table, p)
    }

    /** The one mark of a shared field is right under every table if and only if those tables agree. */
    ghost predicate FitsIff(w: World, e: EntitySet, k: Key)
      reads this`marks, this`personal
    {
      k in marks && (RightEverywhere(w, e, personal, k, marks[k]) <==> TablesAgree(w, e, personal, k))
    }

    lemma RightFits(w: World, e: EntitySet, k: Key)
      requires k.0.Complex? && MarkedRight(w, e, k)
      ensures FitsIff(w, e, k)
    {
      var table, p :| Reachable(w, e, Node(k.0.name, table)) && MarkIs(w, personal, k.0.name, k.1, marks[k], table, p);
      OneMarkFitsIff(w, e, personal, k, marks[k], table, p);
    }

    /** After the first `i` of the entity's properties: `nested` and `own` hold the marks set since `start`. */
    ghost predicate Marking(w: World, e: EntitySet, start: map<Key, bool>, visited: set<Node>, nested: set<Key>,
                            own: set<Key>, i: nat)
      requires i <= |e.props|
      reads this`marks, this`personal
    {
      && Rooted(w, e, visited, i)
      && (forall k :: k in nested ==> Sound(w, personal, marks, k, visited))
      && (forall k :: k in own ==> k.0.Entity? && MarkedRight(w, e, k))
      && (forall k :: k !in nested && k !in own ==> SameMark(marks, start, k))
      && (forall n :: n in visited ==> AllMarked(w, n, nested))
      && (forall j :: 0 <= j < i && e.props[j].complex.None? ==> (Entity, e.props[j].name) in own)
    }

    /** The entity's own complex property, in the table it names. */
    method MarkRoot(w: World, e: EntitySet, i: nat, visited: set<Node>, ghost nested: set<Key>, ghost own: set<Key>,
                    ghost start: map<Key, bool>, ghost all: set<Node>)
      returns (visited': set<Node>, ghost nested': set<Key>)
      requires i < |e.props| && e.props[i].complex.Some? && e.props[i].childTable != ""
      requires visited <= all && ClosedIn(w, all) && (forall n :: IsRoot(w, e, n) ==> n in all)
      requires Marking(w, e, start, visited, nested, own, i)
      modifies this`marks
      ensures visited' <= all && Marking(w, e, start, visited', nested', own, i + 1)
    {
      var p := e.props[i];
      assert p in e.props;
      ghost var was := marks;
      assert RootBy(w, p, Node(p.complex.value, w.norm(p.childTable)))
          && IsRoot(w, e, Node(p.complex.value, w.norm(p.childTable)));
      visited', nested' := MarkType(w, p.complex.value, p.childTable, visited, nested, all);
      RootWalked(w, e, visited, i, visited');
      forall k | k in own ensures MarkedRight(w, e, k) { assert SameMark(marks, was, k); }
    }

    /** A field of the entity itself. */
    method MarkOwn(w: World, e: EntitySet, i: nat, visited: set<Node>, ghost nested: set<Key>, ghost own: set<Key>,
                   ghost start: map<Key, bool>)
      requires i < |e.props| && e.props[i].complex.None? && Marking(w, e, start, visited, nested, own, i)
      modifies this`marks
      ensures Marking(w, e, start, visited, nested, own + {(Entity, e.props[i].name)}, i + 1)
    {
      var p := e.props[i];
      assert p in e.props;
      ghost var was := marks;
      marks := marks[(Entity, p.name) := (w.norm(e.table), w.norm(p.field)) in personal];
      assert RootMark(w, personal, e.table, p.name, marks[(Entity, p.name)], p);
      OwnMark(w, personal, was, marks, nested, p.name, visited);
      RootWalked(w, e, visited, i, visited);
    }

    /** The second half of `applyPersonalFieldFlags`. */
    method MarkAll(w: World, e: EntitySet) returns (ghost touched: set<Key>)
      modifies this`marks
      ensures forall n, p :: Reachable(w, e, n) && Scalar(w, n.typeName, p) ==> (Complex(n.typeName), p.name) in touched
      ensures forall p :: p in e.props && p.complex.None? ==> (Entity, p.name) in touched
      ensures forall k :: k in touched ==> MarkedRight(w, e, k)
      ensures forall k :: k in touched && k.0.Complex? ==> FitsIff(w, e, k)
      ensures forall k :: k !in touched ==> SameMark(marks, old(marks), k)
    {
      UniverseCloses(w, e);
      ghost var all, start := Universe(w, e), marks;
      var visited: set<Node> := {};
      ghost var nested: set<Key>, own: set<Key> := {}, {};
      var i := 0;
      while i < |e.props|
        invariant i <= |e.props| && visited <= all && Marking(w, e, start, visited, nested, own, i)
      {
        var p := e.props[i];
        if p.complex.None? {
          MarkOwn(w, e, i, visited, nested, own, start);
          own := own + {(Entity, p.name)};
        } else if p.childTable != "" {
          visited, nested := MarkRoot(w, e, i, visited, nested, own, start, all);
        } else {
          RootWalked(w, e, visited, i, visited);
        }
        i := i + 1;
      }
      touched := nested + own;
      MarkedEverything(w, e, visited, nested, own);
      forall k | k in nested ensures MarkedRight(w, e, k) {
        var table, p :| MarkedUnder(w, personal, k, marks[k], visited, table, p);
        assert Reachable(w, e, Node(k.0.name, table)) && MarkIs(w, personal, k.0.name, k.1, marks[k], table, p);
      }
      forall k | k in touched && k.0.Complex? ensures FitsIff(w, e, k) { RightFits(w, e, k); }
    }

    /** The mark of `k` is the service's own answer for the entity's table, or for one its type is reached under. */
    ghost predicate SaidByService(w: World, e: EntitySet, k: Key)
      reads this`marks
    {
      && k in marks
      && match k.0
         case Entity =>
           exists p :: p in e.props && OwnField(p, k.1) && marks[k] == Held(w, w.norm(e.table), w.norm(p.field))
         case Complex(name) =>
           exists table, p :: Use(w, e, k, table, p) && marks[k] == Held(w, table, w.norm(p.field))
    }

    lemma CacheSays(w: World, table: string, field: string)
      requires CacheTrue(w) && Asked(w, table)
      ensures (table, field) in personal <==> Held(w, table, field)
    {
      assert (table, field) in personal <==> (table, field).0 in loaded && Held(w, (table, field).0, (table, field).1);
    }

    lemma MarkIsService(w: World, e: EntitySet, k: Key)
      requires CacheTrue(w) && MarkedRight(w, e, k)
      requires Asked(w, w.norm(e.table)) && forall n :: Reachable(w, e, n) ==> Asked(w, n.table)
      ensures SaidByService(w, e, k)
    {
      match k.0
      case Entity =>
        var p :| p in e.props && RootMark(w, personal, e.table, k.1, marks[k], p);
        CacheSays(w, w.norm(e.table), w.norm(p.field));
      case Complex(name) =>
        var table, p :| Reachable(w, e, Node(name, table)) && MarkIs(w, personal, name, k.1, marks[k], table, p);
        CacheSays(w, table, w.norm(p.field));
        assert Use(w, e, k, table, p);
    }

    /**
     `applyPersonalFieldFlags`; false only where loading one of the tables throws, and then nothing is marked.
     Otherwise every field of the entity, and of every type it reaches, is matched, each against a table that was asked
     for first, and nothing else is marked. A true cache stays true, and then each mark is the service's own answer.
     */
    method ApplyPersonalFieldFlags(w: World, e: EntitySet, force: bool) returns (ok: bool, ghost touched: set<Key>)
      modifies this
      ensures e.table == "" || !ok ==> marks == old(marks) && touched == {}
      ensures ok && e.table != "" ==>
                && Asked(w, w.norm(e.table)) && (forall n :: Reachable(w, e, n) ==> Asked(w, n.table))
                && (forall n, p ::
                    Reachable(w, e, n) && Scalar(w, n.typeName, p) ==> (Complex(n.typeName), p.name) in touched)
                && (forall p :: p in e.props && p.complex.None? ==> (Entity, p.name) in touched)
                && (forall k :: k in touched ==> MarkedRight(w, e, k))
                && (forall k :: k in touched && k.0.Complex? ==> FitsIff(w, e, k))
      ensures forall k :: k !in touched ==> SameMark(marks, old(marks), k)
      ensures !ok ==> exists t :: Fails(w, t) && HasTableOf(w, e, t)
      ensures ServiceOk(w) && old(CacheTrue(w)) ==>
                CacheTrue(w) && (ok && e.table != "" ==> forall k :: k in touched ==> SaidByService(w, e, k))
    {
      ok, touched := true, {};
      if e.table != "" {
        var visited, tables := CollectAll(w, e);
        ok := LoadAll(w, tables, force);
        if ok {
          assert forall n :: Reachable(w, e, n) ==> HasTable(w, tables, n);
          touched := MarkAll(w, e);
          if ServiceOk(w) && old(CacheTrue(w)) {
            forall k | k in touched ensures SaidByService(w, e, k) { MarkIsService(w, e, k); }
          }
        } else {
          var t :| t in tables && Fails(w, w.norm(t));
          assert HasTableOf(w, e, w.norm(t));
        }
      }
    }
  }

  lemma MarkedEverything(w: World, e: EntitySet, visited: set<Node>, nested: set<Key>, own: set<Key>)
    requires Rooted(w, e, visited, |e.props|) && (forall n :: n in visited ==> AllMarked(w, n, nested))
    requires forall j :: 0 <= j < |e.props| && e.props[j].complex.None? ==> (Entity, e.props[j].name) in own
    ensures forall n, p :: Reachable(w, e, n) && Scalar(w, n.typeName, p) ==> (Complex(n.typeName), p.name) in nested
    ensures forall p :: p in e.props && p.complex.None? ==> (Entity, p.name) in own
  {
    forall n, p | Reachable(w, e, n) && Scalar(w, n.typeName, p) ensures (Complex(n.typeName), p.name) in nested {
      VisitedIsReachable(w, e, visited, n);
      assert AllMarked(w, n, nested);
    }
    forall p | p in e.props && p.complex.None? ensures (Entity, p.name) in own {
      var j :| 0 <= j < |e.props| && e.props[j] == p;
    }
  }

  lemma OwnMark(w: World, personal: set<(string, string)>, was: map<Key, bool>, marks: map<Key, bool>,
                touched: set<Key>, name: string, v: set<Node>)
    requires forall x :: x in touched ==> Sound(w, personal, was, x, v)
    requires (Entity, name) in marks && marks == was[(Entity, name) := marks[(Entity, name)]]
    ensures forall x :: x in touched ==> Sound(w, personal, marks, x, v)
  {
    forall x | x in touched ensures Sound(w, personal, marks, x, v) {
      var table, p :| MarkedUnder(w, personal, x, was[x], v, table, p);
      assert MarkedUnder(w, personal, x, marks[x], v, table, p);
    }
  }

  lemma StillSound(w: World, personal: set<(string, string)>, marks: map<Key, bool>, touched: set<Key>, v: set<Node>,
                   v': set<Node>)
    requires v <= v' && forall k :: k in touched ==> Sound(w, personal, marks, k, v)
    ensures forall k :: k in touched ==> Sound(w, personal, marks, k, v')
  {
    forall k | k in touched ensures Sound(w, personal, marks, k, v') {
      var table, p :| MarkedUnder(w, personal, k, marks[k], v, table, p);
      assert MarkedUnder(w, personal, k, marks[k], v', table, p);
    }
  }

  lemma OneMoreMark(w: World, personal: set<(string, string)>, was: map<Key, bool>, marks: map<Key, bool>,
                    touched: set<Key>, k: Key, v: set<Node>)
    requires forall x :: x in touched ==> Sound(w, personal, was, x, v)
    requires k in marks && marks == was[k := marks[k]] && Sound(w, personal, marks, k, v)
    ensures forall x :: x in touched + {k} ==> Sound(w, personal, marks, x, v)
  {
    forall x | x in touched && x != k ensures Sound(w, personal, marks, x, v) {
      var table, p :| MarkedUnder(w, personal, x, was[x], v, table, p);
      assert MarkedUnder(w, personal, x, marks[x], v, table, p);
    }
  }
}
