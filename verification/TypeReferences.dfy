/**
 Where a structural type is used in an entity (b1-mcp-server/src/tools/b1-schema-execute-handlers.ts
 `resolveStructuralTypeReferences`). The walk carries the types it came through and does not enter one of
 them again, so it ends on any cyclic type graph.
 */
module TypeReferences {
  import opened Options

  datatype Prop = Prop(name: string, complex: Option<string>, isArray: bool)
  type Types = map<string, seq<Prop>>

  /** A chain of properties, each of the type of the one before. */
  type Chain = seq<Prop>

  datatype Reference = Reference(
    prop: Prop, path: seq<string>, parentPath: seq<string>, parentType: Option<string>, depth: nat)

  ghost predicate OnceNamed(props: seq<Prop>) {
    forall i, j :: 0 <= i < j < |props| ==> props[i].name != props[j].name
  }

  ghost predicate TypesOk(types: Types) {
    forall k :: k in types ==> OnceNamed(types[k])
  }

  /** `collectStructuralProperties`. */
  function Structural(props: seq<Prop>): (r: seq<Prop>)
    ensures forall p :: p in r <==> p in props && p.complex.Some?
  {
    if props == [] then []
    else (if props[0].complex.Some? then [props[0]] else []) + Structural(props[1..])
  }

  function Nested(types: Types, name: string): seq<Prop> {
    if name in types then Structural(types[name]) else []
  }

  function TypeOf(p: Prop): string {
    if p.complex.Some? then p.complex.value else ""
  }

  function TypeNames(c: Chain): seq<string> {
    seq(|c|, i requires 0 <= i < |c| => TypeOf(c[i]))
  }

  function Names(c: Chain): seq<string> {
    seq(|c|, i requires 0 <= i < |c| => c[i].name)
  }

  function RefOf(c: Chain): Reference
    requires c != []
  {
    var before := c[..|c| - 1];
    var parentType := if before == [] then None else Some(TypeNames(before)[|before| - 1]);
    Reference(c[|c| - 1], Names(c), Names(before), parentType, |c|)
  }

  // ---- The walk, as the list of chains it visits ------------------------------------------------------

  function Unseen(types: Types, ancestry: seq<string>): set<string> {
    types.Keys - (set t | t in ancestry)
  }

  function Visited(types: Types, props: seq<Prop>, c: Chain): seq<Chain>
    requires forall p :: p in props ==> p.complex.Some?
    decreases Unseen(types, TypeNames(c)), |props|
  {
    if props == [] then []
    else
      var p := props[0];
      var here := c + [p];
      assert TypeNames(here) == TypeNames(c) + [p.complex.value];
      assert p in props;
      [here]
        + (if p.complex.value in TypeNames(c) || p.complex.value !in types then []
           else
             assert p.complex.value in Unseen(types, TypeNames(c))
                 && p.complex.value !in Unseen(types, TypeNames(here));
             Visited(types, Nested(types, p.complex.value), here))
        + Visited(types, props[1..], c)
  }

  function Refs(target: string, visited: seq<Chain>): seq<Reference> {
    if visited == [] then []
    else (if EndsIn(visited[0], target) then [RefOf(visited[0])] else []) + Refs(target, visited[1..])
  }

  predicate EndsIn(c: Chain, name: string) {
    c != [] && c[|c| - 1].complex == Some(name)
  }

  function Available(visited: seq<Chain>): set<string> {
    if visited == [] then {} else {LastType(visited[0])} + Available(visited[1..])
  }

  function LastType(c: Chain): string {
    if c == [] then "" else TypeOf(c[|c| - 1])
  }

  // ---- What is visited -----------------------------------------------------------------------------------

  ghost predicate Apart(names: seq<string>) {
    forall i, j :: 0 <= i < j < |names| ==> names[i] != names[j]
  }

  /** Each link is a property of the type the link before it has. */
  ghost predicate Linked(types: Types, c: Chain, from: nat) {
    forall i :: from < i < |c| ==> LinkAt(types, c, i)
  }

  ghost predicate LinkAt(types: Types, c: Chain, i: nat)
    requires 0 < i < |c|
  {
    && c[i].complex.Some? && c[i - 1].complex.Some?
    && c[i - 1].complex.value in types && c[i] in types[c[i - 1].complex.value]
  }

  /** `d` goes on from `c` through one of `props`, and the types before its end are pairwise distinct. */
  ghost predicate GoesOn(types: Types, props: seq<Prop>, c: Chain, d: Chain) {
    |d| > |c| && d[..|c|] == c && d[|c|] in props && Linked(types, d, |c|) && Apart(TypeNames(d[..|d| - 1]))
  }

  lemma TypeNamesMore(c: Chain, p: Prop)
    requires p.complex.Some?
    ensures TypeNames(c + [p]) == TypeNames(c) + [p.complex.value]
  {
  }

  /** The links of a chain that passes `p`, from behind it. */
  lemma GoesOnBehind(types: Types, props: seq<Prop>, c: Chain, p: Prop, d: Chain)
    requires p in props && p.complex.Some? && Apart(TypeNames(c)) && d != c + [p]
    ensures GoesOn(types, Nested(types, p.complex.value), c + [p], d) ==> GoesOn(types, props, c, d) && d[|c|] == p
    ensures GoesOn(types, props, c, d) && d[|c|] == p ==>
              GoesOn(types, Nested(types, p.complex.value), c + [p], d) && p.complex.value !in TypeNames(c)
                  && p.complex.value in types
  {
    var here := c + [p];
    if GoesOn(types, Nested(types, p.complex.value), here, d) {
      assert d[..|c|] == d[..|here|][..|c|] == c;
      assert d[|c|] == d[..|here|][|c|] == p;
      forall i: nat | |c| < i < |d| ensures LinkAt(types, d, i) {}
    }
    if GoesOn(types, props, c, d) && d[|c|] == p {
      assert d[..|here|] == here;
      assert |d| == |here| ==> d == here;
      assert LinkAt(types, d, |here|);
      var before := TypeNames(d[..|d| - 1]);
      assert before[|c|] == p.complex.value;
      forall k | 0 <= k < |c| ensures TypeNames(c)[k] != p.complex.value { assert before[k] == TypeNames(c)[k]; }
    }
  }

  /** Exactly the chains that go on from `c` through `props`. */
  lemma {:induction false} VisitedIff(types: Types, props: seq<Prop>, c: Chain, d: Chain)
    requires (forall p :: p in props ==> p.complex.Some?) && Apart(TypeNames(c))
    ensures d in Visited(types, props, c) <==> GoesOn(types, props, c, d)
    decreases Unseen(types, TypeNames(c)), |props|
  {
    if props != [] {
      var p := props[0];
      var here := c + [p];
      TypeNamesMore(c, p);
      assert p in props && props == [p] + props[1..];
      VisitedIff(types, props[1..], c, d);
      assert here[..|here| - 1] == c && here[..|c|] == c;
      if !(p.complex.value in TypeNames(c) || p.complex.value !in types) {
        assert p.complex.value in Unseen(types, TypeNames(c)) && p.complex.value !in Unseen(types, TypeNames(here));
        VisitedIff(types, Nested(types, p.complex.value), here, d);
      }
      if d != here { GoesOnBehind(types, props, c, p, d); }
    }
  }

  ghost predicate Once(visited: seq<Chain>) {
    forall i, j :: 0 <= i < j < |visited| ==> visited[i] != visited[j]
  }

  lemma OnceJoined(a: seq<Chain>, b: seq<Chain>)
    requires Once(a) && Once(b) && forall d :: d in a ==> d !in b
    ensures Once(a + b)
  {
    forall i, j | 0 <= i < j < |a + b| ensures (a + b)[i] != (a + b)[j] {
      if i < |a| && j >= |a| { assert (a + b)[i] in a && (a + b)[j] in b; }
    }
  }

  lemma {:induction false} StructuralOnce(props: seq<Prop>)
    requires OnceNamed(props)
    ensures OnceNamed(Structural(props))
  {
    if props != [] {
      StructuralOnce(props[1..]);
      forall p | p in Structural(props[1..]) ensures p.name != props[0].name {
        var i :| 0 <= i < |props[1..]| && props[1..][i] == p;
        assert props[i + 1] == p;
      }
    }
  }

  /** No chain is visited twice. */
  lemma {:induction false} VisitedOnce(types: Types, props: seq<Prop>, c: Chain)
    requires TypesOk(types) && OnceNamed(props) && (forall p :: p in props ==> p.complex.Some?) && Apart(TypeNames(c))
    ensures Once(Visited(types, props, c))
    decreases Unseen(types, TypeNames(c)), |props|
  {
    if props != [] {
      var p := props[0];
      var here := c + [p];
      TypeNamesMore(c, p);
      assert p in props;
      var rest := Visited(types, props[1..], c);
      VisitedOnce(types, props[1..], c);
      var deeper := [];
      if !(p.complex.value in TypeNames(c) || p.complex.value !in types) {
        assert p.complex.value in Unseen(types, TypeNames(c)) && p.complex.value !in Unseen(types, TypeNames(here));
        StructuralOnce(types[p.complex.value]);
        VisitedOnce(types, Nested(types, p.complex.value), here);
        deeper := Visited(types, Nested(types, p.complex.value), here);
        forall d | d in deeper ensures |d| > |here| && d[|c|] == p {
          VisitedIff(types, Nested(types, p.complex.value), here, d);
          assert d[..|here|][|c|] == d[|c|];
        }
      }
      forall d | d in rest ensures |d| > |c| && d[|c|] != p {
        VisitedIff(types, props[1..], c, d);
        var i :| 0 <= i < |props[1..]| && props[1..][i] == d[|c|];
        assert props[i + 1] == d[|c|];
      }
      OnceJoined([here], deeper);
      OnceJoined([here] + deeper, rest);
    }
  }

  // ---- References and available types, said without the walk -------------------------------------------------

  /** A chain of structural properties from the entity on; its types may repeat. */
  ghost predicate IsChain(types: Types, root: seq<Prop>, c: Chain) {
    c != [] && c[0] in root && c[0].complex.Some? && Linked(types, c, 0)
  }

  /** A use of `target`: a chain that ends in it, through pairwise distinct types. */
  ghost predicate IsUse(types: Types, root: seq<Prop>, target: string, c: Chain) {
    && IsChain(types, root, c) && c[|c| - 1].complex == Some(target)
    && forall i, j :: 0 <= i < j < |c| - 1 ==> c[i].complex != c[j].complex
  }

  /** What is said of a use: its property, the names on its path, its parent's path and type, and its depth. */
  ghost predicate Describes(r: Reference, c: Chain) {
    && c != [] && r.prop == c[|c| - 1] && r.depth == |c| == |r.path|
    && (forall i :: 0 <= i < |c| ==> r.path[i] == c[i].name)
    && r.parentPath == r.path[..|c| - 1]
    && r.parentType == if |c| == 1 then None else c[|c| - 2].complex
  }

  function AllVisited(types: Types, root: seq<Prop>): seq<Chain> {
    Visited(types, Structural(root), [])
  }

  lemma AllVisitedIff(types: Types, root: seq<Prop>, c: Chain)
    ensures c in AllVisited(types, root) <==> IsChain(types, root, c) && Apart(TypeNames(c[..|c| - 1]))
  {
    VisitedIff(types, Structural(root), [], c);
    if c != [] { assert c[..0] == []; }
  }

  lemma SameNameSame(props: seq<Prop>, p: Prop, q: Prop)
    requires OnceNamed(props) && p in props && q in props && p.name == q.name
    ensures p == q
  {
  }

  lemma SameLink(types: Types, before: Prop, p: Prop, q: Prop)
    requires TypesOk(types) && p in Nested(types, TypeOf(before)) && q in Nested(types, TypeOf(before))
    requires p.name == q.name
    ensures p == q
  {
    StructuralOnce(types[TypeOf(before)]);
    SameNameSame(Structural(types[TypeOf(before)]), p, q);
  }

  lemma NamesAt(c: Chain, d: Chain, n: nat)
    requires Names(c) == Names(d)
    ensures |c| == |d| && (n < |c| ==> c[n].name == d[n].name)
  {
    assert |Names(c)| == |c| && |Names(d)| == |d|;
    if n < |c| { assert c[n].name == Names(c)[n] == Names(d)[n] == d[n].name; }
  }

  /** Names determine a chain, link by link. */
  lemma {:induction false} NamesTellApart(types: Types, root: seq<Prop>, c: Chain, d: Chain, n: nat)
    requires TypesOk(types) && OnceNamed(root) && IsChain(types, root, c) && IsChain(types, root, d)
    requires Names(c) == Names(d)
    requires n < |c|
    ensures |d| == |c| && c[n] == d[n]
  {
    NamesAt(c, d, n);
    if n == 0 {
      StructuralOnce(root);
      SameNameSame(Structural(root), c[0], d[0]);
    } else {
      NamesTellApart(types, root, c, d, n - 1);
      assert LinkAt(types, c, n) && LinkAt(types, d, n);
      SameLink(types, c[n - 1], c[n], d[n]);
    }
  }

  lemma SameNamesSameChain(types: Types, root: seq<Prop>, c: Chain, d: Chain)
    requires TypesOk(types) && OnceNamed(root) && IsChain(types, root, c) && IsChain(types, root, d)
    requires Names(c) == Names(d)
    ensures c == d
  {
    NamesAt(c, d, 0);
    forall n: nat | n < |c| ensures c[n] == d[n] { NamesTellApart(types, root, c, d, n); }
  }

  lemma {:induction false} RefsAre(target: string, visited: seq<Chain>, r: Reference)
    ensures r in Refs(target, visited) <==> exists c: Chain :: c in visited && EndsIn(c, target) && r == RefOf(c)
  {
    if visited != [] {
      RefsAre(target, visited[1..], r);
      assert visited == [visited[0]] + visited[1..];
    }
  }

  ghost predicate PathsApart(refs: seq<Reference>) {
    forall i, j :: 0 <= i < j < |refs| ==> refs[i].path != refs[j].path
  }

  lemma {:induction false} RefPathsApart(types: Types, root: seq<Prop>, target: string, visited: seq<Chain>)
    requires TypesOk(types) && OnceNamed(root) && Once(visited) && forall c :: c in visited ==> IsChain(types, root, c)
    ensures PathsApart(Refs(target, visited))
  {
    if visited != [] {
      var rest := Refs(target, visited[1..]);
      assert visited == [visited[0]] + visited[1..];
      RefPathsApart(types, root, target, visited[1..]);
      forall r | r in rest ensures r.path != Names(visited[0]) {
        RefsAre(target, visited[1..], r);
        var c: Chain :| c in visited[1..] && EndsIn(c, target) && r == RefOf(c);
        OtherNames(types, root, visited, c);
      }
    }
  }

  lemma OtherNames(types: Types, root: seq<Prop>, visited: seq<Chain>, c: Chain)
    requires TypesOk(types) && OnceNamed(root) && visited != [] && Once(visited) && c in visited[1..]
    requires IsChain(types, root, c) && IsChain(types, root, visited[0])
    ensures Names(c) != Names(visited[0])
  {
    var i :| 0 <= i < |visited[1..]| && visited[1..][i] == c;
    assert visited[i + 1] == c && visited[0] != visited[i + 1];
    if Names(c) == Names(visited[0]) { SameNamesSameChain(types, root, c, visited[0]); }
  }

  lemma ChainIsTyped(types: Types, root: seq<Prop>, c: Chain, i: nat)
    requires IsChain(types, root, c) && i < |c|
    ensures c[i].complex.Some?
  {
    if i > 0 { assert LinkAt(types, c, i); }
  }

  lemma UsesAre(types: Types, root: seq<Prop>, target: string, c: Chain)
    ensures IsUse(types, root, target, c) <==>
              IsChain(types, root, c) && Apart(TypeNames(c[..|c| - 1])) && EndsIn(c, target)
  {
    if IsChain(types, root, c) {
      var before := TypeNames(c[..|c| - 1]);
      forall i | 0 <= i < |c| - 1 ensures c[i].complex == Some(before[i]) { ChainIsTyped(types, root, c, i); }
    }
  }

  lemma Described(types: Types, root: seq<Prop>, c: Chain, r: Reference)
    requires IsChain(types, root, c)
    ensures r == RefOf(c) <==> Describes(r, c)
  {
    assert Names(c)[..|c| - 1] == Names(c[..|c| - 1]);
    if |c| > 1 { ChainIsTyped(types, root, c, |c| - 2); }
    if Describes(r, c) { assert r.path == Names(c); }
  }

  /** The references are the uses of the target, each listed once, under a path of its own. */
  lemma EachUseOnce(types: Types, root: seq<Prop>, target: string)
    requires TypesOk(types) && OnceNamed(root)
    ensures var refs := Refs(target, AllVisited(types, root));
            && (forall r :: r in refs <==> exists c :: IsUse(types, root, target, c) && Describes(r, c))
            && PathsApart(refs)
  {
    var v := AllVisited(types, root);
    forall c | c in v ensures IsChain(types, root, c) { AllVisitedIff(types, root, c); }
    StructuralOnce(root);
    VisitedOnce(types, Structural(root), []);
    RefPathsApart(types, root, target, v);
    forall r ensures r in Refs(target, v) <==> exists c :: IsUse(types, root, target, c) && Describes(r, c) {
      RefsAre(target, v, r);
      if c: Chain :| c in v && EndsIn(c, target) && r == RefOf(c) {
        AllVisitedIff(types, root, c);
        UsesAre(types, root, target, c);
        Described(types, root, c, r);
      }
      if c :| IsUse(types, root, target, c) && Describes(r, c) {
        AllVisitedIff(types, root, c);
        UsesAre(types, root, target, c);
        Described(types, root, c, r);
      }
    }
  }

  // ---- Reachable types ------------------------------------------------------------------------------------------

  lemma {:induction false} AvailableAre(visited: seq<Chain>, name: string)
    ensures name in Available(visited) <==> exists c :: c in visited && LastType(c) == name
  {
    if visited != [] {
      AvailableAre(visited[1..], name);
      assert visited == [visited[0]] + visited[1..];
    }
  }

  /** A chain that comes through one type twice can leave out the loop. */
  lemma CutLoop(types: Types, root: seq<Prop>, c: Chain, i: nat, j: nat) returns (d: Chain)
    requires IsChain(types, root, c) && i < j < |c| - 1 && TypeOf(c[i]) == TypeOf(c[j])
    ensures IsChain(types, root, d) && |d| < |c| && LastType(d) == LastType(c)
  {
    d := c[..i + 1] + c[j + 1..];
    ChainIsTyped(types, root, c, i);
    forall k: nat | 0 < k < |d| ensures LinkAt(types, d, k) {
      if k <= i {
        assert LinkAt(types, c, k);
      } else {
        assert LinkAt(types, c, k + j - i);
      }
    }
  }

  lemma {:induction false} StraightChain(types: Types, root: seq<Prop>, c: Chain) returns (d: Chain)
    requires IsChain(types, root, c)
    ensures IsChain(types, root, d) && LastType(d) == LastType(c) && Apart(TypeNames(d[..|d| - 1]))
    decreases |c|
  {
    d := c;
    var before := TypeNames(c[..|c| - 1]);
    if i, j :| 0 <= i < j < |before| && before[i] == before[j] {
      d := CutLoop(types, root, c, i, j);
      d := StraightChain(types, root, d);
    }
  }

  /** The available types are exactly those some chain reaches, however often it comes through a type. */
  lemma AvailableIsReachable(types: Types, root: seq<Prop>, name: string)
    ensures name in Available(AllVisited(types, root)) <==>
              exists c: Chain :: IsChain(types, root, c) && c[|c| - 1].complex == Some(name)
  {
    var v := AllVisited(types, root);
    AvailableAre(v, name);
    if c :| c in v && LastType(c) == name {
      AllVisitedIff(types, root, c);
      ChainIsTyped(types, root, c, |c| - 1);
    }
    if c: Chain :| IsChain(types, root, c) && c[|c| - 1].complex == Some(name) {
      var d := StraightChain(types, root, c);
      AllVisitedIff(types, root, d);
    }
  }

  // ---- The walk itself --------------------------------------------------------------------------------------------

  lemma HeadOfJoined(a: seq<Chain>, b: seq<Chain>)
    requires a != []
    ensures (a + b)[0] == a[0] && (a + b)[1..] == a[1..] + b && a + b != []
  {
  }

  lemma {:induction false} RefsConcat(target: string, a: seq<Chain>, b: seq<Chain>)
    ensures Refs(target, a + b) == Refs(target, a) + Refs(target, b)
  {
    if a == [] {
      assert a + b == b;
    } else {
      HeadOfJoined(a, b);
      RefsConcat(target, a[1..], b);
      var head := if EndsIn(a[0], target) then [RefOf(a[0])] else [];
      Assoc(head, Refs(target, a[1..]), Refs(target, b));
    }
  }

  lemma {:induction false} AvailableConcat(a: seq<Chain>, b: seq<Chain>)
    ensures Available(a + b) == Available(a) + Available(b)
  {
    if a == [] {
      assert a + b == b;
    } else {
      HeadOfJoined(a, b);
      AvailableConcat(a[1..], b);
    }
  }

  lemma RefsJoined(target: string, a: seq<Chain>, b: seq<Chain>)
    ensures Refs(target, a + b) == Refs(target, a) + Refs(target, b)
    ensures Available(a + b) == Available(a) + Available(b)
  {
    RefsConcat(target, a, b);
    AvailableConcat(a, b);
  }

  /** The chains a property's own type leads to, unless the walk came through that type. */
  function Deeper(types: Types, p: Prop, c: Chain): seq<Chain>
    requires p.complex.Some?
  {
    if TypeOf(p) in TypeNames(c) || TypeOf(p) !in types then [] else Visited(types, Nested(types, TypeOf(p)), c + [p])
  }

  /** What one property adds to the references and available types, before those after it. */
  lemma VisitedFirst(types: Types, target: string, props: seq<Prop>, c: Chain)
    requires props != [] && forall p :: p in props ==> p.complex.Some?
    ensures props[0] in props
    ensures var v := [c + [props[0]]] + Deeper(types, props[0], c);
            && Refs(target, Visited(types, props, c)) == Refs(target, v) + Refs(target, Visited(types, props[1..], c))
            && Available(Visited(types, props, c)) == Available(v) + Available(Visited(types, props[1..], c))
  {
    var p := props[0];
    assert p in props;
    var v := [c + [p]] + Deeper(types, p, c);
    assert Visited(types, props, c) == v + Visited(types, props[1..], c);
    RefsJoined(target, v, Visited(types, props[1..], c));
  }

  lemma OneFurther(c: Chain, p: Prop)
    requires p.complex.Some?
    ensures var here := c + [p];
            && Names(here) == Names(c) + [p.name] && TypeNames(here) == TypeNames(c) + [p.complex.value]
            && LastType(here) == p.complex.value && here != []
            && (forall name :: EndsIn(here, name) <==> name == p.complex.value)
            && var parentType := if c == [] then None else Some(LastType(c));
               RefOf(here) == Reference(p, Names(c) + [p.name], Names(c), parentType, |TypeNames(c)| + 1)
  {
    var here := c + [p];
    assert here[..|here| - 1] == c;
  }

  lemma HereFirst(target: string, here: Chain, deeper: seq<Chain>)
    ensures Refs(target, [here] + deeper) == (if EndsIn(here, target) then [RefOf(here)] else []) + Refs(target, deeper)
    ensures Available([here] + deeper) == {LastType(here)} + Available(deeper)
  {
    assert ([here] + deeper)[1..] == deeper;
  }

  lemma Assoc<T>(a: seq<T>, b: seq<T>, c: seq<T>)
    ensures (a + b) + c == a + (b + c)
  {
  }

  lemma Joined<T>(a: seq<T>, b: seq<T>, c: seq<T>, all: seq<T>, x: seq<T>, y: seq<T>)
    requires a + b == all && b == x + y && c == a + x
    ensures c + y == all
  {
    assert a + (x + y) == a + x + y;
  }

  /** What is left of the walk once one more property is done. */
  lemma WalkedOne(types: Types, target: string, props: seq<Prop>, n: nat, c: Chain, before: seq<Reference>,
                  after: seq<Reference>, all: seq<Reference>, had: set<string>, has: set<string>, reached: set<string>)
    requires (forall p :: p in props ==> p.complex.Some?) && n < |props| && props[n].complex.Some?
    requires before + Refs(target, Visited(types, props[n..], c)) == all
    requires after == before + Refs(target, [c + [props[n]]] + Deeper(types, props[n], c))
    requires had + Available(Visited(types, props[n..], c)) == reached
    requires has == had + Available([c + [props[n]]] + Deeper(types, props[n], c))
    ensures after + Refs(target, Visited(types, props[n + 1..], c)) == all
    ensures has + Available(Visited(types, props[n + 1..], c)) == reached
  {
    assert props[n..][0] == props[n] && props[n..][1..] == props[n + 1..];
    VisitedFirst(types, target, props[n..], c);
    var rest := Refs(target, Visited(types, props[n + 1..], c));
    Joined(before, Refs(target, Visited(types, props[n..], c)), after, all,
           Refs(target, [c + [props[n]]] + Deeper(types, props[n], c)), rest);
  }

  /** `walk`: it pushes what it finds onto `references` and `available`. `c` is the chain it came by. */
  method Walk(types: Types, target: string, props: seq<Prop>, path: seq<string>, parentType: Option<string>,
              ancestry: seq<string>, references: seq<Reference>, available: set<string>, ghost c: Chain)
    returns (references': seq<Reference>, available': set<string>)
    requires forall p :: p in props ==> p.complex.Some?
    requires path == Names(c) && ancestry == TypeNames(c) && parentType == if c == [] then None else Some(LastType(c))
    ensures references' == references + Refs(target, Visited(types, props, c))
    ensures available' == available + Available(Visited(types, props, c))
    decreases Unseen(types, TypeNames(c)), 1
  {
    references', available' := references, available;
    ghost var all := references + Refs(target, Visited(types, props, c));
    ghost var reached := available + Available(Visited(types, props, c));
    var n := 0;
    assert props[0..] == props;
    while n < |props|
      invariant n <= |props|
      invariant references' + Refs(target, Visited(types, props[n..], c)) == all
      invariant available' + Available(Visited(types, props[n..], c)) == reached
    {
      ghost var before, had := references', available';
      references', available' :=
        WalkProp(types, target, props[n], path, parentType, ancestry, references', available', c);
      WalkedOne(types, target, props, n, c, before, references', all, had, available', reached);
      n := n + 1;
    }
    assert props[n..] == [];
    assert references' + [] == references';
  }

  /** One turn of the loop. */
  method WalkProp(types: Types, target: string, p: Prop, path: seq<string>, parentType: Option<string>,
                  ancestry: seq<string>, references: seq<Reference>, available: set<string>, ghost c: Chain)
    returns (references': seq<Reference>, available': set<string>)
    requires p.complex.Some?
    requires path == Names(c) && ancestry == TypeNames(c) && parentType == if c == [] then None else Some(LastType(c))
    ensures references' == references + Refs(target, [c + [p]] + Deeper(types, p, c))
    ensures available' == available + Available([c + [p]] + Deeper(types, p, c))
    decreases Unseen(types, TypeNames(c)), 0
  {
    var name := p.complex.value;
    var pathHere := path + [p.name];
    ghost var here := c + [p];
    HereFirst(target, here, Deeper(types, p, c));
    OneFurther(c, p);
    references', available' := references, available + {name};
    ghost var first := if name == target then [RefOf(here)] else [];
    if name == target { references' := references' + [Reference(p, pathHere, path, parentType, |ancestry| + 1)]; }
    assert references' == references + first;
    if name !in ancestry && name in types {
      assert name in Unseen(types, TypeNames(c)) && name !in Unseen(types, TypeNames(here));
      references', available' :=
        Walk(types, target, Nested(types, name), pathHere, Some(name), ancestry + [name], references', available',
            here);
    }
    Assoc(references, first, Refs(target, Deeper(types, p, c)));
  }

  /** The uses of the target, each described once. */
  ghost predicate AreUses(types: Types, root: seq<Prop>, target: string, refs: seq<Reference>) {
    && (forall r :: r in refs <==> exists c :: IsUse(types, root, target, c) && Describes(r, c))
    && PathsApart(refs)
  }

  /** A chain reaches the type, loops included. */
  ghost predicate Reaches(types: Types, root: seq<Prop>, name: string) {
    exists c: Chain :: IsChain(types, root, c) && c[|c| - 1].complex == Some(name)
  }

  lemma VisitedResolves(types: Types, root: seq<Prop>, target: string)
    requires TypesOk(types) && OnceNamed(root)
    ensures AreUses(types, root, target, Refs(target, AllVisited(types, root)))
    ensures forall name :: name in Available(AllVisited(types, root)) <==> Reaches(types, root, name)
  {
    EachUseOnce(types, root, target);
    forall name ensures name in Available(AllVisited(types, root)) <==> Reaches(types, root, name) {
      AvailableIsReachable(types, root, name);
    }
  }

  /** `resolveStructuralTypeReferences`: every use of the target once, and every type the entity reaches. */
  method Resolve(types: Types, root: seq<Prop>, target: string)
    returns (references: seq<Reference>, available: set<string>)
    requires TypesOk(types) && OnceNamed(root)
    ensures AreUses(types, root, target, references)
    ensures forall name :: name in available <==> Reaches(types, root, name)
  {
    references, available := Walk(types, target, Structural(root), [], None, [], [], {}, []);
    VisitedResolves(types, root, target);
    assert references == Refs(target, AllVisited(types, root)) && available == Available(AllVisited(types, root));
  }
}
