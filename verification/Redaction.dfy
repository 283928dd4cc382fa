/**
 Redacting personal fields in a response tree (b1-mcp-server/src/tools/b1-schema-execute-handlers.ts
 `redactPersonalFields` and its collection and selected variants). The walk follows the data, guided by the
 types, so it ends on any tree however the types refer to each other.
 */
module Redaction {
  import opened Options

  datatype Json = Null | Atom(text: string) | List(items: seq<Json>) | Record(fields: map<string, Json>)

  /** `complex`: the name of the property's complex type, if it has one. */
  datatype Prop = Prop(name: string, personal: bool, complex: Option<string>, isArray: bool)

  type Types = map<string, seq<Prop>>

  datatype Seg = Field(name: string) | Index(i: nat)
  type Path = seq<Seg>

  const REDACTED := Atom("[redacted]")

  function PropsOf(types: Types, name: string): seq<Prop> {
    if name in types then types[name] else []
  }

  ghost predicate OnceNamed(props: seq<Prop>) {
    forall i, j :: 0 <= i < j < |props| ==> props[i].name != props[j].name
  }

  /** The properties of a type are a map by name. */
  ghost predicate TypesOk(types: Types) {
    forall k :: k in types ==> OnceNamed(types[k])
  }

  // ---- The redacted tree -------------------------------------------------------------------------------

  function NewChild(types: Types, p: Prop, child: Json): Json
    decreases child, 1
  {
    if p.personal then REDACTED
    else if p.complex.None? then child
    else if p.isArray then
      if child.List? then List(NewItems(types, PropsOf(types, p.complex.value), child)) else child
    else if child.Record? then Redacted(types, PropsOf(types, p.complex.value), child) else child
  }

  function NewItem(types: Types, props: seq<Prop>, item: Json): Json
    decreases item, 1
  {
    if item.Record? then Redacted(types, props, item) else item
  }

  function NewItems(types: Types, props: seq<Prop>, l: Json): seq<Json>
    requires l.List?
    decreases l, 0
  {
    seq(|l.items|, i requires 0 <= i < |l.items| => NewItem(types, props, l.items[i]))
  }

  /** The fields after the first `n` properties. */
  function Fill(types: Types, props: seq<Prop>, t: Json, n: nat): map<string, Json>
    requires t.Record? && n <= |props|
    decreases t, 0, n
  {
    if n == 0 then t.fields
    else
      var m := Fill(types, props, t, n - 1);
      var p := props[n - 1];
      if p.name in t.fields then m[p.name := NewChild(types, p, t.fields[p.name])] else m
  }

  function Redacted(types: Types, props: seq<Prop>, t: Json): Json
    requires t.Record?
    decreases t, 0, |props| + 1
  {
    Record(Fill(types, props, t, |props|))
  }

  // ---- What is to be redacted, said without the walk -----------------------------------------------------

  function Find(props: seq<Prop>, name: string): Option<Prop> {
    if props == [] then None
    else if props[|props| - 1].name == name then Some(props[|props| - 1])
    else Find(props[..|props| - 1], name)
  }

  /** The property the types give at the end of a path; an array's items take an index first. */
  function TypedProp(types: Types, props: seq<Prop>, path: Path): Option<Prop>
    decreases |path|
  {
    if path == [] || path[0].Index? then None
    else
      match Find(props, path[0].name)
      case None => None
      case Some(p) =>
        if |path| == 1 then Some(p)
        else if p.complex.None? then None
        else if !p.isArray then TypedProp(types, PropsOf(types, p.complex.value), path[1..])
        else if path[1].Index? then TypedProp(types, PropsOf(types, p.complex.value), path[2..])
        else None
  }

  predicate Personal(types: Types, props: seq<Prop>, path: Path) {
    var p := TypedProp(types, props, path);
    p.Some? && p.value.personal
  }

  /** A location's own content, its children aside. */
  datatype Node = NullNode | AtomNode(text: string) | ListNode(length: nat) | RecordNode(names: set<string>)

  function NodeAt(j: Json, path: Path): Option<Node>
    decreases |path|
  {
    if path == [] then
      Some(match j
           case Null => NullNode
           case Atom(text) => AtomNode(text)
           case List(items) => ListNode(|items|)
           case Record(fields) => RecordNode(fields.Keys))
    else if j.Record? && path[0].Field? && path[0].name in j.fields then NodeAt(j.fields[path[0].name], path[1..])
    else if j.List? && path[0].Index? && path[0].i < |j.items| then NodeAt(j.items[path[0].i], path[1..])
    else None
  }

  /** Some location on the way to `path` is personal. */
  ghost predicate Below(types: Types, props: seq<Prop>, path: Path) {
    exists k: nat :: k < |path| && Personal(types, props, path[..k])
  }

  /** Present in the data, typed personal, and not inside a personal field. */
  ghost predicate Replaced(types: Types, props: seq<Prop>, t: Json, path: Path) {
    Personal(types, props, path) && NodeAt(t, path).Some? && !Below(types, props, path)
  }

  lemma {:induction false} FindIs(props: seq<Prop>, i: nat)
    requires OnceNamed(props) && i < |props|
    ensures Find(props, props[i].name) == Some(props[i])
  {
    if i < |props| - 1 { FindIs(props[..|props| - 1], i); }
  }

  lemma {:induction false} FindNone(props: seq<Prop>, name: string)
    ensures Find(props, name).None? <==> forall i :: 0 <= i < |props| ==> props[i].name != name
    ensures Find(props, name).Some? ==>
              exists i :: 0 <= i < |props| && props[i] == Find(props, name).value && props[i].name == name
  {
    if props != [] {
      FindNone(props[..|props| - 1], name);
      if Find(props, name).Some? && props[|props| - 1].name != name {
        var i :| 0 <= i < |props[..|props| - 1]| && props[..|props| - 1][i] == Find(props, name).value
            && props[..|props| - 1][i].name == name;
        assert props[i].name == name;
      }
    }
  }

  /** The rest of a path inside property `p`, if its types have one. */
  function Inside(p: Prop, path: Path): Option<Path>
    requires path != []
  {
    if p.complex.None? || |path| == 1 then None
    else if !p.isArray then Some(path[1..])
    else if path[1].Index? then Some(path[2..])
    else None
  }

  lemma TypedInside(types: Types, props: seq<Prop>, p: Prop, path: Path)
    requires path != [] && path[0].Field? && Find(props, path[0].name) == Some(p)
    ensures |path| > 1 ==>
              (Personal(types, props, path) <==>
                 Inside(p, path).Some? && Personal(types, PropsOf(types, p.complex.value), Inside(p, path).value))
    ensures |path| == 1 ==> (Personal(types, props, path) <==> p.personal)
  {
  }

  lemma CutTwice(path: Path, k: nat, cut: nat)
    requires cut <= k <= |path|
    ensures path[..k][cut..] == path[cut..][..k - cut]
  {
  }

  lemma BelowInside(types: Types, props: seq<Prop>, p: Prop, path: Path)
    requires path != [] && path[0].Field? && Find(props, path[0].name) == Some(p)
    ensures Below(types, props, path) <==>
              && |path| > 1
              && (|| p.personal
                  || (Inside(p, path).Some? && Below(types, PropsOf(types, p.complex.value), Inside(p, path).value)))
  {
    var cut := if p.isArray then 2 else 1;
    if Below(types, props, path) {
      var k: nat :| k < |path| && Personal(types, props, path[..k]);
      TypedInside(types, props, p, path[..k]);
      if k > 1 {
        CutTwice(path, k, cut);
        assert Inside(p, path).value[..k - cut] == Inside(p, path[..k]).value;
      }
    }
    if |path| > 1 && p.personal {
      TypedInside(types, props, p, path[..1]);
      assert Personal(types, props, path[..1]);
    }
    if |path| > 1 && Inside(p, path).Some? && Below(types, PropsOf(types, p.complex.value), Inside(p, path).value) {
      var k: nat :| k < |Inside(p, path).value|
          && Personal(types, PropsOf(types, p.complex.value), Inside(p, path).value[..k]);
      TypedInside(types, props, p, path[..k + cut]);
      CutTwice(path, k + cut, cut);
      assert Personal(types, props, path[..k + cut]);
    }
  }

  // ---- The walk does exactly that ---------------------------------------------------------------------------

  lemma {:induction false} FillIs(types: Types, props: seq<Prop>, t: Json, n: nat, name: string)
    requires t.Record? && n <= |props| && OnceNamed(props)
    ensures name in Fill(types, props, t, n) <==> name in t.fields
    ensures Fill(types, props, t, n).Keys == t.fields.Keys
    ensures name in t.fields ==>
              Fill(types, props, t, n)[name]
                == match Find(props[..n], name)
                   case None => t.fields[name]
                   case Some(p) => NewChild(types, p, t.fields[name])
  {
    if n > 0 {
      FillIs(types, props, t, n - 1, name);
      assert props[..n][..n - 1] == props[..n - 1];
    }
  }

  ghost predicate RedactedAt(types: Types, props: seq<Prop>, t: Json, path: Path)
    requires t.Record?
  {
    NodeAt(Redacted(types, props, t), path)
      == if Replaced(types, props, t, path) then Some(AtomNode("[redacted]"))
         else if Below(types, props, path) then None
         else NodeAt(t, path)
  }

  /**
   At every location of any tree: the value of a typed path that ends in a personal field is replaced, nothing
   stays below it, and every other location has the content it had.
   */
  lemma {:induction false} RedactsExactly(types: Types, props: seq<Prop>, t: Json, path: Path)
    requires TypesOk(types) && OnceNamed(props) && t.Record?
    ensures RedactedAt(types, props, t, path)
    decreases |path|
  {
    var out := Redacted(types, props, t);
    if path == [] {
      FillIs(types, props, t, |props|, "");
    } else if path[0].Field? && path[0].name in t.fields {
      var name := path[0].name;
      FillIs(types, props, t, |props|, name);
      assert props[..|props|] == props;
      FindNone(props, name);
      match Find(props, name) {
        case None =>
          assert !Below(types, props, path) by {
            forall k: nat | k < |path|
              ensures !Personal(types, props, path[..k])
            {
              if k > 0 { assert path[..k][0] == path[0]; }
            }
          }
        case Some(p) =>
          TypedInside(types, props, p, path);
          BelowInside(types, props, p, path);
          ChildRedactsExactly(types, p, t.fields[name], path);
      }
    } else if path[0].Index? {
      forall k: nat | k < |path|
        ensures !Personal(types, props, path[..k])
      {
        if k > 0 { assert path[..k][0] == path[0]; }
      }
    } else {
      FillIs(types, props, t, |props|, path[0].name);
    }
  }

  /** A location inside a record or an array is one inside the child its first segment names, if that is there. */
  lemma NodeInside(j: Json, path: Path)
    requires path != []
    ensures j.Record? && path[0].Field? && path[0].name in j.fields ==>
        NodeAt(j, path) == NodeAt(j.fields[path[0].name], path[1..])
    ensures j.List? && path[0].Index? && path[0].i < |j.items| ==>
        NodeAt(j, path) == NodeAt(j.items[path[0].i], path[1..])
    ensures path[0].Field? && !(j.Record? && path[0].name in j.fields) ==> NodeAt(j, path).None?
    ensures path[0].Index? && !(j.List? && path[0].i < |j.items|) ==> NodeAt(j, path).None?
  {
  }

  lemma NodeAtRoot(j: Json)
    ensures NodeAt(j, []).Some?
  {
  }

  lemma {:induction false} ChildRedactsExactly(types: Types, p: Prop, child: Json, path: Path)
    requires TypesOk(types) && path != []
    ensures var typed := PropsOf(types, if p.complex.Some? then p.complex.value else "");
            NodeAt(NewChild(types, p, child), path[1..])
              == if p.personal then (if |path| == 1 then Some(AtomNode("[redacted]")) else None)
                 else if Inside(p, path).None? then NodeAt(child, path[1..])
                 else if Personal(types, typed, Inside(p, path).value) && NodeAt(child, path[1..]).Some?
                         && !Below(types, typed, Inside(p, path).value)
                 then Some(AtomNode("[redacted]"))
                 else if Below(types, typed, Inside(p, path).value) then None
                 else NodeAt(child, path[1..])
    decreases |path|, 0
  {
    if |path| > 1 {
      NodeInside(child, path[1..]);
      NodeInside(NewChild(types, p, child), path[1..]);
    } else {
      assert path[1..] == [];
      if !p.personal && p.complex.Some? && !p.isArray && child.Record? {
        FillIs(types, PropsOf(types, p.complex.value), child, |PropsOf(types, p.complex.value)|, "");
      }
    }
    if !p.personal && Inside(p, path).Some? {
      var rest := Inside(p, path).value;
      var typed := PropsOf(types, p.complex.value);
      StartsWithField(types, typed, rest);
      if p.isArray && child.List? && path[1].i < |child.items| {
        var item := child.items[path[1].i];
        assert path[1..][1..] == rest;
        assert NewItems(types, typed, child)[path[1].i] == NewItem(types, typed, item);
        if rest != [] { NodeInside(item, rest); }
        if item.Record? { RedactsExactly(types, typed, item, rest); }
      } else if !p.isArray && child.Record? {
        RedactsExactly(types, typed, child, rest);
      }
    }
  }

  lemma StartsWithField(types: Types, props: seq<Prop>, path: Path)
    ensures Personal(types, props, path) || Below(types, props, path) ==> path != [] && path[0].Field?
  {
    if Below(types, props, path) {
      var k: nat :| k < |path| && Personal(types, props, path[..k]);
      assert k > 0 && path[..k][0] == path[0];
    }
  }

  // ---- Trees, idempotence, and what the reader gets -------------------------------------------------------

  /** Nothing typed personal and not inside another personal field keeps its value. */
  lemma NoPersonalValueLeft(types: Types, props: seq<Prop>, t: Json, path: Path)
    requires TypesOk(types) && OnceNamed(props) && t.Record? && Personal(types, props, path)
    ensures var node := NodeAt(Redacted(types, props, t), path); node == Some(AtomNode("[redacted]")) || node == None
  {
    RedactsExactly(types, props, t, path);
  }

  lemma {:induction false} ChildTwice(types: Types, p: Prop, child: Json)
    requires TypesOk(types)
    ensures NewChild(types, p, NewChild(types, p, child)) == NewChild(types, p, child)
    decreases child, 1
  {
    if !p.personal && p.complex.Some? {
      var typed := PropsOf(types, p.complex.value);
      if p.isArray && child.List? {
        var once := NewItems(types, typed, child);
        forall i | 0 <= i < |child.items| ensures NewItem(types, typed, once[i]) == once[i] {
          assert once[i] == NewItem(types, typed, child.items[i]);
          if child.items[i].Record? { RedactedTwice(types, typed, child.items[i]); }
        }
        assert NewItems(types, typed, List(once)) == once;
      } else if !p.isArray && child.Record? {
        RedactedTwice(types, typed, child);
      }
    }
  }

  /** Redacting again changes nothing. */
  lemma {:induction false} RedactedTwice(types: Types, props: seq<Prop>, t: Json)
    requires TypesOk(types) && OnceNamed(props) && t.Record?
    ensures Redacted(types, props, Redacted(types, props, t)) == Redacted(types, props, t)
    decreases t, 0
  {
    var once := Redacted(types, props, t);
    var twice := Redacted(types, props, once);
    assert props[..|props|] == props;
    FillIs(types, props, t, |props|, "");
    FillIs(types, props, once, |props|, "");
    forall name | name in t.fields ensures twice.fields[name] == once.fields[name] {
      FillIs(types, props, t, |props|, name);
      FillIs(types, props, once, |props|, name);
      if Find(props, name).Some? { ChildTwice(types, Find(props, name).value, t.fields[name]); }
    }
    assert twice.fields == once.fields;
  }

  /** And reports the same paths again. */
  lemma ReportedTwice(types: Types, props: seq<Prop>, t: Json, path: Path)
    requires TypesOk(types) && OnceNamed(props) && t.Record?
    ensures Replaced(types, props, Redacted(types, props, t), path) <==> Replaced(types, props, t, path)
  {
    RedactsExactly(types, props, t, path);
  }

  // ---- Typed paths are chains of properties ---------------------------------------------------------------------

  /** `q` is one of the properties of the complex type that `p` has. */
  predicate Inner(types: Types, p: Prop, q: Prop) {
    p.complex.Some? && p.complex.value in types && q in types[p.complex.value]
  }

  /** The first is one of `props`, and each one after it a property of the type of the one before. */
  ghost predicate ChainOf(types: Types, props: seq<Prop>, chain: seq<Prop>) {
    && chain != [] && chain[0] in props
    && forall i: nat | 0 < i < |chain| :: Inner(types, chain[i - 1], chain[i])
  }

  /** The path spells the chain: each property's name, and an index after each array that is gone into. */
  predicate Spells(path: Path, chain: seq<Prop>)
    decreases |chain|
  {
    && path != [] && chain != [] && path[0] == Field(chain[0].name)
    && if |chain| == 1 then |path| == 1
       else if chain[0].isArray then |path| >= 2 && path[1].Index? && Spells(path[2..], chain[1..])
       else Spells(path[1..], chain[1..])
  }

  lemma RestOfChain(types: Types, props: seq<Prop>, chain: seq<Prop>)
    requires ChainOf(types, props, chain) && |chain| > 1
    ensures chain[0].complex.Some? && chain[0].complex.value in types
    ensures ChainOf(types, types[chain[0].complex.value], chain[1..])
  {
    assert Inner(types, chain[0], chain[1]);
    forall i: nat | 0 < i < |chain[1..]| ensures Inner(types, chain[1..][i - 1], chain[1..][i]) {
      assert Inner(types, chain[i], chain[i + 1]);
    }
  }

  lemma {:induction false} ChainIsTyped(types: Types, props: seq<Prop>, path: Path, chain: seq<Prop>)
    requires TypesOk(types) && OnceNamed(props) && ChainOf(types, props, chain) && Spells(path, chain)
    ensures TypedProp(types, props, path) == Some(chain[|chain| - 1])
    decreases |chain|
  {
    var j :| 0 <= j < |props| && props[j] == chain[0];
    FindIs(props, j);
    if |chain| > 1 {
      RestOfChain(types, props, chain);
      ChainIsTyped(types, types[chain[0].complex.value], if chain[0].isArray then path[2..] else path[1..], chain[1..]);
    }
  }

  lemma {:induction false} FindAmong(props: seq<Prop>, name: string)
    ensures Find(props, name).Some? ==> Find(props, name).value in props && Find(props, name).value.name == name
  {
    if props != [] { FindAmong(props[..|props| - 1], name); }
  }

  lemma {:induction false} TypedHasChain(types: Types, props: seq<Prop>, path: Path) returns (chain: seq<Prop>)
    requires TypedProp(types, props, path).Some?
    ensures ChainOf(types, props, chain) && Spells(path, chain)
    ensures chain[|chain| - 1] == TypedProp(types, props, path).value
    decreases |path|
  {
    var p := Find(props, path[0].name).value;
    FindAmong(props, path[0].name);
    if |path| == 1 {
      chain := [p];
    } else {
      var rest := TypedHasChain(types, PropsOf(types, p.complex.value), if p.isArray then path[2..] else path[1..]);
      chain := [p] + rest;
      assert chain[1..] == rest;
      forall i: nat | 0 < i < |chain| ensures Inner(types, chain[i - 1], chain[i]) {
        if i > 1 { assert Inner(types, rest[i - 2], rest[i - 1]); }
      }
    }
  }

  ghost predicate PersonalChain(types: Types, props: seq<Prop>, path: Path, chain: seq<Prop>) {
    ChainOf(types, props, chain) && Spells(path, chain) && chain[|chain| - 1].personal
  }

  /** A path is typed personal exactly when it spells a chain, over the types as they stand, to a personal property. */
  lemma PersonalIffChain(types: Types, props: seq<Prop>, path: Path)
    requires TypesOk(types) && OnceNamed(props)
    ensures Personal(types, props, path) <==> exists chain :: PersonalChain(types, props, path, chain)
  {
    if Personal(types, props, path) {
      var chain := TypedHasChain(types, props, path);
      assert PersonalChain(types, props, path, chain);
    }
    forall chain | PersonalChain(types, props, path, chain) ensures Personal(types, props, path) {
      ChainIsTyped(types, props, path, chain);
    }
  }

  /** What a path passes on its way is the chain's own. */
  lemma {:induction false} PassedIsInChain(types: Types, props: seq<Prop>, path: Path, chain: seq<Prop>, k: nat)
    requires TypesOk(types) && OnceNamed(props) && ChainOf(types, props, chain) && Spells(path, chain) && k < |path|
    requires TypedProp(types, props, path[..k]).Some?
    ensures TypedProp(types, props, path[..k]).value in chain[..|chain| - 1]
    decreases |chain|
  {
    var j :| 0 <= j < |props| && props[j] == chain[0];
    FindIs(props, j);
    assert |chain| > 1;
    RestOfChain(types, props, chain);
    var inner := types[chain[0].complex.value];
    var front := chain[..|chain| - 1];
    assert front[0] == chain[0];
    if k > 1 {
      var drop := if chain[0].isArray then 2 else 1;
      assert path[..k][drop..] == path[drop..][..k - drop];
      PassedIsInChain(types, inner, path[drop..], chain[1..], k - drop);
      assert chain[1..][..|chain[1..]| - 1] == front[1..];
    }
  }

  /**
   Said by the types alone: the value at a chain of properties whose last is personal, and none before it, is replaced
   in the tree and is one of the replaced paths, however deep the chain goes and whatever types it goes through.
   */
  lemma PersonalChainIsRedacted(types: Types, props: seq<Prop>, t: Json, path: Path, chain: seq<Prop>)
    requires TypesOk(types) && OnceNamed(props) && t.Record?
    requires PersonalChain(types, props, path, chain) && forall i: nat | i < |chain| - 1 :: !chain[i].personal
    requires NodeAt(t, path).Some?
    ensures NodeAt(Redacted(types, props, t), path) == Some(AtomNode("[redacted]"))
    ensures Replaced(types, props, t, path)
  {
    ChainIsTyped(types, props, path, chain);
    forall k: nat | k < |path| ensures !Personal(types, props, path[..k]) {
      if TypedProp(types, props, path[..k]).Some? { PassedIsInChain(types, props, path, chain, k); }
    }
    RedactsExactly(types, props, t, path);
  }

  /** And a value no such chain leads to, or through, keeps its content. */
  lemma OthersKeep(types: Types, props: seq<Prop>, t: Json, path: Path)
    requires TypesOk(types) && OnceNamed(props) && t.Record?
    requires forall chain, k: nat | k <= |path| :: !PersonalChain(types, props, path[..k], chain)
    ensures NodeAt(Redacted(types, props, t), path) == NodeAt(t, path) && !Replaced(types, props, t, path)
  {
    forall k: nat | k <= |path| ensures !Personal(types, props, path[..k]) {
      PersonalIffChain(types, props, path[..k]);
    }
    assert path[..|path|] == path;
    RedactsExactly(types, props, t, path);
  }

  // ---- The walk itself --------------------------------------------------------------------------------------

  predicate StartsWith(path: Path, prefix: Path) {
    |prefix| <= |path| && path[..|prefix|] == prefix
  }

  ghost predicate ReplacedInItems(types: Types, props: seq<Prop>, l: Json, path: Path)
    requires l.List?
  {
    path != [] && path[0].Index? && path[0].i < |l.items| && l.items[path[0].i].Record?
      && Replaced(types, props, l.items[path[0].i], path[1..])
  }

  /** What is replaced under property `p`, from its value alone. */
  ghost predicate ReplacedUnder(types: Types, p: Prop, child: Json, rest: Path) {
    if p.personal then rest == []
    else
      p.complex.Some? && var typed := PropsOf(types, p.complex.value);
      if p.isArray then child.List? && ReplacedInItems(types, typed, child, rest)
          else child.Record? && Replaced(types, typed, child, rest)
  }

  lemma ReplacedInside(types: Types, props: seq<Prop>, p: Prop, t: Json, path: Path)
    requires t.Record? && path != [] && path[0].Field? && Find(props, path[0].name) == Some(p)
    ensures Replaced(types, props, t, path) <==>
        p.name in t.fields && ReplacedUnder(types, p, t.fields[p.name], path[1..])
  {
    FindNone(props, path[0].name);
    TypedInside(types, props, p, path);
    BelowInside(types, props, p, path);
    NodeInside(t, path);
    if p.name in t.fields {
      var child := t.fields[p.name];
      if |path| == 1 {
        assert path[1..] == [];
        NodeAtRoot(child);
      } else if Inside(p, path).Some? {
        StartsWithField(types, PropsOf(types, p.complex.value), Inside(p, path).value);
        NodeInside(child, path[1..]);
        if p.isArray {
          assert path[1..][1..] == path[2..];
          if child.List? && path[1].i < |child.items| && path[2..] != [] {
            NodeInside(child.items[path[1].i], path[2..]);
          }
        }
      }
    }
  }

  lemma ReplacedIsTyped(types: Types, props: seq<Prop>, t: Json, path: Path)
    requires Replaced(types, props, t, path)
    ensures path != [] && path[0].Field? && Find(props, path[0].name).Some?
  {
  }

  /** `paths` are those under `prefix` replaced in `t` by its first `n` properties. */
  ghost predicate Reports(paths: set<Path>, prefix: Path, types: Types, props: seq<Prop>, t: Json, n: nat)
    requires n <= |props|
  {
    forall q: Path :: q in paths <==> StartsWith(q, prefix) && ReportedBy(types, props, t, q[|prefix|..], n)
  }

  ghost predicate ReportedBy(types: Types, props: seq<Prop>, t: Json, path: Path, n: nat)
    requires n <= |props|
  {
    Replaced(types, props, t, path) && path[0].Field? && exists i :: 0 <= i < n && props[i].name == path[0].name
  }

  /** One more property: what it adds. */
  lemma OneMoreReported(types: Types, props: seq<Prop>, t: Json, n: nat, path: Path)
    requires OnceNamed(props) && t.Record? && n < |props|
    ensures ReportedBy(types, props, t, path, n + 1) <==>
              ReportedBy(types, props, t, path, n)
              || (path != [] && path[0] == Field(props[n].name) && props[n].name in t.fields
                  && ReplacedUnder(types, props[n], t.fields[props[n].name], path[1..]))
  {
    if path != [] && path[0] == Field(props[n].name) {
      FindIs(props, n);
      ReplacedInside(types, props, props[n], t, path);
    }
  }

  lemma OneMoreReports(paths: set<Path>, sub: set<Path>, prefix: Path, types: Types, props: seq<Prop>, t: Json, n: nat)
    requires OnceNamed(props) && t.Record? && n < |props| && Reports(paths, prefix, types, props, t, n)
    requires var here := prefix + [Field(props[n].name)];
             forall q: Path :: q in sub <==> props[n].name in t.fields && StartsWith(q, here)
                                             && ReplacedUnder(types, props[n], t.fields[props[n].name], q[|here|..])
    ensures Reports(paths + sub, prefix, types, props, t, n + 1)
  {
    forall q: Path
      ensures q in paths + sub <==> StartsWith(q, prefix) && ReportedBy(types, props, t, q[|prefix|..], n + 1)
    {
      if StartsWith(q, prefix) {
        OneMoreReported(types, props, t, n, q[|prefix|..]);
        if |q| > |prefix| {
          assert q[..|prefix| + 1] == prefix + [q[|prefix|]];
          assert q[|prefix|..][1..] == q[|prefix| + 1..];
        }
      } else if |q| > |prefix| {
        assert q[..|prefix| + 1][..|prefix|] == q[..|prefix|];
      }
    }
  }

  lemma AllReported(paths: set<Path>, prefix: Path, types: Types, props: seq<Prop>, t: Json)
    requires OnceNamed(props) && t.Record? && Reports(paths, prefix, types, props, t, |props|)
    ensures forall q: Path :: q in paths <==> StartsWith(q, prefix) && Replaced(types, props, t, q[|prefix|..])
  {
    forall q: Path | StartsWith(q, prefix) && Replaced(types, props, t, q[|prefix|..])
      ensures q in paths
    {
      ReplacedIsTyped(types, props, t, q[|prefix|..]);
      FindNone(props, q[|prefix|..][0].name);
    }
  }

  /** `redactFromProperties`: the new tree, and the paths it replaced, in one pass over the properties. */
  method RedactProperties(types: Types, props: seq<Prop>, t: Json, prefix: Path) returns (out: Json, paths: set<Path>)
    requires TypesOk(types) && OnceNamed(props) && t.Record?
    ensures out == Redacted(types, props, t)
    ensures forall q: Path :: q in paths <==> StartsWith(q, prefix) && Replaced(types, props, t, q[|prefix|..])
    decreases t, 0
  {
    var fields := t.fields;
    paths := {};
    var n := 0;
    while n < |props|
      invariant n <= |props| && fields == Fill(types, props, t, n)
      invariant Reports(paths, prefix, types, props, t, n)
    {
      var p := props[n];
      FillIs(types, props, t, n, p.name);
      FindNone(props[..n], p.name);
      var sub := {};
      if p.name in fields {
        var child;
        child, sub := RedactChild(types, p, fields[p.name], prefix + [Field(p.name)]);
        fields := fields[p.name := child];
      }
      OneMoreReports(paths, sub, prefix, types, props, t, n);
      paths := paths + sub;
      n := n + 1;
    }
    out := Record(fields);
    AllReported(paths, prefix, types, props, t);
  }

  /** The body of the loop, for a property the data has. */
  method RedactChild(types: Types, p: Prop, child: Json, here: Path) returns (out: Json, paths: set<Path>)
    requires TypesOk(types)
    ensures out == NewChild(types, p, child)
    ensures forall q: Path :: q in paths <==> StartsWith(q, here) && ReplacedUnder(types, p, child, q[|here|..])
    decreases child, 2
  {
    out, paths := child, {};
    if p.personal {
      out, paths := REDACTED, {here};
      assert forall q: Path :: StartsWith(q, here) && q[|here|..] == [] ==> q == here;
    } else if p.complex.Some? {
      var typed := PropsOf(types, p.complex.value);
      if p.isArray {
        if child.List? {
          var items;
          items, paths := RedactItems(types, typed, child, here);
          out := List(items);
        }
      } else if child.Record? {
        out, paths := RedactProperties(types, typed, child, here);
      }
    }
  }

  ghost predicate ReplacedInFirst(types: Types, props: seq<Prop>, l: Json, path: Path, n: nat)
    requires l.List?
  {
    ReplacedInItems(types, props, l, path) && path[0].i < n
  }

  /** `paths` are those under `prefix` replaced in the first `n` items. */
  ghost predicate ReportsItems(paths: set<Path>, prefix: Path, types: Types, props: seq<Prop>, l: Json, n: nat)
    requires l.List?
  {
    forall q: Path :: q in paths <==> StartsWith(q, prefix) && ReplacedInFirst(types, props, l, q[|prefix|..], n)
  }

  lemma OneMoreItem(paths: set<Path>, sub: set<Path>, prefix: Path, types: Types, props: seq<Prop>, l: Json, i: nat)
    requires l.List? && i < |l.items| && ReportsItems(paths, prefix, types, props, l, i)
    requires var here := prefix + [Index(i)];
             forall q: Path :: q in sub <==> l.items[i].Record? && StartsWith(q, here)
                                             && Replaced(types, props, l.items[i], q[|here|..])
    ensures ReportsItems(paths + sub, prefix, types, props, l, i + 1)
  {
    forall q: Path
      ensures q in paths + sub <==> StartsWith(q, prefix) && ReplacedInFirst(types, props, l, q[|prefix|..], i + 1)
    {
      if |q| > |prefix| {
        assert q[..|prefix| + 1] == q[..|prefix|] + [q[|prefix|]];
        assert q[|prefix|..][1..] == q[|prefix| + 1..];
      }
    }
  }

  /**
   `redactPersonalFieldsFromCollection`, and the array branch of the walk: the records of a list, each under its
   index.
   */
  method RedactItems(types: Types, props: seq<Prop>, l: Json, prefix: Path) returns (out: seq<Json>, paths: set<Path>)
    requires TypesOk(types) && OnceNamed(props) && l.List?
    ensures out == NewItems(types, props, l)
    ensures forall q: Path :: q in paths <==> StartsWith(q, prefix) && ReplacedInItems(types, props, l, q[|prefix|..])
    decreases l, 1
  {
    out, paths := [], {};
    var i := 0;
    while i < |l.items|
      invariant i <= |l.items| && out == NewItems(types, props, l)[..i]
      invariant ReportsItems(paths, prefix, types, props, l, i)
    {
      var item := l.items[i];
      var sub: set<Path> := {};
      var prefixed := prefix + [Index(i)];
      if item.Record? { item, sub := RedactProperties(types, props, item, prefixed); }
      OneMoreItem(paths, sub, prefix, types, props, l, i);
      out, paths := out + [item], paths + sub;
      i := i + 1;
    }
  }

  // ---- Whole responses ------------------------------------------------------------------------------------------

  /** The records of a response: the response itself, or those of its `value`. Anything else passes unchanged. */
  function Response(types: Types, props: seq<Prop>, data: Json, single: bool): Json {
    if !data.Record? then data
    else if single then Redacted(types, props, data)
    else if "value" in data.fields && data.fields["value"].List? then
      Record(data.fields["value" := List(NewItems(types, props, data.fields["value"]))])
    else data
  }

  /** The part of a path inside a record of the response, if it reaches one. */
  ghost function InRecord(data: Json, single: bool, path: Path): Option<Path> {
    if !data.Record? then None
    else if single then Some(path)
    else if "value" in data.fields && data.fields["value"].List? && |path| >= 2 && path[0] == Field("value")
        && path[1].Index?
            && path[1].i < |data.fields["value"].items| && data.fields["value"].items[path[1].i].Record?
    then Some(path[2..])
    else None
  }

  ghost predicate ReplacedInResponse(types: Types, props: seq<Prop>, data: Json, single: bool, path: Path) {
    var r := InRecord(data, single, path);
    r.Some? && Personal(types, props, r.value) && NodeAt(data, path).Some? && !Below(types, props, r.value)
  }

  /** Of a whole response too, exactly the personal values of its records are replaced, and nothing else changes. */
  lemma ResponseRedactsExactly(types: Types, props: seq<Prop>, data: Json, single: bool, path: Path)
    requires TypesOk(types) && OnceNamed(props)
    ensures var r := InRecord(data, single, path);
            NodeAt(Response(types, props, data, single), path)
              == if ReplacedInResponse(types, props, data, single, path) then Some(AtomNode("[redacted]"))
                 else if r.Some? && Below(types, props, r.value) then None
                 else NodeAt(data, path)
  {
    var out := Response(types, props, data, single);
    if data.Record? && single {
      RedactsExactly(types, props, data, path);
    } else if data.Record? && "value" in data.fields && data.fields["value"].List? {
      assert out.fields.Keys == data.fields.Keys;
      if path != [] {
        NodeInside(data, path);
        NodeInside(out, path);
        if path[0] == Field("value") {
          var l, l' := data.fields["value"], out.fields["value"];
          if |path| >= 2 {
            NodeInside(l, path[1..]);
            NodeInside(l', path[1..]);
            if path[1].Index? && path[1].i < |l.items| {
              assert path[1..][1..] == path[2..];
              assert l'.items[path[1].i] == NewItem(types, props, l.items[path[1].i]);
              if l.items[path[1].i].Record? { RedactsExactly(types, props, l.items[path[1].i], path[2..]); }
            }
          } else {
            assert path[1..] == [];
          }
        }
      }
    }
  }

  lemma ReplacedInValue(types: Types, props: seq<Prop>, data: Json, path: Path)
    requires data.Record? && "value" in data.fields && data.fields["value"].List?
    ensures ReplacedInResponse(types, props, data, false, path) <==>
              StartsWith(path, [Field("value")]) && ReplacedInItems(types, props, data.fields["value"], path[1..])
  {
    if |path| >= 2 && path[0] == Field("value") {
      assert path[..1] == [Field("value")];
      assert path[1..][1..] == path[2..];
      NodeInside(data, path);
      NodeInside(data.fields["value"], path[1..]);
    }
  }

  /** `redactResponsePersonalFields`, which reports the paths it replaced. */
  method RedactResponse(types: Types, props: seq<Prop>, data: Json, single: bool) returns (out: Json, paths: set<Path>)
    requires TypesOk(types) && OnceNamed(props)
    ensures out == Response(types, props, data, single)
    ensures forall q: Path :: q in paths <==> ReplacedInResponse(types, props, data, single, q)
  {
    out, paths := data, {};
    if data.Record? {
      if single {
        out, paths := RedactProperties(types, props, data, []);
        assert forall q: Path :: q[0..] == q;
      } else if "value" in data.fields && data.fields["value"].List? {
        var items;
        items, paths := RedactItems(types, props, data.fields["value"], [Field("value")]);
        out := Record(data.fields["value" := List(items)]);
        forall q: Path ensures q in paths <==> ReplacedInResponse(types, props, data, single, q) {
          ReplacedInValue(types, props, data, q);
        }
      }
    }
  }

  // ---- An explicit selection ----------------------------------------------------------------------------------

  /**
   With an explicit selection only the selected complex properties are walked, and their own mark is not looked at.
   */
  function Unmarked(selected: seq<Prop>): seq<Prop> {
    seq(|selected|, i requires 0 <= i < |selected| => selected[i].(personal := false))
  }

  /** The body of the loop over the selected properties: one the data lacks, a null and a plain one are passed over. */
  method RedactSelectedChild(types: Types, p: Prop, child: Json, here: Path) returns (out: Json, paths: set<Path>)
    requires TypesOk(types)
    ensures out == NewChild(types, p.(personal := false), child)
    ensures forall q: Path ::
              q in paths <==> StartsWith(q, here) && ReplacedUnder(types, p.(personal := false), child, q[|here|..])
  {
    out, paths := child, {};
    if child == Null || p.complex.None? { return; }
    var complexType := PropsOf(types, p.complex.value);
    if p.isArray {
      if !child.List? { return; }
      var items;
      items, paths := RedactItems(types, complexType, child, here);
      out := List(items);
      return;
    }
    if !child.Record? { return; }
    out, paths := RedactProperties(types, complexType, child, here);
  }

  /** `redactSelectedComplexProperties`. */
  method RedactSelectedProperties(types: Types, selected: seq<Prop>, t: Json, prefix: Path)
    returns (out: Json, paths: set<Path>)
    requires TypesOk(types) && OnceNamed(selected) && t.Record?
    ensures out == Redacted(types, Unmarked(selected), t)
    ensures forall q: Path ::
              q in paths <==> StartsWith(q, prefix) && Replaced(types, Unmarked(selected), t, q[|prefix|..])
  {
    ghost var props := Unmarked(selected);
    var fields := t.fields;
    paths := {};
    var n := 0;
    while n < |selected|
      invariant n <= |selected| && fields == Fill(types, props, t, n)
      invariant Reports(paths, prefix, types, props, t, n)
    {
      var p := selected[n];
      FillIs(types, props, t, n, p.name);
      FindNone(props[..n], p.name);
      var sub := {};
      if p.name in fields {
        var child;
        child, sub := RedactSelectedChild(types, p, fields[p.name], prefix + [Field(p.name)]);
        fields := fields[p.name := child];
      }
      OneMoreReports(paths, sub, prefix, types, props, t, n);
      paths := paths + sub;
      n := n + 1;
    }
    out := Record(fields);
    AllReported(paths, prefix, types, props, t);
  }

  /** The loop over the records of a collection. */
  method RedactSelectedItems(types: Types, selected: seq<Prop>, l: Json, prefix: Path)
    returns (out: seq<Json>, paths: set<Path>)
    requires TypesOk(types) && OnceNamed(selected) && l.List?
    ensures out == NewItems(types, Unmarked(selected), l)
    ensures forall q: Path ::
              q in paths <==> StartsWith(q, prefix) && ReplacedInItems(types, Unmarked(selected), l, q[|prefix|..])
  {
    ghost var props := Unmarked(selected);
    out, paths := [], {};
    var i := 0;
    while i < |l.items|
      invariant i <= |l.items| && out == NewItems(types, props, l)[..i]
      invariant ReportsItems(paths, prefix, types, props, l, i)
    {
      var item := l.items[i];
      var sub: set<Path> := {};
      if item.Record? { item, sub := RedactSelectedProperties(types, selected, item, prefix + [Index(i)]); }
      OneMoreItem(paths, sub, prefix, types, props, l, i);
      out, paths := out + [item], paths + sub;
      i := i + 1;
    }
  }

  /** `redactSelectedComplexResponsePersonalFields`: nothing selected, or data of another shape, and nothing happens. */
  method RedactSelectedResponse(types: Types, selected: seq<Prop>, data: Json, single: bool)
    returns (out: Json, paths: set<Path>)
    requires TypesOk(types) && OnceNamed(selected)
    ensures out == Response(types, Unmarked(selected), data, single)
    ensures forall q: Path :: q in paths <==> ReplacedInResponse(types, Unmarked(selected), data, single, q)
  {
    out, paths := data, {};
    if selected == [] {
      NothingSelected(types, data, single);
      return;
    }
    if !data.Record? { return; }
    if single {
      out, paths := RedactSelectedProperties(types, selected, data, []);
      assert forall q: Path :: q[0..] == q;
    } else if "value" in data.fields && data.fields["value"].List? {
      var items;
      items, paths := RedactSelectedItems(types, selected, data.fields["value"], [Field("value")]);
      out := Record(data.fields["value" := List(items)]);
      forall q: Path ensures q in paths <==> ReplacedInResponse(types, Unmarked(selected), data, single, q) {
        ReplacedInValue(types, Unmarked(selected), data, q);
      }
    }
  }

  lemma NothingSelected(types: Types, data: Json, single: bool)
    ensures Response(types, [], data, single) == data
    ensures forall q: Path :: !ReplacedInResponse(types, [], data, single, q)
  {
    if data.Record? && single {
      assert Redacted(types, [], data) == Record(Fill(types, [], data, 0));
    } else if data.Record? && "value" in data.fields && data.fields["value"].List? {
      var l := data.fields["value"];
      forall i | 0 <= i < |l.items| ensures NewItem(types, [], l.items[i]) == l.items[i] {
        assert l.items[i].Record? ==> Redacted(types, [], l.items[i]) == Record(Fill(types, [], l.items[i], 0));
      }
      assert NewItems(types, [], l) == l.items;
      assert data.fields["value" := l] == data.fields;
    }
  }
}
