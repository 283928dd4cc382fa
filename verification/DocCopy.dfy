/**
 Copying quotations to an order, with their configured parts made real first
 (apps/server/src/doc-copy.ts, entity-write.ts `planCopy`, `makeParts` and the copy branch of `postWrite`).

 An attempt reads the quotations, plans, and then writes: each missing item, then each quotation's lines.
 It may stop after any write, answered or not; the next attempt plans afresh. The order itself carries no
 key, so nothing is said about what happens after it was sent.
 */
module DocCopy {
  import opened Options

  type DocEntry = int

  /** `fields` holds a line's non-null fields but ItemCode; `code` is the trimmed U_CF_ItemCode, "" without one. */
  datatype Line = Line(num: int, item: string, code: string, closed: bool, fields: map<string, string>)

  datatype Doc = Doc(card: string, lines: seq<Line>)

  /**
   SAP: its items by upper-case code, each in SAP's own spelling, and its quotations. `created` and `swapped`
   list the items created and the lines put on another item, in the order SAP was asked to.
   */
  datatype Sap = Sap(
    items: map<string, string>, docs: map<DocEntry, Doc>, created: seq<string>, swapped: seq<(DocEntry, int)>)

  /** What is outside the program: upper case, and what SAP fills in on a line whose item changes. */
  datatype World = World(up: string -> string, refill: (nat, Line, string) -> map<string, string>)

  /** `kept`: the lines the draft keeps and their quantities. */
  datatype Keep = Keep(entry: DocEntry, line: int, quantity: string)
  datatype Input = Input(docEntries: seq<DocEntry>, kept: Option<seq<Keep>>)

  const KEEP_ON_SWAP := {
    "Quantity", "UnitPrice", "DiscountPercent", "Currency", "ItemDescription", "WarehouseCode", "TaxCode", "VatGroup",
    "ProjectCode", "CostingCode", "CostingCode2", "CostingCode3", "CostingCode4", "CostingCode5" }

  const LINE_FIELDS := {
    "ItemDescription", "Quantity", "Price", "UnitPrice", "Currency", "DiscountPercent",
    "WarehouseCode", "TaxCode", "TaxOnly", "CostingCode", "CostingCode2", "CostingCode3",
    "CostingCode4", "CostingCode5", "ProjectCode", "VatGroup", "UoMCode", "UoMEntry", "MeasureUnit",
    "UnitsOfMeasurment", "FreeText", "Text", "LineVendor" }

  predicate KeptOnSwap(k: string) {
    k in KEEP_ON_SWAP
  }

  predicate Copied(k: string) {
    k in LINE_FIELDS || (|k| >= 2 && k[..2] == "U_")
  }

  // ---- The plan ----------------------------------------------------------------------------------------

  /** A part line and the item it goes on. */
  datatype Part = Part(entry: DocEntry, line: int, code: string, item: string)

  /** `docs`: the quotations to write, in the order their parts come. */
  datatype Plan = Plan(parts: seq<Part>, make: seq<string>, docs: seq<DocEntry>)

  predicate KeepsLine(input: Input, d: DocEntry, num: int) {
    input.kept.None? || exists k :: k in input.kept.value && k.entry == d && k.line == num
  }

  /** `partLines`: an open, kept line whose code is not its item's. */
  predicate IsPart(w: World, input: Input, d: DocEntry, l: Line) {
    l.code != "" && w.up(l.code) != w.up(l.item) && !l.closed && KeepsLine(input, d, l.num)
  }

  /** The item a code stands for: SAP's spelling of it, or the code itself. */
  function ItemOf(w: World, items: map<string, string>, code: string): string {
    if w.up(code) in items then items[w.up(code)] else code
  }

  function PartsOfLines(w: World, s: Sap, input: Input, d: DocEntry, lines: seq<Line>): seq<Part> {
    if lines == [] then []
    else
      var l := lines[0];
      (if IsPart(w, input, d, l) then [Part(d, l.num, l.code, ItemOf(w, s.items, l.code))] else [])
        + PartsOfLines(w, s, input, d, lines[1..])
  }

  predicate AllPresent(s: Sap, sources: seq<DocEntry>) {
    forall i :: 0 <= i < |sources| ==> sources[i] in s.docs
  }

  function PartsOf(w: World, s: Sap, input: Input, sources: seq<DocEntry>): seq<Part>
    requires AllPresent(s, sources)
  {
    if sources == [] then []
    else PartsOfLines(w, s, input, sources[0], s.docs[sources[0]].lines) + PartsOf(w, s, input, sources[1..])
  }

  predicate HasCode(w: World, codes: seq<string>, code: string) {
    exists i :: 0 <= i < |codes| && w.up(codes[i]) == w.up(code)
  }

  /** Each code once, in first-come order and in its last spelling. */
  function Codes(w: World, parts: seq<Part>): seq<string> {
    if parts == [] then []
    else
      var before := Codes(w, parts[..|parts| - 1]);
      var code := parts[|parts| - 1].code;
      if HasCode(w, before, code) then Respelled(w, before, code) else before + [code]
  }

  function Respelled(w: World, codes: seq<string>, code: string): seq<string> {
    seq(|codes|, i requires 0 <= i < |codes| => if w.up(codes[i]) == w.up(code) then code else codes[i])
  }

  function Missing(w: World, items: map<string, string>, codes: seq<string>): seq<string> {
    if codes == [] then []
    else (if w.up(codes[0]) in items then [] else [codes[0]]) + Missing(w, items, codes[1..])
  }

  function Distinct(all: seq<DocEntry>): (r: seq<DocEntry>)
    ensures forall d :: d in r <==> d in all
    ensures forall i, j :: 0 <= i < j < |r| ==> r[i] != r[j]
  {
    if all == [] then []
    else
      var before := Distinct(all[..|all| - 1]);
      var d := all[|all| - 1];
      assert all == all[..|all| - 1] + [d];
      if d in before then before else before + [d]
  }

  function Entries(parts: seq<Part>): seq<DocEntry> {
    seq(|parts|, i requires 0 <= i < |parts| => parts[i].entry)
  }

  predicate Present(s: Sap, input: Input) {
    forall d :: d in input.docEntries ==> d in s.docs
  }

  /** The sources, each read once. */
  function Reading(s: Sap, input: Input): (r: seq<DocEntry>)
    requires Present(s, input)
    ensures AllPresent(s, r) && r == Distinct(input.docEntries)
  {
    var r := Distinct(input.docEntries);
    assert forall i :: 0 <= i < |r| ==> r[i] in r;
    r
  }

  function PlanCopy(w: World, s: Sap, input: Input): Plan
    requires Present(s, input)
  {
    var parts := PartsOf(w, s, input, Reading(s, input));
    Plan(parts, Missing(w, s.items, Codes(w, parts)), Distinct(Entries(parts)))
  }

  // ---- The writes ----------------------------------------------------------------------------------------

  function CreateItem(w: World, s: Sap, code: string): Sap {
    s.(items := s.items[w.up(code) := code], created := s.created + [code])
  }

  /** The part of `parts` that is line `num` of quotation `d`. */
  function PartOn(parts: seq<Part>, d: DocEntry, num: int): Option<Part> {
    if parts == [] then None
    else if parts[0].entry == d && parts[0].line == num then Some(parts[0])
    else PartOn(parts[1..], d, num)
  }

  predicate Swaps(w: World, parts: seq<Part>, d: DocEntry, l: Line) {
    var p := PartOn(parts, d, l.num);
    p.Some? && w.up(l.item) != w.up(p.value.item)
  }

  /** SAP's line after `swapLine`: what was sent stays, the other kept fields are SAP's, the rest is untouched. */
  function Swapped(w: World, s: Sap, l: Line, item: string): Line {
    var filled := w.refill(|s.swapped|, l, item);
    l.(item := ItemOf(w, s.items, item),
       fields := (filled - (set k | k in filled && !KeptOnSwap(k))) + l.fields)
  }

  function SwapLines(w: World, s: Sap, parts: seq<Part>, d: DocEntry, lines: seq<Line>): seq<Line> {
    seq(|lines|, i requires 0 <= i < |lines| =>
      if Swaps(w, parts, d, lines[i]) then Swapped(w, s, lines[i], PartOn(parts, d, lines[i].num).value.item)
      else lines[i])
  }

  function SwapNums(w: World, parts: seq<Part>, d: DocEntry, lines: seq<Line>): seq<(DocEntry, int)> {
    if lines == [] then []
    else (if Swaps(w, parts, d, lines[0]) then [(d, lines[0].num)] else []) + SwapNums(w, parts, d, lines[1..])
  }

  /** One quotation, read whole and patched; nothing is sent when every line is on its item. */
  function SwapDoc(w: World, s: Sap, parts: seq<Part>, d: DocEntry): Sap {
    if d !in s.docs then s
    else
      var lines := s.docs[d].lines;
      s.(docs := s.docs[d := s.docs[d].(lines := SwapLines(w, s, parts, d, lines))],
         swapped := s.swapped + SwapNums(w, parts, d, lines))
  }

  predicate Reads(s: Sap, p: Plan) {
    forall i :: 0 <= i < |p.docs| ==> p.docs[i] in s.docs
  }

  /** Write number `n` of a plan. */
  function Write(w: World, s: Sap, p: Plan, n: nat): Sap
    requires n < Total(p)
  {
    if n < |p.make| then CreateItem(w, s, p.make[n]) else SwapDoc(w, s, p.parts, p.docs[n - |p.make|])
  }

  lemma AfterCreate(w: World, s: Sap, p: Plan, n: nat)
    requires n < |p.make|
    ensures After(w, s, p, n + 1) == CreateItem(w, After(w, s, p, n), p.make[n])
  {
  }

  lemma AfterSwap(w: World, s: Sap, p: Plan, n: nat)
    requires |p.make| <= n < Total(p)
    ensures After(w, s, p, n + 1) == SwapDoc(w, After(w, s, p, n), p.parts, p.docs[n - |p.make|])
  {
  }

  /** SAP after the first `n` writes of a plan. */
  function After(w: World, s: Sap, p: Plan, n: nat): Sap
    requires n <= Total(p)
  {
    if n == 0 then s else Write(w, After(w, s, p, n - 1), p, n - 1)
  }

  function Total(p: Plan): nat {
    |p.make| + |p.docs|
  }

  // ---- The writes, sent one after the other --------------------------------------------------------------------

  class Server {
    var items: map<string, string>
    var docs: map<DocEntry, Doc>
    var created: seq<string>
    var swapped: seq<(DocEntry, int)>

    function State(): Sap
      reads this
    {
      Sap(items, docs, created, swapped)
    }

    /** SAP's answer to a new item. */
    method PostItem(w: World, code: string)
      modifies this
      ensures State() == CreateItem(w, old(State()), code)
    {
      items := items[w.up(code) := code];
      created := created + [code];
    }

    /** One quotation, read whole and patched. */
    method PatchLines(w: World, parts: seq<Part>, d: DocEntry)
      modifies this
      ensures State() == SwapDoc(w, old(State()), parts, d)
    {
      if d in docs {
        var sap := State();
        var lines := docs[d].lines;
        docs := docs[d := docs[d].(lines := SwapLines(w, sap, parts, d, lines))];
        swapped := swapped + SwapNums(w, parts, d, lines);
      }
    }

    /** The first loop of `makeParts`, stopped after `budget` writes. */
    method MakeItems(w: World, p: Plan, budget: nat)
      modifies this
      ensures State() == After(w, old(State()), p, if budget < |p.make| then budget else |p.make|)
    {
      ghost var start := State();
      var n := 0;
      while n < |p.make| && n < budget
        invariant n <= |p.make| && n <= budget && State() == After(w, start, p, n)
      {
        AfterCreate(w, start, p, n);
        PostItem(w, p.make[n]);
        n := n + 1;
      }
    }

    /** The second loop, from the state the first left. */
    method PatchAll(w: World, p: Plan, budget: nat, ghost start: Sap)
      requires State() == After(w, start, p, |p.make|) && budget >= |p.make|
      modifies this
      ensures State() == After(w, start, p, if budget < Total(p) then budget else Total(p))
    {
      var n := |p.make|;
      while n < Total(p) && n < budget
        invariant |p.make| <= n <= Total(p) && n <= budget && State() == After(w, start, p, n)
      {
        AfterSwap(w, start, p, n);
        PatchLines(w, p.parts, p.docs[n - |p.make|]);
        n := n + 1;
      }
    }

    /** `makeParts`, stopped after `budget` writes: the items first, then each quotation once. */
    method MakeParts(w: World, p: Plan, budget: nat)
      modifies this
      ensures State() == After(w, old(State()), p, if budget < Total(p) then budget else Total(p))
    {
      ghost var start := State();
      MakeItems(w, p, budget);
      if budget >= |p.make| { PatchAll(w, p, budget, start); }
    }
  }

  // ---- The payload -------------------------------------------------------------------------------------------

  /** A line of the order: its base, and the source's own fields. */
  datatype Target = Target(entry: DocEntry, line: int, item: string, fields: map<string, string>)

  function CopyLine(d: DocEntry, l: Line): Target {
    Target(d, l.num, l.item, l.fields - (set k | k in l.fields && !Copied(k)))
  }

  /** `onItems`: the sources as they will be once each part line is on its item. */
  function OnItem(parts: seq<Part>, d: DocEntry, l: Line): Line {
    var p := PartOn(parts, d, l.num);
    if p.Some? && p.value.item != "" then l.(item := p.value.item) else l
  }

  function OnItems(parts: seq<Part>, d: DocEntry, doc: Doc): Doc {
    doc.(lines := seq(|doc.lines|, i requires 0 <= i < |doc.lines| => OnItem(parts, d, doc.lines[i])))
  }

  function Sources(s: Sap, parts: seq<Part>, entries: seq<DocEntry>): seq<(DocEntry, Doc)>
    requires AllPresent(s, entries)
  {
    seq(|entries|, i requires 0 <= i < |entries| => (entries[i], OnItems(parts, entries[i], s.docs[entries[i]])))
  }

  function LinesCopied(d: DocEntry, lines: seq<Line>): seq<Target> {
    seq(|lines|, i requires 0 <= i < |lines| => CopyLine(d, lines[i]))
  }

  function AllTargets(sources: seq<(DocEntry, Doc)>): seq<Target> {
    if sources == [] then [] else LinesCopied(sources[0].0, sources[0].1.lines) + AllTargets(sources[1..])
  }

  function OnBase(all: seq<Target>, d: DocEntry, num: int): Option<Target> {
    if all == [] then None
    else
      var last := all[|all| - 1];
      if last.entry == d && last.line == num then Some(last) else OnBase(all[..|all| - 1], d, num)
  }

  function Quantified(t: Target, quantity: string): Target {
    t.(fields := t.fields["Quantity" := quantity])
  }

  /** `buildCopy`: None where it throws. */
  function BuildCopy(sources: seq<(DocEntry, Doc)>, kept: Option<seq<Keep>>): Option<seq<Target>> {
    if sources == [] || (exists i :: 0 <= i < |sources| && sources[i].1.card != sources[0].1.card)
       || (exists i :: 0 <= i < |sources| && sources[i].1.lines == []) then None
    else
      var all := AllTargets(sources);
      match kept
      case None => Some(all)
      case Some(ks) =>
        if exists i :: 0 <= i < |ks| && OnBase(all, ks[i].entry, ks[i].line).None? then None
        else
          Some(seq(|ks|, i requires 0 <= i < |ks| =>
            Quantified(OnBase(all, ks[i].entry, ks[i].line).value, ks[i].quantity)))
  }

  /** The payload an attempt posts: built from the sources it read, with the items it is about to put on them. */
  function Payload(w: World, s: Sap, input: Input): Option<seq<Target>>
    requires Present(s, input)
  {
    BuildCopy(Sources(s, PlanCopy(w, s, input).parts, Reading(s, input)), input.kept)
  }

  /** The payload of the same copy built from the sources as they are. */
  function PlainPayload(s: Sap, input: Input): Option<seq<Target>>
    requires Present(s, input)
  {
    BuildCopy(Sources(s, [], Reading(s, input)), input.kept)
  }

  // ---- Attempts -----------------------------------------------------------------------------------------------

  /**
   One attempt that gets as far as `n` writes. A source that is gone or a copy that cannot be built refuses it
   first.
   */
  function Attempt(w: World, s: Sap, input: Input, n: nat): Sap {
    if !Present(s, input) || Payload(w, s, input).None? then s
    else
      var p := PlanCopy(w, s, input);
      After(w, s, p, if n < Total(p) then n else Total(p))
  }

  function Run(w: World, s: Sap, input: Input, attempts: seq<nat>): Sap {
    if attempts == [] then s
    else Attempt(w, Run(w, s, input, attempts[..|attempts| - 1]), input, attempts[|attempts| - 1])
  }

  // ---- What SAP guarantees ---------------------------------------------------------------------------------

  /** Items are found in any spelling; a quotation's lines have their own numbers. */
  ghost predicate SapOk(w: World, s: Sap) {
    && (forall k :: k in s.items ==> w.up(s.items[k]) == k && s.items[k] != "")
    && (forall d :: d in s.docs ==> ApartLines(s.docs[d].lines))
  }

  ghost predicate ApartLines(lines: seq<Line>) {
    forall i, j :: 0 <= i < j < |lines| ==> lines[i].num != lines[j].num
  }

  lemma ItemOfCode(w: World, s: Sap, code: string)
    requires SapOk(w, s)
    ensures w.up(ItemOf(w, s.items, code)) == w.up(code)
    ensures code != "" ==> ItemOf(w, s.items, code) != ""
  {
  }

  // ---- The plan, line by line --------------------------------------------------------------------------------

  lemma {:induction false} PartOnConcat(a: seq<Part>, b: seq<Part>, d: DocEntry, num: int)
    ensures PartOn(a + b, d, num) == if PartOn(a, d, num).Some? then PartOn(a, d, num) else PartOn(b, d, num)
  {
    if a == [] {
      assert a + b == b;
    } else {
      assert (a + b)[1..] == a[1..] + b;
      PartOnConcat(a[1..], b, d, num);
    }
  }

  function PartFor(w: World, s: Sap, d: DocEntry, l: Line): Part {
    Part(d, l.num, l.code, ItemOf(w, s.items, l.code))
  }

  lemma {:induction false} PartOnLines(w: World, s: Sap, input: Input, d: DocEntry, lines: seq<Line>, e: DocEntry,
                                       num: int)
    requires forall i, j :: 0 <= i < j < |lines| ==> lines[i].num != lines[j].num
    ensures e != d || (forall i :: 0 <= i < |lines| ==> lines[i].num != num) ==>
        PartOn(PartsOfLines(w, s, input, d, lines), e, num).None?
    ensures forall i :: 0 <= i < |lines| && e == d && lines[i].num == num ==>
              PartOn(PartsOfLines(w, s, input, d, lines), e, num) ==
                  if IsPart(w, input, d, lines[i]) then Some(PartFor(w, s, d, lines[i])) else None
  {
    if lines != [] {
      PartOnLines(w, s, input, d, lines[1..], e, num);
      var l := lines[0];
      var first := if IsPart(w, input, d, l) then [PartFor(w, s, d, l)] else [];
      PartOnConcat(first, PartsOfLines(w, s, input, d, lines[1..]), e, num);
    }
  }

  /** Each line of each source is in the plan exactly when it is a part line, with the item of its code. */
  lemma {:induction false} PartOnPlan(w: World, s: Sap, input: Input, sources: seq<DocEntry>, d: DocEntry, i: nat)
    requires SapOk(w, s) && AllPresent(s, sources) && d in s.docs && i < |s.docs[d].lines|
    ensures var l := s.docs[d].lines[i];
            PartOn(PartsOf(w, s, input, sources), d, l.num)
              == if d in sources && IsPart(w, input, d, l) then Some(PartFor(w, s, d, l)) else None
  {
    if sources != [] {
      var l := s.docs[d].lines[i];
      var lines := s.docs[sources[0]].lines;
      PartOnPlan(w, s, input, sources[1..], d, i);
      PartOnLines(w, s, input, sources[0], lines, d, l.num);
      PartOnConcat(PartsOfLines(w, s, input, sources[0], lines), PartsOf(w, s, input, sources[1..]), d, l.num);
      assert sources == [sources[0]] + sources[1..];
    }
  }

  lemma {:induction false} PartOnIn(parts: seq<Part>, d: DocEntry, num: int)
    ensures PartOn(parts, d, num).Some? ==> PartOn(parts, d, num).value in parts
  {
    if parts != [] { PartOnIn(parts[1..], d, num); }
  }

  ghost predicate Apart(w: World, codes: seq<string>) {
    forall i, j :: 0 <= i < j < |codes| ==> w.up(codes[i]) != w.up(codes[j])
  }

  lemma {:induction false} CodesOnce(w: World, parts: seq<Part>)
    ensures Apart(w, Codes(w, parts))
    ensures forall i :: 0 <= i < |parts| ==> HasCode(w, Codes(w, parts), parts[i].code)
  {
    if parts != [] {
      var last := parts[|parts| - 1].code;
      var before := Codes(w, parts[..|parts| - 1]);
      CodesOnce(w, parts[..|parts| - 1]);
      forall i | 0 <= i < |parts|
        ensures HasCode(w, Codes(w, parts), parts[i].code)
      {
        if i < |parts| - 1 {
          assert parts[..|parts| - 1][i] == parts[i];
          var k :| 0 <= k < |before| && w.up(before[k]) == w.up(parts[i].code);
          assert w.up(Codes(w, parts)[k]) == w.up(parts[i].code);
        } else if HasCode(w, before, last) {
          var k :| 0 <= k < |before| && w.up(before[k]) == w.up(last);
          assert w.up(Codes(w, parts)[k]) == w.up(last);
        } else {
          assert Codes(w, parts)[|before|] == last;
        }
      }
    }
  }

  lemma HasCodeFirst(w: World, codes: seq<string>, code: string)
    requires codes != []
    ensures HasCode(w, codes, code) <==> w.up(codes[0]) == w.up(code) || HasCode(w, codes[1..], code)
  {
    if i :| 0 < i < |codes| && w.up(codes[i]) == w.up(code) { assert codes[1..][i - 1] == codes[i]; }
    if i :| 0 <= i < |codes[1..]| && w.up(codes[1..][i]) == w.up(code) { assert codes[i + 1] == codes[1..][i]; }
  }

  lemma {:induction false} MissingHas(w: World, items: map<string, string>, codes: seq<string>, code: string)
    ensures HasCode(w, Missing(w, items, codes), code) <==> HasCode(w, codes, code) && w.up(code) !in items
  {
    if codes != [] {
      MissingHas(w, items, codes[1..], code);
      HasCodeFirst(w, codes, code);
      var all := Missing(w, items, codes);
      if w.up(codes[0]) !in items {
        assert all[1..] == Missing(w, items, codes[1..]);
        HasCodeFirst(w, all, code);
      } else {
        assert all == Missing(w, items, codes[1..]);
      }
    }
  }

  lemma {:induction false} MissingApart(w: World, items: map<string, string>, codes: seq<string>)
    requires Apart(w, codes)
    ensures Apart(w, Missing(w, items, codes))
  {
    if codes != [] {
      var rest := Missing(w, items, codes[1..]);
      MissingApart(w, items, codes[1..]);
      if w.up(codes[0]) in items {
        assert Missing(w, items, codes) == rest;
      } else {
        MissingHas(w, items, codes[1..], codes[0]);
        assert Missing(w, items, codes) == [codes[0]] + rest;
        assert forall i :: 0 <= i < |codes[1..]| ==> codes[1..][i] == codes[i + 1];
        assert !HasCode(w, codes[1..], codes[0]);
        assert forall i :: 0 <= i < |rest| ==> w.up(rest[i]) != w.up(codes[0]);
      }
    }
  }

  /** A part's code is an item already, or among those to be made. */
  lemma PlanMakes(w: World, s: Sap, input: Input, part: Part)
    requires Present(s, input) && part in PlanCopy(w, s, input).parts
    ensures w.up(part.code) in s.items || HasCode(w, PlanCopy(w, s, input).make, part.code)
    ensures Apart(w, PlanCopy(w, s, input).make)
    ensures forall c :: c in PlanCopy(w, s, input).make ==> w.up(c) !in s.items
    ensures part.entry in PlanCopy(w, s, input).docs
  {
    var p := PlanCopy(w, s, input);
    var codes := Codes(w, p.parts);
    CodesOnce(w, p.parts);
    MissingApart(w, s.items, codes);
    var i :| 0 <= i < |p.parts| && p.parts[i] == part;
    assert Entries(p.parts)[i] == part.entry;
    MissingHas(w, s.items, codes, part.code);
    forall k | 0 <= k < |p.make|
      ensures w.up(p.make[k]) !in s.items
    {
      MissingHas(w, s.items, codes, p.make[k]);
    }
  }

  // ---- The lines, before and after ---------------------------------------------------------------------------

  /** `l` is what became of `l0`: itself, or its part's item with every figure it had. */
  ghost predicate LineMoved(w: World, input: Input, d: DocEntry, l0: Line, l: Line) {
    && l.num == l0.num && l.code == l0.code && l.closed == l0.closed
    && (l == l0
        || (&& IsPart(w, input, d, l0) && w.up(l.item) == w.up(l.code)
            && (forall k :: k in l0.fields ==> k in l.fields && l.fields[k] == l0.fields[k])
            && (forall k :: k in l.fields && k !in l0.fields ==> KeptOnSwap(k))))
  }

  ghost predicate SameShape(s0: Sap, s: Sap) {
    && s.docs.Keys == s0.docs.Keys
    && forall d :: d in s0.docs ==> s.docs[d].card == s0.docs[d].card && |s.docs[d].lines| == |s0.docs[d].lines|
  }

  ghost predicate LinesMoved(w: World, input: Input, s0: Sap, s: Sap)
    requires SameShape(s0, s)
  {
    forall d, i :: d in s0.docs && 0 <= i < |s0.docs[d].lines| ==> MovedAt(w, input, s0, s, d, i)
  }

  ghost predicate MovedAt(w: World, input: Input, s0: Sap, s: Sap, d: DocEntry, i: int)
    requires SameShape(s0, s) && d in s0.docs && 0 <= i < |s0.docs[d].lines|
  {
    LineMoved(w, input, d, s0.docs[d].lines[i], s.docs[d].lines[i])
    && (s.docs[d].lines[i] != s0.docs[d].lines[i] ==>
        d in input.docEntries && w.up(s0.docs[d].lines[i].code) in s.items)
  }

  lemma MovedTwice(w: World, input: Input, d: DocEntry, l0: Line, l1: Line, l2: Line)
    requires LineMoved(w, input, d, l0, l1) && LineMoved(w, input, d, l1, l2)
    ensures LineMoved(w, input, d, l0, l2) && (l1 != l0 ==> l2 == l1)
  {
  }

  ghost predicate Once(log: seq<(DocEntry, int)>) {
    forall i, j :: 0 <= i < j < |log| ==> log[i] != log[j]
  }

  /** SAP was asked to put each line on an item at most once, and exactly the lines that moved. */
  ghost predicate SwapsOnce(s0: Sap, s: Sap)
    requires SameShape(s0, s)
  {
    && Once(s.swapped)
    && (forall d, i :: d in s0.docs && 0 <= i < |s0.docs[d].lines| ==> LoggedIffMoved(s0, s, d, i))
    && (forall x :: x in s.swapped ==> IsLine(s0, x))
  }

  ghost predicate IsLine(s0: Sap, x: (DocEntry, int)) {
    x.0 in s0.docs && exists i :: 0 <= i < |s0.docs[x.0].lines| && s0.docs[x.0].lines[i].num == x.1
  }

  ghost predicate LoggedIffMoved(s0: Sap, s: Sap, d: DocEntry, i: int)
    requires SameShape(s0, s) && d in s0.docs && 0 <= i < |s0.docs[d].lines|
  {
    (d, s0.docs[d].lines[i].num) in s.swapped <==> s.docs[d].lines[i] != s0.docs[d].lines[i]
  }

  /** Every created item was none before, and no two are one item to SAP. */
  ghost predicate CreatesOnce(w: World, s0: Sap, s: Sap) {
    && Apart(w, s.created)
    && (forall i :: 0 <= i < |s.created| ==> w.up(s.created[i]) !in s0.items && w.up(s.created[i]) in s.items)
    && (forall k :: k in s0.items ==> k in s.items && s.items[k] == s0.items[k])
  }

  /** Over a run from `s0`. */
  ghost predicate RunInv(w: World, input: Input, s0: Sap, s: Sap) {
    && SapOk(w, s)
    && SameShape(s0, s)
    && LinesMoved(w, input, s0, s)
    && SwapsOnce(s0, s)
    && CreatesOnce(w, s0, s)
  }

  /** Inside an attempt planned at `sp`, after `n` of its writes. */
  ghost predicate MidInv(w: World, input: Input, sp: Sap, p: Plan, s: Sap, n: nat)
    requires n <= Total(p)
  {
    && SapOk(w, s)
    && SameShape(sp, s)
    && LinesMoved(w, input, sp, s)
    && (forall k :: k in sp.items ==> k in s.items && s.items[k] == sp.items[k])
    && (forall j :: 0 <= j < |p.make| ==> (w.up(p.make[j]) in s.items <==> j < n))
    && (forall d :: d in s.docs ==>
          if d in p.docs[..if n < |p.make| then 0 else n - |p.make|] then NoParts(w, input, d, s.docs[d].lines)
          else s.docs[d] == sp.docs[d])
  }

  ghost predicate NoParts(w: World, input: Input, d: DocEntry, lines: seq<Line>) {
    forall i :: 0 <= i < |lines| ==> !IsPart(w, input, d, lines[i])
  }

  // ---- One write -------------------------------------------------------------------------------------------

  /** SAP takes the write: a new item is new, and a line goes on an item there is. */
  ghost predicate Accepted(w: World, s: Sap, p: Plan, n: nat)
    requires n < Total(p)
  {
    if n < |p.make| then w.up(p.make[n]) !in s.items
    else
      var d := p.docs[n - |p.make|];
      d in s.docs && forall i :: 0 <= i < |s.docs[d].lines| && Swaps(w, p.parts, d, s.docs[d].lines[i]) ==>
        w.up(PartOn(p.parts, d, s.docs[d].lines[i].num).value.item) in s.items
  }

  lemma CreateKeeps(w: World, input: Input, s0: Sap, sp: Sap, p: Plan, s: Sap, n: nat)
    requires n < |p.make| && Apart(w, p.make) && (forall c :: c in p.make ==> c != "")
    requires RunInv(w, input, s0, s) && MidInv(w, input, sp, p, s, n) && Reads(s, p)
    ensures RunInv(w, input, s0, CreateItem(w, s, p.make[n]))
    ensures MidInv(w, input, sp, p, CreateItem(w, s, p.make[n]), n + 1)
    ensures Accepted(w, s, p, n)
  {
    var s' := CreateItem(w, s, p.make[n]);
    assert p.make[n] in p.make;
    assert s'.docs == s.docs;
    assert LinesMoved(w, input, s0, s') by {
      forall d, i | d in s0.docs && 0 <= i < |s0.docs[d].lines|
        ensures MovedAt(w, input, s0, s', d, i)
      {
        assert MovedAt(w, input, s0, s, d, i);
      }
    }
    assert LinesMoved(w, input, sp, s') by {
      forall d, i | d in sp.docs && 0 <= i < |sp.docs[d].lines|
        ensures MovedAt(w, input, sp, s', d, i)
      {
        assert MovedAt(w, input, sp, s, d, i);
      }
    }
    assert SwapsOnce(s0, s') by {
      forall d, i | d in s0.docs && 0 <= i < |s0.docs[d].lines|
        ensures LoggedIffMoved(s0, s', d, i)
      {
        assert LoggedIffMoved(s0, s, d, i);
      }
    }
  }

  lemma {:induction false} SwapNumsAre(w: World, parts: seq<Part>, d: DocEntry, lines: seq<Line>, x: (DocEntry, int))
    ensures x in SwapNums(w, parts, d, lines) <==>
              x.0 == d && exists i :: 0 <= i < |lines| && lines[i].num == x.1 && Swaps(w, parts, d, lines[i])
  {
    if lines != [] {
      SwapNumsAre(w, parts, d, lines[1..], x);
      if i :| 0 < i < |lines| && lines[i].num == x.1 && Swaps(w, parts, d, lines[i]) {
        assert lines[1..][i - 1] == lines[i];
      }
      if i :| 0 <= i < |lines[1..]| && lines[1..][i].num == x.1 && Swaps(w, parts, d, lines[1..][i]) {
        assert lines[i + 1] == lines[1..][i];
      }
    }
  }

  lemma {:induction false} SwapNumsOnce(w: World, parts: seq<Part>, d: DocEntry, lines: seq<Line>)
    requires ApartLines(lines)
    ensures Once(SwapNums(w, parts, d, lines))
  {
    if lines != [] {
      assert forall i :: 0 <= i < |lines[1..]| ==> lines[1..][i] == lines[i + 1];
      var rest := SwapNums(w, parts, d, lines[1..]);
      SwapNumsOnce(w, parts, d, lines[1..]);
      SwapNumsAre(w, parts, d, lines[1..], (d, lines[0].num));
      assert (d, lines[0].num) !in rest;
    }
  }

  /** In a quotation the attempt has not written yet, the lines to swap are the part lines, and their items exist. */
  lemma PlannedSwap(w: World, input: Input, sp: Sap, s: Sap, n: nat, d: DocEntry, i: nat)
    requires SapOk(w, sp) && Present(sp, input)
    requires var p := PlanCopy(w, sp, input);
             |p.make| <= n < Total(p) && MidInv(w, input, sp, p, s, n) && d == p.docs[n - |p.make|]
    requires d in s.docs && i < |s.docs[d].lines|
    ensures var p := PlanCopy(w, sp, input); var l := s.docs[d].lines[i];
            && l == sp.docs[d].lines[i] && d in input.docEntries
            && (Swaps(w, p.parts, d, l) <==> IsPart(w, input, d, l))
            && (Swaps(w, p.parts, d, l) ==>
                w.up(PartOn(p.parts, d, l.num).value.item) == w.up(l.code) && w.up(l.code) in s.items)
  {
    var p := PlanCopy(w, sp, input);
    var l := s.docs[d].lines[i];
    var done := p.docs[..n - |p.make|];
    assert d !in done;
    PartOnPlan(w, sp, input, Distinct(input.docEntries), d, i);
    DocsAreSources(w, sp, input, d);
    ItemOfCode(w, sp, l.code);
    if Swaps(w, p.parts, d, l) {
      PartOnIn(p.parts, d, l.num);
      PlanMakes(w, sp, input, PartOn(p.parts, d, l.num).value);
    }
  }

  lemma {:induction false} PartsInSources(w: World, s: Sap, input: Input, sources: seq<DocEntry>)
    requires AllPresent(s, sources)
    ensures forall i :: 0 <= i < |PartsOf(w, s, input, sources)| ==>
              PartsOf(w, s, input, sources)[i].entry in sources && PartsOf(w, s, input, sources)[i].code != ""
  {
    if sources != [] {
      PartsInSources(w, s, input, sources[1..]);
      PartsInDoc(w, s, input, sources[0], s.docs[sources[0]].lines);
    }
  }

  lemma {:induction false} PartsInDoc(w: World, s: Sap, input: Input, d: DocEntry, lines: seq<Line>)
    ensures forall i :: 0 <= i < |PartsOfLines(w, s, input, d, lines)| ==>
              PartsOfLines(w, s, input, d, lines)[i].entry == d && PartsOfLines(w, s, input, d, lines)[i].code != ""
  {
    if lines != [] { PartsInDoc(w, s, input, d, lines[1..]); }
  }

  lemma DocsAreSources(w: World, s: Sap, input: Input, d: DocEntry)
    requires Present(s, input)
    ensures d in PlanCopy(w, s, input).docs ==> d in input.docEntries
    ensures Reads(s, PlanCopy(w, s, input))
  {
    var p := PlanCopy(w, s, input);
    PartsInSources(w, s, input, Distinct(input.docEntries));
    forall e | e in Entries(p.parts)
      ensures e in input.docEntries
    {
      var i :| 0 <= i < |p.parts| && Entries(p.parts)[i] == e;
      assert p.parts[i].entry in Distinct(input.docEntries);
    }
    assert forall i :: 0 <= i < |p.docs| ==> p.docs[i] in Entries(p.parts);
  }

  lemma SwappedMoves(w: World, input: Input, s: Sap, d: DocEntry, l: Line, item: string)
    requires SapOk(w, s) && IsPart(w, input, d, l) && w.up(item) == w.up(l.code) && w.up(l.code) in s.items
    ensures var l' := Swapped(w, s, l, item);
            LineMoved(w, input, d, l, l') && l' != l && !IsPart(w, input, d, l')
  {
    assert w.up(Swapped(w, s, l, item).item) == w.up(l.code);
  }

  /** What one quotation's write does, line by line. */
  ghost predicate DocSwapped(w: World, input: Input, s: Sap, s': Sap, d: DocEntry) {
    && d in s.docs && d in s'.docs && |s'.docs[d].lines| == |s.docs[d].lines| && |s.swapped| <= |s'.swapped|
    && forall i :: 0 <= i < |s.docs[d].lines| ==>
         var l, l' := s.docs[d].lines[i], s'.docs[d].lines[i];
         && LineMoved(w, input, d, l, l')
         && !IsPart(w, input, d, l')
         && (l' != l <==> IsPart(w, input, d, l))
         && (l' != l ==> w.up(l.code) in s.items)
         && (l' != l <==> (d, l.num) in s'.swapped[|s.swapped|..])
  }

  lemma SwapDocMoves(w: World, input: Input, sp: Sap, s: Sap, n: nat)
    requires SapOk(w, sp) && Present(sp, input) && SapOk(w, s)
    requires var p := PlanCopy(w, sp, input); Reads(s, p) && |p.make| <= n < Total(p) && MidInv(w, input, sp, p, s, n)
    ensures var p := PlanCopy(w, sp, input); var d := p.docs[n - |p.make|];
            Accepted(w, s, p, n) && d in input.docEntries && DocSwapped(w, input, s, SwapDoc(w, s, p.parts, d), d)
  {
    var p := PlanCopy(w, sp, input);
    var d := p.docs[n - |p.make|];
    var s' := SwapDoc(w, s, p.parts, d);
    var lines := s.docs[d].lines;
    DocsAreSources(w, sp, input, d);
    assert s'.swapped[|s.swapped|..] == SwapNums(w, p.parts, d, lines);
    forall i: nat | i < |lines|
      ensures var l, l' := lines[i], s'.docs[d].lines[i];
              && LineMoved(w, input, d, l, l') && !IsPart(w, input, d, l')
              && (l' != l <==> IsPart(w, input, d, l)) && (l' != l <==> (d, l.num) in SwapNums(w, p.parts, d, lines))
      ensures Swaps(w, p.parts, d, lines[i]) ==> w.up(PartOn(p.parts, d, lines[i].num).value.item) in s.items
    {
      PlannedSwap(w, input, sp, s, n, d, i);
      SwapNumsAre(w, p.parts, d, lines, (d, lines[i].num));
      if Swaps(w, p.parts, d, lines[i]) {
        SwappedMoves(w, input, s, d, lines[i], PartOn(p.parts, d, lines[i].num).value.item);
      }
    }
  }

  lemma StillMoved(w: World, input: Input, s0: Sap, s: Sap, parts: seq<Part>, d: DocEntry)
    requires SameShape(s0, s) && LinesMoved(w, input, s0, s) && d in s.docs && d in input.docEntries
    requires DocSwapped(w, input, s, SwapDoc(w, s, parts, d), d)
    ensures SameShape(s0, SwapDoc(w, s, parts, d)) && LinesMoved(w, input, s0, SwapDoc(w, s, parts, d))
  {
    var s' := SwapDoc(w, s, parts, d);
    forall e, i | e in s0.docs && 0 <= i < |s0.docs[e].lines|
      ensures MovedAt(w, input, s0, s', e, i)
    {
      assert MovedAt(w, input, s0, s, e, i);
      if e == d { MovedTwice(w, input, d, s0.docs[d].lines[i], s.docs[d].lines[i], s'.docs[d].lines[i]); }
    }
  }

  lemma StillOk(w: World, input: Input, s: Sap, parts: seq<Part>, d: DocEntry)
    requires SapOk(w, s) && d in s.docs && DocSwapped(w, input, s, SwapDoc(w, s, parts, d), d)
    ensures SapOk(w, SwapDoc(w, s, parts, d))
  {
    var s' := SwapDoc(w, s, parts, d);
    forall i, j | 0 <= i < j < |s'.docs[d].lines|
      ensures s'.docs[d].lines[i].num != s'.docs[d].lines[j].num
    {
      assert ApartLines(s.docs[d].lines);
      assert s.docs[d].lines[i].num != s.docs[d].lines[j].num;
    }
  }

  lemma SwapKeepsRun(w: World, input: Input, s0: Sap, s: Sap, parts: seq<Part>, d: DocEntry)
    requires RunInv(w, input, s0, s) && d in s.docs && d in input.docEntries
    requires DocSwapped(w, input, s, SwapDoc(w, s, parts, d), d)
    ensures RunInv(w, input, s0, SwapDoc(w, s, parts, d))
  {
    StillMoved(w, input, s0, s, parts, d);
    StillOk(w, input, s, parts, d);
    SwapKeepsLog(w, input, s0, s, parts, d);
  }

  lemma OnceJoined(a: seq<(DocEntry, int)>, b: seq<(DocEntry, int)>)
    requires Once(a) && Once(b) && forall x :: x in b ==> x !in a
    ensures Once(a + b)
  {
    forall i, j | 0 <= i < j < |a + b| ensures (a + b)[i] != (a + b)[j] {
      if i < |a| && j >= |a| { assert (a + b)[j] in b; }
    }
  }

  lemma SwapKeepsLog(w: World, input: Input, s0: Sap, s: Sap, parts: seq<Part>, d: DocEntry)
    requires RunInv(w, input, s0, s) && d in s.docs
    requires DocSwapped(w, input, s, SwapDoc(w, s, parts, d), d)
    ensures SameShape(s0, SwapDoc(w, s, parts, d)) && SwapsOnce(s0, SwapDoc(w, s, parts, d))
  {
    var s' := SwapDoc(w, s, parts, d);
    var lines := s.docs[d].lines;
    var more := SwapNums(w, parts, d, lines);
    SwapNumsOnce(w, parts, d, lines);
    assert s'.swapped == s.swapped + more;
    assert s'.swapped[|s.swapped|..] == more;
    forall x | x in more
      ensures x !in s.swapped && IsLine(s0, x)
    {
      SwapNumsAre(w, parts, d, lines, x);
      var i :| 0 <= i < |lines| && lines[i].num == x.1 && Swaps(w, parts, d, lines[i]);
      assert MovedAt(w, input, s0, s, d, i);
      assert LoggedIffMoved(s0, s, d, i);
      assert s0.docs[d].lines[i].num == x.1;
    }
    assert Once(s'.swapped) by { OnceJoined(s.swapped, more); }
    forall e, i | e in s0.docs && 0 <= i < |s0.docs[e].lines|
      ensures LoggedIffMoved(s0, s', e, i)
    {
      assert LoggedIffMoved(s0, s, e, i);
      assert MovedAt(w, input, s0, s, e, i);
      if e != d {
        SwapNumsAre(w, parts, d, lines, (e, s0.docs[e].lines[i].num));
      } else {
        MovedTwice(w, input, d, s0.docs[d].lines[i], lines[i], s'.docs[d].lines[i]);
      }
    }
  }

  lemma SwapKeepsMid(w: World, input: Input, sp: Sap, p: Plan, s: Sap, n: nat)
    requires |p.make| <= n < Total(p) && MidInv(w, input, sp, p, s, n)
    requires var d := p.docs[n - |p.make|];
             d in input.docEntries && SapOk(w, SwapDoc(w, s, p.parts, d))
                 && DocSwapped(w, input, s, SwapDoc(w, s, p.parts, d), d)
    ensures MidInv(w, input, sp, p, SwapDoc(w, s, p.parts, p.docs[n - |p.make|]), n + 1)
  {
    var d := p.docs[n - |p.make|];
    StillMoved(w, input, sp, s, p.parts, d);
    assert p.docs[..n + 1 - |p.make|] == p.docs[..n - |p.make|] + [d];
  }

  // ---- Whole attempts and whole runs ---------------------------------------------------------------------------

  ghost predicate Sane(w: World, s: Sap, p: Plan) {
    Apart(w, p.make) && (forall c :: c in p.make ==> w.up(c) !in s.items && c != "") && Reads(s, p)
  }

  lemma PlanIsSane(w: World, s: Sap, input: Input)
    requires SapOk(w, s) && Present(s, input)
    ensures Sane(w, s, PlanCopy(w, s, input))
  {
    var p := PlanCopy(w, s, input);
    var codes := Codes(w, p.parts);
    CodesOnce(w, p.parts);
    MissingApart(w, s.items, codes);
    PartsInSources(w, s, input, Distinct(input.docEntries));
    MadeNonEmpty(w, s.items, p.parts);
    forall c | c in p.make
      ensures w.up(c) !in s.items
    {
      var k :| 0 <= k < |p.make| && p.make[k] == c;
      MissingHas(w, s.items, codes, c);
    }
    DocsAreSources(w, s, input, 0);
  }

  lemma {:induction false} MadeNonEmpty(w: World, items: map<string, string>, parts: seq<Part>)
    requires forall i :: 0 <= i < |parts| ==> parts[i].code != ""
    ensures forall c :: c in Missing(w, items, Codes(w, parts)) ==> c != ""
  {
    CodesNonEmpty(w, parts);
    MissingIn(w, items, Codes(w, parts));
  }

  lemma {:induction false} CodesNonEmpty(w: World, parts: seq<Part>)
    requires forall i :: 0 <= i < |parts| ==> parts[i].code != ""
    ensures "" !in Codes(w, parts)
  {
    if parts != [] { CodesNonEmpty(w, parts[..|parts| - 1]); }
  }

  lemma {:induction false} MissingIn(w: World, items: map<string, string>, codes: seq<string>)
    ensures forall c :: c in Missing(w, items, codes) ==> c in codes
  {
    if codes != [] { MissingIn(w, items, codes[1..]); }
  }

  lemma MidStarts(w: World, input: Input, sp: Sap, p: Plan)
    requires SapOk(w, sp) && Sane(w, sp, p)
    ensures MidInv(w, input, sp, p, sp, 0)
  {
    assert LinesMoved(w, input, sp, sp) by {
      forall d, i | d in sp.docs && 0 <= i < |sp.docs[d].lines| ensures MovedAt(w, input, sp, sp, d, i) {}
    }
    assert forall j :: 0 <= j < |p.make| ==> p.make[j] in p.make;
    if |p.make| == 0 { assert p.docs[..0] == []; }
  }

  lemma WriteKeeps(w: World, input: Input, s0: Sap, sp: Sap, s: Sap, n: nat)
    requires SapOk(w, sp) && Present(sp, input) && Sane(w, sp, PlanCopy(w, sp, input))
    requires var p := PlanCopy(w, sp, input);
             n < Total(p) && RunInv(w, input, s0, s) && MidInv(w, input, sp, p, s, n)
    ensures var p := PlanCopy(w, sp, input);
            && Reads(s, p) && Accepted(w, s, p, n)
            && RunInv(w, input, s0, Write(w, s, p, n)) && MidInv(w, input, sp, p, Write(w, s, p, n), n + 1)
  {
    var p := PlanCopy(w, sp, input);
    assert Reads(s, p);
    if n < |p.make| {
      CreateKeeps(w, input, s0, sp, p, s, n);
    } else {
      SwapDocMoves(w, input, sp, s, n);
      SwapKeepsRun(w, input, s0, s, p.parts, p.docs[n - |p.make|]);
      SwapKeepsMid(w, input, sp, p, s, n);
    }
  }

  lemma NextKeeps(w: World, input: Input, s0: Sap, sp: Sap, p: Plan, n: nat)
    requires SapOk(w, sp) && Present(sp, input) && p == PlanCopy(w, sp, input) && Sane(w, sp, p) && 0 < n <= Total(p)
    requires RunInv(w, input, s0, After(w, sp, p, n - 1)) && MidInv(w, input, sp, p, After(w, sp, p, n - 1), n - 1)
    ensures RunInv(w, input, s0, After(w, sp, p, n)) && MidInv(w, input, sp, p, After(w, sp, p, n), n)
  {
    WriteKeeps(w, input, s0, sp, After(w, sp, p, n - 1), n - 1);
    assert After(w, sp, p, n) == Write(w, After(w, sp, p, n - 1), p, n - 1);
  }

  lemma {:induction false} AfterKeeps(w: World, input: Input, s0: Sap, sp: Sap, p: Plan, n: nat)
    requires RunInv(w, input, s0, sp) && Present(sp, input) && p == PlanCopy(w, sp, input) && Sane(w, sp, p)
    requires n <= Total(p)
    ensures RunInv(w, input, s0, After(w, sp, p, n)) && MidInv(w, input, sp, p, After(w, sp, p, n), n)
  {
    if n == 0 {
      MidStarts(w, input, sp, p);
    } else {
      AfterKeeps(w, input, s0, sp, p, n - 1);
      NextKeeps(w, input, s0, sp, p, n);
    }
  }

  ghost predicate Initial(w: World, s: Sap) {
    SapOk(w, s) && s.created == [] && s.swapped == []
  }

  lemma {:induction false} RunKeeps(w: World, input: Input, s0: Sap, attempts: seq<nat>)
    requires Initial(w, s0)
    ensures RunInv(w, input, s0, Run(w, s0, input, attempts))
  {
    if attempts == [] {
      forall d, i | d in s0.docs && 0 <= i < |s0.docs[d].lines|
        ensures MovedAt(w, input, s0, s0, d, i) && LoggedIffMoved(s0, s0, d, i)
      {
      }
    } else {
      var before := Run(w, s0, input, attempts[..|attempts| - 1]);
      RunKeeps(w, input, s0, attempts[..|attempts| - 1]);
      var n := attempts[|attempts| - 1];
      if Present(before, input) && Payload(w, before, input).Some? {
        var p := PlanCopy(w, before, input);
        PlanIsSane(w, before, input);
        AfterKeeps(w, input, s0, before, p, if n < Total(p) then n else Total(p));
      }
    }
  }

  // ---- Each thing once, nothing lost -----------------------------------------------------------------------------

  /** A line that is no part, is closed, is dropped from the copy or is not copied at all. */
  predicate OutsideTheCopy(w: World, input: Input, d: DocEntry, l: Line) {
    l.code == "" || l.closed || w.up(l.code) == w.up(l.item) || d !in input.docEntries
    || (input.kept.Some? && forall k :: k in input.kept.value ==> k.entry != d || k.line != l.num)
  }

  /**
   However many attempts stopped wherever they did: no item was created that existed or was created before,
   no line was put on an item twice, and only part lines moved, with every figure they had. A line outside
   the copy is as it was.
   */
  lemma MadeAndSwappedOnce(w: World, input: Input, s0: Sap, attempts: seq<nat>)
    requires Initial(w, s0)
    ensures var s := Run(w, s0, input, attempts);
            && CreatesOnce(w, s0, s) && SameShape(s0, s) && SwapsOnce(s0, s) && LinesMoved(w, input, s0, s)
            && forall d, i ::
                d in s0.docs && 0 <= i < |s0.docs[d].lines| && OutsideTheCopy(w, input, d, s0.docs[d].lines[i]) ==>
                 s.docs[d].lines[i] == s0.docs[d].lines[i]
  {
    var s := Run(w, s0, input, attempts);
    RunKeeps(w, input, s0, attempts);
    forall d, i | d in s0.docs && 0 <= i < |s0.docs[d].lines| && OutsideTheCopy(w, input, d, s0.docs[d].lines[i])
      ensures s.docs[d].lines[i] == s0.docs[d].lines[i]
    {
      assert MovedAt(w, input, s0, s, d, i);
    }
  }

  /** Every write a further attempt makes is one SAP accepts. */
  lemma EveryWriteIsAccepted(w: World, input: Input, s0: Sap, attempts: seq<nat>, n: nat)
    requires Initial(w, s0)
    requires var s := Run(w, s0, input, attempts); Present(s, input) && n < Total(PlanCopy(w, s, input))
    ensures var s := Run(w, s0, input, attempts); var p := PlanCopy(w, s, input);
            Accepted(w, After(w, s, p, n), p, n)
  {
    var s := Run(w, s0, input, attempts);
    RunKeeps(w, input, s0, attempts);
    PlanIsSane(w, s, input);
    AfterKeeps(w, input, s0, s, PlanCopy(w, s, input), n);
    WriteKeeps(w, input, s0, s, After(w, s, PlanCopy(w, s, input), n), n);
  }

  lemma {:induction false} NoPartsNoPlan(w: World, s: Sap, input: Input, sources: seq<DocEntry>)
    requires AllPresent(s, sources)
    requires forall d, i :: d in sources && 0 <= i < |s.docs[d].lines| ==> !IsPart(w, input, d, s.docs[d].lines[i])
    ensures PartsOf(w, s, input, sources) == []
  {
    if sources != [] {
      NoPartsNoPlan(w, s, input, sources[1..]);
      assert sources[0] in sources;
      NoPartLines(w, s, input, sources[0], s.docs[sources[0]].lines);
    }
  }

  lemma {:induction false} NoPartLines(w: World, s: Sap, input: Input, d: DocEntry, lines: seq<Line>)
    requires forall i :: 0 <= i < |lines| ==> !IsPart(w, input, d, lines[i])
    ensures PartsOfLines(w, s, input, d, lines) == []
  {
    if lines != [] { NoPartLines(w, s, input, d, lines[1..]); }
  }

  lemma {:induction false} PartInPlan(w: World, s: Sap, input: Input, d: DocEntry, i: nat)
    requires SapOk(w, s) && Present(s, input) && d in input.docEntries && i < |s.docs[d].lines|
    requires IsPart(w, input, d, s.docs[d].lines[i])
    ensures d in PlanCopy(w, s, input).docs
  {
    var p := PlanCopy(w, s, input);
    PartOnPlan(w, s, input, Distinct(input.docEntries), d, i);
    PartOnIn(p.parts, d, s.docs[d].lines[i].num);
    PlanMakes(w, s, input, PartOn(p.parts, d, s.docs[d].lines[i].num).value);
  }

  /** After all writes of an attempt no kept line of the sources is a part line any more. */
  lemma AllWritten(w: World, input: Input, sp: Sap, s: Sap)
    requires SapOk(w, sp) && Present(sp, input)
    requires var p := PlanCopy(w, sp, input); MidInv(w, input, sp, p, s, Total(p))
    ensures forall d, i ::
        d in input.docEntries && 0 <= i < |s.docs[d].lines| ==> !IsPart(w, input, d, s.docs[d].lines[i])
    ensures PlanCopy(w, s, input) == Plan([], [], [])
  {
    var p := PlanCopy(w, sp, input);
    assert p.docs[..|p.docs|] == p.docs;
    forall d, i: nat | d in input.docEntries && i < |s.docs[d].lines|
      ensures !IsPart(w, input, d, s.docs[d].lines[i])
    {
      if d !in p.docs && IsPart(w, input, d, sp.docs[d].lines[i]) { PartInPlan(w, sp, input, d, i); }
    }
    NoPartsNoPlan(w, s, input, Distinct(input.docEntries));
    assert Codes(w, []) == [];
  }

  /** Every part line of the start is on its item once no part line is left. */
  ghost predicate OnTheirItems(w: World, input: Input, s0: Sap, s: Sap)
    requires SameShape(s0, s)
  {
    forall d, i ::
        d in input.docEntries && d in s0.docs && 0 <= i < |s0.docs[d].lines|
            && IsPart(w, input, d, s0.docs[d].lines[i]) ==>
      w.up(s.docs[d].lines[i].item) == w.up(s0.docs[d].lines[i].code) && w.up(s0.docs[d].lines[i].code) in s.items
  }

  lemma NoneLeft(w: World, input: Input, s0: Sap, s: Sap)
    requires RunInv(w, input, s0, s)
    requires forall d, i ::
        d in input.docEntries && d in s.docs && 0 <= i < |s.docs[d].lines| ==> !IsPart(w, input, d, s.docs[d].lines[i])
    ensures OnTheirItems(w, input, s0, s)
  {
    forall d, i | d in input.docEntries && d in s0.docs && 0 <= i < |s0.docs[d].lines|
        && IsPart(w, input, d, s0.docs[d].lines[i])
      ensures w.up(s.docs[d].lines[i].item) == w.up(s0.docs[d].lines[i].code)
      ensures w.up(s0.docs[d].lines[i].code) in s.items
    {
      assert MovedAt(w, input, s0, s, d, i);
    }
  }

  lemma WholeAttempt(w: World, input: Input, s0: Sap, s: Sap, n: nat)
    requires RunInv(w, input, s0, s)
    requires Present(s, input) && Payload(w, s, input).Some? && n >= Total(PlanCopy(w, s, input))
    ensures var s' := Attempt(w, s, input, n);
            && SameShape(s0, s') && OnTheirItems(w, input, s0, s')
            && Present(s', input) && PlanCopy(w, s', input) == Plan([], [], [])
  {
    var p := PlanCopy(w, s, input);
    PlanIsSane(w, s, input);
    AfterKeeps(w, input, s0, s, p, Total(p));
    AllWritten(w, input, s, After(w, s, p, Total(p)));
    NoneLeft(w, input, s0, After(w, s, p, Total(p)));
  }

  /**
   An attempt that is not stopped finishes the work of all attempts before it: every kept part line is on its item.
   */
  lemma RetryCompletes(w: World, input: Input, s0: Sap, attempts: seq<nat>, n: nat)
    requires Initial(w, s0)
    requires var s := Run(w, s0, input, attempts);
             Present(s, input) && Payload(w, s, input).Some? && n >= Total(PlanCopy(w, s, input))
    ensures var s' := Run(w, s0, input, attempts + [n]);
            && SameShape(s0, s') && OnTheirItems(w, input, s0, s')
            && Present(s', input) && PlanCopy(w, s', input) == Plan([], [], [])
  {
    var s := Run(w, s0, input, attempts);
    assert (attempts + [n])[..|attempts|] == attempts;
    assert Run(w, s0, input, attempts + [n]) == Attempt(w, s, input, n);
    RunKeeps(w, input, s0, attempts);
    WholeAttempt(w, input, s0, s, n);
  }

  // ---- The predicted payload ---------------------------------------------------------------------------------------

  lemma {:induction false} OnBaseConcat(a: seq<Target>, b: seq<Target>, d: DocEntry, num: int)
    ensures OnBase(a + b, d, num) == if OnBase(b, d, num).Some? then OnBase(b, d, num) else OnBase(a, d, num)
  {
    if b == [] {
      assert a + b == a;
    } else {
      assert (a + b)[..|a + b| - 1] == a + b[..|b| - 1];
      OnBaseConcat(a, b[..|b| - 1], d, num);
    }
  }

  lemma {:induction false} OnBaseLines(d: DocEntry, lines: seq<Line>, e: DocEntry, num: int)
    requires forall i, j :: 0 <= i < j < |lines| ==> lines[i].num != lines[j].num
    ensures e != d || (forall i :: 0 <= i < |lines| ==> lines[i].num != num) ==>
        OnBase(LinesCopied(d, lines), e, num).None?
    ensures forall i :: 0 <= i < |lines| && e == d && lines[i].num == num ==>
              OnBase(LinesCopied(d, lines), e, num) == Some(CopyLine(d, lines[i]))
  {
    if lines != [] {
      OnBaseLines(d, lines[..|lines| - 1], e, num);
      assert LinesCopied(d, lines)[..|lines| - 1] == LinesCopied(d, lines[..|lines| - 1]);
    }
  }

  ghost predicate ApartSources(sources: seq<(DocEntry, Doc)>) {
    && (forall i, j :: 0 <= i < j < |sources| ==> sources[i].0 != sources[j].0)
    && (forall k :: 0 <= k < |sources| ==> ApartLines(sources[k].1.lines))
  }

  lemma {:induction false} NoBase(sources: seq<(DocEntry, Doc)>, d: DocEntry, num: int)
    requires ApartSources(sources)
    requires forall k :: 0 <= k < |sources| && sources[k].0 == d ==>
               forall i :: 0 <= i < |sources[k].1.lines| ==> sources[k].1.lines[i].num != num
    ensures OnBase(AllTargets(sources), d, num).None?
  {
    if sources != [] {
      assert forall k :: 0 <= k < |sources[1..]| ==> sources[1..][k] == sources[k + 1];
      NoBase(sources[1..], d, num);
      OnBaseConcat(LinesCopied(sources[0].0, sources[0].1.lines), AllTargets(sources[1..]), d, num);
      assert ApartLines(sources[0].1.lines);
      OnBaseLines(sources[0].0, sources[0].1.lines, d, num);
    }
  }

  /** A kept line is found under its base, whatever other lines there are. */
  lemma {:induction false} BaseIsLine(sources: seq<(DocEntry, Doc)>, k: nat, i: nat)
    requires ApartSources(sources) && k < |sources| && i < |sources[k].1.lines|
    ensures OnBase(AllTargets(sources), sources[k].0, sources[k].1.lines[i].num) ==
        Some(CopyLine(sources[k].0, sources[k].1.lines[i]))
  {
    var d, num := sources[k].0, sources[k].1.lines[i].num;
    var rest := sources[1..];
    assert forall j :: 0 <= j < |rest| ==> rest[j] == sources[j + 1];
    OnBaseConcat(LinesCopied(sources[0].0, sources[0].1.lines), AllTargets(rest), d, num);
    assert ApartLines(sources[0].1.lines);
    OnBaseLines(sources[0].0, sources[0].1.lines, d, num);
    if k == 0 { NoBase(rest, d, num); } else { BaseIsLine(rest, k - 1, i); }
  }

  predicate AlikeTarget(w: World, a: Target, b: Target) {
    a.entry == b.entry && a.line == b.line && w.up(a.item) == w.up(b.item)
  }

  ghost predicate AlikePayload(w: World, a: seq<Target>, b: seq<Target>) {
    |a| == |b| && forall j :: 0 <= j < |a| ==> AlikeTarget(w, a[j], b[j])
  }

  ghost predicate SameFigures(a: seq<Target>, b: seq<Target>)
    requires |a| == |b|
  {
    forall j :: 0 <= j < |a| ==> a[j].fields == b[j].fields
  }

  /** Two readings of the same sources, alike but for the lines' figures and their items' spelling. */
  ghost predicate AlikeSources(w: World, a: seq<(DocEntry, Doc)>, b: seq<(DocEntry, Doc)>) {
    |a| == |b| && forall k :: 0 <= k < |a| ==> AlikeDoc(w, a[k], b[k])
  }

  ghost predicate AlikeDoc(w: World, a: (DocEntry, Doc), b: (DocEntry, Doc)) {
    && a.0 == b.0 && a.1.card == b.1.card && |a.1.lines| == |b.1.lines|
    && forall i ::
        0 <= i < |a.1.lines| ==>
            a.1.lines[i].num == b.1.lines[i].num && w.up(a.1.lines[i].item) == w.up(b.1.lines[i].item)
  }

  ghost predicate SameLineFigures(kept: bool, d: DocEntry, a: Line, b: Line) {
    var x, y := CopyLine(d, a).fields, CopyLine(d, b).fields;
    if kept then x - {"Quantity"} == y - {"Quantity"} else x == y
  }

  ghost predicate SameDocFigures(input: Input, a: (DocEntry, Doc), b: (DocEntry, Doc))
    requires |a.1.lines| == |b.1.lines|
  {
    forall i :: 0 <= i < |a.1.lines| && KeepsLine(input, a.0, a.1.lines[i].num) ==>
      SameLineFigures(input.kept.Some?, a.0, a.1.lines[i], b.1.lines[i])
  }

  ghost predicate SameSourceFigures(w: World, input: Input, a: seq<(DocEntry, Doc)>, b: seq<(DocEntry, Doc)>)
    requires AlikeSources(w, a, b)
  {
    forall k :: 0 <= k < |a| ==> AlikeDoc(w, a[k], b[k]) && SameDocFigures(input, a[k], b[k])
  }

  lemma SameFiguresSplit(fa: seq<Target>, ra: seq<Target>, fb: seq<Target>, rb: seq<Target>)
    requires |fa| == |fb| && |ra| == |rb|
    ensures SameFigures(fa + ra, fb + rb) <==> SameFigures(fa, fb) && SameFigures(ra, rb)
  {
    if SameFigures(fa + ra, fb + rb) {
      forall j | 0 <= j < |fa|
        ensures fa[j].fields == fb[j].fields
      {
        assert (fa + ra)[j].fields == (fb + rb)[j].fields;
      }
      forall j | 0 <= j < |ra|
        ensures ra[j].fields == rb[j].fields
      {
        assert (fa + ra)[j + |fa|].fields == (fb + rb)[j + |fa|].fields;
      }
    }
  }

  /** Without kept lines the payload is every line, in order. */
  lemma {:induction false} WholeTargetsAlike(w: World, a: seq<(DocEntry, Doc)>, b: seq<(DocEntry, Doc)>)
    requires AlikeSources(w, a, b)
    ensures AlikePayload(w, AllTargets(a), AllTargets(b))
  {
    if a != [] {
      assert forall k :: 0 <= k < |a[1..]| ==> a[1..][k] == a[k + 1] && b[1..][k] == b[k + 1];
      WholeTargetsAlike(w, a[1..], b[1..]);
      assert AlikeDoc(w, a[0], b[0]);
    }
  }

  lemma DocFiguresAre(docEntries: seq<DocEntry>, a: (DocEntry, Doc), b: (DocEntry, Doc))
    requires a.0 == b.0 && |a.1.lines| == |b.1.lines|
    ensures SameFigures(LinesCopied(a.0, a.1.lines), LinesCopied(b.0, b.1.lines)) <==>
        SameDocFigures(Input(docEntries, None), a, b)
  {
    var fa, fb := LinesCopied(a.0, a.1.lines), LinesCopied(b.0, b.1.lines);
    var none := Input(docEntries, None);
    if SameDocFigures(none, a, b) {
      forall i | 0 <= i < |fa| ensures fa[i].fields == fb[i].fields {
        assert KeepsLine(none, a.0, a.1.lines[i].num);
      }
    }
    if SameFigures(fa, fb) {
      forall i | 0 <= i < |a.1.lines| ensures SameLineFigures(false, a.0, a.1.lines[i], b.1.lines[i]) {
        assert fa[i].fields == fb[i].fields;
      }
    }
  }

  lemma {:induction false} WholeTargetsFigures(w: World, docEntries: seq<DocEntry>, a: seq<(DocEntry, Doc)>,
                                               b: seq<(DocEntry, Doc)>)
    requires AlikeSources(w, a, b)
    ensures |AllTargets(a)| == |AllTargets(b)|
    ensures SameFigures(AllTargets(a), AllTargets(b)) <==> SameSourceFigures(w, Input(docEntries, None), a, b)
  {
    if a != [] {
      var none := Input(docEntries, None);
      var ra, rb := AllTargets(a[1..]), AllTargets(b[1..]);
      assert forall k :: 0 <= k < |a[1..]| ==> a[1..][k] == a[k + 1] && b[1..][k] == b[k + 1];
      WholeTargetsFigures(w, docEntries, a[1..], b[1..]);
      assert AlikeDoc(w, a[0], b[0]);
      DocFiguresAre(docEntries, a[0], b[0]);
      SameFiguresSplit(LinesCopied(a[0].0, a[0].1.lines), ra, LinesCopied(b[0].0, b[0].1.lines), rb);
      if SameDocFigures(none, a[0], b[0]) && SameSourceFigures(w, none, a[1..], b[1..]) {
        forall k | 0 <= k < |a| ensures AlikeDoc(w, a[k], b[k]) && SameDocFigures(none, a[k], b[k]) {
          if k > 0 { assert SameDocFigures(none, a[1..][k - 1], b[1..][k - 1]); }
        }
      }
      if SameSourceFigures(w, none, a, b) {
        assert SameDocFigures(none, a[0], b[0]);
        forall k | 0 <= k < |a[1..]|
          ensures AlikeDoc(w, a[1..][k], b[1..][k]) && SameDocFigures(none, a[1..][k], b[1..][k])
        {
          assert SameDocFigures(none, a[k + 1], b[k + 1]);
        }
      }
    }
  }

  // ---- with kept lines --------------------------------------------------------------------------------------------

  /** The line a kept line names, if a source has it. */
  lemma LineOf(sources: seq<(DocEntry, Doc)>, d: DocEntry, num: int) returns (found: bool, k: nat, i: nat)
    ensures found ==> k < |sources| && sources[k].0 == d && i < |sources[k].1.lines| && sources[k].1.lines[i].num == num
    ensures !found ==> forall k :: 0 <= k < |sources| && sources[k].0 == d ==>
              forall i :: 0 <= i < |sources[k].1.lines| ==> sources[k].1.lines[i].num != num
  {
    if k', i' :|
      0 <= k' < |sources| && sources[k'].0 == d
      && 0 <= i' < |sources[k'].1.lines| && sources[k'].1.lines[i'].num == num {
      found, k, i := true, k', i';
    } else {
      found, k, i := false, 0, 0;
    }
  }

  lemma KeptAlike(w: World, a: seq<(DocEntry, Doc)>, b: seq<(DocEntry, Doc)>, d: DocEntry, num: int)
    requires AlikeSources(w, a, b) && ApartSources(a) && ApartSources(b)
    ensures OnBase(AllTargets(a), d, num).Some? <==> OnBase(AllTargets(b), d, num).Some?
    ensures OnBase(AllTargets(a), d, num).Some? ==>
        AlikeTarget(w, OnBase(AllTargets(a), d, num).value, OnBase(AllTargets(b), d, num).value)
  {
    var found, k, i := LineOf(a, d, num);
    if found {
      assert AlikeDoc(w, a[k], b[k]);
      BaseIsLine(a, k, i);
      BaseIsLine(b, k, i);
    } else {
      NoBase(a, d, num);
      forall k | 0 <= k < |b| && b[k].0 == d
        ensures forall i :: 0 <= i < |b[k].1.lines| ==> b[k].1.lines[i].num != num
      {
        assert AlikeDoc(w, a[k], b[k]);
      }
      NoBase(b, d, num);
    }
  }

  /** One kept line's figures agree exactly when the source lines' do, its quantity aside. */
  lemma KeptFigures(w: World, a: seq<(DocEntry, Doc)>, b: seq<(DocEntry, Doc)>, k: nat, i: nat, quantity: string)
    requires AlikeSources(w, a, b) && ApartSources(a) && ApartSources(b)
    requires k < |a| && i < |a[k].1.lines|
    ensures AlikeDoc(w, a[k], b[k])
    ensures var d, num := a[k].0, a[k].1.lines[i].num;
            && OnBase(AllTargets(a), d, num).Some? && OnBase(AllTargets(b), d, num).Some?
            && (Quantified(OnBase(AllTargets(a), d, num).value, quantity).fields ==
                Quantified(OnBase(AllTargets(b), d, num).value, quantity).fields
                <==> SameLineFigures(true, d, a[k].1.lines[i], b[k].1.lines[i]))
  {
    var d := a[k].0;
    assert AlikeDoc(w, a[k], b[k]);
    BaseIsLine(a, k, i);
    BaseIsLine(b, k, i);
    QuantityAside(CopyLine(d, a[k].1.lines[i]).fields, CopyLine(d, b[k].1.lines[i]).fields, quantity);
  }

  lemma QuantityAside(x: map<string, string>, y: map<string, string>, q: string)
    ensures x["Quantity" := q] == y["Quantity" := q] <==> x - {"Quantity"} == y - {"Quantity"}
  {
    var x', y' := x["Quantity" := q], y["Quantity" := q];
    if x - {"Quantity"} == y - {"Quantity"} {
      forall f | f in x' || f in y' ensures f in x' && f in y' && x'[f] == y'[f] {
        if f != "Quantity" { assert f in x - {"Quantity"} || f in y - {"Quantity"}; }
      }
      assert x' == y';
    }
    if x' == y' {
      assert x - {"Quantity"} == x' - {"Quantity"} && y - {"Quantity"} == y' - {"Quantity"};
    }
  }

  /**
   Both readings build a copy or neither does; the copies are alike, and equal in every figure exactly when the kept
   lines are.
   */
  lemma CopiesAlike(w: World, input: Input, a: seq<(DocEntry, Doc)>, b: seq<(DocEntry, Doc)>)
    requires AlikeSources(w, a, b) && ApartSources(a) && ApartSources(b)
    requires BuildCopy(a, input.kept).Some?
    ensures BuildCopy(b, input.kept).Some?
    ensures var x, y := BuildCopy(a, input.kept).value, BuildCopy(b, input.kept).value;
            AlikePayload(w, x, y) && (SameFigures(x, y) <==> SameSourceFigures(w, input, a, b))
  {
    CopyAlsoBuilds(w, input, a, b);
    var x, y := BuildCopy(a, input.kept).value, BuildCopy(b, input.kept).value;
    match input.kept
    case None =>
      WholeTargetsAlike(w, a, b);
      WholeTargetsFigures(w, input.docEntries, a, b);
    case Some(ks) =>
      KeptCopies(w, input, ks, a, b);
  }

  lemma CopyAlsoBuilds(w: World, input: Input, a: seq<(DocEntry, Doc)>, b: seq<(DocEntry, Doc)>)
    requires AlikeSources(w, a, b) && ApartSources(a) && ApartSources(b)
    requires BuildCopy(a, input.kept).Some?
    ensures BuildCopy(b, input.kept).Some?
  {
    forall k | 0 <= k < |b| ensures b[k].1.card == b[0].1.card && b[k].1.lines != [] {
      assert AlikeDoc(w, a[0], b[0]) && AlikeDoc(w, a[k], b[k]);
    }
    if input.kept.Some? {
      var ks := input.kept.value;
      forall j | 0 <= j < |ks| ensures OnBase(AllTargets(b), ks[j].entry, ks[j].line).Some? {
        KeptAlike(w, a, b, ks[j].entry, ks[j].line);
      }
    }
  }

  lemma KeptCopies(w: World, input: Input, ks: seq<Keep>, a: seq<(DocEntry, Doc)>, b: seq<(DocEntry, Doc)>)
    requires AlikeSources(w, a, b) && ApartSources(a) && ApartSources(b)
    requires input.kept == Some(ks) && BuildCopy(a, input.kept).Some? && BuildCopy(b, input.kept).Some?
    ensures var x, y := BuildCopy(a, input.kept).value, BuildCopy(b, input.kept).value;
            AlikePayload(w, x, y) && (SameFigures(x, y) <==> SameSourceFigures(w, input, a, b))
  {
    var x, y := BuildCopy(a, input.kept).value, BuildCopy(b, input.kept).value;
    forall j | 0 <= j < |ks| ensures AlikeTarget(w, x[j], y[j]) {
      KeptAlike(w, a, b, ks[j].entry, ks[j].line);
    }
    if SameSourceFigures(w, input, a, b) {
      forall j | 0 <= j < |ks| ensures x[j].fields == y[j].fields {
        var found, k, i := LineOf(a, ks[j].entry, ks[j].line);
        if !found { NoBase(a, ks[j].entry, ks[j].line); }
        KeptFigures(w, a, b, k, i, ks[j].quantity);
        assert KeepsLine(input, a[k].0, a[k].1.lines[i].num);
        assert SameDocFigures(input, a[k], b[k]);
      }
    }
    if SameFigures(x, y) {
      forall k | 0 <= k < |a| ensures AlikeDoc(w, a[k], b[k]) && SameDocFigures(input, a[k], b[k]) {
        forall i | 0 <= i < |a[k].1.lines| && KeepsLine(input, a[k].0, a[k].1.lines[i].num)
          ensures SameLineFigures(true, a[k].0, a[k].1.lines[i], b[k].1.lines[i])
        {
          var o :| o in ks && o.entry == a[k].0 && o.line == a[k].1.lines[i].num;
          var j :| 0 <= j < |ks| && ks[j] == o;
          KeptFigures(w, a, b, k, i, o.quantity);
          assert x[j].fields == y[j].fields;
        }
      }
    }
  }

  /** On a source, the plan's prediction is each line on its code's item. */
  lemma OnItemIs(w: World, s: Sap, input: Input, d: DocEntry, i: nat)
    requires SapOk(w, s) && Present(s, input) && d in input.docEntries && i < |s.docs[d].lines|
    ensures var l := s.docs[d].lines[i];
            OnItem(PlanCopy(w, s, input).parts, d, l)
              == if IsPart(w, input, d, l) then l.(item := ItemOf(w, s.items, l.code)) else l
  {
    PartOnPlan(w, s, input, Distinct(input.docEntries), d, i);
    ItemOfCode(w, s, s.docs[d].lines[i].code);
  }

  /** SAP filled in no figure that a kept line did not have. */
  ghost predicate SapAddsNothing(input: Input, sp: Sap, s: Sap)
    requires SameShape(sp, s)
  {
    forall d, i ::
        d in input.docEntries && d in sp.docs && 0 <= i < |sp.docs[d].lines|
            && KeepsLine(input, d, sp.docs[d].lines[i].num) ==>
      AddsNothing(input.kept.Some?, sp.docs[d].lines[i], s.docs[d].lines[i])
  }

  ghost predicate AddsNothing(kept: bool, l0: Line, l: Line) {
    forall f :: f in l.fields && Copied(f) && !(kept && f == "Quantity") ==> f in l0.fields
  }

  lemma DroppedSame(x: map<string, string>, y: map<string, string>, dx: set<string>, dy: set<string>, more: set<string>)
    requires forall k :: k in x ==> k in y && y[k] == x[k] && (k in dx <==> k in dy)
    requires forall k :: k in y && k !in x ==> k in dy || k in more
    ensures (x - dx) - more == (y - dy) - more
    ensures more == {} ==> x - dx == y - dy
  {
    var a, b := (x - dx) - more, (y - dy) - more;
    assert forall k :: k in a <==> k in b;
    assert a == b;
    if more == {} { assert a == x - dx && b == y - dy; }
  }

  lemma FiguresSameIfNothingAdded(w: World, input: Input, kept: bool, d: DocEntry, l0: Line, l: Line, a: Line, b: Line)
    requires LineMoved(w, input, d, l0, l) && a.fields == l0.fields && b.fields == l.fields && AddsNothing(kept, l0, l)
    ensures SameLineFigures(kept, d, a, b)
  {
    DroppedSame(l0.fields, l.fields, set k | k in l0.fields && !Copied(k), set k | k in l.fields && !Copied(k),
                if kept then {"Quantity"} else {});
  }

  lemma NothingAddedIfFiguresSame(kept: bool, d: DocEntry, l0: Line, l: Line, a: Line, b: Line)
    requires a.fields == l0.fields && b.fields == l.fields && SameLineFigures(kept, d, a, b)
    ensures AddsNothing(kept, l0, l)
  {
    var x, y := CopyLine(d, a).fields, CopyLine(d, b).fields;
    forall f | f in l.fields && Copied(f) && !(kept && f == "Quantity") ensures f in l0.fields {
      assert f in y;
      if kept { assert f in y - {"Quantity"}; }
      assert f in x;
    }
  }

  lemma SourcesApart(w: World, s: Sap, parts: seq<Part>, entries: seq<DocEntry>)
    requires SapOk(w, s) && AllPresent(s, entries) && forall i, j :: 0 <= i < j < |entries| ==> entries[i] != entries[j]
    ensures ApartSources(Sources(s, parts, entries))
  {
    var sources := Sources(s, parts, entries);
    forall k | 0 <= k < |sources| ensures ApartLines(sources[k].1.lines) {
      var lines := s.docs[entries[k]].lines;
      forall i, j | 0 <= i < j < |lines| ensures sources[k].1.lines[i].num != sources[k].1.lines[j].num {
        assert lines[i].num != lines[j].num;
      }
    }
  }

  /** Line `i` of source `d` as an attempt at `sp` predicts it, and as one at a later `s` does. */
  lemma PredictedLine(w: World, input: Input, sp: Sap, s: Sap, d: DocEntry, i: nat)
    requires SapOk(w, sp) && SapOk(w, s) && Present(sp, input) && SameShape(sp, s) && LinesMoved(w, input, sp, s)
    requires Present(s, input)
    requires d in input.docEntries && i < |sp.docs[d].lines|
    ensures var a := OnItem(PlanCopy(w, sp, input).parts, d, sp.docs[d].lines[i]);
            var b := OnItem(PlanCopy(w, s, input).parts, d, s.docs[d].lines[i]);
            && a.num == b.num == sp.docs[d].lines[i].num && w.up(a.item) == w.up(b.item)
            && a.fields == sp.docs[d].lines[i].fields && b.fields == s.docs[d].lines[i].fields
  {
    OnItemIs(w, sp, input, d, i);
    OnItemIs(w, s, input, d, i);
    assert MovedAt(w, input, sp, s, d, i);
    ItemOfCode(w, sp, sp.docs[d].lines[i].code);
    ItemOfCode(w, s, sp.docs[d].lines[i].code);
  }

  lemma PredictedSources(w: World, input: Input, sp: Sap, s: Sap)
    requires SapOk(w, sp) && SapOk(w, s) && Present(sp, input) && SameShape(sp, s) && LinesMoved(w, input, sp, s)
    requires Present(s, input)
    ensures var e := Distinct(input.docEntries);
            var a, b := Sources(sp, PlanCopy(w, sp, input).parts, e), Sources(s, PlanCopy(w, s, input).parts, e);
            AlikeSources(w, a, b) && (SameSourceFigures(w, input, a, b) <==> SapAddsNothing(input, sp, s))
  {
    var e := Distinct(input.docEntries);
    var a, b := Sources(sp, PlanCopy(w, sp, input).parts, e), Sources(s, PlanCopy(w, s, input).parts, e);
    forall k | 0 <= k < |e| ensures AlikeDoc(w, a[k], b[k]) {
      assert e[k] in e;
      forall i: nat | i < |sp.docs[e[k]].lines|
        ensures a[k].1.lines[i].num == b[k].1.lines[i].num && w.up(a[k].1.lines[i].item) == w.up(b[k].1.lines[i].item)
      {
        PredictedLine(w, input, sp, s, e[k], i);
      }
    }
    if SapAddsNothing(input, sp, s) {
      forall k | 0 <= k < |e| ensures SameDocFigures(input, a[k], b[k]) {
        forall i: nat | i < |sp.docs[e[k]].lines| && KeepsLine(input, e[k], a[k].1.lines[i].num)
          ensures SameLineFigures(input.kept.Some?, e[k], a[k].1.lines[i], b[k].1.lines[i])
        {
          LineFiguresAre(w, input, sp, s, k, i);
        }
      }
    }
    if SameSourceFigures(w, input, a, b) {
      forall d, i: nat | d in input.docEntries && d in sp.docs && i < |sp.docs[d].lines|
          && KeepsLine(input, d, sp.docs[d].lines[i].num)
        ensures AddsNothing(input.kept.Some?, sp.docs[d].lines[i], s.docs[d].lines[i])
      {
        assert d in e;
        var k :| 0 <= k < |e| && e[k] == d;
        LineFiguresAre(w, input, sp, s, k, i);
        assert SameDocFigures(input, a[k], b[k]);
      }
    }
  }

  lemma LineFiguresAre(w: World, input: Input, sp: Sap, s: Sap, k: nat, i: nat)
    requires SapOk(w, sp) && SapOk(w, s) && Present(sp, input) && SameShape(sp, s) && LinesMoved(w, input, sp, s)
    requires Present(s, input)
    requires k < |Distinct(input.docEntries)| && Distinct(input.docEntries)[k] in sp.docs
    requires i < |sp.docs[Distinct(input.docEntries)[k]].lines|
    ensures var e := Distinct(input.docEntries);
            var a, b := Sources(sp, PlanCopy(w, sp, input).parts, e), Sources(s, PlanCopy(w, s, input).parts, e);
            && a[k].1.lines[i].num == sp.docs[e[k]].lines[i].num
            && (SameLineFigures(input.kept.Some?, e[k], a[k].1.lines[i], b[k].1.lines[i])
                <==> AddsNothing(input.kept.Some?, sp.docs[e[k]].lines[i], s.docs[e[k]].lines[i]))
  {
    var e := Distinct(input.docEntries);
    var a, b := Sources(sp, PlanCopy(w, sp, input).parts, e), Sources(s, PlanCopy(w, s, input).parts, e);
    assert e[k] in e;
    PredictedLine(w, input, sp, s, e[k], i);
    assert MovedAt(w, input, sp, s, e[k], i);
    var l0, l := sp.docs[e[k]].lines[i], s.docs[e[k]].lines[i];
    if AddsNothing(input.kept.Some?, l0, l) {
      FiguresSameIfNothingAdded(w, input, input.kept.Some?, e[k], l0, l, a[k].1.lines[i], b[k].1.lines[i]);
    }
    if SameLineFigures(input.kept.Some?, e[k], a[k].1.lines[i], b[k].1.lines[i]) {
      NothingAddedIfFiguresSame(input.kept.Some?, e[k], l0, l, a[k].1.lines[i], b[k].1.lines[i]);
    }
  }

  /**
   The payload is built before anything is written, from a prediction. Built again after any number of the
   attempt's writes it is the same order, line for line, with the same items to SAP; every figure is the same
   exactly when SAP filled in none that a kept line had left empty. After the last write the prediction is
   no longer one: the sources as they are give that payload.
   */
  lemma PredictionHolds(w: World, input: Input, s0: Sap, attempts: seq<nat>, n: nat)
    requires Initial(w, s0)
    requires var sp := Run(w, s0, input, attempts);
             Present(sp, input) && Payload(w, sp, input).Some? && n <= Total(PlanCopy(w, sp, input))
    ensures var sp := Run(w, s0, input, attempts); var p := PlanCopy(w, sp, input); var s := After(w, sp, p, n);
            && Present(s, input) && SameShape(sp, s) && Payload(w, s, input).Some?
            && AlikePayload(w, Payload(w, sp, input).value, Payload(w, s, input).value)
            && (SameFigures(Payload(w, sp, input).value, Payload(w, s, input).value) <==> SapAddsNothing(input, sp, s))
            && (n == Total(p) ==> PlainPayload(s, input) == Payload(w, s, input))
  {
    var sp := Run(w, s0, input, attempts);
    var p := PlanCopy(w, sp, input);
    var s := After(w, sp, p, n);
    RunKeeps(w, input, s0, attempts);
    PlanIsSane(w, sp, input);
    AfterKeeps(w, input, s0, sp, p, n);
    PayloadsAgree(w, input, sp, s);
    if n == Total(p) { AllWritten(w, input, sp, s); }
  }

  lemma PayloadsAgree(w: World, input: Input, sp: Sap, s: Sap)
    requires SapOk(w, sp) && SapOk(w, s) && Present(sp, input) && SameShape(sp, s) && LinesMoved(w, input, sp, s)
    requires Present(s, input)
    requires Payload(w, sp, input).Some?
    ensures Payload(w, s, input).Some?
    ensures AlikePayload(w, Payload(w, sp, input).value, Payload(w, s, input).value)
    ensures SameFigures(Payload(w, sp, input).value, Payload(w, s, input).value) <==> SapAddsNothing(input, sp, s)
  {
    var e := Distinct(input.docEntries);
    var a, b := Sources(sp, PlanCopy(w, sp, input).parts, e), Sources(s, PlanCopy(w, s, input).parts, e);
    PredictedSources(w, input, sp, s);
    SourcesApart(w, sp, PlanCopy(w, sp, input).parts, e);
    SourcesApart(w, s, PlanCopy(w, s, input).parts, e);
    CopiesAlike(w, input, a, b);
  }

  // ---- Known before anything is written ----------------------------------------------------------------------

  /** The plan, and the payload it predicts, do not depend on what SAP fills in. */
  lemma {:induction false} SamePartsOfLines(w: World, v: World, s: Sap, input: Input, d: DocEntry, lines: seq<Line>)
    requires v.up == w.up
    ensures PartsOfLines(v, s, input, d, lines) == PartsOfLines(w, s, input, d, lines)
  {
    if lines != [] { SamePartsOfLines(w, v, s, input, d, lines[1..]); }
  }

  lemma {:induction false} SamePartsOf(w: World, v: World, s: Sap, input: Input, sources: seq<DocEntry>)
    requires v.up == w.up && AllPresent(s, sources)
    ensures PartsOf(v, s, input, sources) == PartsOf(w, s, input, sources)
  {
    if sources != [] {
      SamePartsOfLines(w, v, s, input, sources[0], s.docs[sources[0]].lines);
      SamePartsOf(w, v, s, input, sources[1..]);
    }
  }

  lemma {:induction false} SameCodes(w: World, v: World, parts: seq<Part>)
    requires v.up == w.up
    ensures Codes(v, parts) == Codes(w, parts)
  {
    if parts != [] {
      var before, code := Codes(w, parts[..|parts| - 1]), parts[|parts| - 1].code;
      SameCodes(w, v, parts[..|parts| - 1]);
      assert HasCode(v, before, code) == HasCode(w, before, code);
      assert Respelled(v, before, code) == Respelled(w, before, code);
    }
  }

  lemma {:induction false} SameMissing(w: World, v: World, items: map<string, string>, codes: seq<string>)
    requires v.up == w.up
    ensures Missing(v, items, codes) == Missing(w, items, codes)
  {
    if codes != [] { SameMissing(w, v, items, codes[1..]); }
  }

  lemma SamePlan(w: World, v: World, s: Sap, input: Input)
    requires v.up == w.up && Present(s, input)
    ensures PlanCopy(v, s, input) == PlanCopy(w, s, input) && Payload(v, s, input) == Payload(w, s, input)
  {
    SamePartsOf(w, v, s, input, Reading(s, input));
    var parts := PartsOf(w, s, input, Reading(s, input));
    SameCodes(w, v, parts);
    SameMissing(w, v, s.items, Codes(w, parts));
  }

  lemma SameRunInv(w: World, v: World, input: Input, s0: Sap, s: Sap)
    requires v.up == w.up && RunInv(w, input, s0, s)
    ensures RunInv(v, input, s0, s)
  {
    forall d, i | d in s0.docs && 0 <= i < |s0.docs[d].lines| ensures MovedAt(v, input, s0, s, d, i) {
      assert MovedAt(w, input, s0, s, d, i);
    }
  }

  /** With SAP as in `v` the order built after `n` of the plan's writes has every figure of the predicted one. */
  ghost predicate FiguresHold(v: World, input: Input, sp: Sap, n: nat) {
    && Present(sp, input) && n <= Total(PlanCopy(v, sp, input))
    && var s := After(v, sp, PlanCopy(v, sp, input), n);
       && Present(s, input) && Payload(v, sp, input).Some? && Payload(v, s, input).Some?
       && |Payload(v, sp, input).value| == |Payload(v, s, input).value|
       && SameFigures(Payload(v, sp, input).value, Payload(v, s, input).value)
  }

  /** The line has every figure SAP could fill in when its item changes; a quantity the draft gives needs none. */
  predicate Full(kept: bool, l: Line) {
    forall f :: f in KEEP_ON_SWAP && !(kept && f == "Quantity") ==> f in l.fields
  }

  /** The quotations the first `n` writes of a plan put on their items. */
  function Patched(p: Plan, n: nat): seq<DocEntry>
    requires n <= Total(p)
  {
    p.docs[..if n < |p.make| then 0 else n - |p.make|]
  }

  ghost predicate FullIn(w: World, input: Input, sp: Sap, docs: seq<DocEntry>) {
    forall d, i ::
        d in docs && d in sp.docs && 0 <= i < |sp.docs[d].lines| && IsPart(w, input, d, sp.docs[d].lines[i]) ==>
      Full(input.kept.Some?, sp.docs[d].lines[i])
  }

  /** What the writes leave to read: `RunInv` and `MidInv` for any SAP that spells codes alike. */
  lemma AfterForAny(w: World, v: World, input: Input, s0: Sap, sp: Sap, n: nat)
    requires v.up == w.up && RunInv(w, input, s0, sp) && Present(sp, input) && Payload(w, sp, input).Some?
    requires n <= Total(PlanCopy(w, sp, input))
    ensures var p := PlanCopy(w, sp, input); var s := After(v, sp, p, n);
            && PlanCopy(v, sp, input) == p && MidInv(v, input, sp, p, s, n)
            && Present(s, input) && (FiguresHold(v, input, sp, n) <==> SapAddsNothing(input, sp, s))
  {
    SamePlan(w, v, sp, input);
    SameRunInv(w, v, input, s0, sp);
    var p := PlanCopy(v, sp, input);
    PlanIsSane(v, sp, input);
    AfterKeeps(v, input, s0, sp, p, n);
    PayloadsAgree(v, input, sp, After(v, sp, p, n));
  }

  /** Full part lines leave nothing to fill in. */
  lemma FullAddsNothing(v: World, input: Input, sp: Sap, p: Plan, s: Sap, n: nat)
    requires n <= Total(p) && MidInv(v, input, sp, p, s, n) && FullIn(v, input, sp, Patched(p, n))
    ensures SapAddsNothing(input, sp, s)
  {
    forall d, i | d in input.docEntries && d in sp.docs && 0 <= i < |sp.docs[d].lines|
      ensures AddsNothing(input.kept.Some?, sp.docs[d].lines[i], s.docs[d].lines[i])
    {
      assert MovedAt(v, input, sp, s, d, i);
      if s.docs[d].lines[i] != sp.docs[d].lines[i] { assert d in Patched(p, n); }
    }
  }

  /** An SAP that fills in all it can. */
  function FillingAll(up: string -> string): World {
    World(up, (n, l, item) => map k | k in KEEP_ON_SWAP :: "1")
  }

  predicate Filled(l: Line) {
    forall f :: f in KEEP_ON_SWAP ==> f in l.fields
  }

  /** Each line is as it was or has all that SAP could fill in. */
  ghost predicate FilledOrSame(sp: Sap, s: Sap) {
    && SameShape(sp, s)
    && forall d, i :: d in sp.docs && 0 <= i < |sp.docs[d].lines| ==> FilledOrSameAt(sp, s, d, i)
  }

  ghost predicate FilledOrSameAt(sp: Sap, s: Sap, d: DocEntry, i: int)
    requires SameShape(sp, s) && d in sp.docs && 0 <= i < |sp.docs[d].lines|
  {
    s.docs[d].lines[i] == sp.docs[d].lines[i] || Filled(s.docs[d].lines[i])
  }

  lemma SwapFills(up: string -> string, s: Sap, l: Line, item: string)
    ensures Filled(Swapped(FillingAll(up), s, l, item))
  {
    var filled := FillingAll(up).refill(|s.swapped|, l, item);
    forall f | f in KEEP_ON_SWAP ensures f in Swapped(FillingAll(up), s, l, item).fields {
      assert f in filled && KeptOnSwap(f);
    }
  }

  lemma WriteFills(up: string -> string, sp: Sap, s: Sap, p: Plan, n: nat)
    requires n < Total(p) && FilledOrSame(sp, s)
    ensures FilledOrSame(sp, Write(FillingAll(up), s, p, n))
  {
    var v := FillingAll(up);
    var s' := Write(v, s, p, n);
    forall d, i | d in sp.docs && 0 <= i < |sp.docs[d].lines| ensures FilledOrSameAt(sp, s', d, i) {
      assert FilledOrSameAt(sp, s, d, i);
      if s'.docs[d].lines[i] != s.docs[d].lines[i] {
        SwapFills(up, s, s.docs[d].lines[i], PartOn(p.parts, d, s.docs[d].lines[i].num).value.item);
      }
    }
  }

  lemma {:induction false} AfterFills(up: string -> string, sp: Sap, p: Plan, n: nat)
    requires n <= Total(p)
    ensures FilledOrSame(sp, After(FillingAll(up), sp, p, n))
  {
    if n > 0 {
      AfterFills(up, sp, p, n - 1);
      WriteFills(up, sp, After(FillingAll(up), sp, p, n - 1), p, n - 1);
    } else {
      forall d, i | d in sp.docs && 0 <= i < |sp.docs[d].lines| ensures FilledOrSameAt(sp, sp, d, i) {
      }
    }
  }

  /** If that SAP adds nothing, the part lines had it all. */
  lemma NothingAddedWasFull(up: string -> string, input: Input, sp: Sap, p: Plan, n: nat)
    requires n <= Total(p) && Present(sp, input) && (forall d :: d in p.docs ==> d in input.docEntries)
    requires var s := After(FillingAll(up), sp, p, n);
             MidInv(FillingAll(up), input, sp, p, s, n) && SapAddsNothing(input, sp, s)
    ensures FullIn(FillingAll(up), input, sp, Patched(p, n))
  {
    var v := FillingAll(up);
    var s := After(v, sp, p, n);
    AfterFills(up, sp, p, n);
    forall d, i | d in Patched(p, n) && d in sp.docs && 0 <= i < |sp.docs[d].lines|
                  && IsPart(v, input, d, sp.docs[d].lines[i])
      ensures Full(input.kept.Some?, sp.docs[d].lines[i])
    {
      var l0, l := sp.docs[d].lines[i], s.docs[d].lines[i];
      assert NoParts(v, input, d, s.docs[d].lines);
      assert FilledOrSameAt(sp, s, d, i);
      assert d in p.docs && AddsNothing(input.kept.Some?, l0, l);
      forall f | f in KEEP_ON_SWAP && !(input.kept.Some? && f == "Quantity") ensures f in l0.fields {
        assert f in l.fields && Copied(f);
      }
    }
  }

  /** After the last write that is every part line of the sources. */
  lemma AllPatched(w: World, input: Input, sp: Sap)
    requires SapOk(w, sp) && Present(sp, input)
    ensures var p := PlanCopy(w, sp, input);
            FullIn(w, input, sp, Patched(p, Total(p))) <==> FullIn(w, input, sp, input.docEntries)
  {
    var p := PlanCopy(w, sp, input);
    assert Patched(p, Total(p)) == p.docs;
    forall d ensures d in p.docs ==> d in input.docEntries { DocsAreSources(w, sp, input, d); }
    forall d, i | d in input.docEntries && d in sp.docs && 0 <= i < |sp.docs[d].lines|
                  && IsPart(w, input, d, sp.docs[d].lines[i])
      ensures d in p.docs
    {
      PartInPlan(w, sp, input, d, i);
    }
  }

  /**
   When the prediction is safe, as seen from the sources the plan reads. Whatever SAP fills in on lines whose item
   changes, the order built after `n` writes has the predicted figures, if and only if every part line those writes
   put on its item already holds every field SAP could fill in, but for a quantity the draft gives. After the last
   write that is every open, kept part line of the sources.
   */
  lemma PredictionSafeIff(w: World, input: Input, s0: Sap, attempts: seq<nat>, n: nat)
    requires Initial(w, s0)
    requires var sp := Run(w, s0, input, attempts);
             Present(sp, input) && Payload(w, sp, input).Some? && n <= Total(PlanCopy(w, sp, input))
    ensures var sp := Run(w, s0, input, attempts); var p := PlanCopy(w, sp, input);
            && ((forall v: World :: v.up == w.up ==> FiguresHold(v, input, sp, n)) <==>
                  FullIn(w, input, sp, Patched(p, n)))
            && (n == Total(p) ==>
                  (FullIn(w, input, sp, Patched(p, n)) <==> FullIn(w, input, sp, input.docEntries)))
  {
    var sp := Run(w, s0, input, attempts);
    var p := PlanCopy(w, sp, input);
    RunKeeps(w, input, s0, attempts);
    AllPatched(w, input, sp);
    if FullIn(w, input, sp, Patched(p, n)) {
      forall v: World | v.up == w.up ensures FiguresHold(v, input, sp, n) {
        AfterForAny(w, v, input, s0, sp, n);
        SameFull(w, v, input, sp, Patched(p, n));
        FullAddsNothing(v, input, sp, p, After(v, sp, p, n), n);
      }
    } else {
      var v := FillingAll(w.up);
      AfterForAny(w, v, input, s0, sp, n);
      SameFull(w, v, input, sp, Patched(p, n));
      if FiguresHold(v, input, sp, n) {
        forall d ensures d in p.docs ==> d in input.docEntries { DocsAreSources(w, sp, input, d); }
        NothingAddedWasFull(w.up, input, sp, p, n);
      }
    }
  }

  lemma SameFull(w: World, v: World, input: Input, sp: Sap, docs: seq<DocEntry>)
    requires v.up == w.up
    ensures FullIn(v, input, sp, docs) <==> FullIn(w, input, sp, docs)
  {
    assert forall d, l :: IsPart(v, input, d, l) == IsPart(w, input, d, l);
  }

  // ---- Where a figure is filled in ---------------------------------------------------------------------------

  /** An SAP that fills in a tax code on a line whose item changes, and reads codes as they are. */
  function Filling(): World {
    World(s => s, (n, l, item) => map["TaxCode" := "V1"])
  }

  /** One quotation of one line: a part whose item exists already, and no figures. */
  function OnePart(): Sap {
    Sap(map["G" := "G", "P" := "P"], map[1 := Doc("C", [Line(0, "G", "P", false, map[])])], [], [])
  }

  const COPY_ALL := Input([1], None)

  const PART := Part(1, 0, "P", "P")

  lemma ReadOnce(s: Sap)
    requires 1 in s.docs
    ensures Present(s, COPY_ALL) && Reading(s, COPY_ALL) == [1]
  {
    assert [1][..0] == [];
  }

  /** The parts of a copy of quotation 1 alone, when that is one line. */
  lemma PartsOfOne(w: World, s: Sap, l: Line)
    requires 1 in s.docs && s.docs[1].lines == [l]
    ensures Present(s, COPY_ALL)
    ensures PlanCopy(w, s, COPY_ALL).parts ==
            if IsPart(w, COPY_ALL, 1, l) then [Part(1, l.num, l.code, ItemOf(w, s.items, l.code))] else []
  {
    ReadOnce(s);
    assert [l][1..] == [] && [1][1..] == [];
    assert PartsOfLines(w, s, COPY_ALL, 1, []) == [] && PartsOf(w, s, COPY_ALL, []) == [];
    var parts := PartsOfLines(w, s, COPY_ALL, 1, [l]);
    assert parts == if IsPart(w, COPY_ALL, 1, l) then [Part(1, l.num, l.code, ItemOf(w, s.items, l.code))] else [];
    assert PartsOf(w, s, COPY_ALL, [1]) == parts + [];
  }

  /** An item that exists is not made. */
  lemma NothingToMake(w: World, items: map<string, string>, part: Part)
    requires w.up(part.code) in items
    ensures Missing(w, items, Codes(w, [part])) == []
  {
    assert [part][..0] == [] && Codes(w, []) == [];
    assert Codes(w, [part]) == [part.code];
    assert [part.code][1..] == [];
  }

  lemma OneDoc(part: Part)
    ensures Distinct(Entries([part])) == [part.entry]
  {
    assert Entries([part]) == [part.entry];
    assert [part.entry][..0] == [] && Distinct([]) == [];
  }

  lemma OnePartPlan()
    ensures Present(OnePart(), COPY_ALL)
    ensures PlanCopy(Filling(), OnePart(), COPY_ALL) == Plan([PART], [], [1])
  {
    PartsOfOne(Filling(), OnePart(), OnePart().docs[1].lines[0]);
    NothingToMake(Filling(), OnePart().items, PART);
    OneDoc(PART);
  }

  lemma OneLineCopied(s: Sap, parts: seq<Part>, l: Line)
    requires 1 in s.docs && s.docs[1] == Doc("C", [l])
    ensures BuildCopy(Sources(s, parts, [1]), None) == Some([CopyLine(1, OnItem(parts, 1, l))])
  {
    var sources := Sources(s, parts, [1]);
    assert OnItems(parts, 1, s.docs[1]).lines == [OnItem(parts, 1, l)];
    assert sources == [(1, Doc("C", [OnItem(parts, 1, l)]))];
    assert sources[1..] == [];
    assert LinesCopied(1, [OnItem(parts, 1, l)]) == [CopyLine(1, OnItem(parts, 1, l))];
    assert AllTargets(sources[1..]) == [];
    assert AllTargets(sources) == [CopyLine(1, OnItem(parts, 1, l))];
    assert sources[0].1.lines != [];
  }

  /** The line after the one write: on its item, with SAP's tax code. */
  lemma OnePartDone() returns (done: Sap, l: Line)
    ensures Present(OnePart(), COPY_ALL)
    ensures var p := PlanCopy(Filling(), OnePart(), COPY_ALL);
            Total(p) == 1 && done == After(Filling(), OnePart(), p, 1)
    ensures l == Line(0, "P", "P", false, map["TaxCode" := "V1"])
    ensures done.docs == map[1 := Doc("C", [l])] && done.items == OnePart().items
  {
    var w, s := Filling(), OnePart();
    OnePartPlan();
    var p := PlanCopy(w, s, COPY_ALL);
    AfterSwap(w, s, p, 0);
    done := SwapDoc(w, s, p.parts, 1);
    l := Swapped(w, s, s.docs[1].lines[0], "P");
    assert KeptOnSwap("TaxCode");
    assert l.fields == map["TaxCode" := "V1"];
    assert SwapLines(w, s, p.parts, 1, s.docs[1].lines) == [l];
  }

  /**
   The exception of `PredictionHolds` at work: SAP fills in a tax code when the line is put on its item, and the order
   built from the prediction lacks the figure that the same order built afterwards has.
   */
  lemma FilledInFigureIsMissed()
    ensures var w, s := Filling(), OnePart();
            && Present(s, COPY_ALL) && Total(PlanCopy(w, s, COPY_ALL)) == 1
            && var done := After(w, s, PlanCopy(w, s, COPY_ALL), 1);
               && Present(done, COPY_ALL)
               && Payload(w, s, COPY_ALL) == Some([Target(1, 0, "P", map[])])
               && Payload(w, done, COPY_ALL) == Some([Target(1, 0, "P", map["TaxCode" := "V1"])])
  {
    var w, s := Filling(), OnePart();
    OnePartPlan();
    var done, l := OnePartDone();
    ReadOnce(s);
    OneLineCopied(s, [PART], s.docs[1].lines[0]);
    ReadOnce(done);
    PartsOfOne(w, done, l);
    OneLineCopied(done, [], l);
    assert CopyLine(1, l).fields == l.fields;
  }
}
