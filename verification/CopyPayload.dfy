/**
 The document a copy posts, said of the quotations and the draft (apps/server/src/doc-copy.ts `buildCopy`): which
 lines it has, in which order, what each one carries, and when there is none.
 */
module CopyPayload {
  import opened Options
  import opened DocCopy

  // ---- What a copied line is ------------------------------------------------------------------------------

  /** The field of a source line that goes along; a kept line's quantity is the draft's. */
  predicate GoesAlong(kept: bool, f: string) {
    && (f in LINE_FIELDS || "U_" <= f)
    && !(kept && f == "Quantity")
  }

  /** The item a line is ordered on: its part's if it is one, else its own. */
  ghost predicate OrderedOn(w: World, s: Sap, input: Input, d: DocEntry, l: Line, item: string) {
    if l.code == "" || w.up(l.code) == w.up(l.item) || l.closed || !KeepsLine(input, d, l.num) then item == l.item
    else if w.up(l.code) in s.items then item == s.items[w.up(l.code)]
    else item == l.code
  }

  /** `t` is the copy of line `l` of quotation `d`; `quantity` is what the draft changed it to, if it keeps lines. */
  ghost predicate CopyOf(w: World, s: Sap, input: Input, d: DocEntry, l: Line, quantity: Option<string>, t: Target) {
    && t.entry == d && t.line == l.num && OrderedOn(w, s, input, d, l, t.item)
    && (forall f :: f in l.fields && GoesAlong(quantity.Some?, f) ==> f in t.fields && t.fields[f] == l.fields[f])
    && (forall f :: f in t.fields ==>
          (f in l.fields && GoesAlong(quantity.Some?, f)) || (quantity.Some? && f == "Quantity"))
    && (quantity.Some? ==> "Quantity" in t.fields && t.fields["Quantity"] == quantity.value)
  }

  /** Line `at.1` of source `at.0` of `order`. */
  ghost predicate HasLine(s: Sap, order: seq<DocEntry>, at: (nat, nat)) {
    at.0 < |order| && order[at.0] in s.docs && at.1 < |s.docs[order[at.0]].lines|
  }

  ghost predicate CopyAt(w: World, s: Sap, input: Input, order: seq<DocEntry>, at: (nat, nat), t: Target) {
    && HasLine(s, order, at)
    && CopyOf(w, s, input, order[at.0], s.docs[order[at.0]].lines[at.1], None, t)
  }

  predicate Before(a: (nat, nat), b: (nat, nat)) {
    a.0 < b.0 || (a.0 == b.0 && a.1 < b.1)
  }

  /** Every line of every source once, source by source, line by line; `at` says where each comes from. */
  ghost predicate WholeCopy(w: World, s: Sap, input: Input, order: seq<DocEntry>, at: seq<(nat, nat)>,
                            all: seq<Target>)
  {
    && |at| == |all|
    && (forall j :: 0 <= j < |at| ==> CopyAt(w, s, input, order, at[j], all[j]))
    && (forall i, j :: 0 <= i < j < |at| ==> Before(at[i], at[j]))
    && (forall p :: HasLine(s, order, p) ==> p in at)
  }

  /** The sources in the order the draft first names them. */
  ghost predicate FirstNamed(entries: seq<DocEntry>, order: seq<DocEntry>) {
    && (forall d :: d in order <==> d in entries)
    && (forall i, j :: 0 <= i < j < |order| ==> NamedBefore(entries, order[i], order[j]))
  }

  ghost predicate NamedBefore(entries: seq<DocEntry>, a: DocEntry, b: DocEntry) {
    exists n :: 0 <= n < |entries| && entries[n] == a && b !in entries[..n + 1]
  }

  /** A source line named by a kept line. */
  ghost predicate OnSource(s: Sap, input: Input, k: Keep) {
    && k.entry in input.docEntries && k.entry in s.docs
    && exists i :: 0 <= i < |s.docs[k.entry].lines| && s.docs[k.entry].lines[i].num == k.line
  }

  ghost predicate KeptCopy(w: World, s: Sap, input: Input, k: Keep, t: Target) {
    && k.entry in s.docs
    && exists i :: 0 <= i < |s.docs[k.entry].lines| && s.docs[k.entry].lines[i].num == k.line
                     && CopyOf(w, s, input, k.entry, s.docs[k.entry].lines[i], Some(k.quantity), t)
  }

  /** Why there is no copy: nothing to copy, two customers, a source without lines, or a kept line that is on none. */
  ghost predicate NoCopy(s: Sap, input: Input)
    requires Present(s, input)
  {
    || input.docEntries == []
    || (exists a, b :: a in input.docEntries && b in input.docEntries && s.docs[a].card != s.docs[b].card)
    || (exists d :: d in input.docEntries && s.docs[d].lines == [])
    || (input.kept.Some? && exists k :: k in input.kept.value && !OnSource(s, input, k))
  }

  // ---- The sources, in order --------------------------------------------------------------------------------

  lemma {:induction false} DistinctIsFirstNamed(entries: seq<DocEntry>)
    ensures FirstNamed(entries, Distinct(entries))
  {
    if entries != [] {
      var n := |entries| - 1;
      var before, order, d := entries[..n], Distinct(entries), entries[n];
      DistinctIsFirstNamed(before);
      assert entries == before + [d];
      forall i, j | 0 <= i < j < |order| ensures NamedBefore(entries, order[i], order[j]) {
        if j < |Distinct(before)| {
          assert NamedBefore(before, order[i], order[j]);
          var m :| 0 <= m < |before| && before[m] == order[i] && order[j] !in before[..m + 1];
          assert entries[..m + 1] == before[..m + 1];
        } else {
          assert order[i] in before;
          var m :| 0 <= m < |before| && before[m] == order[i];
          assert entries[..m + 1] == before[..m + 1] && d !in before;
        }
      }
    }
  }

  // ---- The lines, in order ----------------------------------------------------------------------------------

  /** Where the lines of the sources from `from` on come from, in order. */
  ghost function Places(sources: seq<(DocEntry, Doc)>, from: nat): seq<(nat, nat)>
    requires from <= |sources|
    decreases |sources| - from
  {
    if from == |sources| then []
    else seq(|sources[from].1.lines|, i => (from, i)) + Places(sources, from + 1)
  }

  ghost predicate Placed(sources: seq<(DocEntry, Doc)>, from: nat, at: seq<(nat, nat)>) {
    && (forall j :: 0 <= j < |at| ==> from <= at[j].0 < |sources| && at[j].1 < |sources[at[j].0].1.lines|)
    && (forall i, j :: 0 <= i < j < |at| ==> Before(at[i], at[j]))
    && (forall p: (nat, nat) :: from <= p.0 < |sources| && p.1 < |sources[p.0].1.lines| ==> p in at)
  }

  lemma {:induction false} PlacesArePlaced(sources: seq<(DocEntry, Doc)>, from: nat)
    requires from <= |sources|
    ensures Placed(sources, from, Places(sources, from))
    decreases |sources| - from
  {
    if from < |sources| {
      var here: seq<(nat, nat)> := seq(|sources[from].1.lines|, i => (from, i));
      var rest, at := Places(sources, from + 1), Places(sources, from);
      PlacesArePlaced(sources, from + 1);
      forall p: (nat, nat) | from <= p.0 < |sources| && p.1 < |sources[p.0].1.lines| ensures p in at {
        if p.0 == from { assert here[p.1] == p && at[p.1] == p; } else { assert p in rest; }
      }
    }
  }

  lemma {:induction false} TargetsArePlaced(sources: seq<(DocEntry, Doc)>, from: nat)
    requires from <= |sources|
    ensures |Places(sources, from)| == |AllTargets(sources[from..])|
    ensures forall j :: 0 <= j < |Places(sources, from)| ==>
              var p := Places(sources, from)[j];
              && p.0 < |sources| && p.1 < |sources[p.0].1.lines|
              && AllTargets(sources[from..])[j] == CopyLine(sources[p.0].0, sources[p.0].1.lines[p.1])
    decreases |sources| - from
  {
    if from < |sources| {
      assert sources[from..][0] == sources[from] && sources[from..][1..] == sources[from + 1..];
      TargetsArePlaced(sources, from + 1);
    }
  }

  // ---- Line by line -----------------------------------------------------------------------------------------

  lemma StartsWithU(f: string)
    ensures Copied(f) <==> f in LINE_FIELDS || "U_" <= f
  {
  }

  lemma LineIsCopied(w: World, s: Sap, input: Input, d: DocEntry, i: nat)
    requires SapOk(w, s) && Present(s, input) && d in input.docEntries && i < |s.docs[d].lines|
    ensures var l := s.docs[d].lines[i];
            CopyOf(w, s, input, d, l, None, CopyLine(d, OnItem(PlanCopy(w, s, input).parts, d, l)))
  {
    var l := s.docs[d].lines[i];
    var t := CopyLine(d, OnItem(PlanCopy(w, s, input).parts, d, l));
    OnItemIs(w, s, input, d, i);
    forall f ensures Copied(f) <==> GoesAlong(false, f) { StartsWithU(f); }
    assert forall f :: f in t.fields <==> f in l.fields && Copied(f);
  }

  lemma QuantityReplaced(w: World, s: Sap, input: Input, d: DocEntry, l: Line, quantity: string, t: Target)
    requires CopyOf(w, s, input, d, l, None, t)
    ensures CopyOf(w, s, input, d, l, Some(quantity), Quantified(t, quantity))
  {
    forall f ensures GoesAlong(true, f) <==> GoesAlong(false, f) && f != "Quantity" {}
  }

  // ---- The whole --------------------------------------------------------------------------------------------

  lemma WholeIsCopied(w: World, s: Sap, input: Input, sources: seq<(DocEntry, Doc)>)
    requires SapOk(w, s) && Present(s, input)
    requires sources == Sources(s, PlanCopy(w, s, input).parts, Reading(s, input))
    ensures WholeCopy(w, s, input, Reading(s, input), Places(sources, 0), AllTargets(sources))
  {
    var order, at := Reading(s, input), Places(sources, 0);
    PlacesArePlaced(sources, 0);
    TargetsArePlaced(sources, 0);
    assert sources[0..] == sources;
    forall j | 0 <= j < |at| ensures CopyAt(w, s, input, order, at[j], AllTargets(sources)[j]) {
      assert order[at[j].0] in order;
      LineIsCopied(w, s, input, order[at[j].0], at[j].1);
    }
    forall p | HasLine(s, order, p) ensures p in at {}
  }

  lemma KeptIsCopied(w: World, s: Sap, input: Input, sources: seq<(DocEntry, Doc)>, k: Keep)
    requires SapOk(w, s) && Present(s, input)
    requires sources == Sources(s, PlanCopy(w, s, input).parts, Reading(s, input))
    ensures OnBase(AllTargets(sources), k.entry, k.line).Some? <==> OnSource(s, input, k)
    ensures OnSource(s, input, k) ==>
              KeptCopy(w, s, input, k, Quantified(OnBase(AllTargets(sources), k.entry, k.line).value, k.quantity))
  {
    var order := Reading(s, input);
    SourcesApart(w, s, PlanCopy(w, s, input).parts, order);
    if OnSource(s, input, k) {
      assert k.entry in order;
      var p :| 0 <= p < |order| && order[p] == k.entry;
      var i :| 0 <= i < |s.docs[k.entry].lines| && s.docs[k.entry].lines[i].num == k.line;
      BaseIsLine(sources, p, i);
      LineIsCopied(w, s, input, k.entry, i);
      QuantityReplaced(w, s, input, k.entry, s.docs[k.entry].lines[i], k.quantity,
        OnBase(AllTargets(sources), k.entry, k.line).value);
    } else {
      forall q | 0 <= q < |sources| && sources[q].0 == k.entry
        ensures forall i :: 0 <= i < |sources[q].1.lines| ==> sources[q].1.lines[i].num != k.line
      {
        assert order[q] in order;
        forall i | 0 <= i < |sources[q].1.lines| ensures sources[q].1.lines[i].num != k.line {
          assert s.docs[k.entry].lines[i].num == sources[q].1.lines[i].num;
        }
      }
      NoBase(sources, k.entry, k.line);
    }
  }

  lemma RefusedSources(w: World, s: Sap, input: Input, sources: seq<(DocEntry, Doc)>)
    requires Present(s, input) && sources == Sources(s, PlanCopy(w, s, input).parts, Reading(s, input))
    ensures (sources == [] <==> input.docEntries == [])
    ensures sources != [] ==>
              ((exists i :: 0 <= i < |sources| && sources[i].1.card != sources[0].1.card) <==>
                 exists a, b :: a in input.docEntries && b in input.docEntries && s.docs[a].card != s.docs[b].card)
    ensures (exists i :: 0 <= i < |sources| && sources[i].1.lines == []) <==>
              exists d :: d in input.docEntries && s.docs[d].lines == []
  {
    var order := Reading(s, input);
    if input.docEntries != [] { assert input.docEntries[0] in order; }
    if sources != [] { assert order[0] in order; }
    if i :| 0 <= i < |sources| && sources[i].1.card != sources[0].1.card {
      assert order[i] in order;
      assert s.docs[order[i]].card != s.docs[order[0]].card;
    }
    if a, b :| a in input.docEntries && b in input.docEntries && s.docs[a].card != s.docs[b].card {
      assert a in order && b in order;
      var i :| 0 <= i < |order| && order[i] == a;
      var j :| 0 <= j < |order| && order[j] == b;
      assert sources[i].1.card != sources[0].1.card || sources[j].1.card != sources[0].1.card;
    }
    if i :| 0 <= i < |sources| && sources[i].1.lines == [] { assert order[i] in order; }
    if d :| d in input.docEntries && s.docs[d].lines == [] {
      assert d in order;
      var i :| 0 <= i < |order| && order[i] == d;
      assert sources[i].1.lines == [];
    }
  }

  /**
   The payload, over the quotations as they are: without kept lines every line of every source once and in order,
   with them one line for each, under the source line it names and with its own quantity. There is no payload exactly
   if there is nothing to copy, the customers differ, a source has no lines or a kept line is on no source.
   */
  lemma PayloadIsTheCopy(w: World, s: Sap, input: Input)
    requires SapOk(w, s) && Present(s, input)
    ensures Payload(w, s, input).None? <==> NoCopy(s, input)
    ensures Payload(w, s, input).Some? && input.kept.None? ==>
              exists order, at ::
                FirstNamed(input.docEntries, order) && WholeCopy(w, s, input, order, at, Payload(w, s, input).value)
    ensures Payload(w, s, input).Some? && input.kept.Some? ==>
              && |Payload(w, s, input).value| == |input.kept.value|
              && forall j :: 0 <= j < |input.kept.value| ==>
                   KeptCopy(w, s, input, input.kept.value[j], Payload(w, s, input).value[j])
  {
    var sources := Sources(s, PlanCopy(w, s, input).parts, Reading(s, input));
    RefusedSources(w, s, input, sources);
    DistinctIsFirstNamed(input.docEntries);
    WholeIsCopied(w, s, input, sources);
    if input.kept.Some? {
      forall j | 0 <= j < |input.kept.value|
        ensures var k := input.kept.value[j];
                && (OnBase(AllTargets(sources), k.entry, k.line).Some? <==> OnSource(s, input, k))
                && (OnSource(s, input, k) ==>
                      KeptCopy(w, s, input, k,
                        Quantified(OnBase(AllTargets(sources), k.entry, k.line).value, k.quantity)))
      {
        KeptIsCopied(w, s, input, sources, input.kept.value[j]);
      }
    }
  }
}
