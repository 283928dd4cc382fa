/**
 What `calculatedAt` promises (apps/server/src/config-project.ts with the edits of
 orpc/routers/configs.ts and portal/orpc/projects.ts), over every interleaving.

 The promise "non-null means the candidates are those of the inputs now in the row" has one exception in
 the code: an edit that breaks a rule keeps the candidates and their stamp. The theorems say exactly what
 holds instead, and concrete runs show what the exception can do.
 */
module ProjectFreshness {
  import opened Options
  import opened Canon
  import opened ConfigPatch
  import opened RevisionDiff
  import opened ProjectRow

  /** The inputs after some edits, in the order they landed. */
  function Applied(p: Priced, edits: seq<Pending>): Priced {
    if edits == [] then p else Changed(Applied(p, edits[..|edits| - 1]), edits[|edits| - 1].change)
  }

  lemma AppliedMore(p: Priced, edits: seq<Pending>, q: Pending)
    ensures Applied(p, edits + [q]) == Changed(Applied(p, edits), q.change)
  {
    assert (edits + [q])[..|edits|] == edits;
  }

  lemma {:induction false} AppliedAll(p: Priced, first: seq<Pending>, rest: seq<Pending>)
    ensures Applied(p, first + rest) == Applied(Applied(p, first), rest)
  {
    if rest == [] {
      assert first + rest == first;
    } else {
      var n := |rest| - 1;
      AppliedAll(p, first, rest[..n]);
      assert (first + rest)[..|first + rest| - 1] == first + rest[..n];
    }
  }

  /** The row still is, in all an edit's check and a recalculation read, what `r` read. */
  predicate SameRead(row: Row, r: Row) {
    && row.priced == r.priced && row.header == r.header && row.status == r.status && row.client == r.client
    && row.assignee == r.assignee && row.response == r.response
  }

  /** What was read at the row's version is the row's own. */
  predicate ReadInv(row: Row, r: Row) {
    r.version <= row.version && (r.version == row.version ==> SameRead(row, r))
  }

  /** `keep` was decided on the row and the masterdata as the edit read them. */
  ghost predicate Decided(e: Engine, p: Pending) {
    p.keep == Keeps(e, p.data, p.row, p.change)
  }

  ghost predicate PendingInv(e: Engine, row: Row, p: Pending) {
    Decided(e, p) && ReadInv(row, p.row)
  }

  predicate GateInv(row: Row, g: Gate) {
    (g.verb.Quote? || g.verb.Submit? || g.verb.Resubmit?) && (g.due.Some? ==> ReadInv(row, g.due.value.row))
  }

  /** Every edit that landed on the calculation without dropping it was a kept one. */
  ghost predicate AllKept(e: Engine, edits: seq<Pending>) {
    forall i: nat | i < |edits| :: Keeps(e, edits[i].data, edits[i].row, edits[i].change)
  }

  /** The calculation: its candidates are those of its basis, and the inputs are its own after the kept edits since. */
  ghost predicate BasisInv(e: Engine, s: System) {
    && (s.row.calculatedAt.None? <==> s.row.candidates == [])
    && (s.row.calculatedAt.Some? <==> s.basis.Some?)
    && (s.basis.None? ==> s.since == [])
    && (s.basis.Some? ==> OutcomeOf(e, s.basis.value) == Store(s.row.candidates))
    && (s.basis.Some? ==> Applied(s.basis.value.row.priced, s.since) == s.row.priced)
    && AllKept(e, s.since)
  }

  predicate ClockInv(s: System) {
    && s.row.version <= s.clock
    && s.data <= s.clock
    && (s.row.calculatedAt.Some? ==> s.row.calculatedAt.value <= s.clock)
  }

  ghost predicate FlightInv(e: Engine, s: System) {
    && (forall i: nat | i < |s.recalcs| :: ReadInv(s.row, s.recalcs[i].row))
    && (forall i: nat | i < |s.pendings| :: PendingInv(e, s.row, s.pendings[i]))
    && (forall i: nat | i < |s.gates| :: GateInv(s.row, s.gates[i]))
  }

  ghost predicate CalcInv(e: Engine, s: System) {
    ClockInv(s) && BasisInv(e, s) && FlightInv(e, s)
  }

  /** A step that writes a new version of the row. */
  lemma NewVersionKeeps(e: Engine, s: System, s': System)
    requires CalcInv(e, s)
    requires s'.recalcs == s.recalcs && s'.pendings == s.pendings && s'.gates == s.gates
    requires s'.row.version > s.clock
    ensures FlightInv(e, s')
  {
    forall i: nat | i < |s'.recalcs| ensures ReadInv(s'.row, s'.recalcs[i].row) {
      assert ReadInv(s.row, s.recalcs[i].row);
    }
    forall i: nat | i < |s'.pendings| ensures PendingInv(e, s'.row, s'.pendings[i]) {
      assert PendingInv(e, s.row, s.pendings[i]);
    }
    forall i: nat | i < |s'.gates| ensures GateInv(s'.row, s'.gates[i]) {
      assert GateInv(s.row, s.gates[i]);
    }
  }

  /** A step that leaves the version and what is read with it alone. */
  lemma SameVersionKeeps(e: Engine, s: System, s': System)
    requires CalcInv(e, s)
    requires s'.recalcs == s.recalcs && s'.pendings == s.pendings && s'.gates == s.gates
    requires s'.row.version == s.row.version && SameRead(s'.row, s.row)
    ensures FlightInv(e, s')
  {
    forall i: nat | i < |s'.recalcs| ensures ReadInv(s'.row, s'.recalcs[i].row) {
      assert ReadInv(s.row, s.recalcs[i].row);
    }
    forall i: nat | i < |s'.pendings| ensures PendingInv(e, s'.row, s'.pendings[i]) {
      assert PendingInv(e, s.row, s.pendings[i]);
    }
    forall i: nat | i < |s'.gates| ensures GateInv(s'.row, s'.gates[i]) {
      assert GateInv(s.row, s.gates[i]);
    }
  }

  lemma NothingChanged(p: Priced, c: Change)
    requires !TouchesEngine(c)
    ensures Changed(p, c) == p
  {
    MergedNothing(p.inputs.entries);
    MergedNothing(p.inputs.tables);
    assert KeySet(c.patch.unset) == {};
  }

  lemma EditKeepsBasis(e: Engine, s: System, p: Pending)
    requires BasisInv(e, s) && Decided(e, p)
    ensures BasisInv(e, FinishEdit(s, p))
  {
    if WritableBy(s.row, p.side) && !Drops(p) {
      if p.keep {
        if s.row.calculatedAt.Some? { AppliedMore(s.basis.value.row.priced, s.since, p); }
      } else {
        NothingChanged(s.row.priced, p.change);
      }
    }
  }

  lemma EditKeepsCalc(e: Engine, s: System, i: nat)
    requires CalcInv(e, s) && i < |s.pendings|
    ensures CalcInv(e, FinishEdit(s, s.pendings[i]))
  {
    assert PendingInv(e, s.row, s.pendings[i]);
    EditKeepsBasis(e, s, s.pendings[i]);
    if WritableBy(s.row, s.pendings[i].side) { NewVersionKeeps(e, s, FinishEdit(s, s.pendings[i])); }
  }

  lemma BeginEditKeepsCalc(e: Engine, s: System, side: Side, c: Change)
    requires CalcInv(e, s)
    ensures CalcInv(e, BeginEdit(e, s, side, c))
  {
    var s' := BeginEdit(e, s, side, c);
    forall i: nat | i < |s'.pendings| ensures PendingInv(e, s'.row, s'.pendings[i]) {
      if i < |s.pendings| { assert PendingInv(e, s.row, s.pendings[i]); }
    }
  }

  lemma BeginRecalcKeepsCalc(e: Engine, s: System, side: Side)
    requires CalcInv(e, s)
    ensures CalcInv(e, BeginRecalc(e, s, side))
  {
    var s' := BeginRecalc(e, s, side);
    forall i: nat | i < |s'.recalcs| ensures ReadInv(s'.row, s'.recalcs[i].row) {
      if i < |s.recalcs| { assert ReadInv(s.row, s.recalcs[i].row); }
    }
  }

  lemma RecalcKeepsCalc(e: Engine, s: System, r: Recalc)
    requires CalcInv(e, s) && ReadInv(s.row, r.row)
    ensures CalcInv(e, FinishRecalc(e, s, r))
  {
    SameVersionKeeps(e, s, FinishRecalc(e, s, r));
  }

  lemma MoveKeepsCalc(e: Engine, s: System, v: Verb, side: Side, user: User, pinned: Option<Stamp>)
    requires CalcInv(e, s)
    ensures CalcInv(e, Move(s, v, side, user, pinned))
  {
    if Allowed(s, v, side, pinned) { NewVersionKeeps(e, s, Move(s, v, side, user, pinned)); }
  }

  lemma BeginGateKeepsCalc(e: Engine, s: System, v: Verb, user: User)
    requires CalcInv(e, s)
    ensures CalcInv(e, BeginGate(e, s, v, user))
  {
    var s' := BeginGate(e, s, v, user);
    forall i: nat | i < |s'.gates| ensures GateInv(s'.row, s'.gates[i]) {
      if i < |s.gates| { assert GateInv(s.row, s.gates[i]); }
    }
  }

  lemma GateRecalcKeepsCalc(e: Engine, s: System, i: nat)
    requires CalcInv(e, s)
    ensures CalcInv(e, GateRecalc(e, s, i))
  {
    if i < |s.gates| && s.gates[i].due.Some? {
      assert GateInv(s.row, s.gates[i]);
      RecalcKeepsCalc(e, s, s.gates[i].due.value);
      var s1 := FinishRecalc(e, s, s.gates[i].due.value);
      var s' := GateRecalc(e, s, i);
      forall j: nat | j < |s'.gates| ensures GateInv(s'.row, s'.gates[j]) {
        assert GateInv(s1.row, s1.gates[j]);
      }
    }
  }

  lemma ReadPinKeepsCalc(e: Engine, s: System, i: nat)
    requires CalcInv(e, s)
    ensures CalcInv(e, ReadPin(s, i))
  {
    var s' := ReadPin(s, i);
    forall j: nat | j < |s'.gates| ensures GateInv(s'.row, s'.gates[j]) {
      assert GateInv(s.row, s.gates[j]);
    }
  }

  lemma FinishGateKeepsCalc(e: Engine, s: System, i: nat)
    requires CalcInv(e, s)
    ensures CalcInv(e, FinishGate(s, i))
  {
    if i < |s.gates| {
      var g := s.gates[i];
      if g.verb.Quote? { MoveKeepsCalc(e, s, g.verb, Internal, g.user, None); }
      else { MoveKeepsCalc(e, s, g.verb, External, g.user, g.pin); }
    }
  }

  lemma AssignKeepsCalc(e: Engine, s: System, side: Side, to: User, staff: bool)
    requires CalcInv(e, s)
    ensures CalcInv(e, Assign(s, side, to, staff))
  {
    if Assign(s, side, to, staff) != s { NewVersionKeeps(e, s, Assign(s, side, to, staff)); }
  }

  predicate OfGate(a: Action) {
    a.DoGate? || a.DoGateRecalc? || a.DoReadPin? || a.DoFinishGate?
  }

  lemma GateStepKeepsCalc(e: Engine, s: System, a: Action)
    requires CalcInv(e, s) && OfGate(a)
    ensures CalcInv(e, Step(e, s, a))
  {
    match a
    case DoGate(v, user) => BeginGateKeepsCalc(e, s, v, user);
    case DoGateRecalc(i) => GateRecalcKeepsCalc(e, s, i);
    case DoReadPin(i) => ReadPinKeepsCalc(e, s, i);
    case DoFinishGate(i) => FinishGateKeepsCalc(e, s, i);
    case _ =>
  }

  predicate OfEdit(a: Action) {
    a.DoBeginEdit? || a.DoFinishEdit?
  }

  lemma EditStepKeepsCalc(e: Engine, s: System, a: Action)
    requires CalcInv(e, s) && OfEdit(a)
    ensures CalcInv(e, Step(e, s, a))
  {
    match a
    case DoBeginEdit(side, c) => BeginEditKeepsCalc(e, s, side, c);
    case DoFinishEdit(i) => if i < |s.pendings| { EditKeepsCalc(e, s, i); }
    case _ =>
  }

  lemma OtherStepKeepsCalc(e: Engine, s: System, a: Action)
    requires CalcInv(e, s) && !OfGate(a) && !OfEdit(a)
    ensures CalcInv(e, Step(e, s, a))
  {
    match a
    case Sync => SameVersionKeeps(e, s, Step(e, s, Sync));
    case DoBeginRecalc(side) => BeginRecalcKeepsCalc(e, s, side);
    case DoFinishRecalc(i) => if i < |s.recalcs| { RecalcKeepsCalc(e, s, s.recalcs[i]); }
    case DoSelect(picks) => SameVersionKeeps(e, s, Select(e, s, picks));
    case DoMove(v, side, user) => MoveKeepsCalc(e, s, v, side, user, None);
    case DoAssign(side, to, staff) => AssignKeepsCalc(e, s, side, to, staff);
    case _ =>
  }

  lemma StepKeepsCalc(e: Engine, s: System, a: Action)
    requires CalcInv(e, s)
    ensures CalcInv(e, Step(e, s, a))
  {
    if OfGate(a) { GateStepKeepsCalc(e, s, a); }
    else if OfEdit(a) { EditStepKeepsCalc(e, s, a); }
    else { OtherStepKeepsCalc(e, s, a); }
  }

  /** What a step other than an edit that lands can do to a calculation: nothing, age it, drop it or replace it. */
  lemma CalculationAfter(e: Engine, s: System, a: Action)
    requires ClockInv(s) && !a.DoFinishEdit?
    ensures var s' := Step(e, s, a);
            && s'.row.priced == s.row.priced && s.clock <= s'.clock && s.data <= s'.data
            && (|| (s'.row.calculatedAt == s.row.calculatedAt && s'.basis == s.basis && s'.since == s.since
                    && (s'.data == s.data || s'.data == s'.clock > s.clock))
                || (s'.row.calculatedAt.None? && s'.since == [])
                || (s'.row.calculatedAt == Some(s.clock + 1) && s'.since == []))
  {
  }

  lemma {:induction false} RunKeepsCalc(e: Engine, client: bool, priced: Priced, header: Header, actions: seq<Action>)
    ensures CalcInv(e, Run(e, Start(client, priced, header), actions))
  {
    if actions != [] {
      var before := actions[..|actions| - 1];
      RunKeepsCalc(e, client, priced, header, before);
      StepKeepsCalc(e, Run(e, Start(client, priced, header), before), actions[|actions| - 1]);
    }
  }

  // ---- Fresh, and when ------------------------------------------------------------------------------------

  /** The stored candidates are the enumeration of the inputs now in the row, on the masterdata they were priced on. */
  ghost predicate Fresh(e: Engine, s: System) {
    s.row.calculatedAt.Some? ==>
      s.basis.Some? && e.enumerate(s.basis.value.data, s.row.priced) == Some(s.row.candidates)
  }

  /** Fresh in every reachable state in which no kept edit has landed since the calculation. */
  lemma FreshUnlessKept(e: Engine, client: bool, priced: Priced, header: Header, actions: seq<Action>)
    requires Run(e, Start(client, priced, header), actions).since == []
    ensures Fresh(e, Run(e, Start(client, priced, header), actions))
  {
    RunKeepsCalc(e, client, priced, header, actions);
  }

  /**
   The exact condition, one edit at a time, whatever it read. An edit that lands leaves a fresh row fresh if and only
   if it was not a kept one or the candidates happen to be those of the new inputs too; decided on the version and
   the masterdata it lands on, and without a margin, it never is the latter.
   */
  lemma EditKeepsFreshIffNotKept(e: Engine, client: bool, priced: Priced, header: Header,
                                 actions: seq<Action>, i: nat)
    requires Lawful(e)
    requires var s := Run(e, Start(client, priced, header), actions);
             && i < |s.pendings| && WritableBy(s.row, s.pendings[i].side)
             && s.row.calculatedAt.Some? && Fresh(e, s)
    ensures var s := Run(e, Start(client, priced, header), actions); var p := s.pendings[i];
            && s.basis.Some?
            && (Fresh(e, FinishEdit(s, p)) <==>
                  !p.keep || e.enumerate(s.basis.value.data, Changed(s.row.priced, p.change)) == Some(s.row.candidates))
            && (p.row.version == s.row.version && p.data == s.basis.value.data && p.change.margin.None? ==>
                  (Fresh(e, FinishEdit(s, p)) <==> !p.keep))
  {
    RunKeepsCalc(e, client, priced, header, actions);
    var s := Run(e, Start(client, priced, header), actions);
    var p := s.pendings[i];
    assert PendingInv(e, s.row, p);
    if !TouchesEngine(p.change) { NothingChanged(s.row.priced, p.change); }
  }

  // ---- Kept edits land where they were decided: nothing quotable is stale ---------------------------------

  /** A kept edit that lands on the version it was decided on, without a margin; `onData`: on its masterdata too. */
  ghost predicate LandsUndisturbed(s: System, a: Action, onData: bool) {
    match a
    case DoFinishEdit(i) =>
      i < |s.pendings| && s.pendings[i].keep ==>
        && s.pendings[i].row.version == s.row.version && s.pendings[i].change.margin.None?
        && (onData ==> s.pendings[i].data == s.data)
    case _ => true
  }

  ghost predicate Undisturbed(e: Engine, s: System, actions: seq<Action>, onData: bool) {
    actions == []
    || (&& Undisturbed(e, s, actions[..|actions| - 1], onData)
        && LandsUndisturbed(Run(e, s, actions[..|actions| - 1]), actions[|actions| - 1], onData))
  }

  /** The last kept edit still breaks a rule, on masterdata that is still live or newer than the calculation. */
  ghost predicate DriftInv(e: Engine, s: System, onData: bool) {
    s.since != [] ==>
      var q := s.since[|s.since| - 1];
      && e.conflicts(q.data, s.row.priced)
      && (onData ==> q.data == s.data || Stale(s.row, s.data))
  }

  lemma EditKeepsDrift(e: Engine, s: System, i: nat, onData: bool)
    requires CalcInv(e, s) && DriftInv(e, s, onData) && i < |s.pendings|
    requires LandsUndisturbed(s, DoFinishEdit(i), onData)
    ensures DriftInv(e, FinishEdit(s, s.pendings[i]), onData)
  {
    var p := s.pendings[i];
    assert PendingInv(e, s.row, p);
    if !TouchesEngine(p.change) { NothingChanged(s.row.priced, p.change); }
  }

  lemma StepKeepsDrift(e: Engine, s: System, a: Action, onData: bool)
    requires CalcInv(e, s) && DriftInv(e, s, onData) && LandsUndisturbed(s, a, onData)
    ensures DriftInv(e, Step(e, s, a), onData)
  {
    if a.DoFinishEdit? {
      if a.i < |s.pendings| { EditKeepsDrift(e, s, a.i, onData); }
    } else {
      CalculationAfter(e, s, a);
    }
  }

  lemma {:induction false} RunKeepsDrift(e: Engine, client: bool, priced: Priced, header: Header,
                                         actions: seq<Action>, onData: bool)
    requires Undisturbed(e, Start(client, priced, header), actions, onData)
    ensures DriftInv(e, Run(e, Start(client, priced, header), actions), onData)
  {
    if actions != [] {
      var before := actions[..|actions| - 1];
      RunKeepsDrift(e, client, priced, header, before, onData);
      RunKeepsCalc(e, client, priced, header, before);
      StepKeepsDrift(e, Run(e, Start(client, priced, header), before), actions[|actions| - 1], onData);
    }
  }

  /**
   When every kept edit lands on the version and the masterdata it was decided on, the rule check of a quotation is
   enough: a calculation that is not stale and breaks no rule on the live masterdata is the row's own.
   */
  lemma QuotableIsFresh(e: Engine, client: bool, priced: Priced, header: Header, actions: seq<Action>)
    requires Undisturbed(e, Start(client, priced, header), actions, true)
    requires var s := Run(e, Start(client, priced, header), actions);
             !Stale(s.row, s.data) && !e.conflicts(s.data, s.row.priced)
    ensures Fresh(e, Run(e, Start(client, priced, header), actions))
  {
    RunKeepsCalc(e, client, priced, header, actions);
    RunKeepsDrift(e, client, priced, header, actions, true);
  }

  /** On whatever masterdata it was decided, a kept edit leaves inputs that break a rule on some masterdata. */
  lemma UnbrokenIsFresh(e: Engine, client: bool, priced: Priced, header: Header, actions: seq<Action>)
    requires Undisturbed(e, Start(client, priced, header), actions, false)
    requires var s := Run(e, Start(client, priced, header), actions); forall d :: !e.conflicts(d, s.row.priced)
    ensures Fresh(e, Run(e, Start(client, priced, header), actions))
  {
    RunKeepsCalc(e, client, priced, header, actions);
    RunKeepsDrift(e, client, priced, header, actions, false);
  }

  // ---- A recalculation never lands after what it did not see ------------------------------------------------

  lemma VersionOnlyGrows(e: Engine, s: System, a: Action)
    requires CalcInv(e, s)
    ensures s.row.version <= Step(e, s, a).row.version && s.recalcs <= Step(e, s, a).recalcs
  {
  }

  lemma {:induction false} VersionsGrow(e: Engine, s: System, actions: seq<Action>)
    requires CalcInv(e, s)
    ensures CalcInv(e, Run(e, s, actions))
    ensures s.row.version <= Run(e, s, actions).row.version && s.recalcs <= Run(e, s, actions).recalcs
  {
    if actions != [] {
      VersionsGrow(e, s, actions[..|actions| - 1]);
      StepKeepsCalc(e, Run(e, s, actions[..|actions| - 1]), actions[|actions| - 1]);
      VersionOnlyGrows(e, Run(e, s, actions[..|actions| - 1]), actions[|actions| - 1]);
    }
  }

  /** The steps that are writes of the row other than its calculation and its picks. */
  predicate Writes(a: Action) {
    a.DoFinishEdit? || a.DoFinishGate? || a.DoMove? || a.DoAssign?
  }

  /** Every edit that lands, every transition and every assignment does write a new version. */
  lemma WritesBumpTheVersion(e: Engine, s: System, a: Action)
    requires s.row.version <= s.clock && Writes(a)
    ensures Step(e, s, a) == s || Step(e, s, a).row.version == s.clock + 1
  {
  }

  /**
   Recalculation `i` was in flight when an edit, a transition or an assignment landed. Whatever happens in
   between, it can then no longer change the row.
   */
  lemma BegunBeforeNeverLandsAfter(e: Engine, client: bool, priced: Priced, header: Header,
      actions: seq<Action>, i: nat, a: Action, more: seq<Action>)
    requires i < |Run(e, Start(client, priced, header), actions).recalcs|
    requires var s := Run(e, Start(client, priced, header), actions); Writes(a) && Step(e, s, a) != s
    ensures var s := Run(e, Start(client, priced, header), actions);
            var late := Run(e, Step(e, s, a), more);
            Step(e, late, DoFinishRecalc(i)) == late
  {
    RunKeepsCalc(e, client, priced, header, actions);
    var s := Run(e, Start(client, priced, header), actions);
    StepKeepsCalc(e, s, a);
    VersionOnlyGrows(e, s, a);
    WritesBumpTheVersion(e, s, a);
    VersionsGrow(e, Step(e, s, a), more);
    var late := Run(e, Step(e, s, a), more);
    assert ReadInv(s.row, s.recalcs[i].row);
    assert late.recalcs[i] == s.recalcs[i];
  }

  /** A recalculation that changes the row finds it as it read it. */
  lemma LandsOnlyOnWhatItRead(e: Engine, client: bool, priced: Priced, header: Header, actions: seq<Action>, i: nat)
    requires i < |Run(e, Start(client, priced, header), actions).recalcs|
    requires var s := Run(e, Start(client, priced, header), actions); FinishRecalc(e, s, s.recalcs[i]).row != s.row
    ensures var s := Run(e, Start(client, priced, header), actions);
            SameRead(s.row, s.recalcs[i].row) && SameRead(FinishRecalc(e, s, s.recalcs[i]).row, s.row)
  {
    RunKeepsCalc(e, client, priced, header, actions);
    var s := Run(e, Start(client, priced, header), actions);
    assert ReadInv(s.row, s.recalcs[i].row);
  }

  // ---- The picks belong to the calculation at hand ----------------------------------------------------------

  /** The picks name candidates of this list, each once. */
  predicate PicksExist(row: Row) {
    && (forall i: nat | i < |row.selection| :: row.selection[i] < |row.candidates|)
    && (forall i: nat, j: nat | i < j < |row.selection| :: row.selection[i] != row.selection[j])
  }

  lemma StepKeepsPicks(e: Engine, s: System, a: Action)
    requires PicksExist(s.row)
    ensures PicksExist(Step(e, s, a).row)
    ensures Step(e, s, a).row.candidates == s.row.candidates || Step(e, s, a).row.selection == []
  {
  }

  /**
   The picks are indices into the stored candidates and never outlive them: in every reachable state each names one,
   and a step that replaces the candidates leaves no picks.
   */
  lemma {:induction false} PicksFollowTheirCandidates(e: Engine, client: bool, priced: Priced, header: Header,
                                                      actions: seq<Action>, a: Action)
    ensures var s := Run(e, Start(client, priced, header), actions); var s' := Step(e, s, a);
            && PicksExist(s.row) && (s'.row.candidates == s.row.candidates || s'.row.selection == [])
  {
    if actions != [] {
      PicksFollowTheirCandidates(e, client, priced, header, actions[..|actions| - 1], actions[|actions| - 1]);
      StepKeepsPicks(e, Run(e, Start(client, priced, header), actions[..|actions| - 1]), actions[|actions| - 1]);
    }
    StepKeepsPicks(e, Run(e, Start(client, priced, header), actions), a);
  }

  // ---- What the pin of a submit proves ----------------------------------------------------------------------

  predicate SameCalculation(a: Row, b: Row) {
    b.candidates == a.candidates && b.calculatedAt == a.calculatedAt && b.selection == a.selection
  }

  predicate NoCalculation(a: Row) {
    a.candidates == [] && a.calculatedAt.None? && a.selection == []
  }

  /** What one whole refresh is to leave of a row that is due, `found` being what its inputs enumerate. */
  predicate Refreshed(s: System, u: System, missing: bool, broken: bool, found: Option<seq<string>>) {
    if missing then NoCalculation(u.row)
    else if broken then SameCalculation(s.row, u.row)
    else if found.None? || found.value == [] then NoCalculation(u.row)
    else
      && u.row.candidates == found.value && u.row.selection == []
      && u.row.calculatedAt.Some? && u.row.calculatedAt.value >= u.data
  }

  lemma NothingToPick(row: Row)
    requires PicksExist(row)
    ensures row.candidates == [] ==> row.selection == []
  {
    if row.selection != [] { assert row.selection[0] < |row.candidates|; }
  }

  lemma RefreshWrites(e: Engine, s: System, side: Side)
    requires Refreshes(e, s.data, s.row, side)
    ensures Step(e, Step(e, s, DoBeginRecalc(side)), DoFinishRecalc(|s.recalcs|)) ==
              FinishRecalc(e, s.(recalcs := s.recalcs + [Recalc(s.row, s.data)]), Recalc(s.row, s.data))
  {
  }

  /**
   A view's refresh, read and written at once, by whoever may write the row, when its calculation is absent or older
   than the masterdata: the candidates of its inputs, current and with nothing picked; none where something is missing
   or nothing is found; and a broken rule leaves them as they are.
   */
  lemma RefreshLeaves(e: Engine, client: bool, priced: Priced, header: Header, actions: seq<Action>, side: Side)
    requires var s := Run(e, Start(client, priced, header), actions);
             CanWrite(s.row, side) && (s.row.calculatedAt.None? || s.row.calculatedAt.value < s.data)
    ensures var s := Run(e, Start(client, priced, header), actions);
            var u := Step(e, Step(e, s, DoBeginRecalc(side)), DoFinishRecalc(|s.recalcs|));
            && u.row.priced == s.row.priced && u.row.status == s.row.status
            && Refreshed(s, u, e.missing(s.data, s.row.priced, s.row.header), e.conflicts(s.data, s.row.priced),
                         e.enumerate(s.data, s.row.priced))
  {
    RunKeepsCalc(e, client, priced, header, actions);
    PicksFollowTheirCandidates(e, client, priced, header, actions, Sync);
    var s := Run(e, Start(client, priced, header), actions);
    NothingToPick(s.row);
    if Refreshes(e, s.data, s.row, side) { RefreshWrites(e, s, side); }
  }

  /** Which edits a stamp survives: those that were kept when they were read, and those that touch no input. */
  lemma StampSurvivesEditIff(e: Engine, client: bool, priced: Priced, header: Header, actions: seq<Action>, i: nat)
    requires var s := Run(e, Start(client, priced, header), actions);
             i < |s.pendings| && WritableBy(s.row, s.pendings[i].side) && s.row.calculatedAt.Some?
    ensures var s := Run(e, Start(client, priced, header), actions); var p := s.pendings[i];
            && (FinishEdit(s, p).row.calculatedAt == s.row.calculatedAt <==>
                  Keeps(e, p.data, p.row, p.change) || (!TouchesEngine(p.change) && !ClearsCustomer(p.change)))
            && (!TouchesEngine(p.change) ==> FinishEdit(s, p).row.priced == s.row.priced)
            && (if Keeps(e, p.data, p.row, p.change) || (!TouchesEngine(p.change) && !ClearsCustomer(p.change)) then
                  SameCalculation(s.row, FinishEdit(s, p).row) else NoCalculation(FinishEdit(s, p).row))
  {
    RunKeepsCalc(e, client, priced, header, actions);
    var s := Run(e, Start(client, priced, header), actions);
    assert PendingInv(e, s.row, s.pendings[i]);
    if !TouchesEngine(s.pendings[i].change) { NothingChanged(s.row.priced, s.pendings[i].change); }
  }

  /**
   A submit's own refresh that lost the row to a newer version leaves it alone, and the submit is checked against that
   version; otherwise its checks stand. Either way it is read once.
   */
  lemma LostRefreshChecksAnew(e: Engine, s: System, i: nat)
    requires i < |s.gates| && s.gates[i].due.Some?
    ensures var g, r, u := s.gates[i], s.gates[i].due.value, Step(e, s, DoGateRecalc(i));
            var lost := s.row.version != r.row.version && !OutcomeOf(e, r).Leave?;
            && |u.gates| == |s.gates| && (forall j: nat | j < |s.gates| && j != i :: u.gates[j] == s.gates[j])
            && u.gates[i].due.None? && u.gates[i].pin == g.pin && u.gates[i].verb == g.verb && u.gates[i].user == g.user
            && (lost ==>
                  && u.row == s.row && u.gates[i].row == s.row
                  && (u.gates[i].open <==>
                        !e.missing(r.data, s.row.priced, s.row.header) && !e.conflicts(r.data, s.row.priced)))
            && (!lost ==> u.gates[i].row == g.row && u.gates[i].open == g.open)
  {
  }

  /** The same stamp is the same calculation, with perhaps more kept edits on it. */
  ghost predicate PinInv(s: System, u: System) {
    && s.clock <= u.clock
    && (u.row.calculatedAt == s.row.calculatedAt ==> u.basis == s.basis && s.since <= u.since)
  }

  lemma PinStep(e: Engine, s: System, u: System, a: Action)
    requires CalcInv(e, s) && CalcInv(e, u) && PinInv(s, u) && s.row.calculatedAt.Some?
    ensures PinInv(s, Step(e, u, a))
  {
    if !a.DoFinishEdit? { CalculationAfter(e, u, a); }
  }

  lemma {:induction false} PinRun(e: Engine, s: System, actions: seq<Action>)
    requires CalcInv(e, s) && s.row.calculatedAt.Some?
    ensures PinInv(s, Run(e, s, actions))
  {
    if actions != [] {
      PinRun(e, s, actions[..|actions| - 1]);
      VersionsGrow(e, s, actions[..|actions| - 1]);
      PinStep(e, s, Run(e, s, actions[..|actions| - 1]), actions[|actions| - 1]);
    }
  }

  lemma LaterKept(e: Engine, edits: seq<Pending>, n: nat)
    requires AllKept(e, edits) && n <= |edits|
    ensures AllKept(e, edits[n..])
  {
  }

  lemma SameBasisSameButKept(e: Engine, s: System, u: System)
    requires BasisInv(e, s) && BasisInv(e, u)
    requires s.basis.Some? && u.basis == s.basis && s.since <= u.since
    ensures AllKept(e, u.since[|s.since|..]) && u.row.priced == Applied(s.row.priced, u.since[|s.since|..])
  {
    var later := u.since[|s.since|..];
    assert u.since == s.since + later;
    AppliedAll(s.basis.value.row.priced, s.since, later);
    LaterKept(e, u.since, |s.since|);
  }

  /**
   submit and resubmit are pinned to the calculation they read after their checks. The same stamp under the lock
   means: the inputs are those the pin was read with, after the kept edits that landed in between and nothing else.
   They are the same inputs if and only if those edits cancel out, so always when there was none.
   */
  lemma PinProvesInputs(e: Engine, client: bool, priced: Priced, header: Header, actions: seq<Action>,
                        more: seq<Action>)
    requires var s := Run(e, Start(client, priced, header), actions);
             s.row.calculatedAt.Some? && Run(e, s, more).row.calculatedAt == s.row.calculatedAt
    ensures var s := Run(e, Start(client, priced, header), actions); var u := Run(e, s, more);
            && s.since <= u.since && AllKept(e, u.since[|s.since|..])
            && u.row.priced == Applied(s.row.priced, u.since[|s.since|..])
  {
    RunKeepsCalc(e, client, priced, header, actions);
    var s := Run(e, Start(client, priced, header), actions);
    PinRun(e, s, more);
    VersionsGrow(e, s, more);
    SameBasisSameButKept(e, s, Run(e, s, more));
  }

  /**
   What a submit freezes. Some calculation found it complete, within the rules and with candidates, but for the kept
   edits that landed on that calculation since; without one these are the very inputs.
   */
  lemma SubmittedWasCalculated(e: Engine, client: bool, priced: Priced, header: Header, actions: seq<Action>, i: nat)
    requires var s := Run(e, Start(client, priced, header), actions);
             i < |s.gates| && !s.gates[i].verb.Quote? && FinishGate(s, i) != s
    ensures var s := Run(e, Start(client, priced, header), actions); var u := FinishGate(s, i); var g := s.gates[i];
            && u.trace == s.trace + [Moved(g.verb, g.user, Some(s.row.priced.inputs))]
            && s.basis.Some? && Open(e, s.basis.value.data, s.basis.value.row)
            && s.row.candidates != []
            && e.enumerate(s.basis.value.data, s.basis.value.row.priced) == Some(s.row.candidates)
            && s.row.priced == Applied(s.basis.value.row.priced, s.since) && AllKept(e, s.since)
  {
    RunKeepsCalc(e, client, priced, header, actions);
    var s := Run(e, Start(client, priced, header), actions);
    assert GateInv(s.row, s.gates[i]);
    var moved := Moved(s.gates[i].verb, s.gates[i].user, Some(s.row.priced.inputs));
    assert [] + [moved] == [moved];
  }

  // ---- Runs that use the exception ------------------------------------------------------------------------

  /** A model with one rule: `a` may only be set together with `b`; `from`: the first masterdata without the rule. */
  function OneRule(from: Stamp): Engine {
    Engine(
      (d, p: Priced) => d < from && "a" in p.inputs.entries && "b" !in p.inputs.entries,
      (d, p) => false,
      (d, p, h: Header) => h.customer.None?,
      (d, p: Priced) =>
        if "a" !in p.inputs.entries then Some(if "b" in p.inputs.entries then ["only b"] else ["neither"])
        else if "b" in p.inputs.entries then Some(["both"])
        else Some(if d < from then [] else ["only a"]),
      (d, p, c) => true,
      (d, p, c) => true)
  }

  lemma OneRuleIsLawful(from: Stamp)
    ensures Lawful(OneRule(from))
  {
  }

  /** A draft without inputs, of a client or of staff. */
  function Blank(client: bool): System {
    Start(client, Priced(0, Inputs(map[], [1], map[]), None), Header(0, Some(0)))
  }

  function Put(k: string): Change {
    Change(Patch(map[k := VNull], [], None, map[]), None, None, None, None)
  }

  lemma PutMerges(p: Priced, k: string)
    ensures Changed(p, Put(k)) == p.(inputs := p.inputs.(entries := p.inputs.entries[k := VNull]))
    ensures TouchesEngine(Put(k))
  {
    assert k in Put(k).patch.put;
    assert KeySet([]) == {};
    MergedNothing(p.inputs.tables);
  }

  /** Which of these edits is kept. */
  lemma PutIsKeptIff(from: Stamp, data: Stamp, row: Row, k: string)
    requires row.header.customer.Some?
    ensures Keeps(OneRule(from), data, row, Put(k)) <==>
              data < from && "a" in row.priced.inputs.entries.Keys + {k} && "b" !in row.priced.inputs.entries.Keys + {k}
  {
    PutMerges(row.priced, k);
  }

  const FAR: Stamp := 1000

  const BREAKS := DoBeginEdit(Internal, Put("a"))
  const REPAIRS := DoBeginEdit(Internal, Put("b"))

  /** The first calculation of a blank draft, by either side that may write it. */
  lemma Calculated(from: Stamp, client: bool) returns (actions: seq<Action>)
    requires from > 0
    ensures var s := Run(OneRule(from), Blank(client), actions);
            && s.row == Blank(client).row.(candidates := ["neither"], calculatedAt := Some(1))
            && s.clock == 1 && s.data == 0 && s.pendings == [] && s.gates == [] && |s.recalcs| == 1
            && s.basis.Some? && s.basis.value.data == 0 && s.since == []
    ensures Undisturbed(OneRule(from), Blank(client), actions, false)
  {
    var e, s0 := OneRule(from), Blank(client);
    var begin, finish := DoBeginRecalc(if client then External else Internal), DoFinishRecalc(0);
    actions := [begin] + [finish];
    RunOne(e, s0, [], begin);
    assert [] + [begin] == [begin];
    RunOne(e, s0, [begin], finish);
    assert Step(e, s0, begin).recalcs == [Recalc(s0.row, 0)];
    assert OutcomeOf(e, Recalc(s0.row, 0)) == Store(["neither"]);
    assert actions[..1] == [begin] && [begin][..0] == [];
  }

  /**
   The pin of a submit passes over a kept edit, and the submit's own check of the rules came too early to see it: a
   client's draft is submitted, in six steps of its own, with inputs that break a rule.
   */
  lemma PinPassesAKeptEdit() returns (actions: seq<Action>)
    ensures var u := Run(OneRule(FAR), Blank(true), actions);
            && u.row.status == Submitted && u.row.calculatedAt.Some?
            && u.trace != [] && u.trace[|u.trace| - 1] == Moved(Submit, "client", Some(u.row.priced.inputs))
            && (forall a :: a in actions ==> !a.DoMove? && !a.DoAssign? && !a.Sync?)
            && OneRule(FAR).conflicts(u.data, u.row.priced) && !Fresh(OneRule(FAR), u)
  {
    var e, s0 := OneRule(FAR), Blank(true);
    var a1, a2, a3, a4, a5, a6 := DoGate(Submit, "client"), DoGateRecalc(0), DoReadPin(0),
      DoBeginEdit(External, Put("a")), DoFinishEdit(0), DoFinishGate(0);
    var r := Recalc(s0.row, 0);
    var s1 := Step(e, s0, a1);
    assert s1.gates == [Gate(Submit, "client", s0.row, true, Some(r), None)];
    var s2 := Step(e, s1, a2);
    assert OutcomeOf(e, r) == Store(["neither"]);
    assert s2.gates == [Gate(Submit, "client", s0.row, true, None, None)];
    var s3 := Step(e, s2, a3);
    assert s3.gates == [Gate(Submit, "client", s0.row, true, None, Some(1))];
    PutMerges(s3.row.priced, "a");
    PutIsKeptIff(FAR, 0, s3.row, "a");
    var s4 := Step(e, s3, a4);
    assert s4.pendings == [Pending(External, Put("a"), true, s3.row, 0)];
    var s5 := Step(e, s4, a5);
    assert s5.row.candidates == ["neither"] && s5.row.calculatedAt == Some(1);
    var s6 := Step(e, s5, a6);
    assert s6.row.status == Submitted;
    assert NewEntries(s5, Submit, "client") == [] + [Moved(Submit, "client", Some(s5.row.priced.inputs))];
    actions := [] + [a1] + [a2] + [a3] + [a4] + [a5] + [a6];
    RunOne(e, s0, [], a1);
    RunOne(e, s0, [] + [a1], a2);
    RunOne(e, s0, [] + [a1] + [a2], a3);
    RunOne(e, s0, [] + [a1] + [a2] + [a3], a4);
    RunOne(e, s0, [] + [a1] + [a2] + [a3] + [a4], a5);
    RunOne(e, s0, [] + [a1] + [a2] + [a3] + [a4] + [a5], a6);
  }

  /** An edit that breaks the rule is read; another repairs it first; the row is recalculated; and the first lands. */
  lemma RepairedFirst(s: System) returns (s5: System, s6: System)
    requires s.row == Blank(false).row.(candidates := ["neither"], calculatedAt := Some(1))
    requires s.clock == 1 && s.data == 0 && s.pendings == [] && |s.recalcs| == 1
    ensures var e := OneRule(FAR);
            && s5 == Step(e, Step(e, Step(e, Step(e, Step(e, s, BREAKS), REPAIRS), DoFinishEdit(1)),
                                  DoBeginRecalc(Internal)), DoFinishRecalc(1))
            && s6 == Step(e, s5, DoFinishEdit(0))
    ensures s6.row.candidates == ["only b"] && s6.row.calculatedAt.Some? && !Stale(s6.row, s6.data)
    ensures s6.basis.Some? && "a" in s6.row.priced.inputs.entries && "b" in s6.row.priced.inputs.entries
  {
    var e := OneRule(FAR);
    PutMerges(s.row.priced, "b");
    PutIsKeptIff(FAR, 0, s.row, "a");
    PutIsKeptIff(FAR, 0, s.row, "b");
    var s2 := Step(e, Step(e, s, BREAKS), REPAIRS);
    assert s2.pendings == [Pending(Internal, Put("a"), true, s.row, 0), Pending(Internal, Put("b"), false, s.row, 0)];
    var s3 := Step(e, s2, DoFinishEdit(1));
    assert s3.row.calculatedAt.None? && s3.row.priced.inputs.entries == map["b" := VNull];
    var s4 := Step(e, s3, DoBeginRecalc(Internal));
    assert s4.recalcs[1] == Recalc(s3.row, 0);
    s5 := Step(e, s4, DoFinishRecalc(1));
    assert s5.row.candidates == ["only b"];
    PutMerges(s5.row.priced, "a");
    s6 := Step(e, s5, DoFinishEdit(0));
  }

  /**
   A kept edit decided on an older version can land after the rule was repaired and the row recalculated.
   Then no rule is broken, the calculation is not stale, and its candidates are not those of the inputs.
   */
  lemma KeptEditOutlivesItsRule() returns (actions: seq<Action>)
    ensures var u := Run(OneRule(FAR), Blank(false), actions);
            && u.row.calculatedAt.Some? && !Stale(u.row, u.data)
            && (forall d :: !OneRule(FAR).conflicts(d, u.row.priced))
            && !Fresh(OneRule(FAR), u)
  {
    var e, s0 := OneRule(FAR), Blank(false);
    var first := Calculated(FAR, false);
    var s5, s6 := RepairedFirst(Run(e, s0, first));
    var a1, a2, a3, a4, a5, a6 :=
      BREAKS, REPAIRS, DoFinishEdit(1), DoBeginRecalc(Internal), DoFinishRecalc(1), DoFinishEdit(0);
    actions := first + [a1] + [a2] + [a3] + [a4] + [a5] + [a6];
    RunOne(e, s0, first, a1);
    RunOne(e, s0, first + [a1], a2);
    RunOne(e, s0, first + [a1] + [a2], a3);
    RunOne(e, s0, first + [a1] + [a2] + [a3], a4);
    RunOne(e, s0, first + [a1] + [a2] + [a3] + [a4], a5);
    RunOne(e, s0, first + [a1] + [a2] + [a3] + [a4] + [a5], a6);
    assert e.enumerate(s6.basis.value.data, s6.row.priced) == Some(["both"]);
  }

  lemma UndisturbedMore(e: Engine, s: System, actions: seq<Action>, a: Action, onData: bool)
    requires Undisturbed(e, s, actions, onData) && LandsUndisturbed(Run(e, s, actions), a, onData)
    ensures Undisturbed(e, s, actions + [a], onData)
  {
    assert (actions + [a])[..|actions|] == actions;
  }

  /** An edit that breaks the rule is read, the rule goes, the row is recalculated, and the edit lands. */
  lemma LateEdit(s: System) returns (s4: System, s5: System)
    requires s.row == Blank(false).row.(candidates := ["neither"], calculatedAt := Some(1))
    requires s.clock == 1 && s.data == 0 && s.pendings == [] && |s.recalcs| == 1
    ensures var e := OneRule(1);
            && s4 == Step(e, Step(e, Step(e, Step(e, s, BREAKS), Sync), DoBeginRecalc(Internal)), DoFinishRecalc(1))
            && s5 == Step(e, s4, DoFinishEdit(0))
    ensures s4.row.version == s.row.version && s4.pendings == [Pending(Internal, Put("a"), true, s.row, 0)]
    ensures s5.row.candidates == ["neither"] && s5.row.calculatedAt == Some(3) && s5.data == 2
    ensures s5.basis.Some? && s5.basis.value.data == 2 && "a" in s5.row.priced.inputs.entries
    ensures "b" !in s5.row.priced.inputs.entries
  {
    var e := OneRule(1);
    PutMerges(s.row.priced, "a");
    PutIsKeptIff(1, 0, s.row, "a");
    var s1 := Step(e, s, BREAKS);
    assert s1.pendings == [Pending(Internal, Put("a"), true, s.row, 0)];
    var s3 := Step(e, Step(e, s1, Sync), DoBeginRecalc(Internal));
    assert s3.recalcs[1] == Recalc(s.row, 2);
    s4 := Step(e, s3, DoFinishRecalc(1));
    assert s4.row.candidates == ["neither"] && s4.row.calculatedAt == Some(3);
    s5 := Step(e, s4, DoFinishEdit(0));
  }

  /**
   The version alone does not save `QuotableIsFresh`. An edit breaks a rule, the masterdata that made it a rule is
   replaced and the row recalculated on the new one before the edit's UPDATE: it lands on the version it read, the
   calculation is not stale, no rule is broken on the live masterdata, and the candidates are another project's.
   */
  lemma MasterdataClauseNeeded() returns (actions: seq<Action>)
    ensures Undisturbed(OneRule(1), Blank(false), actions, false)
    ensures var u := Run(OneRule(1), Blank(false), actions);
            && u.row.calculatedAt.Some? && !Stale(u.row, u.data) && !OneRule(1).conflicts(u.data, u.row.priced)
            && !Fresh(OneRule(1), u)
  {
    var e, s0 := OneRule(1), Blank(false);
    var first := Calculated(1, false);
    var s4, s5 := LateEdit(Run(e, s0, first));
    var a1, a2, a3, a4, a5 := BREAKS, Sync, DoBeginRecalc(Internal), DoFinishRecalc(1), DoFinishEdit(0);
    actions := first + [a1] + [a2] + [a3] + [a4] + [a5];
    RunOne(e, s0, first, a1);
    RunOne(e, s0, first + [a1], a2);
    RunOne(e, s0, first + [a1] + [a2], a3);
    RunOne(e, s0, first + [a1] + [a2] + [a3], a4);
    RunOne(e, s0, first + [a1] + [a2] + [a3] + [a4], a5);
    UndisturbedMore(e, s0, first, a1, false);
    UndisturbedMore(e, s0, first + [a1], a2, false);
    UndisturbedMore(e, s0, first + [a1] + [a2], a3, false);
    UndisturbedMore(e, s0, first + [a1] + [a2] + [a3], a4, false);
    UndisturbedMore(e, s0, first + [a1] + [a2] + [a3] + [a4], a5, false);
    assert e.enumerate(2, s5.row.priced) == Some(["only a"]);
  }
}
