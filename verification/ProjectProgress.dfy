/**
 When a project can still be quoted as it is (apps/server/src/project-lifecycle.ts:53-66 with the checks of
 portal/orpc/projects.ts:93-106 and config-quote.ts:159-190,304-345): the exact condition on a row, over all runs in
 which nobody writes its inputs, the model or the masterdata.
 */
module ProjectProgress {
  import opened Options
  import opened Canon
  import opened ConfigPatch
  import opened RevisionDiff
  import opened ProjectRow
  import opened ProjectFreshness

  // ---- The runs -------------------------------------------------------------------------------------------

  /**
   What the two sides can do to a project without another edit: recalculations, picks, checks and transitions begun
   from here on. The first `n` recalculations and `m` gates were in flight before.
   */
  predicate OwnAction(a: Action, n: nat, m: nat) {
    match a
    case Sync => false
    case DoBeginEdit(_, _) => false
    case DoFinishEdit(_) => false
    case DoFinishRecalc(i) => i >= n
    case DoGateRecalc(i) => i >= m
    case DoReadPin(i) => i >= m
    case DoFinishGate(i) => i >= m
    case DoAssign(_, _, _) => false
    case _ => true
  }

  predicate Own(actions: seq<Action>, n: nat, m: nat) {
    forall i: nat | i < |actions| :: OwnAction(actions[i], n, m)
  }

  /** A quotation nobody answered yet. */
  predicate Offered(row: Row) {
    row.status == Quoted && row.response.None?
  }

  ghost predicate Leads(e: Engine, s: System, more: seq<Action>) {
    && Own(more, |s.recalcs|, |s.gates|)
    && Offered(Run(e, s, more).row) && Run(e, s, more).row.priced == s.row.priced
  }

  /** An open quotation of the same inputs can still come. */
  ghost predicate CanQuote(e: Engine, s: System) {
    exists more :: Leads(e, s, more)
  }

  // ---- The condition --------------------------------------------------------------------------------------

  /** With the client, who alone can pass it on. */
  predicate Home(row: Row) {
    row.client && (row.status == Draft || row.status == Returned)
  }

  predicate Underway(row: Row) {
    row.status == Draft || (row.client && row.status in {Returned, Submitted, InReview})
  }

  predicate Sells(e: Engine, data: Stamp, p: Priced, candidates: seq<string>) {
    exists i: nat :: i < |candidates| && e.quotes(data, p, candidates[i])
  }

  predicate SellsNow(e: Engine, s: System) {
    Sells(e, s.data, s.row.priced, s.row.candidates)
  }

  /** A recalculation would store a candidate that can be quoted. */
  predicate Found(e: Engine, s: System) {
    && !e.missing(s.data, s.row.priced, s.row.header)
    && e.enumerate(s.data, s.row.priced).Some?
    && Sells(e, s.data, s.row.priced, e.enumerate(s.data, s.row.priced).value)
  }

  /** A rule, a field or the customer stands against every quotation. */
  predicate Barred(e: Engine, s: System) {
    e.conflicts(s.data, s.row.priced) || e.gaps(s.data, s.row.priced) || s.row.header.customer.None?
  }

  /**
   The rules hold and the fields are filled, before a client's submit all of them; and a candidate sells: one of the
   stored ones, or, when the calculation is stale, one a recalculation finds. A client's own read replaces a stale
   calculation before its submit, so there only the latter counts.
   */
  predicate Ready(e: Engine, s: System) {
    && !Barred(e, s)
    && (Home(s.row) ==> !e.missing(s.data, s.row.priced, s.row.header))
    && (|| (SellsNow(e, s) && !(Home(s.row) && Stale(s.row, s.data)))
        || (Stale(s.row, s.data) && Found(e, s)))
  }

  // ---- It is enough: the way to the quotation -------------------------------------------------------------

  lemma OwnMore(first: seq<Action>, rest: seq<Action>, n: nat, m: nat, n': nat, m': nat)
    requires Own(first, n, m) && Own(rest, n', m') && n <= n' && m <= m'
    ensures Own(first + rest, n, m)
  {
    forall i: nat | i < |first + rest| ensures OwnAction((first + rest)[i], n, m) {
      if i >= |first| { assert OwnAction(rest[i - |first|], n', m'); }
    }
  }

  /** One way after another. */
  lemma LeadsOn(e: Engine, s: System, first: seq<Action>, rest: seq<Action>)
    requires Own(first, |s.recalcs|, |s.gates|)
    requires var t := Run(e, s, first);
             && |s.recalcs| <= |t.recalcs| && |s.gates| <= |t.gates| && t.row.priced == s.row.priced
             && Leads(e, t, rest)
    ensures Leads(e, s, first + rest)
  {
    var t := Run(e, s, first);
    RunMore(e, s, first, rest);
    OwnMore(first, rest, |s.recalcs|, |s.gates|, |t.recalcs|, |t.gates|);
  }

  lemma RunJust(e: Engine, s: System, a: Action)
    ensures Run(e, s, [a]) == Step(e, s, a)
  {
    RunOne(e, s, [], a);
    assert [] + [a] == [a];
  }

  lemma RunTwo(e: Engine, s: System, a: Action, b: Action)
    ensures Run(e, s, [a, b]) == Step(e, Step(e, s, a), b)
  {
    RunJust(e, s, a);
    RunOne(e, s, [a], b);
    assert [a] + [b] == [a, b];
  }

  lemma RunFour(e: Engine, s: System, a: Action, b: Action, c: Action, d: Action)
    ensures Run(e, s, [a, b, c, d]) == Step(e, Step(e, Step(e, Step(e, s, a), b), c), d)
  {
    RunTwo(e, s, a, b);
    RunOne(e, s, [a, b], c);
    RunOne(e, s, [a, b, c], d);
    assert [a, b] + [c] == [a, b, c] && [a, b, c] + [d] == [a, b, c, d];
  }

  /** Where staff may quote: a request in review, or a draft of their own. */
  predicate Quoting(row: Row) {
    CanWrite(row, Internal) && SeenByStaff(row)
  }

  lemma PickAndQuote(e: Engine, s: System, k: nat) returns (t: System)
    requires Lawful(e) && Quoting(s.row) && !Barred(e, s)
    requires k < |s.row.candidates| && e.quotes(s.data, s.row.priced, s.row.candidates[k])
    requires s.row.status == if s.row.client then InReview else Draft
    ensures t == FinishGate(BeginGate(e, Select(e, s, [k]), Quote, "staff"), |s.gates|)
    ensures Offered(t.row) && t.row.priced == s.row.priced
  {
    assert e.prices(s.data, s.row.priced, s.row.candidates[k]);
    var s1 := Select(e, s, [k]);
    assert s1 == s.(row := s.row.(selection := [k]));
    var s2 := BeginGate(e, s1, Quote, "staff");
    assert s2.gates[|s.gates|] == Gate(Quote, "staff", s1.row, true, None, None);
    t := FinishGate(s2, |s.gates|);
  }

  lemma QuoteRuns(e: Engine, s: System, k: nat)
    ensures Run(e, s, [DoSelect([k]), DoGate(Quote, "staff"), DoFinishGate(|s.gates|)]) ==
            FinishGate(BeginGate(e, Select(e, s, [k]), Quote, "staff"), |s.gates|)
  {
    RunTwo(e, s, DoSelect([k]), DoGate(Quote, "staff"));
    RunOne(e, s, [DoSelect([k]), DoGate(Quote, "staff")], DoFinishGate(|s.gates|));
    assert [DoSelect([k]), DoGate(Quote, "staff")] + [DoFinishGate(|s.gates|)]
        == [DoSelect([k]), DoGate(Quote, "staff"), DoFinishGate(|s.gates|)];
  }

  lemma QuoteCandidate(e: Engine, s: System) returns (more: seq<Action>)
    requires Lawful(e) && Quoting(s.row) && !Barred(e, s) && SellsNow(e, s)
    requires s.row.status == if s.row.client then InReview else Draft
    ensures Leads(e, s, more)
  {
    var k: nat :| k < |s.row.candidates| && e.quotes(s.data, s.row.priced, s.row.candidates[k]);
    var t := PickAndQuote(e, s, k);
    QuoteRuns(e, s, k);
    more := [DoSelect([k]), DoGate(Quote, "staff"), DoFinishGate(|s.gates|)];
  }

  /** Staff bring a stale calculation up to date first. */
  lemma RecalculateAndQuote(e: Engine, s: System) returns (more: seq<Action>)
    requires Lawful(e) && CalcInv(e, s) && Quoting(s.row) && !Barred(e, s)
    requires SellsNow(e, s) || (Stale(s.row, s.data) && Found(e, s))
    requires s.row.status == if s.row.client then InReview else Draft
    ensures Leads(e, s, more)
  {
    if SellsNow(e, s) {
      more := QuoteCandidate(e, s);
    } else {
      var n := |s.recalcs|;
      var r := Recalc(s.row, s.data);
      var s1 := Step(e, s, DoBeginRecalc(Internal));
      assert s1.recalcs[n] == r;
      assert OutcomeOf(e, r) == Store(e.enumerate(s.data, s.row.priced).value);
      var s2 := Step(e, s1, DoFinishRecalc(n));
      assert s2.row.candidates == e.enumerate(s.data, s.row.priced).value;
      var rest := QuoteCandidate(e, s2);
      RunTwo(e, s, DoBeginRecalc(Internal), DoFinishRecalc(n));
      more := [DoBeginRecalc(Internal), DoFinishRecalc(n)] + rest;
      LeadsOn(e, s, [DoBeginRecalc(Internal), DoFinishRecalc(n)], rest);
    }
  }

  lemma Accepted(s: System) returns (s1: System)
    requires s.row.client && s.row.status == Submitted
    ensures s1 == Move(s, Accept, Internal, "staff", None)
    ensures s1.row == s.row.(status := InReview, version := s1.row.version, assignee := s1.row.assignee)
    ensures s1.data == s.data && s1.recalcs == s.recalcs && s1.gates == s.gates
  {
    s1 := Move(s, Accept, Internal, "staff", None);
  }

  lemma AcceptAndQuote(e: Engine, s: System) returns (more: seq<Action>)
    requires Lawful(e) && CalcInv(e, s) && !Barred(e, s)
    requires s.row.client && s.row.status == Submitted
    requires SellsNow(e, s) || (Stale(s.row, s.data) && Found(e, s))
    ensures Leads(e, s, more)
  {
    var a := DoMove(Accept, Internal, "staff");
    var s1 := Accepted(s);
    MoveKeepsCalc(e, s, Accept, Internal, "staff", None);
    RunJust(e, s, a);
    var rest := RecalculateAndQuote(e, s1);
    more := [a] + rest;
    LeadsOn(e, s, [a], rest);
  }

  /** A submit's checks and its read of a row that is ready leave a calculation that sells. */
  lemma SubmitReads(e: Engine, s: System, v: Verb) returns (s2: System)
    requires Home(s.row) && Ready(e, s) && (v.Submit? || v.Resubmit?)
    requires s.row.calculatedAt.Some? || s.row.candidates == []
    ensures s2 == GateRecalc(e, BeginGate(e, s, v, "client"), |s.gates|)
    ensures s2.gates == s.gates + [Gate(v, "client", s.row, true, None, None)] && s2.recalcs == s.recalcs
    ensures SameRead(s2.row, s.row) && s2.data == s.data && s2.row.calculatedAt.Some? && SellsNow(e, s2)
  {
    var m := |s.gates|;
    var r := Recalc(s.row, s.data);
    var s1 := BeginGate(e, s, v, "client");
    var due := if Stale(s.row, s.data) then Some(r) else None;
    assert s1.gates[m] == Gate(v, "client", s.row, true, due, None);
    s2 := GateRecalc(e, s1, m);
    if due.Some? {
      assert OutcomeOf(e, r) == Store(e.enumerate(s.data, s.row.priced).value);
      assert s2.row.candidates == e.enumerate(s.data, s.row.priced).value;
    }
  }

  /** The calculation is pinned and the submit lands. */
  lemma PinAndMove(s: System, m: nat) returns (t: System)
    requires m < |s.gates| && s.gates[m].open && s.gates[m].due.None? && s.gates[m].pin.None?
    requires s.gates[m].verb == (if s.row.status == Draft then Submit else Resubmit)
    requires Home(s.row) && s.row.calculatedAt.Some?
    ensures t == FinishGate(ReadPin(s, m), m)
    ensures t.row == s.row.(status := Submitted, version := t.row.version) && t.data == s.data
    ensures t.recalcs == s.recalcs && |t.gates| == |s.gates|
  {
    var pinned := ReadPin(s, m);
    assert pinned.gates[m].pin == s.row.calculatedAt;
    t := FinishGate(pinned, m);
  }

  /** A client's submit from its checks to its transition. */
  function SubmitSteps(v: Verb, m: nat): seq<Action> {
    [DoGate(v, "client"), DoGateRecalc(m), DoReadPin(m), DoFinishGate(m)]
  }

  lemma SubmitRuns(e: Engine, s: System, v: Verb, m: nat)
    ensures Run(e, s, SubmitSteps(v, m)) ==
            FinishGate(ReadPin(GateRecalc(e, BeginGate(e, s, v, "client"), m), m), m)
  {
    RunFour(e, s, DoGate(v, "client"), DoGateRecalc(m), DoReadPin(m), DoFinishGate(m));
  }

  /** The submit of a row that is ready: its read recalculates when that is due, the pin is read, and it lands. */
  lemma SubmitLands(e: Engine, s: System, v: Verb) returns (first: seq<Action>, t: System)
    requires Home(s.row) && Ready(e, s) && (s.row.calculatedAt.Some? || s.row.candidates == [])
    requires v == if s.row.status == Draft then Submit else Resubmit
    ensures Own(first, |s.recalcs|, |s.gates|) && t == Run(e, s, first)
    ensures |s.recalcs| <= |t.recalcs| && |s.gates| <= |t.gates|
    ensures t.row.client && t.row.status == Submitted && t.row.priced == s.row.priced
    ensures !Barred(e, t) && SellsNow(e, t)
  {
    var m := |s.gates|;
    var s2 := SubmitReads(e, s, v);
    t := PinAndMove(s2, m);
    first := SubmitSteps(v, m);
    SubmitRuns(e, s, v, m);
  }

  lemma WayToQuote(e: Engine, s: System) returns (more: seq<Action>)
    requires Lawful(e) && CalcInv(e, s) && Underway(s.row) && Ready(e, s)
    ensures Leads(e, s, more)
  {
    if Home(s.row) {
      var first, t := SubmitLands(e, s, if s.row.status == Draft then Submit else Resubmit);
      VersionsGrow(e, s, first);
      var rest := AcceptAndQuote(e, t);
      more := first + rest;
      LeadsOn(e, s, first, rest);
    } else if s.row.status == Submitted {
      more := AcceptAndQuote(e, s);
    } else {
      more := RecalculateAndQuote(e, s);
    }
  }

  // ---- It is needed: what nothing but an edit moves -------------------------------------------------------

  /** Own steps write no inputs, and add to what is in flight. */
  lemma OwnStep(e: Engine, s: System, a: Action, n: nat, m: nat)
    requires OwnAction(a, n, m) && n <= |s.recalcs| && m <= |s.gates|
    ensures var s' := Step(e, s, a);
            && s'.row.priced == s.row.priced && s'.row.header == s.row.header && s'.row.client == s.row.client
            && s'.data == s.data && n <= |s'.recalcs| && m <= |s'.gates|
  {
  }

  /** A check of the run that has not passed for a quotation, nor has a recalculation to write. */
  predicate QuoteShut(g: Gate) {
    (g.verb.Quote? ==> !g.open && g.due.None?) && (g.verb.Quote? || g.verb.Submit? || g.verb.Resubmit?)
  }

  /** The project is not quoted and no check of the run has passed for a quotation. */
  predicate Unquoted(s: System, m: nat) {
    s.row.status != Quoted && (forall i: nat | m <= i < |s.gates| :: QuoteShut(s.gates[i]))
  }

  /** No check of the run has passed for a submit, and none can while something is missing. */
  predicate SubmitShut(g: Gate, data: Stamp) {
    !g.open && (g.due.Some? ==> g.due.value.data == data)
  }

  predicate Incomplete(e: Engine, s: System, m: nat) {
    && Home(s.row) && e.missing(s.data, s.row.priced, s.row.header)
    && (forall i: nat | m <= i < |s.gates| :: SubmitShut(s.gates[i], s.data))
  }

  /** A recalculation of these very inputs, which finds nothing to sell. */
  predicate Idle(e: Engine, s: System, r: Recalc) {
    && r.data == s.data && r.row.priced == s.row.priced && r.row.header == s.row.header
    && (OutcomeOf(e, r).Store? ==> !Sells(e, s.data, s.row.priced, OutcomeOf(e, r).candidates))
  }

  predicate IdleFrom(e: Engine, s: System, n: nat, m: nat) {
    && (forall i: nat | n <= i < |s.recalcs| :: Idle(e, s, s.recalcs[i]))
    && (forall i: nat | m <= i < |s.gates| && s.gates[i].due.Some? :: Idle(e, s, s.gates[i].due.value))
  }

  /** Nothing stored sells, and no recalculation finds anything that would. */
  predicate Dry(e: Engine, s: System, n: nat, m: nat) {
    !SellsNow(e, s) && (Stale(s.row, s.data) ==> !Found(e, s)) && IdleFrom(e, s, n, m)
  }

  /** A recalculation that will replace what is stored. */
  predicate Lands(e: Engine, s: System, r: Recalc) {
    r.row.version == s.row.version && !OutcomeOf(e, r).Leave?
  }

  /** What is stored might sell, but no submit passes without replacing it by something that does not. */
  predicate Expiring(e: Engine, s: System, n: nat, m: nat) {
    && Home(s.row) && Stale(s.row, s.data) && s.row.candidates != [] && !Found(e, s) && Open(e, s.data, s.row)
    && IdleFrom(e, s, n, m)
    && (forall i: nat | n <= i < |s.recalcs| :: Lands(e, s, s.recalcs[i]))
    && (forall i: nat | m <= i < |s.gates| && !s.gates[i].verb.Quote? ::
          s.gates[i].pin.None? && s.gates[i].due.Some? && Lands(e, s, s.gates[i].due.value))
  }

  ghost predicate Blocked(e: Engine, s: System, n: nat, m: nat) {
    && n <= |s.recalcs| && m <= |s.gates| && CalcInv(e, s) && Unquoted(s, m)
    && (Barred(e, s) || Incomplete(e, s, m) || Dry(e, s, n, m) || Expiring(e, s, n, m))
  }

  /** In each case nothing can be quoted. */
  lemma NothingQuotable(e: Engine, s: System, n: nat, m: nat)
    requires Blocked(e, s, n, m)
    ensures !Quotable(e, s.data, s.row)
  {
    if Quotable(e, s.data, s.row) {
      assert e.quotes(s.data, s.row.priced, s.row.candidates[s.row.selection[0]]);
      assert SellsNow(e, s);
    }
  }

  lemma StaysUnquoted(e: Engine, s: System, a: Action, n: nat, m: nat)
    requires Blocked(e, s, n, m) && OwnAction(a, n, m)
    ensures Unquoted(Step(e, s, a), m)
  {
    NothingQuotable(e, s, n, m);
    var s' := Step(e, s, a);
    forall i: nat | m <= i < |s'.gates| ensures QuoteShut(s'.gates[i]) {
      if i < |s.gates| { assert QuoteShut(s.gates[i]); }
    }
    if a.DoFinishGate? && a.i < |s.gates| { assert QuoteShut(s.gates[a.i]); }
  }

  lemma StaysIncomplete(e: Engine, s: System, a: Action, n: nat, m: nat)
    requires Unquoted(s, m) && Incomplete(e, s, m) && OwnAction(a, n, m) && n <= |s.recalcs| && m <= |s.gates|
    ensures Incomplete(e, Step(e, s, a), m)
  {
    OwnStep(e, s, a, n, m);
    var s' := Step(e, s, a);
    forall i: nat | m <= i < |s'.gates| ensures SubmitShut(s'.gates[i], s'.data) {
      if i < |s.gates| { assert SubmitShut(s.gates[i], s.data); }
    }
    if a.DoFinishGate? && a.i < |s.gates| { assert SubmitShut(s.gates[a.i], s.data); }
  }

  lemma NewIsIdle(e: Engine, s: System)
    requires !Found(e, s)
    ensures Idle(e, s, Recalc(s.row, s.data))
  {
  }

  lemma StaysIdle(e: Engine, s: System, a: Action, n: nat, m: nat)
    requires IdleFrom(e, s, n, m) && OwnAction(a, n, m) && n <= |s.recalcs| && m <= |s.gates|
    requires Stale(s.row, s.data) ==> !Found(e, s)
    ensures IdleFrom(e, Step(e, s, a), n, m)
  {
    OwnStep(e, s, a, n, m);
    var s' := Step(e, s, a);
    if !Found(e, s) { NewIsIdle(e, s); }
    forall i: nat | n <= i < |s'.recalcs| ensures Idle(e, s', s'.recalcs[i]) {
      if i < |s.recalcs| { assert Idle(e, s, s.recalcs[i]); }
    }
    forall i: nat | m <= i < |s'.gates| && s'.gates[i].due.Some? ensures Idle(e, s', s'.gates[i].due.value) {
      if i < |s.gates| { assert Idle(e, s, s.gates[i].due.value); }
    }
  }

  /** A recalculation that finds nothing to sell leaves nothing that sells. */
  lemma LandsDry(e: Engine, s: System, r: Recalc)
    requires ClockInv(s) && Idle(e, s, r) && Lands(e, s, r)
    ensures var s' := FinishRecalc(e, s, r); !SellsNow(e, s') && (Stale(s'.row, s'.data) ==> !Found(e, s'))
  {
  }

  lemma StaysDry(e: Engine, s: System, a: Action, n: nat, m: nat)
    requires ClockInv(s) && Dry(e, s, n, m) && OwnAction(a, n, m) && n <= |s.recalcs| && m <= |s.gates|
    ensures Dry(e, Step(e, s, a), n, m)
  {
    StaysIdle(e, s, a, n, m);
    if a.DoFinishRecalc? && a.i < |s.recalcs| {
      var r := s.recalcs[a.i];
      if Lands(e, s, r) { LandsDry(e, s, r); }
    }
    if a.DoGateRecalc? && a.i < |s.gates| && s.gates[a.i].due.Some? {
      var r := s.gates[a.i].due.value;
      if Lands(e, s, r) { LandsDry(e, s, r); }
    }
  }

  lemma ExpiresDry(e: Engine, s: System, a: Action, n: nat, m: nat)
    requires ClockInv(s) && Unquoted(s, m) && Expiring(e, s, n, m) && OwnAction(a, n, m)
    requires n <= |s.recalcs| && m <= |s.gates|
    ensures Expiring(e, Step(e, s, a), n, m) || Dry(e, Step(e, s, a), n, m)
  {
    StaysIdle(e, s, a, n, m);
    OwnStep(e, s, a, n, m);
  }

  lemma OwnStepKeepsBlocked(e: Engine, s: System, a: Action, n: nat, m: nat)
    requires Blocked(e, s, n, m) && OwnAction(a, n, m)
    ensures Blocked(e, Step(e, s, a), n, m)
  {
    StepKeepsCalc(e, s, a);
    OwnStep(e, s, a, n, m);
    StaysUnquoted(e, s, a, n, m);
    if Incomplete(e, s, m) { StaysIncomplete(e, s, a, n, m); }
    else if Dry(e, s, n, m) { StaysDry(e, s, a, n, m); }
    else if Expiring(e, s, n, m) { ExpiresDry(e, s, a, n, m); }
  }

  lemma {:induction false} OwnRunKeepsBlocked(e: Engine, s: System, actions: seq<Action>, n: nat, m: nat)
    requires Blocked(e, s, n, m) && Own(actions, n, m)
    ensures Blocked(e, Run(e, s, actions), n, m)
  {
    if actions != [] {
      var k := |actions| - 1;
      assert OwnAction(actions[k], n, m);
      assert Own(actions[..k], n, m) by {
        forall i: nat | i < k ensures OwnAction(actions[..k][i], n, m) { assert OwnAction(actions[i], n, m); }
      }
      OwnRunKeepsBlocked(e, s, actions[..k], n, m);
      OwnStepKeepsBlocked(e, Run(e, s, actions[..k]), actions[k], n, m);
    }
  }

  /** A row under way that is not ready is blocked for one of four reasons. */
  lemma UnreadyIsBlocked(e: Engine, s: System)
    requires CalcInv(e, s) && Underway(s.row) && !Ready(e, s)
    ensures Blocked(e, s, |s.recalcs|, |s.gates|)
  {
  }

  lemma FinalNeverOffered(e: Engine, s: System, more: seq<Action>)
    requires Final(s.row) && !Offered(s.row)
    ensures !Leads(e, s, more)
  {
    FinalStaysFinal(e, s, more);
  }

  /** Every row is under way, offered or final. */
  lemma ThreeKinds(s: System)
    requires LogInv(s)
    ensures Underway(s.row) || Offered(s.row) || Final(s.row)
    ensures Underway(s.row) ==> !Offered(s.row)
  {
    assert s.row.response.Some? ==> s.row.response.value.QuoteAccepted? || s.row.response.value.QuoteDeclined?;
  }

  /**
   From every reachable state of a client's or an internal project an open quotation of the very same inputs can still
   come without another edit, if and only if there is one or the project is under way and ready.
   */
  lemma QuotationCanComeIff(e: Engine, client: bool, priced: Priced, header: Header, actions: seq<Action>)
    requires Lawful(e)
    ensures var s := Run(e, Start(client, priced, header), actions);
            CanQuote(e, s) <==> Offered(s.row) || (Underway(s.row) && Ready(e, s))
  {
    var s := Run(e, Start(client, priced, header), actions);
    RunKeepsCalc(e, client, priced, header, actions);
    StartsLogged(client, priced, header);
    RunKeepsLog(e, Start(client, priced, header), actions);
    ThreeKinds(s);
    if Offered(s.row) {
      assert Leads(e, s, []);
    } else if !Underway(s.row) {
      forall more ensures !Leads(e, s, more) { FinalNeverOffered(e, s, more); }
    } else if Ready(e, s) {
      var more := WayToQuote(e, s);
    } else {
      UnreadyIsBlocked(e, s);
      forall more ensures !Leads(e, s, more) {
        if Leads(e, s, more) { OwnRunKeepsBlocked(e, s, more, |s.recalcs|, |s.gates|); }
      }
    }
  }

  /** One whole edit of a client, read and written. */
  function EditSteps(s: System, c: Change): seq<Action> {
    [DoBeginEdit(External, c), DoFinishEdit(|s.pendings|)]
  }

  lemma ClientEdits(e: Engine, s: System, c: Change) returns (t: System)
    requires Home(s.row) && MayChange(s.row, External, c)
    ensures t == Run(e, s, EditSteps(s, c)) && t.data == s.data
    ensures t.row.client && t.row.status == s.row.status && t.row.priced == Changed(s.row.priced, c)
    ensures t.row.header == HeaderAfter(s.row.header, c)
    ensures s.row.calculatedAt.None? ==> t.row.calculatedAt.None?
  {
    var p := Pending(External, c, Keeps(e, s.data, s.row, c), s.row, s.data);
    var s1 := BeginEdit(e, s, External, c);
    assert s1.pendings[|s.pendings|] == p;
    t := FinishEdit(s1, p);
    RunTwo(e, s, DoBeginEdit(External, c), DoFinishEdit(|s.pendings|));
  }

  /**
   A client's draft that breaks a rule: not final, and no way to a quotation until it is edited. Here `a` is set
   without `b`; setting `b` opens the way again.
   */
  lemma StuckUntilEdited()
    ensures var e := OneRule(FAR); var s := Run(e, Blank(true), EditSteps(Blank(true), Put("a")));
            && s.row.status == Draft && !Final(s.row) && !CanQuote(e, s)
            && CanQuote(e, Run(e, s, EditSteps(s, Put("b"))))
  {
    var e, s0 := OneRule(FAR), Blank(true);
    OneRuleIsLawful(FAR);
    var first := EditSteps(s0, Put("a"));
    PutMerges(s0.row.priced, "a");
    var s := ClientEdits(e, s0, Put("a"));
    QuotationCanComeIff(e, true, s0.row.priced, s0.row.header, first);
    assert e.conflicts(s.data, s.row.priced);
    var second := EditSteps(s, Put("b"));
    PutMerges(s.row.priced, "b");
    var u := ClientEdits(e, s, Put("b"));
    RunMore(e, s0, first, second);
    QuotationCanComeIff(e, true, s0.row.priced, s0.row.header, first + second);
    assert e.enumerate(u.data, u.row.priced) == Some(["both"]);
    assert e.quotes(u.data, u.row.priced, ["both"][0]);
  }
}
