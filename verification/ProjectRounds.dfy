/**
 A client's rounds (apps/server/src/project-lifecycle.ts:274-284): what the `revised` event written at a closing
 transition says, over every run of the project row.
 */
module ProjectRounds {
  import opened Options
  import opened ConfigPatch
  import opened RevisionDiff
  import opened ProjectRow

  /** Since the last baseline only staff wrote inputs. */
  ghost predicate OnlyStaffSince(trace: seq<Entry>) {
    trace != []
    && var last := trace[|trace| - 1];
       if last.Moved? && last.frozen.Some? then true
       else (last.Edited? ==> last.side.Internal?) && OnlyStaffSince(trace[..|trace| - 1])
  }

  /** The inputs as the record of writes has them. */
  function Replayed(trace: seq<Entry>): Option<Inputs> {
    if trace == [] then None
    else
      var last := trace[|trace| - 1];
      match last
      case Created(x) => Some(x)
      case Edited(_, _, after) => Some(after)
      case _ => Replayed(trace[..|trace| - 1])
  }

  /** Every write starts from the inputs the one before it left, and every baseline froze them. */
  ghost predicate Linked(trace: seq<Entry>) {
    forall i: nat | i < |trace| ::
      && (trace[i].Edited? ==> Replayed(trace[..i]) == Some(trace[i].before))
      && (trace[i].Moved? && trace[i].frozen.Some? ==> Replayed(trace[..i]) == trace[i].frozen)
  }

  /** The statuses in which the client may not write; a closing transition starts in one of them. */
  predicate WithStaff(status: Status) {
    status == Submitted || status == InReview || status == Quoted || status == Status.Declined
  }

  ghost predicate RoundInv(s: System) {
    && s.row.client
    && Replayed(s.trace) == Some(s.row.priced.inputs)
    && Linked(s.trace)
    && (WithStaff(s.row.status) ==> OnlyStaffSince(s.trace) && Baseline(s.trace).Some?)
  }

  lemma TraceMore(trace: seq<Entry>, e: Entry)
    ensures Baseline(trace + [e]) == if e.Moved? && e.frozen.Some? then e.frozen else Baseline(trace)
    ensures OnlyStaffSince(trace + [e]) <==>
              (e.Moved? && e.frozen.Some?) || ((e.Edited? ==> e.side.Internal?) && OnlyStaffSince(trace))
    ensures Replayed(trace + [e]) ==
            (match e case Created(x) => Some(x) case Edited(_, _, x) => Some(x) case _ => Replayed(trace))
  {
    assert (trace + [e])[..|trace|] == trace;
  }

  lemma LinkMore(trace: seq<Entry>, e: Entry)
    requires Linked(trace)
    requires e.Edited? ==> Replayed(trace) == Some(e.before)
    requires e.Moved? && e.frozen.Some? ==> Replayed(trace) == e.frozen
    ensures Linked(trace + [e])
  {
    var t := trace + [e];
    forall i: nat | i < |t|
      ensures (t[i].Edited? ==> Replayed(t[..i]) == Some(t[i].before))
      ensures (t[i].Moved? && t[i].frozen.Some? ==> Replayed(t[..i]) == t[i].frozen)
    {
      if i < |trace| {
        assert t[..i] == trace[..i];
        assert t[i] == trace[i];
      } else {
        assert t[..i] == trace;
      }
    }
  }

  lemma EditKeepsRound(s: System, p: Pending)
    requires RoundInv(s)
    ensures RoundInv(FinishEdit(s, p))
  {
    if WritableBy(s.row, p.side) {
      var e := Edited(p.side, s.row.priced.inputs, FinishEdit(s, p).row.priced.inputs);
      TraceMore(s.trace, e);
      LinkMore(s.trace, e);
    }
  }

  lemma ClosingKeepsRound(s: System, v: Verb, side: Side, user: User, pinned: Option<Stamp>)
    requires RoundInv(s) && Allowed(s, v, side, pinned) && DiffNow(s, v).Some?
    ensures RoundInv(Move(s, v, side, user, pinned))
  {
    var moved := Moved(v, user, if Freezes(v) then Some(s.row.priced.inputs) else None);
    var revised := Revised(DiffNow(s, v).value);
    TraceMore(s.trace, revised);
    LinkMore(s.trace, revised);
    TraceMore(s.trace + [revised], moved);
    LinkMore(s.trace + [revised], moved);
    assert s.trace + NewEntries(s, v, user) == s.trace + [revised] + [moved];
  }

  lemma PlainMoveKeepsRound(s: System, v: Verb, side: Side, user: User, pinned: Option<Stamp>)
    requires RoundInv(s) && Allowed(s, v, side, pinned) && DiffNow(s, v).None?
    ensures RoundInv(Move(s, v, side, user, pinned))
  {
    var moved := Moved(v, user, if Freezes(v) then Some(s.row.priced.inputs) else None);
    TraceMore(s.trace, moved);
    LinkMore(s.trace, moved);
    assert NewEntries(s, v, user) == [moved];
  }

  lemma MoveKeepsRound(s: System, v: Verb, side: Side, user: User, pinned: Option<Stamp>)
    requires RoundInv(s)
    ensures RoundInv(Move(s, v, side, user, pinned))
  {
    if Allowed(s, v, side, pinned) {
      if DiffNow(s, v).Some? { ClosingKeepsRound(s, v, side, user, pinned); }
      else { PlainMoveKeepsRound(s, v, side, user, pinned); }
    }
  }

  lemma GateKeepsRound(s: System, i: nat)
    requires RoundInv(s)
    ensures RoundInv(FinishGate(s, i))
  {
    if i < |s.gates| {
      var g := s.gates[i];
      if g.verb.Quote? { MoveKeepsRound(s, g.verb, Internal, g.user, None); }
      else { MoveKeepsRound(s, g.verb, External, g.user, g.pin); }
    }
  }

  lemma AssignKeepsRound(s: System, side: Side, to: User, staff: bool)
    requires RoundInv(s)
    ensures RoundInv(Assign(s, side, to, staff))
  {
    TraceMore(s.trace, Assigned(to));
    LinkMore(s.trace, Assigned(to));
  }

  lemma StepKeepsRound(e: Engine, s: System, a: Action)
    requires RoundInv(s)
    ensures RoundInv(Step(e, s, a))
  {
    if Quiet(a) {
      QuietStep(e, s, a);
    } else {
      match a
      case DoFinishEdit(i) => if i < |s.pendings| { EditKeepsRound(s, s.pendings[i]); }
      case DoFinishGate(i) => GateKeepsRound(s, i);
      case DoMove(v, side, user) => MoveKeepsRound(s, v, side, user, None);
      case DoAssign(side, to, staff) => AssignKeepsRound(s, side, to, staff);
    }
  }

  lemma {:induction false} RunKeepsRound(e: Engine, priced: Priced, header: Header, actions: seq<Action>)
    ensures RoundInv(Run(e, Start(true, priced, header), actions))
  {
    if actions == [] {
      TraceMore([], Created(priced.inputs));
      assert [] + [Created(priced.inputs)] == [Created(priced.inputs)];
    } else {
      RunKeepsRound(e, priced, header, actions[..|actions| - 1]);
      StepKeepsRound(e, Run(e, Start(true, priced, header), actions[..|actions| - 1]), actions[|actions| - 1]);
    }
  }

  /** Where the baseline stands: the last entry that froze inputs, and only staff's writes after it. */
  lemma {:induction false} BaselineIndex(trace: seq<Entry>) returns (b: nat)
    requires OnlyStaffSince(trace)
    ensures b < |trace| && trace[b].Moved? && trace[b].frozen.Some? && Baseline(trace) == trace[b].frozen
    ensures forall i: nat | b < i < |trace| ::
              (trace[i].Edited? ==> trace[i].side.Internal?) && !(trace[i].Moved? && trace[i].frozen.Some?)
  {
    var n := |trace| - 1;
    if trace[n].Moved? && trace[n].frozen.Some? {
      b := n;
    } else {
      b := BaselineIndex(trace[..n]);
      assert forall i: nat | i < n :: trace[..n][i] == trace[i];
    }
  }

  /**
   `b` is the round's baseline: the last entry that froze the inputs as they then were, with only staff's
   writes after it. The closing transition writes the diff from it, when there is one, and then its own event.
   */
  ghost predicate ClosesRound(s: System, s': System, v: Verb, user: User, b: nat) {
    && b < |s.trace| && s.trace[b].Moved? && s.trace[b].frozen.Some?
    && Replayed(s.trace[..b]) == s.trace[b].frozen
    && (forall i: nat | b < i < |s.trace| ::
          (s.trace[i].Edited? ==> s.trace[i].side.Internal?) && !(s.trace[i].Moved? && s.trace[i].frozen.Some?))
    && var base, now := s.trace[b].frozen.value, s.row.priced.inputs;
       var d := DiffOf(base, now);
       && s'.trace == s.trace + (if d.Some? then [Revised(d.value)] else [])
                      + [Moved(v, user, if v.Quote? then Some(now) else None)]
       && IsDiff(base, now, d)
       && (d.Some? ==>
             && SameUpToNull(Rebuilt(base, d.value).entries, now.entries)
             && Rebuilt(base, d.value).batches == now.batches)
  }

  /** Over every run of a client's project each closing transition closes a round in that sense. */
  lemma RevisedIsWhatStaffChanged(e: Engine, priced: Priced, header: Header, actions: seq<Action>,
      v: Verb, user: User, pinned: Option<Stamp>) returns (b: nat)
    requires Revises(v) && Allowed(Run(e, Start(true, priced, header), actions), v, Internal, pinned)
    ensures var s := Run(e, Start(true, priced, header), actions);
            ClosesRound(s, Move(s, v, Internal, user, pinned), v, user, b)
  {
    RunKeepsRound(e, priced, header, actions);
    var s := Run(e, Start(true, priced, header), actions);
    b := BaselineIndex(s.trace);
    var base, now := s.trace[b].frozen.value, s.row.priced.inputs;
    DiffRebuilds(base, now);
    DiffIsDiff(base, now);
    assert DiffNow(s, v) == DiffOf(base, now);
    assert Freezes(v) <==> v.Quote?;
    assert ClosesRound(s, Move(s, v, Internal, user, pinned), v, user, b);
  }
}
