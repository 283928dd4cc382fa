/**
 The project row as a concurrent object: the lifecycle of project-lifecycle.ts with the gates of its two callers
 (portal/orpc/projects.ts for submit and resubmit, config-quote.ts for quote), the edits of
 orpc/routers/configs.ts and the portal, the picks, and the optimistic recalculation of config-project.ts,
 interleaved in any order by any number of actors.

 The engine is a parameter: `Engine` says which inputs break a rule, which are incomplete, what candidates they
 have and which of those still price, each against a state of the masterdata. Stamps are unique.
 */
module ProjectRow {
  import opened Options
  import opened Canon
  import opened ConfigPatch
  import opened RevisionDiff

  type Stamp = nat
  type User = string

  datatype Status = Draft | Submitted | InReview | Returned | Declined | Quoted
  datatype Response = QuoteAccepted | QuoteDeclined
  datatype Verb = Submit | Withdraw | Resubmit | Accept | SendBack | Decline | Quote | AcceptQuote | DeclineQuote

  /** What the engine prices: the model, the inputs and the configuration's own margin. */
  datatype Priced = Priced(model: nat, inputs: Inputs, margin: Option<nat>)

  /** The two General fields no figure depends on. */
  datatype Header = Header(name: nat, customer: Option<nat>)

  /**
   `client`: the row has a portalCardCode. A candidate is one assignment at one batch quantity, as a pick names it;
   `selection` holds the picks as indices into the candidates.
   */
  datatype Row = Row(
    client: bool, status: Status, assignee: Option<User>, response: Option<Response>,
    priced: Priced, header: Header, version: Stamp,
    candidates: seq<string>, calculatedAt: Option<Stamp>, selection: seq<nat>)

  /**
   `conflicts`: a rule is broken. `gaps`: `missingInputs`, what the model's own fields still need; `missing`:
   `missingOf`, which adds the name, the customer and the batches. `enumerate`: the priced candidates, or None when a
   formula breaks. `prices` and `quotes`: `computeOutputs` and `pairMoney` succeed on a candidate.
   */
  datatype Engine = Engine(
    conflicts: (Stamp, Priced) -> bool,
    gaps: (Stamp, Priced) -> bool,
    missing: (Stamp, Priced, Header) -> bool,
    enumerate: (Stamp, Priced) -> Option<seq<string>>,
    prices: (Stamp, Priced, string) -> bool,
    quotes: (Stamp, Priced, string) -> bool)

  /** How the engine's answers hang together (packages/config-engine/src/enumerate.ts, config-project.ts:172-183). */
  ghost predicate Lawful(e: Engine) {
    && (forall d, p :: e.conflicts(d, p) ==> e.enumerate(d, p) == Some([]))
    && (forall d, p, h: Header :: e.gaps(d, p) || h.customer.None? ==> e.missing(d, p, h))
    && (forall d, p :: e.enumerate(d, p).Some? ==> forall c :: c in e.enumerate(d, p).value ==> e.prices(d, p, c))
    && (forall d, p, c :: e.quotes(d, p, c) ==> e.prices(d, p, c))
  }

  // ---- The transition table -------------------------------------------------------------------------

  function SideOf(v: Verb): Side {
    match v
    case Submit => External case Withdraw => External case Resubmit => External
    case AcceptQuote => External case DeclineQuote => External
    case _ => Internal
  }

  function FromOf(v: Verb): set<Status> {
    match v
    case Submit => {Draft}
    case Withdraw => {Submitted}
    case Resubmit => {Returned}
    case Accept => {Submitted}
    case SendBack => {Submitted, InReview}
    case Decline => {Submitted, InReview}
    case Quote => {InReview}
    case AcceptQuote => {Quoted}
    case DeclineQuote => {Quoted}
  }

  function ToOf(v: Verb): Status {
    match v
    case Submit => Submitted
    case Withdraw => Draft
    case Resubmit => Submitted
    case Accept => InReview
    case SendBack => Returned
    case Decline => Status.Declined
    case Quote => Quoted
    case AcceptQuote => Quoted
    case DeclineQuote => InReview
  }

  predicate Revises(v: Verb) {
    v.SendBack? || v.Decline? || v.Quote?
  }

  /** The verbs whose event freezes the row's inputs: the baseline of the next diff. */
  predicate Freezes(v: Verb) {
    v.Submit? || v.Resubmit? || v.Quote?
  }

  /** `canWrite`: one writer per status. */
  predicate CanWrite(row: Row, side: Side) {
    if !row.client then side.Internal? && row.status != Quoted
    else if side.External? then row.status == Draft || row.status == Returned
    else row.status == InReview
  }

  /** `writableBy`, the WHERE of the input UPDATE; the external caller is fenced to its own projects. */
  predicate WritableBy(row: Row, side: Side) {
    match side
    case External => row.client && (row.status == Draft || row.status == Returned)
    case Internal => row.status != Quoted && (!row.client || row.status == InReview)
  }

  // ---- The timeline -----------------------------------------------------------------------------------

  /** `Edited` is the model's own record of an input write; the database keeps the others as events. */
  datatype Entry =
    | Created(inputs: Inputs)
    | Moved(verb: Verb, user: User, frozen: Option<Inputs>)
    | Revised(diff: Diff)
    | Assigned(to: User)
    | Edited(side: Side, before: Inputs, after: Inputs)

  /** The inputs frozen by the last submitted, resubmitted or quoted event. */
  function Baseline(trace: seq<Entry>): Option<Inputs> {
    if trace == [] then None
    else
      var last := trace[|trace| - 1];
      if last.Moved? && last.frozen.Some? then last.frozen else Baseline(trace[..|trace| - 1])
  }

  // ---- The system ---------------------------------------------------------------------------------------

  /** A recalculation in flight: the row as it was read, and the masterdata it read. */
  datatype Recalc = Recalc(row: Row, data: Stamp)

  /** An edit: what each call writes. `model` is the switch of `configs.update`, which starts over in its model. */
  datatype Change = Change(
    patch: Patch, margin: Option<Option<nat>>, name: Option<nat>, customer: Option<Option<nat>>, model: Option<nat>)

  /** An edit between its read (where `keepsCandidates` was decided) and its UPDATE. */
  datatype Pending = Pending(side: Side, change: Change, keep: bool, row: Row, data: Stamp)

  /**
   A submit, resubmit or quote between its checks and its transition. `open`: the checks passed. `due`: the
   recalculation a submit's own read still has to write. `pin`: the calculation the transition is pinned to.
   */
  datatype Gate = Gate(verb: Verb, user: User, row: Row, open: bool, due: Option<Recalc>, pin: Option<Stamp>)

  datatype System = System(
    row: Row, trace: seq<Entry>, recalcs: seq<Recalc>, pendings: seq<Pending>, gates: seq<Gate>,
    clock: Stamp, data: Stamp,
    basis: Option<Recalc>,       // the recalculation whose candidates are stored
    since: seq<Pending>)         // the kept edits that landed on its calculation, in order

  function Start(client: bool, priced: Priced, header: Header): System {
    var row := Row(client, Draft, None, None, priced, header, 0, [], None, []);
    System(row, [Created(priced.inputs)], [], [], [], 0, 0, None, [])
  }

  // ---- Edits ----------------------------------------------------------------------------------------------

  predicate TouchesEngine(c: Change) {
    || c.patch.put != map[] || c.patch.unset != [] || c.patch.batches.Some? || c.patch.tables != map[]
    || c.margin.Some? || c.model.Some?
  }

  predicate ClearsCustomer(c: Change) {
    c.customer == Some(None)
  }

  function MergedInputs(x: Inputs, p: Patch): Inputs {
    Inputs(Merged(x.entries, Merge(p.put, KeySet(p.unset))),
           if p.batches.Some? then p.batches.value else x.batches,
           Merged(x.tables, Merge(p.tables, {})))
  }

  /** A model switch starts from the new model's batch defaults; the margin is the project's own and stays. */
  function Changed(p: Priced, c: Change): Priced {
    if c.model.Some? then
      Priced(c.model.value, Inputs(map[], if c.patch.batches.Some? then c.patch.batches.value else [], map[]), p.margin)
    else
      Priced(p.model, MergedInputs(p.inputs, c.patch), if c.margin.Some? then c.margin.value else p.margin)
  }

  function HeaderAfter(h: Header, c: Change): Header {
    Header(if c.name.Some? then c.name.value else h.name, if c.customer.Some? then c.customer.value else h.customer)
  }

  /**
   What each call may write: a client its inputs or, apart from them, the project's name; staff everything but a
   client's customer and model. A model switch is a call of its own and does nothing for the model at hand.
   */
  predicate MayChange(row: Row, side: Side, c: Change) {
    && (side.External? ==> c.margin.None? && c.customer.None? && c.model.None? && (TouchesEngine(c) != c.name.Some?))
    && (row.client ==> c.customer.None? && c.model.None?)
    && (c.model.Some? ==>
          && c.model.value != row.priced.model
          && c.patch.put == map[] && c.patch.unset == [] && c.patch.batches.Some? && c.patch.tables == map[]
          && c.margin.None? && c.name.None? && c.customer.None?)
  }

  /** `keepsCandidates`: the edit breaks a rule and nothing else is missing. It prices with the stored margin. */
  predicate Keeps(e: Engine, data: Stamp, row: Row, c: Change) {
    var p := Priced(row.priced.model, MergedInputs(row.priced.inputs, c.patch), row.priced.margin);
    && TouchesEngine(c) && c.model.None? && !ClearsCustomer(c)
    && e.conflicts(data, p) && !e.missing(data, p, HeaderAfter(row.header, c))
  }

  function BeginEdit(e: Engine, s: System, side: Side, c: Change): System {
    if CanWrite(s.row, side) && MayChange(s.row, side, c) then
      s.(pendings := s.pendings + [Pending(side, c, Keeps(e, s.data, s.row, c), s.row, s.data)])
    else s
  }

  /** Whether the UPDATE drops the candidates. */
  predicate Drops(p: Pending) {
    (TouchesEngine(p.change) || ClearsCustomer(p.change)) && !p.keep
  }

  /** The UPDATE: it merges into the row as it is now, drops the candidates unless they are kept, and
      writes nothing when the status moved on. */
  function FinishEdit(s: System, p: Pending): System {
    if !WritableBy(s.row, p.side) then s
    else
      var after := Changed(s.row.priced, p.change);
      var row := s.row.(
        priced := after,
        header := HeaderAfter(s.row.header, p.change),
        version := s.clock + 1,
        candidates := if Drops(p) then [] else s.row.candidates,
        calculatedAt := if Drops(p) then None else s.row.calculatedAt,
        selection := if Drops(p) then [] else s.row.selection);
      s.(row := row, clock := s.clock + 1,
         trace := s.trace + [Edited(p.side, s.row.priced.inputs, after.inputs)],
         basis := if Drops(p) then None else s.basis,
         since := if Drops(p) then [] else if p.keep && s.row.calculatedAt.Some? then s.since + [p] else s.since)
  }

  // ---- Recalculation --------------------------------------------------------------------------------------

  predicate Stale(row: Row, data: Stamp) {
    row.calculatedAt.None? || row.calculatedAt.value < data
  }

  /** Nothing is missing and no rule is broken. */
  predicate Open(e: Engine, data: Stamp, row: Row) {
    !e.missing(data, row.priced, row.header) && !e.conflicts(data, row.priced)
  }

  /** `liveProject`'s guard: the side may write, the calculation is stale, and there is something to do. */
  predicate Refreshes(e: Engine, data: Stamp, row: Row, side: Side) {
    CanWrite(row, side) && Stale(row, data) && (Open(e, data, row) || row.candidates != [])
  }

  function BeginRecalc(e: Engine, s: System, side: Side): System {
    if Refreshes(e, s.data, s.row, side) then s.(recalcs := s.recalcs + [Recalc(s.row, s.data)]) else s
  }

  /** What a recalculation writes: nothing, an empty calculation, or its candidates. */
  datatype Outcome = Leave | Clear | Store(candidates: seq<string>)

  function OutcomeOf(e: Engine, r: Recalc): Outcome {
    var clear := if r.row.candidates != [] then Clear else Leave;
    if e.missing(r.data, r.row.priced, r.row.header) then clear
    else if e.conflicts(r.data, r.row.priced) then Leave
    else
      match e.enumerate(r.data, r.row.priced)
      case None => clear
      case Some(found) => if found == [] then clear else Store(found)
  }

  /** The conditional write: only if the row is still at the version it was read at. */
  function FinishRecalc(e: Engine, s: System, r: Recalc): System {
    var o := OutcomeOf(e, r);
    if o.Leave? || s.row.version != r.row.version then s
    else if o.Clear? then
      s.(row := s.row.(candidates := [], calculatedAt := None, selection := []), basis := None, since := [])
    else
      s.(row := s.row.(candidates := o.candidates, calculatedAt := Some(s.clock + 1), selection := []),
         clock := s.clock + 1, basis := Some(r), since := [])
  }

  // ---- The picks --------------------------------------------------------------------------------------------

  /** `internalVisible`: a client's draft does not exist for staff. */
  predicate SeenByStaff(row: Row) {
    !row.client || row.status != Draft
  }

  /** `configs.select`: each pick exists, none twice, and each still prices. It is not an edit of the version. */
  predicate Pickable(e: Engine, s: System, picks: seq<nat>) {
    && CanWrite(s.row, Internal)
    && (forall i: nat | i < |picks| ::
          picks[i] < |s.row.candidates| && e.prices(s.data, s.row.priced, s.row.candidates[picks[i]]))
    && (forall i: nat, j: nat | i < j < |picks| :: picks[i] != picks[j])
  }

  function Select(e: Engine, s: System, picks: seq<nat>): System {
    if Pickable(e, s, picks) then s.(row := s.row.(selection := picks)) else s
  }

  // ---- Transitions ----------------------------------------------------------------------------------------

  /** Everything `step` checks under the lock; `pinned` is the calculation the caller checked against. */
  predicate Allowed(s: System, v: Verb, side: Side, pinned: Option<Stamp>) {
    var row := s.row;
    && side == SideOf(v)
    && (side.External? ==> row.client)
    && !(side.Internal? && row.client && row.status == Draft)
    && row.status in (if v.Quote? && !row.client then {Draft} else FromOf(v))
    && (row.client || v.Quote?)
    && (v.AcceptQuote? || v.DeclineQuote? ==> row.response.None?)
    && (pinned.Some? ==> row.calculatedAt == pinned)
  }

  function DiffNow(s: System, v: Verb): Option<Diff> {
    if Revises(v) && s.row.client && Baseline(s.trace).Some? then
      DiffOf(Baseline(s.trace).value, s.row.priced.inputs)
    else None
  }

  function NewEntries(s: System, v: Verb, user: User): seq<Entry> {
    (if DiffNow(s, v).Some? then [Revised(DiffNow(s, v).value)] else [])
      + [Moved(v, user, if Freezes(v) then Some(s.row.priced.inputs) else None)]
  }

  function Move(s: System, v: Verb, side: Side, user: User, pinned: Option<Stamp>): System {
    if !Allowed(s, v, side, pinned) then s
    else
      var row := s.row.(
        status := ToOf(v), version := s.clock + 1,
        assignee := if v.Accept? && s.row.assignee.None? then Some(user) else s.row.assignee,
        response := if v.AcceptQuote? then Some(QuoteAccepted) else if v.DeclineQuote? then Some(QuoteDeclined)
                    else if v.Quote? then None else s.row.response);
      s.(row := row, clock := s.clock + 1, trace := s.trace + NewEntries(s, v, user))
  }

  function Assign(s: System, side: Side, to: User, staff: bool): System {
    if side.External? || !s.row.client || s.row.status == Draft || !staff || s.row.assignee == Some(to) then s
    else
      s.(row := s.row.(assignee := Some(to), version := s.clock + 1), clock := s.clock + 1,
         trace := s.trace + [Assigned(to)])
  }

  // ---- The gated transitions ------------------------------------------------------------------------------

  /** `loadQuotable`, `assertWritable` and `buildQuoteSeed`: what quoting asks of the row as it reads it. */
  predicate Quotable(e: Engine, data: Stamp, row: Row) {
    && SeenByStaff(row) && row.candidates != [] && CanWrite(row, Internal)
    && row.header.customer.Some? && !e.conflicts(data, row.priced) && !e.gaps(data, row.priced)
    && row.selection != []
    && (forall i: nat | i < |row.selection| ::
          row.selection[i] < |row.candidates| && e.quotes(data, row.priced, row.candidates[row.selection[i]]))
  }

  /**
   The checks. A submit reads the project as any view does, so a calculation that is due is written before it goes
   on; `createQuote` reads the row alone.
   */
  function BeginGate(e: Engine, s: System, v: Verb, user: User): System {
    if v.Quote? then s.(gates := s.gates + [Gate(v, user, s.row, Quotable(e, s.data, s.row), None, None)])
    else if (v.Submit? || v.Resubmit?) && s.row.client then
      var due := if Refreshes(e, s.data, s.row, External) then Some(Recalc(s.row, s.data)) else None;
      s.(gates := s.gates + [Gate(v, user, s.row, Open(e, s.data, s.row), due, None)])
    else s
  }

  /** The recalculation of a submit's read. One that lost the row to a newer version checks that version instead. */
  function GateRecalc(e: Engine, s: System, i: nat): System {
    if i >= |s.gates| || s.gates[i].due.None? then s
    else
      var g := s.gates[i];
      var r := g.due.value;
      var lost := !OutcomeOf(e, r).Leave? && s.row.version != r.row.version;
      var checked := if lost then g.(due := None, row := s.row, open := Open(e, r.data, s.row)) else g.(due := None);
      FinishRecalc(e, s, r).(gates := s.gates[i := checked])
  }

  /** The read of the calculation to pin, after the checks passed. */
  function ReadPin(s: System, i: nat): System {
    if i >= |s.gates| then s
    else
      var g := s.gates[i];
      if g.verb.Quote? || !g.open || g.due.Some? || g.pin.Some? then s
      else s.(gates := s.gates[i := g.(pin := s.row.calculatedAt)])
  }

  /** The transition: a submit needs its pin, a quote has none. */
  function FinishGate(s: System, i: nat): System {
    if i >= |s.gates| || !s.gates[i].open then s
    else
      var g := s.gates[i];
      if g.verb.Quote? then Move(s, g.verb, Internal, g.user, None)
      else if g.pin.Some? then Move(s, g.verb, External, g.user, g.pin)
      else s
  }

  // ---- Runs -----------------------------------------------------------------------------------------------

  /** `Sync` stands for any write of the model or the masterdata. The verbs of `DoMove` have no gate. */
  datatype Action =
    | Sync
    | DoBeginEdit(side: Side, change: Change)
    | DoFinishEdit(i: nat)
    | DoBeginRecalc(side: Side)
    | DoFinishRecalc(i: nat)
    | DoSelect(picks: seq<nat>)
    | DoGate(verb: Verb, user: User)
    | DoGateRecalc(i: nat)
    | DoReadPin(i: nat)
    | DoFinishGate(i: nat)
    | DoMove(verb: Verb, side: Side, user: User)
    | DoAssign(side: Side, to: User, staff: bool)

  function Step(e: Engine, s: System, a: Action): System {
    match a
    case Sync => s.(clock := s.clock + 1, data := s.clock + 1)
    case DoBeginEdit(side, c) => BeginEdit(e, s, side, c)
    case DoFinishEdit(i) => if i < |s.pendings| then FinishEdit(s, s.pendings[i]) else s
    case DoBeginRecalc(side) => BeginRecalc(e, s, side)
    case DoFinishRecalc(i) => if i < |s.recalcs| then FinishRecalc(e, s, s.recalcs[i]) else s
    case DoSelect(picks) => Select(e, s, picks)
    case DoGate(v, user) => BeginGate(e, s, v, user)
    case DoGateRecalc(i) => GateRecalc(e, s, i)
    case DoReadPin(i) => ReadPin(s, i)
    case DoFinishGate(i) => FinishGate(s, i)
    case DoMove(v, side, user) => if Freezes(v) then s else Move(s, v, side, user, None)
    case DoAssign(side, to, staff) => Assign(s, side, to, staff)
  }

  function Run(e: Engine, s: System, actions: seq<Action>): System {
    if actions == [] then s else Step(e, Run(e, s, actions[..|actions| - 1]), actions[|actions| - 1])
  }

  lemma RunOne(e: Engine, s: System, actions: seq<Action>, a: Action)
    ensures Run(e, s, actions + [a]) == Step(e, Run(e, s, actions), a)
  {
    assert (actions + [a])[..|actions|] == actions;
  }

  lemma {:induction false} RunMore(e: Engine, s: System, first: seq<Action>, rest: seq<Action>)
    ensures Run(e, s, first + rest) == Run(e, Run(e, s, first), rest)
  {
    if rest == [] {
      assert first + rest == first;
    } else {
      var n := |rest| - 1;
      RunMore(e, s, first, rest[..n]);
      assert (first + rest)[..|first + rest| - 1] == first + rest[..n];
    }
  }

  /** The steps that write no entry. */
  predicate Quiet(a: Action) {
    !(a.DoFinishEdit? || a.DoFinishGate? || a.DoMove? || a.DoAssign?)
  }

  lemma QuietStep(e: Engine, s: System, a: Action)
    requires Quiet(a)
    ensures var s' := Step(e, s, a);
            && s'.trace == s.trace && s'.row.client == s.row.client && s'.row.status == s.row.status
            && s'.row.response == s.row.response && s'.row.priced == s.row.priced
  {
  }

  // ---- The event log rebuilds the row ---------------------------------------------------------------------

  datatype Folded = Folded(status: Status, response: Option<Response>, assignee: Option<User>)

  function FoldOne(f: Folded, e: Entry): Folded {
    match e
    case Moved(v, user, _) =>
      Folded(ToOf(v),
             if v.AcceptQuote? then Some(QuoteAccepted) else if v.DeclineQuote? then Some(QuoteDeclined)
             else if v.Quote? then None else f.response,
             if v.Accept? && f.assignee.None? then Some(user) else f.assignee)
    case Assigned(to) => f.(assignee := Some(to))
    case _ => f
  }

  function Fold(trace: seq<Entry>): Folded {
    if trace == [] then Folded(Draft, None, None) else FoldOne(Fold(trace[..|trace| - 1]), trace[|trace| - 1])
  }

  lemma FoldMore(trace: seq<Entry>, e: Entry)
    ensures Fold(trace + [e]) == FoldOne(Fold(trace), e)
  {
    assert (trace + [e])[..|trace|] == trace;
  }

  ghost predicate LogInv(s: System) {
    && Fold(s.trace) == Folded(s.row.status, s.row.response, s.row.assignee)
    && (!s.row.client ==> s.row.status == Draft || s.row.status == Quoted)
    && (!s.row.client ==> s.row.response.None?)
    && (s.row.response == Some(QuoteAccepted) ==> s.row.status == Quoted)
    && (s.row.status == Quoted ==> s.row.response != Some(QuoteDeclined))
  }

  lemma EditKeepsLog(s: System, p: Pending)
    requires LogInv(s)
    ensures LogInv(FinishEdit(s, p))
  {
    var s' := FinishEdit(s, p);
    if WritableBy(s.row, p.side) { FoldMore(s.trace, Edited(p.side, s.row.priced.inputs, s'.row.priced.inputs)); }
  }

  lemma FoldMove(s: System, v: Verb, user: User)
    ensures Fold(s.trace + NewEntries(s, v, user)) == FoldOne(Fold(s.trace), Moved(v, user, None))
  {
    var moved := Moved(v, user, if Freezes(v) then Some(s.row.priced.inputs) else None);
    if DiffNow(s, v).Some? {
      var revised := Revised(DiffNow(s, v).value);
      FoldMore(s.trace, revised);
      FoldMore(s.trace + [revised], moved);
      assert s.trace + NewEntries(s, v, user) == s.trace + [revised] + [moved];
    } else {
      FoldMore(s.trace, moved);
      assert NewEntries(s, v, user) == [moved];
    }
  }

  lemma MoveKeepsLog(s: System, v: Verb, side: Side, user: User, pinned: Option<Stamp>)
    requires LogInv(s)
    ensures LogInv(Move(s, v, side, user, pinned)) && Move(s, v, side, user, pinned).row.client == s.row.client
  {
    FoldMove(s, v, user);
  }

  lemma GateKeepsLog(s: System, i: nat)
    requires LogInv(s)
    ensures LogInv(FinishGate(s, i)) && FinishGate(s, i).row.client == s.row.client
  {
    if i < |s.gates| {
      var g := s.gates[i];
      if g.verb.Quote? { MoveKeepsLog(s, g.verb, Internal, g.user, None); }
      else { MoveKeepsLog(s, g.verb, External, g.user, g.pin); }
    }
  }

  lemma StepKeepsLog(e: Engine, s: System, a: Action)
    requires LogInv(s)
    ensures LogInv(Step(e, s, a)) && Step(e, s, a).row.client == s.row.client
  {
    match a
    case DoFinishEdit(i) => if i < |s.pendings| { EditKeepsLog(s, s.pendings[i]); }
    case DoFinishGate(i) => GateKeepsLog(s, i);
    case DoMove(v, side, user) => MoveKeepsLog(s, v, side, user, None);
    case DoAssign(side, to, staff) => FoldMore(s.trace, Assigned(to));
    case _ =>
  }

  lemma {:induction false} RunKeepsLog(e: Engine, s: System, actions: seq<Action>)
    requires LogInv(s)
    ensures LogInv(Run(e, s, actions)) && Run(e, s, actions).row.client == s.row.client
  {
    if actions != [] {
      RunKeepsLog(e, s, actions[..|actions| - 1]);
      StepKeepsLog(e, Run(e, s, actions[..|actions| - 1]), actions[|actions| - 1]);
    }
  }

  lemma StartsLogged(client: bool, priced: Priced, header: Header)
    ensures LogInv(Start(client, priced, header))
  {
    FoldMore([], Created(priced.inputs));
    assert [Created(priced.inputs)] == [] + [Created(priced.inputs)];
  }

  /** In every reachable state the events alone say status, quote response and assignee. */
  lemma LogRebuildsRow(e: Engine, client: bool, priced: Priced, header: Header, actions: seq<Action>)
    ensures var s := Run(e, Start(client, priced, header), actions);
            Fold(s.trace) == Folded(s.row.status, s.row.response, s.row.assignee)
  {
    StartsLogged(client, priced, header);
    RunKeepsLog(e, Start(client, priced, header), actions);
  }

  /** Where a row can no longer go anywhere. */
  predicate Final(row: Row) {
    || (row.status == Status.Declined && row.client)
    || (row.status == Quoted && (row.response == Some(QuoteAccepted) || !row.client))
  }

  lemma FinalStep(e: Engine, s: System, a: Action)
    requires Final(s.row)
    ensures Step(e, s, a).row.status == s.row.status && Step(e, s, a).row.response == s.row.response
    ensures Step(e, s, a).row.client == s.row.client && Step(e, s, a).row.priced == s.row.priced
    ensures Step(e, s, a).row.header == s.row.header
  {
  }

  /** An accepted quote stays quoted, a declined request never moves, an internal quotation is final. */
  lemma {:induction false} FinalStaysFinal(e: Engine, s: System, actions: seq<Action>)
    requires Final(s.row)
    ensures Run(e, s, actions).row.status == s.row.status && Run(e, s, actions).row.response == s.row.response
    ensures Run(e, s, actions).row.client == s.row.client && Run(e, s, actions).row.priced == s.row.priced
    ensures Run(e, s, actions).row.header == s.row.header
  {
    if actions != [] {
      FinalStaysFinal(e, s, actions[..|actions| - 1]);
      FinalStep(e, Run(e, s, actions[..|actions| - 1]), actions[|actions| - 1]);
    }
  }

  /** A configuration of staff's own is only ever a draft or quoted. */
  lemma InternalOnlyDraftOrQuoted(e: Engine, priced: Priced, header: Header, actions: seq<Action>)
    ensures var row := Run(e, Start(false, priced, header), actions).row; row.status == Draft || row.status == Quoted
  {
    StartsLogged(false, priced, header);
    RunKeepsLog(e, Start(false, priced, header), actions);
  }
}
