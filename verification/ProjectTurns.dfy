/**
 Whose turn it is (apps/server/src/project-lifecycle.ts:31-66,252-303): what the last transition of a project's log
 alone says about the next one, and about whose edits land. No status is named here: the table of statuses and the two
 rules for writers are seen only through what they let happen.
 */
module ProjectTurns {
  import opened Options
  import opened Canon
  import opened ConfigPatch
  import opened RevisionDiff
  import opened ProjectRow

  /** The last transition in the log. */
  function LastVerb(trace: seq<Entry>): Option<Verb> {
    if trace == [] then None
    else if trace[|trace| - 1].Moved? then Some(trace[|trace| - 1].verb)
    else LastVerb(trace[..|trace| - 1])
  }

  /** The transitions that may follow on a client's project; nothing follows a decline or an accepted quote. */
  function Next(last: Option<Verb>): set<Verb> {
    match last
    case None => {Submit}
    case Some(v) =>
      match v
      case Submit => {Withdraw, Accept, SendBack, Decline}
      case Resubmit => {Withdraw, Accept, SendBack, Decline}
      case Withdraw => {Submit}
      case SendBack => {Resubmit}
      case Accept => {SendBack, Decline, Quote}
      case DeclineQuote => {SendBack, Decline, Quote}
      case Quote => {AcceptQuote, DeclineQuote}
      case Decline => {}
      case AcceptQuote => {}
  }

  /** Who does it: the client submits, withdraws and answers; the rest is staff's. */
  predicate ByClient(v: Verb) {
    v in {Submit, Resubmit, Withdraw, AcceptQuote, DeclineQuote}
  }

  /** Whose edits land: on a project of staff's own staff's, until it is quoted. */
  function Writer(client: bool, last: Option<Verb>): Option<Side> {
    if !client then if last.None? then Some(Internal) else None
    else if last.None? || last.value.Withdraw? || last.value.SendBack? then Some(External)
    else if last.value.Accept? || last.value.DeclineQuote? then Some(Internal)
    else None
  }

  // ---- The log knows where the project stands ---------------------------------------------------------------

  /** Where the last transition left a client's project. */
  function Standing(last: Option<Verb>): Status {
    match last
    case None => Draft
    case Some(v) =>
      match v
      case Submit => Submitted
      case Resubmit => Submitted
      case Withdraw => Draft
      case SendBack => Returned
      case Accept => InReview
      case DeclineQuote => InReview
      case Quote => Quoted
      case AcceptQuote => Quoted
      case Decline => Status.Declined
  }

  predicate Logged(s: System) {
    var last := LastVerb(s.trace);
    && s.row.status == Standing(last)
    && (s.row.client && last == Some(Quote) ==> s.row.response.None?)
    && (last == Some(AcceptQuote) ==> s.row.response.Some?)
    && (!s.row.client ==> last.None? || last == Some(Quote))
  }

  lemma LastMore(trace: seq<Entry>, e: Entry)
    ensures LastVerb(trace + [e]) == if e.Moved? then Some(e.verb) else LastVerb(trace)
  {
    assert (trace + [e])[..|trace|] == trace;
  }

  lemma LastOfMove(s: System, v: Verb, user: User)
    ensures LastVerb(s.trace + NewEntries(s, v, user)) == Some(v)
  {
    var moved := Moved(v, user, if Freezes(v) then Some(s.row.priced.inputs) else None);
    if DiffNow(s, v).Some? {
      var revised := Revised(DiffNow(s, v).value);
      assert s.trace + NewEntries(s, v, user) == s.trace + [revised] + [moved];
      LastMore(s.trace + [revised], moved);
    } else {
      assert NewEntries(s, v, user) == [moved];
      LastMore(s.trace, moved);
    }
  }

  lemma MoveKeepsTurn(s: System, v: Verb, side: Side, user: User, pinned: Option<Stamp>)
    requires Logged(s)
    ensures Logged(Move(s, v, side, user, pinned))
  {
    LastOfMove(s, v, user);
  }

  lemma GateKeepsTurn(s: System, i: nat)
    requires Logged(s)
    ensures Logged(FinishGate(s, i))
  {
    if i < |s.gates| {
      var g := s.gates[i];
      if g.verb.Quote? { MoveKeepsTurn(s, g.verb, Internal, g.user, None); }
      else { MoveKeepsTurn(s, g.verb, External, g.user, g.pin); }
    }
  }

  lemma EditKeepsTurn(s: System, p: Pending)
    requires Logged(s)
    ensures Logged(FinishEdit(s, p))
  {
    LastMore(s.trace, Edited(p.side, s.row.priced.inputs, Changed(s.row.priced, p.change).inputs));
  }

  lemma AssignKeepsTurn(s: System, side: Side, to: User, staff: bool)
    requires Logged(s)
    ensures Logged(Assign(s, side, to, staff))
  {
    LastMore(s.trace, Assigned(to));
  }

  lemma StepKeepsTurn(e: Engine, s: System, a: Action)
    requires Logged(s)
    ensures Logged(Step(e, s, a))
  {
    if Quiet(a) {
      QuietStep(e, s, a);
    } else {
      match a
      case DoFinishEdit(i) => if i < |s.pendings| { EditKeepsTurn(s, s.pendings[i]); }
      case DoFinishGate(i) => GateKeepsTurn(s, i);
      case DoMove(v, side, user) => MoveKeepsTurn(s, v, side, user, None);
      case DoAssign(side, to, staff) => AssignKeepsTurn(s, side, to, staff);
    }
  }

  lemma {:induction false} RunKeepsTurn(e: Engine, client: bool, priced: Priced, header: Header, actions: seq<Action>)
    ensures Logged(Run(e, Start(client, priced, header), actions))
    ensures Run(e, Start(client, priced, header), actions).row.client == client
  {
    if actions == [] {
      assert [Created(priced.inputs)] == [] + [Created(priced.inputs)];
      LastMore([], Created(priced.inputs));
    } else {
      var before := actions[..|actions| - 1];
      RunKeepsTurn(e, client, priced, header, before);
      StepKeepsTurn(e, Run(e, Start(client, priced, header), before), actions[|actions| - 1]);
      StartsLogged(client, priced, header);
      RunKeepsLog(e, Start(client, priced, header), actions);
    }
  }

  // ---- The next transition ------------------------------------------------------------------------------------

  /**
   In every reachable state the last transition alone says which ones the lock lets through, and for which side; a
   project of staff's own is quoted once and nothing else.
   */
  lemma LogSaysWhatIsNext(e: Engine, client: bool, priced: Priced, header: Header, actions: seq<Action>,
                          v: Verb, side: Side)
    ensures var s := Run(e, Start(client, priced, header), actions); var last := LastVerb(s.trace);
            Allowed(s, v, side, None) <==>
              (if client then v in Next(last) && (ByClient(v) <==> side.External?)
               else v.Quote? && side.Internal? && last.None?)
  {
    RunKeepsTurn(e, client, priced, header, actions);
    if client { NextOfClient(Run(e, Start(client, priced, header), actions), v, side); }
  }

  lemma NextOfClient(s: System, v: Verb, side: Side)
    requires Logged(s) && s.row.client
    ensures Allowed(s, v, side, None) <==> v in Next(LastVerb(s.trace)) && (ByClient(v) <==> side.External?)
  {
  }

  /** And a transition that is let through is the last one of the log it leaves, with the same inputs. */
  lemma MovesAreLogged(s: System, v: Verb, side: Side, user: User, pinned: Option<Stamp>)
    requires Allowed(s, v, side, pinned)
    ensures var s' := Move(s, v, side, user, pinned);
            LastVerb(s'.trace) == Some(v) && s'.row.priced == s.row.priced && s'.row.header == s.row.header
  {
    LastOfMove(s, v, user);
  }

  // ---- Who has it -------------------------------------------------------------------------------------------

  /**
   In every reachable state: staff assign a client's project to a colleague once it was submitted and while that is
   news, which is logged and changes nothing but the assignee; no other assignment does anything.
   */
  lemma AssignmentLandsIff(e: Engine, client: bool, priced: Priced, header: Header, actions: seq<Action>,
                           side: Side, to: User, staff: bool)
    ensures var s := Run(e, Start(client, priced, header), actions);
            var u := Step(e, s, DoAssign(side, to, staff));
            var lands := && client && side == Internal && staff && s.row.assignee != Some(to)
                         && LastVerb(s.trace) != None && LastVerb(s.trace) != Some(Withdraw);
            && (lands ==>
                  && u.row == s.row.(assignee := Some(to), version := u.clock) && u.clock > s.clock
                  && u.trace == s.trace + [Assigned(to)])
            && (!lands ==> u == s)
  {
    RunKeepsTurn(e, client, priced, header, actions);
  }

  // ---- The calls that write ---------------------------------------------------------------------------------

  /** A client saves its inputs or names its project; staff calculate, or switch the model. */
  datatype Call =
    | SaveInputs(patch: Patch)
    | Rename(to: nat)
    | Calculate(patch: Patch, margin: Option<Option<nat>>, name: Option<nat>, customer: Option<Option<nat>>)
    | SwitchModel(model: nat, batches: seq<nat>)

  /** A client's request keeps its customer and its model; a call that writes nothing is none. */
  predicate Offered(row: Row, side: Side, k: Call) {
    match k
    case SaveInputs(p) =>
      side == External && (p.put != map[] || p.unset != [] || p.batches.Some? || p.tables != map[])
    case Rename(_) => side == External
    case Calculate(_, _, _, customer) => side == Internal && (row.client ==> customer == None)
    case SwitchModel(model, _) => side == Internal && !row.client && model != row.priced.model
  }

  function ChangeOf(k: Call): Change {
    var nothing := Patch(map[], [], None, map[]);
    match k
    case SaveInputs(p) => Change(p, None, None, None, None)
    case Rename(name) => Change(nothing, None, Some(name), None, None)
    case Calculate(p, margin, name, customer) => Change(p, margin, name, customer, None)
    case SwitchModel(model, batches) => Change(nothing.(batches := Some(batches)), None, None, None, Some(model))
  }

  /** The edits there are come from exactly these calls. */
  lemma EditsAreCalls(row: Row, side: Side, c: Change)
    ensures MayChange(row, side, c) <==> exists k :: Offered(row, side, k) && c == ChangeOf(k)
  {
    if MayChange(row, side, c) {
      var k := if c.model.Some? then SwitchModel(c.model.value, c.patch.batches.value)
               else if side.Internal? then Calculate(c.patch, c.margin, c.name, c.customer)
               else if c.name.Some? then Rename(c.name.value) else SaveInputs(c.patch);
      assert Offered(row, side, k) && c == ChangeOf(k);
    }
  }

  // ---- Whose edits land ---------------------------------------------------------------------------------------

  /** `after` is `before` with what the call wrote, key by key. */
  ghost predicate AsAsked(before: Priced, c: Change, after: Priced) {
    if c.model.Some? then
      && after.model == c.model.value && after.margin == before.margin
      && after.inputs.entries == map[] && after.inputs.tables == map[]
      && (c.patch.batches.Some? ==> after.inputs.batches == c.patch.batches.value)
    else
      && after.model == before.model
      && after.margin == (if c.margin.Some? then c.margin.value else before.margin)
      && after.inputs.batches == (if c.patch.batches.Some? then c.patch.batches.value else before.inputs.batches)
      && (forall k :: EntryAsAsked(before.inputs, c.patch, after.inputs, k))
      && (forall k :: TableAsAsked(before.inputs, c.patch, after.inputs, k))
  }

  /** A cleared entry is gone, a written one is as written, any other as it was. */
  ghost predicate EntryAsAsked(before: Inputs, p: Patch, after: Inputs, k: string) {
    if k in p.unset then k !in after.entries
    else if k in p.put then k in after.entries && after.entries[k] == p.put[k]
    else (k in after.entries <==> k in before.entries)
         && (k in before.entries ==> k in after.entries && after.entries[k] == before.entries[k])
  }

  ghost predicate TableAsAsked(before: Inputs, p: Patch, after: Inputs, k: string) {
    if k in p.tables then k in after.tables && after.tables[k] == p.tables[k]
    else (k in after.tables <==> k in before.tables)
         && (k in before.tables ==> k in after.tables && after.tables[k] == before.tables[k])
  }

  lemma ChangedAsAsked(before: Priced, c: Change)
    ensures AsAsked(before, c, Changed(before, c))
  {
  }

  /** One whole edit of a side: read, and written at once. */
  function WholeEdit(e: Engine, s: System, side: Side, c: Change): System {
    Step(e, Step(e, s, DoBeginEdit(side, c)), DoFinishEdit(|s.pendings|))
  }

  lemma WriterWrites(s: System, side: Side)
    requires Logged(s)
    ensures var writes := Writer(s.row.client, LastVerb(s.trace)) == Some(side);
            (CanWrite(s.row, side) <==> writes) && (WritableBy(s.row, side) <==> writes)
  {
  }

  lemma WritersEditLands(e: Engine, s: System, side: Side, c: Change)
    requires CanWrite(s.row, side) && WritableBy(s.row, side) && MayChange(s.row, side, c)
    ensures var u := WholeEdit(e, s, side, c);
            u.row.priced == Changed(s.row.priced, c) && u.row.header == HeaderAfter(s.row.header, c)
  {
    var s1 := Step(e, s, DoBeginEdit(side, c));
    assert s1.pendings[|s.pendings|] == Pending(side, c, Keeps(e, s.data, s.row, c), s.row, s.data);
  }

  lemma OthersEditIsLost(e: Engine, s: System, side: Side, c: Change)
    requires !CanWrite(s.row, side)
    ensures WholeEdit(e, s, side, c) == s
  {
  }

  /**
   In every reachable state the last transition alone says whose edits land: that side's whole edit leaves the inputs
   as asked; the other side's changes nothing, and neither does one of its edits that was already under way.
   */
  lemma OnlyTheWritersEditsLand(e: Engine, client: bool, priced: Priced, header: Header, actions: seq<Action>,
                                side: Side, c: Change, i: nat)
    requires MayChange(Run(e, Start(client, priced, header), actions).row, side, c)
    ensures var s := Run(e, Start(client, priced, header), actions); var writer := Writer(client, LastVerb(s.trace));
            && (writer == Some(side) ==>
                  var u := WholeEdit(e, s, side, c);
                  && AsAsked(s.row.priced, c, u.row.priced)
                  && u.row.header.name == (if c.name.Some? then c.name.value else s.row.header.name)
                  && u.row.header.customer == (if c.customer.Some? then c.customer.value else s.row.header.customer))
            && (writer != Some(side) ==> WholeEdit(e, s, side, c) == s)
            && (i < |s.pendings| && writer != Some(s.pendings[i].side) ==> Step(e, s, DoFinishEdit(i)) == s)
  {
    RunKeepsTurn(e, client, priced, header, actions);
    var s := Run(e, Start(client, priced, header), actions);
    WriterWrites(s, side);
    if CanWrite(s.row, side) {
      WritersEditLands(e, s, side, c);
      ChangedAsAsked(s.row.priced, c);
    } else {
      OthersEditIsLost(e, s, side, c);
    }
    if i < |s.pendings| { WriterWrites(s, s.pendings[i].side); }
  }

  // ---- And round again ------------------------------------------------------------------------------------------

  /** The checks of a submit on a calculation that is up to date, and its pin. */
  lemma GateOpens(e: Engine, s: System, client: User)
    requires s.row.client && Open(e, s.data, s.row) && s.row.calculatedAt.Some? && !Stale(s.row, s.data)
    ensures var u := ReadPin(BeginGate(e, s, Resubmit, client), |s.gates|);
            && u.row == s.row && u.trace == s.trace
            && u.gates == s.gates + [Gate(Resubmit, client, s.row, true, None, s.row.calculatedAt)]
  {
    var s1 := BeginGate(e, s, Resubmit, client);
    assert s1.gates == s.gates + [Gate(Resubmit, client, s.row, true, None, None)];
  }

  lemma Resubmitted(s: System, client: User, pin: Option<Stamp>, staff: User)
    requires Logged(s) && s.row.client && LastVerb(s.trace) == Some(SendBack) && s.row.calculatedAt == pin
    ensures var u := Move(s, Resubmit, External, client, pin); var v := Move(u, Accept, Internal, staff, None);
            && LastVerb(u.trace) == Some(Resubmit) && LastVerb(v.trace) == Some(Accept)
            && v.row.priced == s.row.priced && v.row.candidates == s.row.candidates
  {
    LastOfMove(s, Resubmit, client);
    LastOfMove(Move(s, Resubmit, External, client, pin), Accept, staff);
  }

  /** A request that was sent back and is complete and calculated comes again: resubmitted, and accepted. */
  lemma SentBackComesAgain(e: Engine, priced: Priced, header: Header, actions: seq<Action>, client: User, staff: User)
    requires var s := Run(e, Start(true, priced, header), actions);
             && LastVerb(s.trace) == Some(SendBack) && Open(e, s.data, s.row)
             && s.row.calculatedAt.Some? && !Stale(s.row, s.data)
    ensures var s := Run(e, Start(true, priced, header), actions); var m := |s.gates|;
            var u := FinishGate(ReadPin(BeginGate(e, s, Resubmit, client), m), m);
            var v := Move(u, Accept, Internal, staff, None);
            && LastVerb(u.trace) == Some(Resubmit) && LastVerb(v.trace) == Some(Accept)
            && v.row.priced == s.row.priced && v.row.candidates == s.row.candidates
  {
    RunKeepsTurn(e, true, priced, header, actions);
    var s := Run(e, Start(true, priced, header), actions);
    GateOpens(e, s, client);
    Resubmitted(ReadPin(BeginGate(e, s, Resubmit, client), |s.gates|), client, s.row.calculatedAt, staff);
  }
}
