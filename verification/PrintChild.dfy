/**
 The print child's pipe (apps/agent/crystal.go, child loop apps/agent/print/Program.cs). One request line goes
 in, one reply line comes out, and a timeout leaves a child that may still be writing its reply. The mutex lets
 one print at a time through; the child, its death and its late replies interleave with it freely.
 */
module PrintChild {
  import opened Options

  datatype Request = Request(layout: string, docEntry: int, objectId: int)

  /** A line and the number of the print that sent it: two prints may send the same request, and are still two. */
  datatype Line = Line(number: nat, request: Request)

  /** What the child wrote for a line: a PDF, a message, or no JSON at all. */
  datatype Content = Pdf(pdf: string) | Message(message: string) | Garbled
  datatype Reply = Reply(to: Line, content: Content)

  /** A process with its own two pipes. `noticed`: its `done` channel is closed. */
  datatype Child = Child(alive: bool, noticed: bool, stdin: seq<Line>, stdout: seq<Reply>)

  /** How a print ended for its caller: with the child's reply, or an error of the agent's own. */
  datatype Outcome = Answered(child: nat, reply: Reply) | Failed(status: int)
  datatype Print = Print(request: Request, outcome: Outcome)

  /** `current` is `c.cmd`; `waiting` the request of the print that holds the mutex. `prints` is what callers got. */
  datatype State = State(children: seq<Child>, current: Option<nat>, waiting: Option<Request>, prints: seq<Print>)

  // ---- The agent's steps -------------------------------------------------------------------------------------

  function At(s: State): Child
    requires s.current.Some? && s.current.value < |s.children|
  {
    s.children[s.current.value]
  }

  function WithChild(s: State, i: nat, c: Child): State
    requires i < |s.children|
  {
    s.(children := s.children[i := c])
  }

  predicate Running(s: State) {
    s.current.Some? && s.current.value < |s.children| && !s.children[s.current.value].noticed
  }

  /** `start`: keeps the child it has unless that is known to have exited. */
  function Start(s: State): State {
    if Running(s) then s
    else s.(children := s.children + [Child(true, false, [], [])], current := Some(|s.children|))
  }

  /** `stop`: kills the child and waits for it. */
  function Stop(s: State): State {
    if s.current.None? || s.current.value >= |s.children| then s.(current := None)
    else WithChild(s, s.current.value, At(s).(alive := false, noticed := true)).(current := None)
  }

  function Done(s: State, outcome: Outcome): State
    requires s.waiting.Some?
  {
    s.(waiting := None, prints := s.prints + [Print(s.waiting.value, outcome)])
  }

  /** A print up to its write. A failed write stops the child; a child already dead may or may not refuse it. */
  function Begin(s: State, r: Request, spawned: bool, written: bool): State {
    if s.waiting.Some? then s
    else if !Running(s) && !spawned then Done(s.(current := None, waiting := Some(r)), Failed(502))
    else
      var t := Start(s).(waiting := Some(r));
      if !written then Done(Stop(t), Failed(502))
      else WithChild(t, t.current.value, At(t).(stdin := At(t).stdin + [Line(|s.prints|, r)]))
  }

  /** The line arrives; one that is no JSON stops the child. */
  function Receive(s: State): State {
    if s.waiting.None? || s.current.None? || s.current.value >= |s.children| || At(s).stdout == [] then s
    else
      var reply := At(s).stdout[0];
      var t := WithChild(s, s.current.value, At(s).(stdout := At(s).stdout[1..]));
      if reply.content.Garbled? then Done(Stop(t), Failed(502)) else Done(t, Answered(s.current.value, reply))
  }

  /** The pipe closes before a line, because the child died. */
  function PipeCloses(s: State): State {
    if s.waiting.None? || s.current.None? || s.current.value >= |s.children| || At(s).alive then s
    else Done(Stop(s), Failed(502))
  }

  function TimesOut(s: State): State {
    if s.waiting.None? then s else Done(Stop(s), Failed(504))
  }

  // ---- The child's steps, at any time --------------------------------------------------------------------------

  /** The loop of Program.cs: one line read, one written. */
  function Work(s: State, i: nat, content: Content): State {
    if i < |s.children| && s.children[i].alive && s.children[i].stdin != [] then
      var c := s.children[i];
      WithChild(s, i, c.(stdin := c.stdin[1..], stdout := c.stdout + [Reply(c.stdin[0], content)]))
    else s
  }

  function Exit(s: State, i: nat): State {
    if i < |s.children| then WithChild(s, i, s.children[i].(alive := false)) else s
  }

  function Notice(s: State, i: nat): State {
    if i < |s.children| && !s.children[i].alive then WithChild(s, i, s.children[i].(noticed := true)) else s
  }

  datatype Action =
    | DoBegin(request: Request, spawned: bool, written: bool)
    | DoReceive
    | DoPipeCloses
    | DoTimeOut
    | DoWarm(spawned: bool)
    | DoClose
    | DoWork(i: nat, content: Content)
    | DoExit(i: nat)
    | DoNotice(i: nat)

  function Step(s: State, a: Action): State {
    match a
    case DoBegin(r, spawned, written) => Begin(s, r, spawned, written)
    case DoReceive => Receive(s)
    case DoPipeCloses => PipeCloses(s)
    case DoTimeOut => TimesOut(s)
    case DoWarm(spawned) =>
      if s.waiting.Some? then s else if Running(s) || spawned then Start(s) else s.(current := None)
    case DoClose => if s.waiting.None? then Stop(s) else s
    case DoWork(i, content) => Work(s, i, content)
    case DoExit(i) => Exit(s, i)
    case DoNotice(i) => Notice(s, i)
  }

  function Run(s: State, actions: seq<Action>): State {
    if actions == [] then s else Step(Run(s, actions[..|actions| - 1]), actions[|actions| - 1])
  }

  const INITIAL := State([], None, None, [])

  // ---- The invariant ---------------------------------------------------------------------------------------------

  /** The one line of the print under way is in one of the pipes, or answered in the other; nothing else is. */
  ghost predicate Pipes(c: Child, waiting: Option<Request>, number: nat) {
    match waiting
    case None => c.stdin == [] && c.stdout == []
    case Some(r) =>
      || (c.stdin == [Line(number, r)] && c.stdout == [])
      || (c.stdin == [] && |c.stdout| == 1 && c.stdout[0].to == Line(number, r))
  }

  /** An answer is what a child wrote for this very print. */
  ghost predicate Paired(p: Print, number: nat) {
    p.outcome.Answered? ==> p.outcome.reply.to == Line(number, p.request) && !p.outcome.reply.content.Garbled?
  }

  ghost predicate Inv(s: State) {
    && (s.current.Some? ==> s.current.value < |s.children| && Pipes(At(s), s.waiting, |s.prints|))
    && (s.waiting.Some? ==> s.current.Some?)
    && (forall i :: 0 <= i < |s.children| && s.children[i].alive ==> s.current == Some(i))
    && (forall i :: 0 <= i < |s.children| && s.children[i].noticed ==> !s.children[i].alive)
    && (forall k :: 0 <= k < |s.prints| ==> Paired(s.prints[k], k))
  }

  lemma BeginKeepsInv(s: State, r: Request, spawned: bool, written: bool)
    requires Inv(s)
    ensures Inv(Begin(s, r, spawned, written))
  {
  }

  lemma ReceiveKeepsInv(s: State)
    requires Inv(s)
    ensures Inv(Receive(s))
  {
  }

  lemma StepKeepsInv(s: State, a: Action)
    requires Inv(s)
    ensures Inv(Step(s, a))
  {
    match a
    case DoBegin(r, spawned, written) => BeginKeepsInv(s, r, spawned, written);
    case DoReceive => ReceiveKeepsInv(s);
    case _ =>
  }

  lemma {:induction false} RunKeepsInv(s: State, actions: seq<Action>)
    requires Inv(s)
    ensures Inv(Run(s, actions))
  {
    if actions != [] {
      RunKeepsInv(s, actions[..|actions| - 1]);
      StepKeepsInv(Run(s, actions[..|actions| - 1]), actions[|actions| - 1]);
    }
  }

  // ---- Replies stay paired -----------------------------------------------------------------------------------------

  /**
   Across any run of prints, timeouts, deaths and restarts: each answer was written for that very print, the
   pipes of the child at hand are empty between two prints, and no other child is alive.
   */
  lemma AnswersAreOwn(actions: seq<Action>)
    ensures var s := Run(INITIAL, actions);
            && (forall k :: 0 <= k < |s.prints| ==> Paired(s.prints[k], k))
            && (s.waiting.None? && s.current.Some? ==>
                s.current.value < |s.children| && At(s).stdin == [] && At(s).stdout == [])
            && (forall i :: 0 <= i < |s.children| && s.children[i].alive ==> s.current == Some(i))
  {
    RunKeepsInv(INITIAL, actions);
  }

  /** What the caller of a print gets. An empty message is read as no error at all. */
  datatype Result = Printed(pdf: string) | SapError(status: int, message: string)

  function ResultOf(o: Outcome): Result {
    match o
    case Failed(status) => SapError(status, "")
    case Answered(_, reply) =>
      match reply.content
      case Pdf(pdf) => Printed(pdf)
      case Message(m) => if m != "" then SapError(400, m) else Printed("")
      case Garbled => SapError(502, "")
  }

  /** A print answers a PDF exactly when the child wrote one for it, or wrote an error without a message. */
  lemma PrintedIff(actions: seq<Action>, k: nat, pdf: string)
    requires k < |Run(INITIAL, actions).prints|
    ensures var p := Run(INITIAL, actions).prints[k];
            ResultOf(p.outcome) == Printed(pdf) <==>
              && p.outcome.Answered? && p.outcome.reply.to == Line(k, p.request)
              && (p.outcome.reply.content == Pdf(pdf) || (p.outcome.reply.content == Message("") && pdf == ""))
  {
    RunKeepsInv(INITIAL, actions);
  }

  /** A print answers an error with words exactly when the child wrote those words for it. */
  lemma RefusedIff(actions: seq<Action>, k: nat, status: int, message: string)
    requires k < |Run(INITIAL, actions).prints| && message != ""
    ensures var p := Run(INITIAL, actions).prints[k];
            ResultOf(p.outcome) == SapError(status, message) <==>
              && status == 400 && p.outcome.Answered?
              && p.outcome.reply == Reply(Line(k, p.request), Message(message))
  {
    RunKeepsInv(INITIAL, actions);
  }

  /** The last print of `u` is the one after those of `s`, and it failed with an error of the agent's own. */
  predicate JustFailed(s: State, u: State, status: int) {
    && |u.prints| == |s.prints| + 1 && u.prints[..|s.prints|] == s.prints
    && ResultOf(u.prints[|s.prints|].outcome) == SapError(status, "")
  }

  /** There is no child to write to: none was started yet, or the last one is known to be gone. */
  predicate NoChild(s: State) {
    s.current.None? || s.current.value >= |s.children| || s.children[s.current.value].noticed
  }

  /** What makes a print fail without words: the clock (504), or a child that is missing, gone or writes no JSON. */
  predicate Breaks(s: State, a: Action, status: int) {
    match a
    case DoTimeOut => s.waiting.Some? && status == 504
    case DoBegin(_, spawned, written) => s.waiting.None? && !(written && (spawned || !NoChild(s))) && status == 502
    case DoPipeCloses => s.waiting.Some? && !NoChildAt(s) && !At(s).alive && status == 502
    case DoReceive =>
      && s.waiting.Some? && !NoChildAt(s) && At(s).stdout != [] && At(s).stdout[0].content.Garbled?
      && status == 502
    case _ => false
  }

  predicate NoChildAt(s: State) {
    s.current.None? || s.current.value >= |s.children|
  }

  lemma FailsAt(s: State, a: Action, status: int)
    requires Inv(s)
    ensures JustFailed(s, Step(s, a), status) <==> Breaks(s, a, status)
  {
  }

  lemma FailureStops(s: State, a: Action, status: int)
    requires Inv(s) && Breaks(s, a, status)
    ensures Step(s, a).waiting.None? && Step(s, a).current.None?
  {
  }

  lemma StartsAlone(s: State, next: Request)
    requires s.waiting.None? && s.current.None?
    ensures Begin(s, next, true, true) ==
              s.(children := s.children + [Child(true, false, [Line(|s.prints|, next)], [])],
                 current := Some(|s.children|), waiting := Some(next))
  {
    var child := Child(true, false, [], []);
    assert child.stdin + [Line(|s.prints|, next)] == [Line(|s.prints|, next)];
    var t := s.(children := s.children + [child], current := Some(|s.children|), waiting := Some(next));
    assert Start(s).(waiting := Some(next)) == t && At(t) == child;
    assert t.children[|s.children| := child.(stdin := [Line(|s.prints|, next)])]
        == s.children + [child.(stdin := [Line(|s.prints|, next)])];
  }

  /**
   A print fails without words exactly when one of these happens, with this status; no child is alive then, and the
   next print that can start one has it to itself.
   */
  lemma FailsIff(actions: seq<Action>, a: Action, status: int, next: Request)
    ensures var s := Run(INITIAL, actions); var u := Step(s, a);
            JustFailed(s, u, status) <==> Breaks(s, a, status)
    ensures var s := Run(INITIAL, actions); var u := Step(s, a);
            JustFailed(s, u, status) ==>
              && (forall i :: 0 <= i < |u.children| ==> !u.children[i].alive)
              && Begin(u, next, true, true) ==
                   u.(children := u.children + [Child(true, false, [Line(|u.prints|, next)], [])],
                      current := Some(|u.children|), waiting := Some(next))
  {
    var s := Run(INITIAL, actions);
    RunKeepsInv(INITIAL, actions);
    StepKeepsInv(s, a);
    FailsAt(s, a, status);
    if JustFailed(s, Step(s, a), status) {
      FailureStops(s, a, status);
      StartsAlone(Step(s, a), next);
    }
  }

  /** The exception at work: a child that reports a failure without words has printed, as far as the caller can tell. */
  lemma WordlessFailurePrints(r: Request)
    ensures var s := Run(INITIAL, [DoBegin(r, true, true), DoWork(0, Message("")), DoReceive]);
            && s.prints == [Print(r, Answered(0, Reply(Line(0, r), Message(""))))]
            && ResultOf(s.prints[0].outcome) == Printed("")
  {
    var a, b, c := DoBegin(r, true, true), DoWork(0, Message("")), DoReceive;
    assert [a, b, c][..2] == [a, b] && [a, b][..1] == [a] && [a][..0] == [];
    var s1 := Step(INITIAL, a);
    assert Run(INITIAL, []) == INITIAL && Run(INITIAL, [a]) == s1;
    assert s1.children[0] == Child(true, false, [Line(0, r)], []);
    var s2 := Step(s1, b);
    assert Run(INITIAL, [a, b]) == s2;
    assert s2.children[0] == Child(true, false, [], [Reply(Line(0, r), Message(""))]);
  }

  /** The child at hand died and the agent has not noticed yet. */
  predicate DeadUnnoticed(s: State) {
    s.current.Some? && s.current.value < |s.children| && !At(s).alive && !At(s).noticed
  }

  function PrintAndWork(s: State, r: Request, content: Content): State {
    var begun := Begin(s, r, true, true);
    Receive(Work(begun, if begun.current.Some? then begun.current.value else 0, content))
  }

  /**
   The next print is answered by a working child if and only if the agent does not hold a dead one unnoticed; if it
   does, the one after is.
   */
  lemma NextPrintAnsweredIff(actions: seq<Action>, r: Request, content: Content)
    requires Run(INITIAL, actions).waiting.None? && !content.Garbled?
    ensures var s := Run(INITIAL, actions); var u := PrintAndWork(s, r, content);
            (|u.prints| == |s.prints| + 1 && u.prints[|s.prints|].outcome.Answered?
               && u.prints[|s.prints|].outcome.reply == Reply(Line(|s.prints|, r), content))
            <==> !DeadUnnoticed(s)
    ensures var s := Run(INITIAL, actions);
            DeadUnnoticed(s) ==> var v := PipeCloses(Begin(s, r, true, true)); v.waiting.None? && !DeadUnnoticed(v)
  {
    RunKeepsInv(INITIAL, actions);
  }

  /**
   Between prints a warm-up starts a child if none is held, so that the next print starts none; closing leaves no
   child alive. A warm-up that cannot start one leaves the next print to try.
   */
  lemma WarmedPrintStartsNone(actions: seq<Action>, r: Request, spawned: bool, written: bool)
    requires Run(INITIAL, actions).waiting.None?
    ensures var s := Run(INITIAL, actions); var warm := Step(s, DoWarm(true));
            && warm.prints == s.prints
            && (NoChild(s) ==> |warm.children| == |s.children| + 1)
            && |Begin(warm, r, spawned, written).children| == |warm.children|
    ensures var s := Run(INITIAL, actions);
            Step(s, DoWarm(false)) == if NoChild(s) then s.(current := None) else s
    ensures var u := Step(Run(INITIAL, actions), DoClose);
            forall i :: 0 <= i < |u.children| ==> !u.children[i].alive
  {
    RunKeepsInv(INITIAL, actions);
    StepKeepsInv(Run(INITIAL, actions), DoClose);
  }

  /** Any child may die at any time, and its death be noticed any time later. */
  lemma ChildrenDieFreely(s: State, i: nat)
    requires i < |s.children|
    ensures Step(s, DoExit(i)).children == s.children[i := s.children[i].(alive := false)]
    ensures !s.children[i].alive ==>
              Step(s, DoNotice(i)).children == s.children[i := s.children[i].(noticed := true)]
  {
  }

  // ---- One print, as the agent runs it --------------------------------------------------------------------

  /** Only the child moves while a print waits for its line. */
  predicate ChildOnly(actions: seq<Action>) {
    forall i :: 0 <= i < |actions| ==> actions[i].DoWork? || actions[i].DoExit? || actions[i].DoNotice?
  }

  /**
   What the world does to a print: whether a child can be started and written to, what the children do, and which
   wait ends first.
   */
  datatype Ending = Arrives | Closes | Late
  datatype World = World(spawned: bool, written: bool, meanwhile: seq<Action>, ending: Ending)

  /** How the wait ends, if that can happen: a line that is there, a pipe whose child is dead, or the clock. */
  function End(s: State, e: Ending): State
    requires s.waiting.Some? && s.current.Some? && s.current.value < |s.children|
  {
    if e.Arrives? && At(s).stdout != [] then Receive(s)
    else if e.Closes? && !At(s).alive then PipeCloses(s)
    else TimesOut(s)
  }

  lemma {:induction false} ChildrenKeepPrint(s: State, actions: seq<Action>)
    requires ChildOnly(actions)
    ensures var u := Run(s, actions);
            u.current == s.current && u.waiting == s.waiting && u.prints == s.prints && |u.children| == |s.children|
  {
    if actions != [] { ChildrenKeepPrint(s, actions[..|actions| - 1]); }
  }

  /** A whole print, as steps of the machine. */
  function WholePrint(s: State, r: Request, w: World): State
    requires Inv(s) && s.waiting.None? && ChildOnly(w.meanwhile)
  {
    var begun := Begin(s, r, w.spawned, w.written);
    StepKeepsInv(s, DoBegin(r, w.spawned, w.written));
    ChildrenKeepPrint(begun, w.meanwhile);
    if begun.waiting.None? then begun else End(Run(begun, w.meanwhile), w.ending)
  }

  class CrystalChild {
    var children: seq<Child>
    var current: Option<nat>
    var waiting: Option<Request>
    var prints: seq<Print>

    constructor ()
      ensures Now() == INITIAL
    {
      children, current, waiting, prints := [], None, None, [];
    }

    function Now(): State
      reads this
    {
      State(children, current, waiting, prints)
    }

    /** `start`. */
    method StartChild(spawned: bool) returns (ok: bool)
      requires current.Some? ==> current.value < |children|
      modifies this`children, this`current
      ensures ok == (Running(old(Now())) || spawned)
      ensures Now() == if ok then Start(old(Now())) else old(Now()).(current := None)
    {
      if current.Some? {
        if !children[current.value].noticed { return true; }
        current := None;
      }
      if !spawned { return false; }
      current := Some(|children|);
      children := children + [Child(true, false, [], [])];
      return true;
    }

    /** `stop`. */
    method StopChild()
      requires current.Some? ==> current.value < |children|
      modifies this`children, this`current
      ensures Now() == Stop(old(Now()))
    {
      if current.None? { return; }
      children := children[current.value := children[current.value].(alive := false, noticed := true)];
      current := None;
    }

    /** Whatever the children do while a print waits. */
    method Meanwhile(actions: seq<Action>)
      requires ChildOnly(actions)
      modifies this`children
      ensures Now() == Run(old(Now()), actions)
    {
      ghost var start := Now();
      var n := 0;
      while n < |actions|
        invariant n <= |actions| && Now() == Run(start, actions[..n])
      {
        assert actions[..n + 1][..n] == actions[..n];
        ChildrenKeepPrint(start, actions[..n + 1]);
        children := Step(Now(), actions[n]).children;
        n := n + 1;
      }
      assert actions[..|actions|] == actions;
    }

    /** The wait for the line. */
    method Await(ending: Ending) returns (o: Outcome)
      requires Inv(Now()) && waiting.Some?
      modifies this`children, this`current
      ensures Now().(waiting := None, prints := prints + [Print(waiting.value, o)]) == End(old(Now()), ending)
    {
      var i := current.value;
      if ending.Arrives? && children[i].stdout != [] {
        var reply := children[i].stdout[0];
        children := children[i := children[i].(stdout := children[i].stdout[1..])];
        if reply.content.Garbled? { StopChild(); return Failed(502); }
        return Answered(i, reply);
      }
      var dead := ending.Closes? && !children[i].alive;
      StopChild();
      return Failed(if dead then 502 else 504);
    }

    /**
     `Render`, with the mutex held. Whatever the world does, its answer is the child's reply to this very print
     or an error, and it leaves empty pipes for the next.
     */
    method Render(r: Request, w: World) returns (o: Outcome)
      requires Inv(Now()) && waiting.None? && ChildOnly(w.meanwhile)
      modifies this
      ensures Now() == WholePrint(old(Now()), r, w)
      ensures Inv(Now()) && waiting.None? && prints == old(prints) + [Print(r, o)]
      ensures o.Answered? ==> o.reply.to == Line(|old(prints)|, r)
      ensures current.Some? ==> current.value < |children| && At(Now()).stdin == [] && At(Now()).stdout == []
    {
      ghost var start := Now();
      StepKeepsInv(start, DoBegin(r, w.spawned, w.written));
      waiting := Some(r);
      var ok := StartChild(w.spawned);
      if !ok {
        o := Failed(502);
      } else if !w.written {
        StopChild();
        o := Failed(502);
      } else {
        var i := current.value;
        children := children[i := children[i].(stdin := children[i].stdin + [Line(|prints|, r)])];
        ghost var begun := Now();
        assert begun == Begin(start, r, w.spawned, w.written);
        Meanwhile(w.meanwhile);
        RunKeepsInv(begun, w.meanwhile);
        ChildrenKeepPrint(begun, w.meanwhile);
        EndKeepsInv(Now(), w.ending);
        o := Await(w.ending);
      }
      waiting, prints := None, prints + [Print(r, o)];
      assert Paired(prints[|start.prints|], |start.prints|);
    }
  }

  lemma EndKeepsInv(s: State, e: Ending)
    requires Inv(s) && s.waiting.Some?
    ensures Inv(End(s, e)) && End(s, e).waiting.None?
  {
    StepKeepsInv(s, DoReceive);
    StepKeepsInv(s, DoPipeCloses);
    StepKeepsInv(s, DoTimeOut);
  }

  lemma RunOn(s: State, a: Action, more: seq<Action>, b: Action)
    ensures Run(s, [a] + more + [b]) == Step(Run(Step(s, a), more), b)
  {
    assert ([a] + more + [b])[..|more| + 1] == [a] + more;
    RunFirst(s, a, more);
  }

  lemma {:induction false} RunFirst(s: State, a: Action, more: seq<Action>)
    ensures Run(s, [a] + more) == Run(Step(s, a), more)
  {
    if more == [] {
      assert [a] + more == [a] && [a][..0] == [];
    } else {
      assert ([a] + more)[..|more|] == [a] + more[..|more| - 1];
      RunFirst(s, a, more[..|more| - 1]);
    }
  }

  /** A whole print is a run of the machine, so all that holds over runs holds over prints made this way. */
  lemma WholePrintIsARun(s: State, r: Request, w: World) returns (actions: seq<Action>)
    requires Inv(s) && s.waiting.None? && ChildOnly(w.meanwhile)
    ensures WholePrint(s, r, w) == Run(s, actions)
  {
    var begin := DoBegin(r, w.spawned, w.written);
    var begun := Step(s, begin);
    StepKeepsInv(s, begin);
    ChildrenKeepPrint(begun, w.meanwhile);
    if begun.waiting.None? {
      actions := [begin];
      assert [begin][..0] == [];
    } else {
      var u := Run(begun, w.meanwhile);
      var last := if w.ending.Arrives? && At(u).stdout != [] then DoReceive
                  else if w.ending.Closes? && !At(u).alive then DoPipeCloses else DoTimeOut;
      actions := [begin] + w.meanwhile + [last];
      RunOn(s, begin, w.meanwhile, last);
    }
  }
}
