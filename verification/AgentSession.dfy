/**
 The agent's SAP session (apps/agent/session.go): any number of callers share one login.

 `Shared` is what the mutex protects. The four critical sections are functions on it, the class
 `Session` runs them in place, and `Step` interleaves them between any number of `Do` callers,
 login goroutines and a `Logout`. The theorems at the end hold for every list of actions.
 */
module AgentSession {
  import opened Options

  // A login call, by its number. The client it builds is named after it: a new jar is a new session.
  type CallId = nat

  // ---- The critical sections ------------------------------------------------------------------

  datatype Shared = Shared(
    client: Option<CallId>, gen: nat, ready: bool, inflight: Option<CallId>, lastErr: Option<string>)

  const Cold := Shared(None, 0, false, None, None)

  datatype Entry = Have(client: Option<CallId>, gen: nat) | Join(call: CallId, started: bool)

  /** `ensure` up to its first unlock. `next` is the call to start when there is none. */
  function Enter(s: Shared, next: CallId): (Shared, Entry) {
    if s.ready then (s, Have(s.client, s.gen))
    else if s.inflight.Some? then (s, Join(s.inflight.value, false))
    else (s.(inflight := Some(next)), Join(next, true))
  }

  /** The locked half of `runLogin`. */
  function Finish(s: Shared, call: CallId, err: Option<string>): Shared {
    var done := s.(inflight := None, lastErr := err);
    if err.None? then done.(client := Some(call), ready := true, gen := s.gen + 1) else done
  }

  /** `expire`: drop the session a 401 answered, unless a newer one replaced it. */
  function Expire(s: Shared, gen: nat): Shared {
    if s.gen == gen then s.(ready := false) else s
  }

  /** The locked half of `Logout`. */
  function Forget(s: Shared): Shared {
    s.(ready := false)
  }

  /** The session object: each method is one critical section. */
  class Session {
    var client: Option<CallId>
    var gen: nat
    var ready: bool
    var inflight: Option<CallId>
    var lastErr: Option<string>

    ghost function State(): Shared
      reads this
    {
      Shared(client, gen, ready, inflight, lastErr)
    }

    constructor ()
      ensures State() == Cold
    {
      client, gen, ready, inflight, lastErr := None, 0, false, None, None;
    }

    method EnsureEnter(next: CallId) returns (e: Entry)
      modifies this
      ensures (State(), e) == Enter(old(State()), next)
    {
      if ready {
        return Have(client, gen);
      }
      if inflight.Some? {
        return Join(inflight.value, false);
      }
      inflight := Some(next);
      return Join(next, true);
    }

    /** The second lock of `ensure`: the pair as it is now. */
    method Current() returns (c: Option<CallId>, g: nat)
      ensures c == State().client && g == State().gen
    {
      return client, gen;
    }

    method FinishLogin(call: CallId, err: Option<string>)
      modifies this
      ensures State() == Finish(old(State()), call, err)
    {
      if err.None? {
        client, ready := Some(call), true;
        gen := gen + 1;
      }
      inflight, lastErr := None, err;
    }

    method ExpireGeneration(g: nat)
      modifies this
      ensures State() == Expire(old(State()), g)
    {
      if gen == g {
        ready := false;
      }
    }

    method TakeForLogout() returns (c: Option<CallId>, wasReady: bool)
      modifies this
      ensures State() == Forget(old(State()))
      ensures c == old(client) && wasReady == old(ready)
    {
      c, wasReady := client, ready;
      ready := false;
    }
  }

  // ---- The transition system ------------------------------------------------------------------

  /** A login goroutine: at SAP, then its result stored under the lock, then its channel closed. */
  datatype Call = Running | Stored(err: Option<string>) | Closed(err: Option<string>)

  /** Where a `Do` caller stands. `Refused` is a 401 read but `expire` not yet run. */
  datatype Pc =
    | Entering
    | Waiting(call: CallId)
    | Woken
    | Sending(client: Option<CallId>, gen: nat)
    | Refused(gen: nat)
    | Returned
    | Failed

  /** One caller; `sent` holds the generation of each request it put on the wire. */
  datatype Caller = Caller(pc: Pc, attempt: nat, sent: seq<nat>)

  datatype Event =
    | LoginStarted(gen: nat)
    | LoggedIn(client: CallId)
    | RefusedBySap(gen: nat)
    | LoggedOut(gen: nat)

  datatype System = System(basic: bool, shared: Shared, calls: seq<Call>, callers: seq<Caller>, history: seq<Event>)

  function Start(basic: bool): System {
    System(basic, Cold, [], [], [])
  }

  /** Unauthorized: a 401 or a 403, which `Do` takes alike. Other: any other answer. */
  datatype Answer = Unauthorized | Other | NoAnswer

  datatype Action =
    | NewCaller
    | EnterEnsure(t: nat)
    | LoginReturns(call: CallId, err: Option<string>)
    | CloseChannel(call: CallId)
    | Wake(t: nat)
    | ReadPair(t: nat)
    | Answered(t: nat, answer: Answer)
    | RunExpire(t: nat)
    | RunLogout

  predicate At(s: System, t: nat) {
    t < |s.callers|
  }

  function Put(s: System, t: nat, c: Caller): System
    requires At(s, t)
  {
    s.(callers := s.callers[t := c])
  }

  function StepEnter(s: System, t: nat): System
    requires At(s, t)
  {
    var c := s.callers[t];
    var (shared, entry) := Enter(s.shared, |s.calls|);
    match entry
    case Have(client, gen) => Put(s, t, c.(pc := Sending(client, gen), sent := c.sent + [gen]))
    case Join(call, started) =>
      var joined := Put(s, t, c.(pc := Waiting(call)));
      if started then
        joined.(shared := shared, calls := s.calls + [Running], history := s.history + [LoginStarted(s.shared.gen)])
      else joined
  }

  function StepLogin(s: System, call: CallId, err: Option<string>): System
    requires call < |s.calls|
  {
    s.(shared := Finish(s.shared, call, err),
       calls := s.calls[call := Stored(err)],
       history := if err.None? then s.history + [LoggedIn(call)] else s.history)
  }

  predicate Wakeable(s: System, t: nat) {
    At(s, t) && s.callers[t].pc.Waiting? && s.callers[t].pc.call < |s.calls| && s.calls[s.callers[t].pc.call].Closed?
  }

  function StepWake(s: System, t: nat, err: Option<string>): System
    requires At(s, t)
  {
    Put(s, t, s.callers[t].(pc := if err.Some? then Failed else Woken))
  }

  function StepRead(s: System, t: nat): System
    requires At(s, t)
  {
    var c := s.callers[t];
    Put(s, t, c.(pc := Sending(s.shared.client, s.shared.gen), sent := c.sent + [s.shared.gen]))
  }

  function StepAnswered(s: System, t: nat, gen: nat, answer: Answer): System
    requires At(s, t)
  {
    var c := s.callers[t];
    match answer
    case NoAnswer => Put(s, t, c.(pc := Failed))
    case Other => Put(s, t, c.(pc := Returned))
    case Unauthorized =>
      if c.attempt == 0 && !s.basic then
        Put(s, t, c.(pc := Refused(gen))).(history := s.history + [RefusedBySap(gen)])
      else Put(s, t, c.(pc := Returned))
  }

  function StepExpire(s: System, t: nat, gen: nat): System
    requires At(s, t)
  {
    var c := s.callers[t];
    Put(s, t, c.(pc := Entering, attempt := c.attempt + 1)).(shared := Expire(s.shared, gen))
  }

  function StepLogout(s: System): System {
    s.(shared := Forget(s.shared),
       history := if s.shared.ready then s.history + [LoggedOut(s.shared.gen)] else s.history)
  }

  /** One atomic step; an action whose actor is not there leaves the system as it is. */
  function Step(s: System, a: Action): System {
    match a
    case NewCaller => s.(callers := s.callers + [Caller(Entering, 0, [])])
    case EnterEnsure(t) => if At(s, t) && s.callers[t].pc.Entering? then StepEnter(s, t) else s
    case LoginReturns(call, err) => if call < |s.calls| && s.calls[call].Running? then StepLogin(s, call, err) else s
    case CloseChannel(call) =>
      if call < |s.calls| && s.calls[call].Stored? then s.(calls := s.calls[call := Closed(s.calls[call].err)]) else s
    case Wake(t) =>
      if Wakeable(s, t) then StepWake(s, t, s.calls[s.callers[t].pc.call].err) else s
    case ReadPair(t) => if At(s, t) && s.callers[t].pc.Woken? then StepRead(s, t) else s
    case Answered(t, answer) =>
      if At(s, t) && s.callers[t].pc.Sending? then StepAnswered(s, t, s.callers[t].pc.gen, answer) else s
    case RunExpire(t) => if At(s, t) && s.callers[t].pc.Refused? then StepExpire(s, t, s.callers[t].pc.gen) else s
    case RunLogout => StepLogout(s)
  }

  /** A run: the actions in order from a cold session. */
  function Run(basic: bool, actions: seq<Action>): System {
    if actions == [] then Start(basic) else Step(Run(basic, actions[..|actions| - 1]), actions[|actions| - 1])
  }

  // ---- What the history says ------------------------------------------------------------------

  /** The clients of the successful logins, in order: generation g is entry g - 1. */
  function Logins(history: seq<Event>): seq<CallId> {
    if history == [] then []
    else
      var rest := Logins(history[..|history| - 1]);
      var last := history[|history| - 1];
      if last.LoggedIn? then rest + [last.client] else rest
  }

  lemma LoginsOfOneMore(history: seq<Event>, e: Event)
    ensures Logins(history + [e]) == if e.LoggedIn? then Logins(history) + [e.client] else Logins(history)
  {
    assert (history + [e])[..|history|] == history;
  }

  /** Some caller was refused on generation `gen`, or it was logged out. */
  ghost predicate Dropped(history: seq<Event>, gen: nat) {
    RefusedBySap(gen) in history || LoggedOut(gen) in history
  }

  // ---- The invariant --------------------------------------------------------------------------

  /** The login half: who runs, what `ready` and `gen` mean, and why each login began. */
  ghost predicate LoginInv(s: System) {
    && (forall c: nat | c < |s.calls| :: s.calls[c].Running? <==> s.shared.inflight == Some(c))
    && (s.shared.inflight.Some? ==> s.shared.inflight.value < |s.calls|)
    && (s.shared.ready ==> s.shared.inflight.None? && s.shared.gen > 0)
    && s.shared.gen == |Logins(s.history)|
    && s.shared.client == (if s.shared.gen == 0 then None else Some(Logins(s.history)[s.shared.gen - 1]))
    && (!s.shared.ready && s.shared.gen > 0 ==> Dropped(s.history, s.shared.gen))
    && (forall i: nat | i < |s.history| && s.history[i].LoginStarted? && s.history[i].gen > 0 ::
          Dropped(s.history[..i], s.history[i].gen))
  }

  ghost predicate PairIsOwn(s: System, client: Option<CallId>, gen: nat) {
    1 <= gen <= |Logins(s.history)| && client == Some(Logins(s.history)[gen - 1])
  }

  /** Generation `refused` cannot be handed out again. */
  ghost predicate Behind(s: System, refused: nat) {
    refused < s.shared.gen || (refused == s.shared.gen && !s.shared.ready)
  }

  ghost predicate CallerInv(s: System, c: Caller) {
    && c.attempt <= 1
    && (c.attempt == 1 && (c.pc.Entering? || c.pc.Waiting? || c.pc.Woken?) ==>
          |c.sent| == 1 && 1 <= c.sent[0] <= s.shared.gen)
    && match c.pc
       case Entering => (c.attempt == 0 ==> c.sent == []) && (c.attempt == 1 ==> Behind(s, c.sent[0]))
       case Waiting(call) =>
         && call < |s.calls|
         && (c.attempt == 0 ==> c.sent == [])
         && (!s.calls[call].Running? && s.calls[call].err.None? ==>
               s.shared.gen > 0 && (c.attempt == 1 ==> c.sent[0] < s.shared.gen))
       case Woken =>
         s.shared.gen > 0 && (c.attempt == 0 ==> c.sent == []) && (c.attempt == 1 ==> c.sent[0] < s.shared.gen)
       case Sending(client, gen) =>
         && PairIsOwn(s, client, gen)
         && gen <= s.shared.gen
         && (c.attempt == 0 ==> c.sent == [gen])
         && (c.attempt == 1 ==> |c.sent| == 2 && c.sent[0] < c.sent[1] == gen)
       case Refused(gen) =>
         1 <= gen <= s.shared.gen && c.attempt == 0 && c.sent == [gen] && RefusedBySap(gen) in s.history
       case Returned => AtMostOneRetry(c)
       case Failed => AtMostOneRetry(c)
  }

  ghost predicate AtMostOneRetry(c: Caller) {
    |c.sent| <= 2 && (|c.sent| == 2 ==> c.sent[0] < c.sent[1])
  }

  ghost predicate Inv(s: System) {
    LoginInv(s) && forall t: nat | t < |s.callers| :: CallerInv(s, s.callers[t])
  }

  /** What a caller relies on only grows. */
  ghost predicate Grows(s: System, s': System) {
    && s.shared.gen <= s'.shared.gen
    && (s.shared.gen == s'.shared.gen && s'.shared.ready ==> s.shared.ready)
    && Logins(s.history) <= Logins(s'.history)
    && s.history <= s'.history
    && |s.calls| <= |s'.calls|
    && (forall c: nat | c < |s.calls| && !s.calls[c].Running? ::
        !s'.calls[c].Running? && s'.calls[c].err == s.calls[c].err)
    && (forall c: nat | c < |s.calls| && s.calls[c].Running? && !s'.calls[c].Running? && s'.calls[c].err.None? ::
          s.shared.gen < s'.shared.gen)
  }

  /** A caller's invariant survives every step it is not part of. */
  lemma CallerSurvives(s: System, s': System, c: Caller)
    requires CallerInv(s, c) && Grows(s, s')
    ensures CallerInv(s', c)
  {
    if c.pc.Sending? {
      assert Logins(s'.history)[c.pc.gen - 1] == Logins(s.history)[c.pc.gen - 1];
    }
  }

  lemma HistoryGrows(s: System, e: Event)
    requires LoginInv(s)
    requires e.LoginStarted? && e.gen > 0 ==> Dropped(s.history, e.gen)
    ensures forall i: nat | i < |s.history + [e]|
                            && (s.history + [e])[i].LoginStarted? && (s.history + [e])[i].gen > 0 ::
              Dropped((s.history + [e])[..i], (s.history + [e])[i].gen)
  {
    var h := s.history + [e];
    forall i: nat | i < |h| && h[i].LoginStarted? && h[i].gen > 0
      ensures Dropped(h[..i], h[i].gen)
    {
      if i < |s.history| {
        assert h[..i] == s.history[..i];
      } else {
        assert h[..i] == s.history;
      }
    }
  }

  /** If one caller moved, the login half holds and what callers rely on grew, the whole invariant holds. */
  lemma OneMoved(s: System, s': System, t: nat)
    requires Inv(s) && At(s, t) && LoginInv(s') && Grows(s, s')
    requires |s'.callers| == |s.callers| && s'.callers == s.callers[t := s'.callers[t]]
    requires CallerInv(s', s'.callers[t])
    ensures Inv(s')
  {
    forall u: nat | u < |s'.callers|
      ensures CallerInv(s', s'.callers[u])
    {
      if u != t {
        CallerSurvives(s, s', s.callers[u]);
      }
    }
  }

  /** The same when no caller moved. */
  lemma NoneMoved(s: System, s': System)
    requires Inv(s) && LoginInv(s') && Grows(s, s') && s'.callers == s.callers
    ensures Inv(s')
  {
    forall u: nat | u < |s'.callers|
      ensures CallerInv(s', s'.callers[u])
    {
      CallerSurvives(s, s', s.callers[u]);
    }
  }

  lemma EnterReadyKeeps(s: System, t: nat)
    requires Inv(s) && At(s, t) && s.callers[t].pc.Entering? && s.shared.ready
    ensures Inv(StepEnter(s, t))
  {
    assert CallerInv(s, s.callers[t]);
    OneMoved(s, StepEnter(s, t), t);
  }

  lemma EnterJoinKeeps(s: System, t: nat)
    requires Inv(s) && At(s, t) && s.callers[t].pc.Entering? && !s.shared.ready && s.shared.inflight.Some?
    ensures Inv(StepEnter(s, t))
  {
    assert CallerInv(s, s.callers[t]);
    OneMoved(s, StepEnter(s, t), t);
  }

  /** The first to find nobody logged in starts the login. */
  lemma EnterStartKeeps(s: System, t: nat)
    requires Inv(s) && At(s, t) && s.callers[t].pc.Entering? && !s.shared.ready && s.shared.inflight.None?
    ensures Inv(StepEnter(s, t))
  {
    assert CallerInv(s, s.callers[t]);
    var s' := StepEnter(s, t);
    LoginsOfOneMore(s.history, LoginStarted(s.shared.gen));
    HistoryGrows(s, LoginStarted(s.shared.gen));
    assert LoginInv(s');
    assert Grows(s, s');
    OneMoved(s, s', t);
  }

  lemma LoginReturnKeeps(s: System, call: CallId, err: Option<string>)
    requires Inv(s) && call < |s.calls| && s.calls[call].Running?
    ensures Inv(StepLogin(s, call, err))
  {
    LoginsOfOneMore(s.history, LoggedIn(call));
    HistoryGrows(s, LoggedIn(call));
    NoneMoved(s, StepLogin(s, call, err));
  }

  lemma CloseKeeps(s: System, call: CallId)
    requires Inv(s) && call < |s.calls| && s.calls[call].Stored?
    ensures Inv(s.(calls := s.calls[call := Closed(s.calls[call].err)]))
  {
    NoneMoved(s, s.(calls := s.calls[call := Closed(s.calls[call].err)]));
  }

  lemma AnsweredKeeps(s: System, t: nat, answer: Answer)
    requires Inv(s) && At(s, t) && s.callers[t].pc.Sending?
    ensures Inv(StepAnswered(s, t, s.callers[t].pc.gen, answer))
  {
    assert CallerInv(s, s.callers[t]);
    LoginsOfOneMore(s.history, RefusedBySap(s.callers[t].pc.gen));
    HistoryGrows(s, RefusedBySap(s.callers[t].pc.gen));
    OneMoved(s, StepAnswered(s, t, s.callers[t].pc.gen, answer), t);
  }

  lemma ExpireKeeps(s: System, t: nat)
    requires Inv(s) && At(s, t) && s.callers[t].pc.Refused?
    ensures Inv(StepExpire(s, t, s.callers[t].pc.gen))
  {
    assert CallerInv(s, s.callers[t]);
    OneMoved(s, StepExpire(s, t, s.callers[t].pc.gen), t);
  }

  lemma LogoutKeeps(s: System)
    requires Inv(s)
    ensures Inv(StepLogout(s))
  {
    LoginsOfOneMore(s.history, LoggedOut(s.shared.gen));
    HistoryGrows(s, LoggedOut(s.shared.gen));
    NoneMoved(s, StepLogout(s));
  }

  lemma WakeKeeps(s: System, t: nat)
    requires Inv(s) && At(s, t) && s.callers[t].pc.Waiting? && s.callers[t].pc.call < |s.calls|
    requires s.calls[s.callers[t].pc.call].Closed?
    ensures Inv(StepWake(s, t, s.calls[s.callers[t].pc.call].err))
  {
    assert CallerInv(s, s.callers[t]);
    OneMoved(s, StepWake(s, t, s.calls[s.callers[t].pc.call].err), t);
  }

  lemma ReadKeeps(s: System, t: nat)
    requires Inv(s) && At(s, t) && s.callers[t].pc.Woken?
    ensures Inv(StepRead(s, t))
  {
    assert CallerInv(s, s.callers[t]);
    OneMoved(s, StepRead(s, t), t);
  }

  lemma StepKeepsInv(s: System, a: Action)
    requires Inv(s)
    ensures Inv(Step(s, a))
  {
    match a
    case NewCaller =>
      var s' := Step(s, a);
      forall u: nat | u < |s'.callers|
        ensures CallerInv(s', s'.callers[u])
      {
        if u < |s.callers| { CallerSurvives(s, s', s.callers[u]); }
      }
    case EnterEnsure(t) =>
      if At(s, t) && s.callers[t].pc.Entering? {
        if s.shared.ready { EnterReadyKeeps(s, t); }
        else if s.shared.inflight.Some? { EnterJoinKeeps(s, t); }
        else { EnterStartKeeps(s, t); }
      }
    case LoginReturns(call, err) => if call < |s.calls| && s.calls[call].Running? { LoginReturnKeeps(s, call, err); }
    case CloseChannel(call) => if call < |s.calls| && s.calls[call].Stored? { CloseKeeps(s, call); }
    case Wake(t) => if Wakeable(s, t) { WakeKeeps(s, t); }
    case ReadPair(t) => if At(s, t) && s.callers[t].pc.Woken? { ReadKeeps(s, t); }
    case Answered(t, answer) => if At(s, t) && s.callers[t].pc.Sending? { AnsweredKeeps(s, t, answer); }
    case RunExpire(t) => if At(s, t) && s.callers[t].pc.Refused? { ExpireKeeps(s, t); }
    case RunLogout => LogoutKeeps(s);
  }

  lemma {:induction false} RunKeepsInv(basic: bool, actions: seq<Action>)
    ensures Inv(Run(basic, actions))
  {
    if actions != [] {
      RunKeepsInv(basic, actions[..|actions| - 1]);
      StepKeepsInv(Run(basic, actions[..|actions| - 1]), actions[|actions| - 1]);
    }
  }

  // ---- The theorems ---------------------------------------------------------------------------

  /**
   In every interleaving: two running logins are the same one, `ready` means none runs, `gen` counts the
   successful logins, and the pair a caller sends with is that generation's own client.
   */
  lemma OneLoginAtATime(basic: bool, actions: seq<Action>)
    ensures var s := Run(basic, actions);
            && (forall c: nat, d: nat | c < |s.calls| && d < |s.calls| ::
                  s.calls[c].Running? && s.calls[d].Running? ==> c == d)
            && (s.shared.ready ==> forall c: nat | c < |s.calls| :: !s.calls[c].Running?)
            && s.shared.gen == |Logins(s.history)|
            && (forall t: nat | t < |s.callers| && s.callers[t].pc.Sending? ::
                  PairIsOwn(s, s.callers[t].pc.client, s.callers[t].pc.gen))
  {
    RunKeepsInv(basic, actions);
    var s := Run(basic, actions);
    forall t: nat | t < |s.callers| && s.callers[t].pc.Sending?
      ensures PairIsOwn(s, s.callers[t].pc.client, s.callers[t].pc.gen)
    {
      assert CallerInv(s, s.callers[t]);
    }
  }

  /** In every run `Do` sends at most twice, and the retry goes out on a strictly newer generation. */
  lemma RetryIsNewer(basic: bool, actions: seq<Action>, t: nat)
    requires t < |Run(basic, actions).callers|
    ensures var sent := Run(basic, actions).callers[t].sent; |sent| <= 2 && (|sent| == 2 ==> sent[0] < sent[1])
  {
    RunKeepsInv(basic, actions);
    assert CallerInv(Run(basic, actions), Run(basic, actions).callers[t]);
  }

  /** A login after the first began only once the generation it replaces was refused or logged out. */
  lemma LoginHasAReason(basic: bool, actions: seq<Action>, i: nat)
    requires i < |Run(basic, actions).history|
    requires Run(basic, actions).history[i].LoginStarted? && Run(basic, actions).history[i].gen > 0
    ensures exists j: nat :: j < i
              && (Run(basic, actions).history[j] == RefusedBySap(Run(basic, actions).history[i].gen)
                  || Run(basic, actions).history[j] == LoggedOut(Run(basic, actions).history[i].gen))
  {
    RunKeepsInv(basic, actions);
    var h := Run(basic, actions).history;
    assert Dropped(h[..i], h[i].gen);
    var j: nat :| j < i && (h[..i][j] == RefusedBySap(h[i].gen) || h[..i][j] == LoggedOut(h[i].gen));
  }

  /** A caller drops `ready` only from the very session SAP refused it on; a newer one it leaves alone. */
  lemma LateRefusalIsHarmless(basic: bool, actions: seq<Action>, t: nat)
    requires t < |Run(basic, actions).callers| && Run(basic, actions).callers[t].pc.Refused?
    ensures var s := Run(basic, actions); var s' := Step(s, RunExpire(t)); var refused := s.callers[t].pc.gen;
            && RefusedBySap(refused) in s.history
            && (s'.shared != s.shared ==> s.shared.gen == refused)
            && (refused < s.shared.gen ==> s'.shared == s.shared)
  {
    RunKeepsInv(basic, actions);
    assert CallerInv(Run(basic, actions), Run(basic, actions).callers[t]);
  }

  // ---- A refused call is sent again -----------------------------------------------------------

  /**
   How an answer ends a request: none at all fails the call; any answer but a refusal is returned; a refusal only from
   the second request, or with Basic authentication.
   */
  lemma AnswerReturnedIff(basic: bool, actions: seq<Action>, t: nat, answer: Answer)
    requires t < |Run(basic, actions).callers| && Run(basic, actions).callers[t].pc.Sending?
    ensures var s := Run(basic, actions); var s' := Step(s, Answered(t, answer));
            && t < |s'.callers| && s'.shared == s.shared
            && (s'.callers[t].pc.Failed? <==> answer.NoAnswer?)
            && (s'.callers[t].pc.Returned? <==>
                  answer.Other? || (answer.Unauthorized? && (basic || |s.callers[t].sent| == 2)))
  {
    RunKeepsInv(basic, actions);
    BasicStays(basic, actions);
    assert CallerInv(Run(basic, actions), Run(basic, actions).callers[t]);
  }

  lemma {:induction false} BasicStays(basic: bool, actions: seq<Action>)
    ensures Run(basic, actions).basic == basic
  {
    if actions != [] { BasicStays(basic, actions[..|actions| - 1]); }
  }

  /** Caller `t` has just put a request on the wire, with the pair of the session as it is. */
  predicate SendsNow(s: System, t: nat, sent: seq<nat>) {
    && At(s, t) && s.callers[t].pc == Sending(s.shared.client, s.shared.gen)
    && s.callers[t].sent == sent + [s.shared.gen]
  }

  /** A waiting caller's login to its end: the call succeeds, is closed and wakes it, and it reads the pair. */
  function AfterLogin(s: System, t: nat): System {
    if At(s, t) && s.callers[t].pc.Waiting? then
      var call := s.callers[t].pc.call;
      Step(Step(Step(Step(s, LoginReturns(call, None)), CloseChannel(call)), Wake(t)), ReadPair(t))
    else s
  }

  lemma WaiterSends(s: System, t: nat)
    requires At(s, t) && s.callers[t].pc.Waiting? && s.callers[t].pc.call < |s.calls|
    requires s.calls[s.callers[t].pc.call].Running?
    ensures var u := AfterLogin(s, t);
            SendsNow(u, t, s.callers[t].sent) && u.shared == Finish(s.shared, s.callers[t].pc.call, None)
  {
    var call := s.callers[t].pc.call;
    var s2 := Step(Step(s, LoginReturns(call, None)), CloseChannel(call));
    assert s2.calls[call] == Closed(None);
    var s3 := Step(s2, Wake(t));
    assert s3.callers[t].pc.Woken?;
  }

  /** A caller that enters sends, at once or after the login it waits for. */
  lemma EntererSends(s: System, t: nat)
    requires Inv(s) && At(s, t) && s.callers[t].pc.Entering?
    ensures var u := AfterLogin(Step(s, EnterEnsure(t)), t);
            SendsNow(u, t, s.callers[t].sent) && u.shared.ready
    ensures s.shared.ready ==> AfterLogin(Step(s, EnterEnsure(t)), t).shared == s.shared
    ensures !s.shared.ready ==> AfterLogin(Step(s, EnterEnsure(t)), t).shared.gen == s.shared.gen + 1
  {
    assert CallerInv(s, s.callers[t]);
    var entered := Step(s, EnterEnsure(t));
    StepKeepsInv(s, EnterEnsure(t));
    if entered.callers[t].pc.Waiting? { WaiterSends(entered, t); }
  }

  /** A new call is put on the wire: on the session there is, or on the one a login brings. */
  lemma NewCallIsSent(basic: bool, actions: seq<Action>)
    ensures var s := Run(basic, actions); var t := |s.callers|;
            var u := AfterLogin(Step(Step(s, NewCaller), EnterEnsure(t)), t);
            && SendsNow(u, t, []) && u.shared.ready
            && u.shared.gen == if s.shared.ready then s.shared.gen else s.shared.gen + 1
  {
    var s := Run(basic, actions);
    RunKeepsInv(basic, actions);
    StepKeepsInv(s, NewCaller);
    EntererSends(Step(s, NewCaller), |s.callers|);
  }

  /** A logout ends the session: whoever enters after it sends on a session that is logged in anew. */
  lemma LogoutEndsTheSession(basic: bool, actions: seq<Action>, t: nat)
    requires t < |Run(basic, actions).callers| && Run(basic, actions).callers[t].pc.Entering?
    ensures var s := Run(basic, actions); var out := Step(s, RunLogout);
            var u := AfterLogin(Step(out, EnterEnsure(t)), t);
            && SendsNow(u, t, s.callers[t].sent) && u.shared.gen == s.shared.gen + 1
            && out.history == (if s.shared.ready then s.history + [LoggedOut(s.shared.gen)] else s.history)
  {
    var s := Run(basic, actions);
    RunKeepsInv(basic, actions);
    StepKeepsInv(s, RunLogout);
    EntererSends(Step(s, RunLogout), t);
  }

  /** How many logins the history says have begun. */
  function Begun(history: seq<Event>): nat {
    if history == [] then 0
    else Begun(history[..|history| - 1]) + (if history[|history| - 1].LoginStarted? then 1 else 0)
  }

  lemma BegunMore(history: seq<Event>, e: Event)
    ensures Begun(history + [e]) == Begun(history) + if e.LoginStarted? then 1 else 0
  {
    assert (history + [e])[..|history|] == history;
  }

  lemma StepLogsLogins(s: System, a: Action)
    requires Begun(s.history) == |s.calls|
    ensures Begun(Step(s, a).history) == |Step(s, a).calls|
  {
    var s' := Step(s, a);
    if s'.history != s.history {
      var e := s'.history[|s.history|];
      assert s'.history == s.history + [e];
      BegunMore(s.history, e);
    }
  }

  /** Every login that was begun is in the history, so none escapes `LoginHasAReason`. */
  lemma {:induction false} EveryLoginIsLogged(basic: bool, actions: seq<Action>)
    ensures Begun(Run(basic, actions).history) == |Run(basic, actions).calls|
  {
    if actions != [] {
      EveryLoginIsLogged(basic, actions[..|actions| - 1]);
      StepLogsLogins(Run(basic, actions[..|actions| - 1]), actions[|actions| - 1]);
    }
  }

  /**
   From every reachable state: the first request of a call that SAP refuses is followed by a second one, on a
   session SAP has not refused; the one the others logged in meanwhile, or a login of its own.
   */
  lemma RefusedIsSentAgain(actions: seq<Action>, t: nat)
    requires var s := Run(false, actions);
             t < |s.callers| && s.callers[t].pc.Sending? && |s.callers[t].sent| == 1
    ensures var s := Run(false, actions);
            var expired := Step(Step(s, Answered(t, Unauthorized)), RunExpire(t));
            var u := AfterLogin(Step(expired, EnterEnsure(t)), t);
            && SendsNow(u, t, s.callers[t].sent) && u.shared.gen > s.callers[t].sent[0]
            && (s.shared.ready && s.shared.gen > s.callers[t].sent[0] ==> u.shared == s.shared)
  {
    var s := Run(false, actions);
    RunKeepsInv(false, actions);
    BasicStays(false, actions);
    assert CallerInv(s, s.callers[t]);
    var refused := Step(s, Answered(t, Unauthorized));
    StepKeepsInv(s, Answered(t, Unauthorized));
    var expired := Step(refused, RunExpire(t));
    StepKeepsInv(refused, RunExpire(t));
    assert CallerInv(expired, expired.callers[t]);
    EntererSends(expired, t);
  }

  /** How a wait ends: with the login's own error, or with the pair of the session as it then is on the wire. */
  lemma WaitEndsWithItsLogin(basic: bool, actions: seq<Action>, t: nat)
    requires var s := Run(basic, actions); t < |s.callers| && Wakeable(s, t)
    ensures var s := Run(basic, actions); var err := s.calls[s.callers[t].pc.call].err;
            var woken := Step(s, Wake(t)); var u := Step(woken, ReadPair(t));
            && t < |u.callers|
            && (err.Some? ==> woken.callers[t].pc.Failed? && u == woken)
            && (err.None? ==> SendsNow(u, t, s.callers[t].sent) && u.shared == s.shared && u.shared.gen > 0)
  {
    RunKeepsInv(basic, actions);
    assert CallerInv(Run(basic, actions), Run(basic, actions).callers[t]);
  }

  lemma HistoryOnlyGrows(s: System, a: Action)
    ensures s.history <= Step(s, a).history
  {
  }

  lemma ReadyStep(s: System, a: Action)
    requires Inv(s) && s.shared.ready
    ensures var s' := Step(s, a); s'.shared == s.shared || (s'.shared.gen == s.shared.gen && !s'.shared.ready)
  {
  }

  lemma RunOn(basic: bool, actions: seq<Action>, more: seq<Action>)
    requires more != []
    ensures Run(basic, actions + more) == Step(Run(basic, actions + more[..|more| - 1]), more[|more| - 1])
  {
    var all := actions + more;
    assert all[..|all| - 1] == actions + more[..|more| - 1] && all[|all| - 1] == more[|more| - 1];
    LastStep(basic, all);
  }

  lemma LastStep(basic: bool, all: seq<Action>)
    requires all != []
    ensures Run(basic, all) == Step(Run(basic, all[..|all| - 1]), all[|all| - 1])
  {
  }

  /**
   A session stays up until there is a cause: whatever runs on from a state that is ready, late 401s of older
   generations included, the session is the very same as long as SAP refused none of its own calls and nobody
   logged it out.
   */
  lemma {:induction false} KeptUntilRefused(basic: bool, actions: seq<Action>, more: seq<Action>)
    requires Run(basic, actions).shared.ready
    ensures var s, u := Run(basic, actions), Run(basic, actions + more);
            && s.history <= u.history
            && (!Dropped(u.history, s.shared.gen) ==> u.shared == s.shared)
  {
    if more == [] {
      assert actions + more == actions;
    } else {
      var before := more[..|more| - 1];
      KeptUntilRefused(basic, actions, before);
      RunOn(basic, actions, more);
      var s, v, a := Run(basic, actions), Run(basic, actions + before), more[|more| - 1];
      HistoryOnlyGrows(v, a);
      if !Dropped(Step(v, a).history, s.shared.gen) {
        assert !Dropped(v.history, s.shared.gen);
        RunKeepsInv(basic, actions + before);
        StepKeepsInv(v, a);
        ReadyStep(v, a);
      }
    }
  }

  lemma ThreeStepsWake(s: System, t: nat)
    requires Inv(s) && t < |s.callers| && s.callers[t].pc.Waiting?
    ensures var call := s.callers[t].pc.call;
            var u := Step(Step(Step(s, LoginReturns(call, None)), CloseChannel(call)), Wake(t));
            t < |u.callers| && !u.callers[t].pc.Waiting?
  {
    assert CallerInv(s, s.callers[t]);
  }

  /** Nobody waits for a login that is not there: the call it waits on runs, or its channel can only be closed. */
  lemma NoLostWaiter(basic: bool, actions: seq<Action>, t: nat)
    requires t < |Run(basic, actions).callers| && Run(basic, actions).callers[t].pc.Waiting?
    ensures exists more: seq<Action> ::
              |more| <= 3 && t < |Run(basic, actions + more).callers|
                  && !Run(basic, actions + more).callers[t].pc.Waiting?
  {
    RunKeepsInv(basic, actions);
    var s := Run(basic, actions);
    ThreeStepsWake(s, t);
    var call := s.callers[t].pc.call;
    var a1, a2, a3 := LoginReturns(call, None), CloseChannel(call), Wake(t);
    OneMore(basic, actions, a1);
    OneMore(basic, actions + [a1], a2);
    OneMore(basic, actions + [a1] + [a2], a3);
    assert actions + [a1] + [a2] + [a3] == actions + [a1, a2, a3];
  }

  /** How far a login call is: at SAP, stored, its channel closed. */
  function Stage(c: Call): nat {
    match c
    case Running => 0
    case Stored(_) => 1
    case Closed(_) => 2
  }

  /** Caller `t` is there, and login `call` is at least that far. */
  predicate AtStage(s: System, t: nat, call: CallId, stage: nat) {
    At(s, t) && call < |s.calls| && Stage(s.calls[call]) >= stage
  }

  lemma StageOnlyGrows(s: System, a: Action, t: nat, call: CallId, stage: nat)
    requires AtStage(s, t, call, stage)
    ensures AtStage(Step(s, a), t, call, stage)
    ensures a.LoginReturns? && a.call == call ==> AtStage(Step(s, a), t, call, 1)
    ensures a.CloseChannel? && a.call == call && stage >= 1 ==> AtStage(Step(s, a), t, call, 2)
  {
  }

  predicate WaitsOn(s: System, t: nat, call: CallId) {
    At(s, t) && s.callers[t].pc == Waiting(call)
  }

  /** A caller waits only on calls that run: once the channel is closed nobody starts to wait on it. */
  lemma ClosedIsNotJoined(s: System, a: Action, t: nat, call: CallId)
    requires Inv(s) && AtStage(s, t, call, 2) && (a != Wake(t) ==> !WaitsOn(s, t, call))
    ensures !WaitsOn(Step(s, a), t, call)
  {
  }

  /** The states a run goes through, the one it starts from first. */
  ghost predicate Passes(states: seq<System>, run: seq<Action>) {
    |states| == |run| + 1 && forall n: nat | n < |run| :: StepAt(states, run, n)
  }

  ghost predicate StepAt(states: seq<System>, run: seq<Action>, n: nat)
    requires n < |run| && |states| == |run| + 1
  {
    Inv(states[n]) && states[n + 1] == Step(states[n], run[n])
  }

  lemma StageNext(states: seq<System>, run: seq<Action>, t: nat, call: CallId, stage: nat, n: nat)
    requires Passes(states, run) && n < |run| && AtStage(states[n], t, call, stage)
    ensures AtStage(states[n + 1], t, call, stage)
    ensures run[n].LoginReturns? && run[n].call == call ==> AtStage(states[n + 1], t, call, 1)
    ensures run[n].CloseChannel? && run[n].call == call && stage >= 1 ==> AtStage(states[n + 1], t, call, 2)
  {
    assert StepAt(states, run, n);
    StageOnlyGrows(states[n], run[n], t, call, stage);
  }

  lemma {:induction false} StageKept(states: seq<System>, run: seq<Action>, t: nat, call: CallId, stage: nat,
                                     m: nat, n: nat)
    requires Passes(states, run) && m <= n <= |run| && AtStage(states[m], t, call, stage)
    ensures AtStage(states[n], t, call, stage)
  {
    if m < n {
      StageKept(states, run, t, call, stage, m, n - 1);
      StageNext(states, run, t, call, stage, n - 1);
    }
  }

  lemma {:induction false} NeverJoinedAgain(states: seq<System>, run: seq<Action>, t: nat, call: CallId,
                                            k: nat, n: nat)
    requires Passes(states, run) && k < n <= |run| && run[k] == Wake(t) && AtStage(states[k], t, call, 2)
    ensures !WaitsOn(states[n], t, call)
  {
    if k + 1 < n { NeverJoinedAgain(states, run, t, call, k, n - 1); }
    StageKept(states, run, t, call, 2, k, n - 1);
    assert StepAt(states, run, n - 1);
    ClosedIsNotJoined(states[n - 1], run[n - 1], t, call);
  }

  lemma RunPasses(basic: bool, run: seq<Action>) returns (states: seq<System>)
    ensures Passes(states, run) && forall n: nat | n <= |run| :: states[n] == Run(basic, run[..n])
  {
    states := seq(|run| + 1, n requires 0 <= n <= |run| => Run(basic, run[..n]));
    forall n: nat | n < |run| ensures StepAt(states, run, n) {
      RunKeepsInv(basic, run[..n]);
      OneMore(basic, run[..n], run[n]);
      assert run[..n + 1] == run[..n] + [run[n]];
    }
  }

  lemma WokenAmong(states: seq<System>, run: seq<Action>, t: nat, call: CallId, w: nat, i: nat, j: nat, k: nat)
    requires Passes(states, run) && w <= i < j < k < |run| && WaitsOn(states[w], t, call)
    requires run[i].LoginReturns? && run[i].call == call && run[j] == CloseChannel(call) && run[k] == Wake(t)
    ensures At(states[|run|], t) && !WaitsOn(states[|run|], t, call)
  {
    assert StepAt(states, run, w);
    assert CallerInv(states[w], states[w].callers[t]);
    StageKept(states, run, t, call, 0, w, i);
    StageNext(states, run, t, call, 0, i);
    StageKept(states, run, t, call, 1, i + 1, j);
    StageNext(states, run, t, call, 1, j);
    StageKept(states, run, t, call, 2, j + 1, k);
    StageKept(states, run, t, call, 2, k, |run|);
    NeverJoinedAgain(states, run, t, call, k, |run|);
  }

  /**
   Whatever else happens in between, a caller that waits on a login is woken once that login has returned, its channel
   was closed and the caller was scheduled, in that order; and it never waits on that login again.
   */
  lemma WokenInOrder(basic: bool, run: seq<Action>, t: nat, call: CallId, w: nat, i: nat, j: nat, k: nat)
    requires w <= i < j < k < |run| && WaitsOn(Run(basic, run[..w]), t, call)
    requires run[i].LoginReturns? && run[i].call == call && run[j] == CloseChannel(call) && run[k] == Wake(t)
    ensures At(Run(basic, run), t) && !WaitsOn(Run(basic, run), t, call)
  {
    var states := RunPasses(basic, run);
    assert states[w] == Run(basic, run[..w]);
    assert run[..|run|] == run && states[|run|] == Run(basic, run);
    WokenAmong(states, run, t, call, w, i, j, k);
  }

  lemma OneMore(basic: bool, actions: seq<Action>, a: Action)
    ensures Run(basic, actions + [a]) == Step(Run(basic, actions), a)
  {
    assert (actions + [a])[..|actions|] == actions;
  }
}
