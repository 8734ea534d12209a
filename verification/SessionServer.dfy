/** `Session_server_impl`: any number of concurrent accepts, each in two stages, sharing a set of incomplete sessions, a
    counter of client namespaces, and a graveyard thread.

    A step is one critical section, or one part of a handler, of one thread; the destructor is a single step.  Who owns a
    session is modelled holder by holder: it is released by the thread of the step that takes away the last owner. */
module SessionServer {
  import opened MasterChannel

  /** `None` is success. */
  type Result = Option<Error>

  const ABORTED: Result := Some(ShutdownAborted)

  /** An accept: waiting for a socket; its session object made; that session logging in; its completion handler running:
      the session found, taken out of the incomplete set, and handed over; finished. */
  datatype Stage =
    | Listening
    | Made
    | LoggingIn
    | Handling(result: Result)
    | Erased(result: Result)
    | Handed(result: Result)
    | Finished

  /** Who may hold a session: the variable of the accept handler; the incomplete set; the variable of the log-in handler,
      which gets it from its weak pointer; the task posted to the graveyard thread; and the user's `*target_session`, once
      the session was moved there, which leaves the other holders an empty object. */
  datatype Owner = AcceptLocal | IncompleteSet | HandlerLocal | GraveyardTask | Target

  datatype Thread = Acceptor | OwnWorker | Graveyard | User

  /** `accepting`: the accept handler has not returned.  `calls`: the runs of the user's handler.  `ns`: the namespace
      made for the session.  `session`: was a session made; `released`: the thread that released it. */
  datatype Request = Request(
    stage: Stage,
    accepting: bool,
    owners: set<Owner>,
    released: Option<Thread>,
    calls: seq<Result>,
    ns: Option<nat>,
    session: bool)

  const NEW := Request(Listening, false, {}, None, [], None, false)

  /** `graveyard`: its queue; `graveyardRuns`: was that thread started.  `made`: which sessions got a namespace, in order.
      `eraseFailed`: `assert(erased_ok)` failed. */
  datatype State = State(
    reqs: seq<Request>,
    incomplete: set<nat>,
    lastNs: nat,
    graveyard: seq<nat>,
    graveyardRuns: bool,
    alive: bool,
    made: seq<nat>,
    eraseFailed: bool)

  /** The constructor, once it listens.  `errCode`: did the caller pass a place for an error code. */
  function Initial(errCode: bool): State {
    State([], {}, 0, [], errCode, true, [], false)
  }

  const WRAP := 0x1_0000_0000_0000_0000

  datatype Step =
    | AsyncAccept
    | SockFails(r: nat, e: Error)
    | SockAccepted(r: nat)                // accept handler: the session is made
    | StartLogIn(r: nat)                  // accept handler: into the set, under the lock; then the log-in starts
    | AcceptReturns(r: nat)               // accept handler: its variable goes
    | MakeNs(r: nat)                      // `cli_namespace_func`
    | LogInDone(r: nat, result: Result)   // log-in handler: the weak pointer is locked
    | Erase(r: nat)                       // log-in handler: out of the set, under the lock
    | HandOver(r: nat)                    // log-in handler: to the graveyard thread, or to the user
    | Finish(r: nat)                      // log-in handler: the user's handler, and the end
    | Bury                                // graveyard thread
    | UserDrops(r: nat)                   // the user destroys the session
    | Destroy

  function ThreadOf(t: Step): Thread {
    match t
    case SockFails(_, _) => Acceptor
    case SockAccepted(_) => Acceptor
    case StartLogIn(_) => Acceptor
    case AcceptReturns(_) => Acceptor
    case MakeNs(_) => OwnWorker
    case LogInDone(_, _) => OwnWorker
    case Erase(_) => OwnWorker
    case HandOver(_) => OwnWorker
    case Finish(_) => OwnWorker
    case Bury => Graveyard
    case _ => User
  }

  predicate At(s: State, r: nat, stage: Stage) {
    s.alive && r < |s.reqs| && s.reqs[r].stage == stage
  }

  /** A handler of the request is running. */
  predicate HalfWay(s: State, r: nat) {
    s.alive && r < |s.reqs| && (s.reqs[r].accepting || Handler(s.reqs[r].stage))
  }

  predicate Handler(stage: Stage) {
    stage.Made? || stage.Handling? || stage.Erased? || stage.Handed?
  }

  ghost predicate Enabled(s: State, t: Step) {
    match t
    case AsyncAccept => s.alive
    case SockFails(r, _) => At(s, r, Listening)
    case SockAccepted(r) => At(s, r, Listening)
    case StartLogIn(r) => At(s, r, Made)
    case AcceptReturns(r) => s.alive && r < |s.reqs| && s.reqs[r].accepting && !s.reqs[r].stage.Made?
    case MakeNs(r) => At(s, r, LoggingIn) && s.reqs[r].ns.None?
    case LogInDone(r, result) => At(s, r, LoggingIn) && result != ABORTED && (result.None? ==> s.reqs[r].ns.Some?)
    case Erase(r) => s.alive && r < |s.reqs| && s.reqs[r].stage.Handling?
    case HandOver(r) => s.alive && r < |s.reqs| && s.reqs[r].stage.Erased?
    case Finish(r) => s.alive && r < |s.reqs| && s.reqs[r].stage.Handed?
    case Bury => s.alive && s.graveyardRuns && s.graveyard != [] && s.graveyard[0] < |s.reqs|
    case UserDrops(r) => r < |s.reqs| && s.reqs[r].stage == Stage.Finished && Target in s.reqs[r].owners
    case Destroy => s.alive && forall r: nat :: !HalfWay(s, r)
  }

  // ----- Ownership -----

  /** An owner lets go; the last one releases the session. */
  function Drop(q: Request, o: Owner, on: Thread): Request {
    if o !in q.owners then q
    else q.(owners := q.owners - {o}, released := if q.owners - {o} == {} then Some(on) else q.released)
  }

  function Gain(q: Request, o: Owner): Request {
    q.(owners := q.owners + {o})
  }

  /** `weak_ptr::lock()`: another owner, unless there is none. */
  function Lock(q: Request): Request {
    if q.owners == {} then q else Gain(q, HandlerLocal)
  }

  /** The session moves into the user's object; whoever held it is left with an empty one. */
  function Move(q: Request): Request {
    q.(owners := {Target})
  }

  // ----- Steps -----

  function Put(s: State, r: nat, q: Request): State
    requires r < |s.reqs|
  {
    s.(reqs := s.reqs[r := q])
  }

  function Call(q: Request, result: Result): Request {
    q.(stage := Stage.Finished, calls := q.calls + [result])
  }

  /** What the destructor does to one request: its queued graveyard task goes; its first stage is aborted; or the
      incomplete set lets go of its session, whose destructor runs the log-in handler, which finds no session. */
  function Abort(q: Request, on: Thread): Request {
    match q.stage
    case Listening => Call(q, ABORTED)
    case LoggingIn => Call(Drop(q, IncompleteSet, on), ABORTED)
    case _ => Drop(q, GraveyardTask, on)
  }

  function Aborted(s: State, on: Thread): State {
    s.(reqs := seq(|s.reqs|, r requires 0 <= r < |s.reqs| => Abort(s.reqs[r], on)),
       incomplete := {}, graveyard := [], alive := false)
  }

  function HandOverSession(s: State, r: nat, on: Thread): State
    requires r < |s.reqs| && s.reqs[r].stage.Erased?
  {
    var q := s.reqs[r].(stage := Handed(s.reqs[r].stage.result));
    if q.stage.result.Some? then Put(s, r, Drop(Gain(q, GraveyardTask), HandlerLocal, on)).(graveyard := s.graveyard + [r])
    else Put(s, r, Move(q))
  }

  ghost function Next(s: State, t: Step): State
    requires Enabled(s, t)
  {
    var on := ThreadOf(t);
    match t
    case AsyncAccept => s.(reqs := s.reqs + [NEW])
    case SockFails(r, e) => Put(s, r, Call(s.reqs[r], Some(e)))
    case SockAccepted(r) => Put(s, r, Gain(s.reqs[r].(stage := Made, accepting := true, session := true), AcceptLocal))
    case StartLogIn(r) =>
      Put(s, r, Gain(s.reqs[r].(stage := LoggingIn), IncompleteSet)).(incomplete := s.incomplete + {r})
    case AcceptReturns(r) => Put(s, r, Drop(s.reqs[r].(accepting := false), AcceptLocal, on))
    case MakeNs(r) =>
      var ns := (s.lastNs + 1) % WRAP;
      Put(s, r, s.reqs[r].(ns := Some(ns))).(lastNs := ns, made := s.made + [r])
    case LogInDone(r, result) => Put(s, r, Lock(s.reqs[r].(stage := Handling(result))))
    case Erase(r) =>
      Put(s, r, Drop(s.reqs[r].(stage := Erased(s.reqs[r].stage.result)), IncompleteSet, on))
      .(incomplete := s.incomplete - {r}, eraseFailed := s.eraseFailed || r !in s.incomplete)
    case HandOver(r) => HandOverSession(s, r, on)
    case Finish(r) => Put(s, r, Drop(Call(s.reqs[r], s.reqs[r].stage.result), HandlerLocal, on))
    case Bury => Put(s, s.graveyard[0], Drop(s.reqs[s.graveyard[0]], GraveyardTask, on)).(graveyard := s.graveyard[1..])
    case UserDrops(r) => Put(s, r, Drop(s.reqs[r], Target, on))
    case Destroy => Aborted(s, on)
  }

  ghost predicate Run(states: seq<State>, steps: seq<Step>) {
    && |states| == |steps| + 1 && states[0] == Initial(states[0].graveyardRuns)
    && forall i :: 0 <= i < |steps| ==> Enabled(states[i], steps[i]) && states[i + 1] == Next(states[i], steps[i])
  }

  // ----- Invariant -----

  predicate Succeeded(q: Request) {
    q.stage == Handed(None) || q.calls == [None]
  }

  predicate Failed(q: Request) {
    (q.stage.Handed? && q.stage.result.Some?) || (q.stage == Stage.Finished && q.calls != [None])
  }

  /** Who holds the session at each stage. */
  ghost predicate OwnersOk(q: Request) {
    && (AcceptLocal in q.owners ==> q.accepting && !Succeeded(q))
    && (q.accepting && !Succeeded(q) ==> AcceptLocal in q.owners)
    && (GraveyardTask in q.owners ==> Failed(q))
    && (Target in q.owners ==> Succeeded(q))
    && (q.stage == Handed(None) ==> Target in q.owners)
    && (IncompleteSet in q.owners <==> InSet(q))
    && (HandlerLocal in q.owners <==> q.stage.Handling? || q.stage.Erased?)
  }

  ghost predicate RequestOk(q: Request) {
    && |q.calls| == (if q.stage == Stage.Finished then 1 else 0)
    && (q.stage == Listening ==> q.ns.None? && !q.session)
    && (q.stage != Listening && q.stage != Stage.Finished ==> q.session)
    && (q.stage == Made ==> q.accepting)
    && (q.accepting ==> q.session)
    && (!q.session ==> q.owners == {} && !Succeeded(q))
    && (Succeeded(q) || q.stage == Handling(None) || q.stage == Erased(None) ==> q.ns.Some?)
    && OwnersOk(q)
    && (q.released.Some? <==> q.session && q.owners == {})
    && q.released != Some(OwnWorker)
    && (Succeeded(q) && q.released.Some? ==> q.released == Some(User))
  }

  /** The graveyard's queue holds exactly the sessions handed to it, each once. */
  ghost predicate GraveyardOk(s: State) {
    && (forall i :: 0 <= i < |s.graveyard| ==> s.graveyard[i] < |s.reqs|)
    && (forall i, j :: 0 <= i < j < |s.graveyard| ==> s.graveyard[i] != s.graveyard[j])
    && (forall r :: 0 <= r < |s.reqs| ==> (GraveyardTask in s.reqs[r].owners <==> r in s.graveyard))
  }

  predicate InSet(q: Request) {
    q.stage == LoggingIn || q.stage.Handling?
  }

  ghost predicate NamesOk(s: State) {
    && s.lastNs == |s.made| % WRAP
    && (forall k :: 0 <= k < |s.made| ==> s.made[k] < |s.reqs| && s.reqs[s.made[k]].ns == Some((k + 1) % WRAP))
    && (forall j, k :: 0 <= j < k < |s.made| ==> s.made[j] != s.made[k])
    && (forall r :: 0 <= r < |s.reqs| && s.reqs[r].ns.Some? ==> r in s.made)
  }

  ghost predicate Inv(s: State) {
    && (forall r :: 0 <= r < |s.reqs| ==> RequestOk(s.reqs[r]))
    && (forall r: nat :: r in s.incomplete <==> r < |s.reqs| && InSet(s.reqs[r]))
    && !s.eraseFailed
    && GraveyardOk(s)
    && NamesOk(s)
    && (!s.alive ==> s.graveyard == [] && forall r :: 0 <= r < |s.reqs| ==>
          s.reqs[r].stage == Stage.Finished && !s.reqs[r].accepting)
  }

  /** One request changes, not its namespace. */
  lemma NamesPut(s: State, r: nat, q: Request)
    requires NamesOk(s) && r < |s.reqs| && q.ns == s.reqs[r].ns
    ensures NamesOk(Put(s, r, q))
  {
  }

  lemma NamesNew(s: State)
    requires NamesOk(s)
    ensures NamesOk(s.(reqs := s.reqs + [NEW]))
  {
  }

  lemma NamesMade(s: State, r: nat)
    requires NamesOk(s) && r < |s.reqs| && s.reqs[r].ns.None?
    ensures var ns := (s.lastNs + 1) % WRAP;
            NamesOk(Put(s, r, s.reqs[r].(ns := Some(ns))).(lastNs := ns, made := s.made + [r]))
  {
    var ns := (s.lastNs + 1) % WRAP;
    assert ns == (|s.made| + 1) % WRAP by { NextNumber(|s.made|); }
    assert r !in s.made;
    var s' := Put(s, r, s.reqs[r].(ns := Some(ns))).(lastNs := ns, made := s.made + [r]);
    assert forall k :: 0 <= k < |s.made| ==> s'.made[k] == s.made[k] && s.made[k] != r;
    assert s'.made[|s.made|] == r;
  }

  lemma NextNumber(n: nat)
    ensures (n % WRAP + 1) % WRAP == (n + 1) % WRAP
  {
  }

  lemma NamesAborted(s: State)
    requires NamesOk(s)
    ensures NamesOk(Aborted(s, User))
  {
  }

  // ----- Ownership keeps the invariant -----

  lemma DropOk(q: Request, o: Owner, on: Thread)
    ensures var q' := Drop(q, o, on);
            && q'.owners == q.owners - {o}
            && q' == q.(owners := q'.owners, released := q'.released)
            && (q'.released == q.released || (q'.released == Some(on) && q'.owners == {} && q.owners == {o}))
            && (q'.owners == {} && q.owners != {} ==> q'.released == Some(on))
  {
  }

  lemma MadeOk(q: Request)
    requires RequestOk(q) && q.stage == Listening
    ensures RequestOk(Gain(q.(stage := Made, accepting := true, session := true), AcceptLocal))
  {
  }

  lemma StartedOk(q: Request)
    requires RequestOk(q) && q.stage == Made
    ensures RequestOk(Gain(q.(stage := LoggingIn), IncompleteSet))
  {
  }

  lemma ReturnedOk(q: Request)
    requires RequestOk(q) && q.accepting && q.stage != Made
    ensures RequestOk(Drop(q.(accepting := false), AcceptLocal, Acceptor))
  {
  }

  lemma LockedOk(q: Request, result: Result)
    requires RequestOk(q) && q.stage == LoggingIn && (result.None? ==> q.ns.Some?)
    ensures RequestOk(Lock(q.(stage := Handling(result))))
  {
  }

  /** Out of the set: the log-in handler's own variable still holds the session. */
  lemma ErasedOk(q: Request)
    requires RequestOk(q) && q.stage.Handling?
    ensures HandlerLocal in q.owners
    ensures RequestOk(Drop(q.(stage := Erased(q.stage.result)), IncompleteSet, OwnWorker))
  {
  }

  /** Handed over: the graveyard's task, or the user, holds the session before the handler's variable lets go. */
  lemma HandedOk(q: Request)
    requires RequestOk(q) && q.stage.Erased? && GraveyardTask !in q.owners
    ensures HandlerLocal in q.owners
    ensures q.stage.result.Some? ==>
              RequestOk(Drop(Gain(q.(stage := Handed(q.stage.result)), GraveyardTask), HandlerLocal, OwnWorker))
    ensures q.stage.result.None? ==> RequestOk(Move(q.(stage := Handed(q.stage.result))))
  {
  }

  lemma FinishedOk(q: Request)
    requires RequestOk(q) && q.stage.Handed?
    ensures Drop(Call(q, q.stage.result), HandlerLocal, OwnWorker) == Call(q, q.stage.result)
    ensures RequestOk(Call(q, q.stage.result))
  {
    assert Call(q, q.stage.result).calls[0] == q.stage.result;
  }

  lemma BuriedOk(q: Request)
    requires RequestOk(q) && GraveyardTask in q.owners
    ensures RequestOk(Drop(q, GraveyardTask, Graveyard)) && RequestOk(Drop(q, GraveyardTask, User))
  {
  }

  lemma UserDropsOk(q: Request)
    requires RequestOk(q) && q.stage == Stage.Finished && Target in q.owners
    ensures RequestOk(Drop(q, Target, User))
  {
  }

  lemma FailsOk(q: Request, result: Result)
    requires RequestOk(q) && q.stage == Listening && result.Some?
    ensures RequestOk(Call(q, result))
  {
    assert Call(q, result).calls[0] == result;
  }

  lemma AbortOk(q: Request)
    requires RequestOk(q) && !q.accepting && !Handler(q.stage)
    ensures RequestOk(Abort(q, User)) && Abort(q, User).stage == Stage.Finished && GraveyardTask !in Abort(q, User).owners
    ensures Abort(q, User).ns == q.ns
  {
    match q.stage
    case Listening => FailsOk(q, ABORTED);
    case LoggingIn =>
        assert forall o | o in q.owners :: o == IncompleteSet || o in {AcceptLocal, GraveyardTask};
      assert q.owners == {IncompleteSet};
      assert Abort(q, User).calls[0] == ABORTED;
    case Finished => if GraveyardTask in q.owners { BuriedOk(q); }
  }

  // ----- Every step keeps the invariant -----

  lemma GraveyardPut(s: State, r: nat, q: Request)
    requires GraveyardOk(s) && r < |s.reqs| && (GraveyardTask in q.owners <==> GraveyardTask in s.reqs[r].owners)
    ensures GraveyardOk(Put(s, r, q))
  {
  }

  lemma GraveyardNew(s: State)
    requires GraveyardOk(s)
    ensures GraveyardOk(s.(reqs := s.reqs + [NEW]))
  {
  }

  lemma GraveyardPosted(s: State, r: nat, q: Request)
    requires GraveyardOk(s) && r < |s.reqs| && GraveyardTask !in s.reqs[r].owners && GraveyardTask in q.owners
    ensures GraveyardOk(Put(s, r, q).(graveyard := s.graveyard + [r]))
  {
    var s' := Put(s, r, q).(graveyard := s.graveyard + [r]);
    assert s'.graveyard[|s.graveyard|] == r;
    forall k | 0 <= k < |s'.reqs|
      ensures GraveyardTask in s'.reqs[k].owners <==> k in s'.graveyard
    {
      assert k in s'.graveyard <==> k == r || k in s.graveyard;
    }
  }

  lemma GraveyardBuried(s: State, q: Request)
    requires GraveyardOk(s) && s.graveyard != [] && GraveyardTask !in q.owners
    ensures s.graveyard[0] < |s.reqs|
    ensures GraveyardOk(Put(s, s.graveyard[0], q).(graveyard := s.graveyard[1..]))
  {
    var s' := Put(s, s.graveyard[0], q).(graveyard := s.graveyard[1..]);
    forall k | 0 <= k < |s'.reqs|
      ensures GraveyardTask in s'.reqs[k].owners <==> k in s'.graveyard
    {
      assert k in s'.graveyard <==> k != s.graveyard[0] && k in s.graveyard;
    }
  }

  /** The predicates do not look at the rest of the state. */
  lemma Like(s: State, s': State)
    requires s'.reqs == s.reqs
    ensures s'.lastNs == s.lastNs && s'.made == s.made && NamesOk(s) ==> NamesOk(s')
    ensures s'.graveyard == s.graveyard && GraveyardOk(s) ==> GraveyardOk(s')
  {
  }

  /** One request changes, and with it the incomplete set. */
  lemma InvPut(s: State, r: nat, q: Request, incomplete: set<nat>)
    requires Inv(s) && r < |s.reqs| && RequestOk(q) && q.ns == s.reqs[r].ns
    requires GraveyardTask in q.owners <==> GraveyardTask in s.reqs[r].owners
    requires forall k: nat :: k in incomplete <==> if k == r then InSet(q) else k in s.incomplete
    requires s.alive || (q.stage == Stage.Finished && !q.accepting)
    ensures Inv(Put(s, r, q).(incomplete := incomplete))
  {
    hide RequestOk, GraveyardOk, NamesOk;
    GraveyardPut(s, r, q);
    NamesPut(s, r, q);
    Like(Put(s, r, q), Put(s, r, q).(incomplete := incomplete));
  }

  lemma InvAccept(s: State)
    requires Inv(s) && s.alive
    ensures Inv(s.(reqs := s.reqs + [NEW]))
  {
    hide GraveyardOk, NamesOk;
    NamesNew(s);
    GraveyardNew(s);
  }

  lemma InvMakeNs(s: State, r: nat)
    requires Inv(s) && Enabled(s, MakeNs(r))
    ensures Inv(Next(s, MakeNs(r)))
  {
    hide GraveyardOk, NamesOk;
    NamesMade(s, r);
    var ns := (s.lastNs + 1) % WRAP;
    GraveyardPut(s, r, s.reqs[r].(ns := Some(ns)));
    Like(Put(s, r, s.reqs[r].(ns := Some(ns))), Next(s, MakeNs(r)));
  }

  lemma InvSocket(s: State, r: nat, t: Step)
    requires Inv(s) && Enabled(s, t) && (t == SockAccepted(r) || (t.SockFails? && t.r == r))
    ensures Inv(Next(s, t))
  {
    hide GraveyardOk, NamesOk;
    if t.SockFails? {
      FailsOk(s.reqs[r], Some(t.e));
    } else {
      MadeOk(s.reqs[r]);
    }
    InvPut(s, r, Next(s, t).reqs[r], s.incomplete);
  }

  lemma InvStarts(s: State, r: nat, t: Step)
    requires Inv(s) && Enabled(s, t) && (t == StartLogIn(r) || t == AcceptReturns(r))
    ensures Inv(Next(s, t))
  {
    hide RequestOk, GraveyardOk, NamesOk;
    var q := s.reqs[r];
    if t.StartLogIn? {
      StartedOk(q);
      InvPut(s, r, Next(s, t).reqs[r], s.incomplete + {r});
    } else {
      ReturnedOk(q);
      DropOk(q.(accepting := false), AcceptLocal, Acceptor);
      InvPut(s, r, Next(s, t).reqs[r], s.incomplete);
    }
  }

  /** The log-in handler finds its session, and finds it in the incomplete set. */
  lemma InvLogIn(s: State, r: nat, t: Step)
    requires Inv(s) && Enabled(s, t) && ((t.LogInDone? && t.r == r) || t == Erase(r))
    ensures Inv(Next(s, t))
  {
    hide RequestOk, GraveyardOk, NamesOk;
    var q := s.reqs[r];
    if t.LogInDone? {
      LockedOk(q, t.result);
      InvPut(s, r, Next(s, t).reqs[r], s.incomplete);
    } else {
      ErasedOk(q);
      DropOk(q.(stage := Erased(q.stage.result)), IncompleteSet, OwnWorker);
      InvPut(s, r, Next(s, t).reqs[r], s.incomplete - {r});
    }
  }

  lemma InvPosted(s: State, r: nat, q: Request)
    requires Inv(s) && s.alive && r < |s.reqs| && RequestOk(q) && q.ns == s.reqs[r].ns
    requires !InSet(s.reqs[r]) && !InSet(q)
    requires GraveyardTask !in s.reqs[r].owners && GraveyardTask in q.owners
    ensures Inv(Put(s, r, q).(graveyard := s.graveyard + [r]))
  {
    hide RequestOk, GraveyardOk, NamesOk;
    GraveyardPosted(s, r, q);
    NamesPut(s, r, q);
    Like(Put(s, r, q), Put(s, r, q).(graveyard := s.graveyard + [r]));
  }

  lemma InvHandOver(s: State, r: nat)
    requires Inv(s) && Enabled(s, HandOver(r))
    ensures Inv(Next(s, HandOver(r)))
  {
    hide GraveyardOk, NamesOk;
    var q := s.reqs[r];
    assert GraveyardTask !in q.owners;
    HandedOk(q);
    var q' := Next(s, HandOver(r)).reqs[r];
    if q.stage.result.Some? {
      DropOk(Gain(q.(stage := Handed(q.stage.result)), GraveyardTask), HandlerLocal, OwnWorker);
      InvPosted(s, r, q');
    } else {
      InvPut(s, r, q', s.incomplete);
    }
  }

  lemma InvFinish(s: State, r: nat)
    requires Inv(s) && Enabled(s, Step.Finish(r))
    ensures Inv(Next(s, Step.Finish(r)))
  {
    hide RequestOk, GraveyardOk, NamesOk;
    FinishedOk(s.reqs[r]);
    InvPut(s, r, Next(s, Step.Finish(r)).reqs[r], s.incomplete);
  }

  lemma InvBury(s: State)
    requires Inv(s) && Enabled(s, Bury)
    ensures Inv(Next(s, Bury))
  {
    hide NamesOk, RequestOk;
    var r := s.graveyard[0];
    var q := Drop(s.reqs[r], GraveyardTask, Graveyard);
    assert r in s.graveyard;
    BuriedOk(s.reqs[r]);
    DropOk(s.reqs[r], GraveyardTask, Graveyard);
    GraveyardBuried(s, q);
    NamesPut(s, r, q);
    Like(Put(s, r, q), Next(s, Bury));
  }

  lemma InvUserDrops(s: State, r: nat)
    requires Inv(s) && Enabled(s, UserDrops(r))
    ensures Inv(Next(s, UserDrops(r)))
  {
    hide RequestOk, GraveyardOk, NamesOk;
    UserDropsOk(s.reqs[r]);
    DropOk(s.reqs[r], Target, User);
    InvPut(s, r, Next(s, UserDrops(r)).reqs[r], s.incomplete);
  }

  lemma InvAborted(s: State)
    requires Inv(s) && Enabled(s, Destroy)
    ensures Inv(Aborted(s, User))
  {
    hide NamesOk, RequestOk;
    NamesAborted(s);
    forall r | 0 <= r < |s.reqs|
      ensures var q := Abort(s.reqs[r], User);
              RequestOk(q) && q.stage == Stage.Finished && !q.accepting && GraveyardTask !in q.owners
    {
      assert !HalfWay(s, r);
      AbortOk(s.reqs[r]);
    }
  }

  lemma InvStep(s: State, t: Step)
    requires Inv(s) && Enabled(s, t)
    ensures Inv(Next(s, t))
  {
    hide Inv;
    match t
    case AsyncAccept => InvAccept(s);
    case SockFails(r, _) => InvSocket(s, r, t);
    case SockAccepted(r) => InvSocket(s, r, t);
    case StartLogIn(r) => InvStarts(s, r, t);
    case AcceptReturns(r) => InvStarts(s, r, t);
    case MakeNs(r) => InvMakeNs(s, r);
    case LogInDone(r, _) => InvLogIn(s, r, t);
    case Erase(r) => InvLogIn(s, r, t);
    case HandOver(r) => InvHandOver(s, r);
    case Finish(r) => InvFinish(s, r);
    case Bury => InvBury(s);
    case UserDrops(r) => InvUserDrops(s, r);
    case Destroy => InvAborted(s);
  }

  lemma {:induction false} InvInRuns(states: seq<State>, steps: seq<Step>, i: nat)
    requires Run(states, steps) && i < |states|
    ensures Inv(states[i])
  {
    hide Next, Enabled;
    if i > 0 {
      InvInRuns(states, steps, i - 1);
      InvStep(states[i - 1], steps[i - 1]);
    }
  }

  // ----- What the user and the server can count on -----

  /** Each accept's handler runs at most once, and has run when the destructor is done; the session is the user's only if
      it was called with success, and then until the user drops it; the incomplete set holds exactly the sessions whose
      log-in is not through, so that taking one out always succeeds. */
  lemma {:induction false} HandlersOnce(states: seq<State>, steps: seq<Step>, i: nat)
    requires Run(states, steps) && i < |states|
    ensures var s := states[i];
            && !s.eraseFailed
            && (forall r: nat :: r in s.incomplete <==>
                  r < |s.reqs| && (s.reqs[r].stage == LoggingIn || s.reqs[r].stage.Handling?))
            && forall r :: 0 <= r < |s.reqs| ==>
                 && |s.reqs[r].calls| <= 1
                 && (!s.alive ==> |s.reqs[r].calls| == 1)
                 && (s.reqs[r].calls == [None] ==>
                       s.reqs[r].owners == {Target} || (s.reqs[r].owners == {} && s.reqs[r].released == Some(User)))
                 && (s.reqs[r].calls != [] && s.reqs[r].calls != [None] ==> Target !in s.reqs[r].owners)
  {
    InvInRuns(states, steps, i);
    forall r | 0 <= r < |states[i].reqs| && states[i].reqs[r].calls == [None]
      ensures states[i].reqs[r].owners <= {Target}
    {
      UsersOnly(states[i].reqs[r]);
    }
  }

  lemma UsersOnly(q: Request)
    requires RequestOk(q) && q.calls == [None]
    ensures q.owners <= {Target}
  {
    forall o | o in q.owners ensures o == Target {
      match o
      case AcceptLocal =>
      case IncompleteSet =>
      case HandlerLocal =>
      case GraveyardTask =>
      case Target =>
    }
  }

  /** The steps up to the log-in; the others are those of the log-in handler, and what follows. */
  predicate UpToLogIn(t: Step) {
    t.AsyncAccept? || t.SockFails? || t.SockAccepted? || t.StartLogIn? || t.AcceptReturns? || t.MakeNs?
  }

  /** What a step leaves of a request. */
  ghost predicate Stays(q: Request, q': Request) {
    q.calls <= q'.calls && (q.ns.Some? ==> q'.ns == q.ns)
  }

  lemma CallsStay(s: State, t: Step, r: nat)
    requires Enabled(s, t) && r < |s.reqs|
    ensures r < |Next(s, t).reqs| && Stays(s.reqs[r], Next(s, t).reqs[r])
  {
    hide Next, Stays;
    if t.Destroy? {
      AbortCalls(s, r);
    } else if UpToLogIn(t) {
      CallsBefore(s, t, r);
    } else {
      CallsAfter(s, t, r);
    }
  }

  lemma AbortCalls(s: State, r: nat)
    requires r < |s.reqs| && Enabled(s, Destroy)
    ensures var s' := Next(s, Destroy); r < |s'.reqs| && Stays(s.reqs[r], s'.reqs[r])
  {
  }

  lemma CallsBefore(s: State, t: Step, r: nat)
    requires Enabled(s, t) && r < |s.reqs| && UpToLogIn(t)
    ensures r < |Next(s, t).reqs| && Stays(s.reqs[r], Next(s, t).reqs[r])
  {
  }

  lemma CallsAfter(s: State, t: Step, r: nat)
    requires Enabled(s, t) && r < |s.reqs| && !UpToLogIn(t) && !t.Destroy?
    ensures r < |Next(s, t).reqs| && Stays(s.reqs[r], Next(s, t).reqs[r])
  {
    hide HandOverSession, Drop, Lock;
    OwnersOnly();
    if t.HandOver? {
      CallsHandedOver(s, t.r, r);
    }
  }

  lemma OwnersOnly()
    ensures forall q, o, on ::
              Drop(q, o, on).calls == q.calls && Drop(q, o, on).ns == q.ns && Drop(q, o, on).stage == q.stage
    ensures forall q :: Lock(q).calls == q.calls && Lock(q).ns == q.ns && Lock(q).stage == q.stage
  {
  }

  lemma CallsHandedOver(s: State, k: nat, r: nat)
    requires k < |s.reqs| && s.reqs[k].stage.Erased? && r < |s.reqs|
    ensures var s' := HandOverSession(s, k, OwnWorker); r < |s'.reqs| && Stays(s.reqs[r], s'.reqs[r])
  {
  }

  /** What a handler was called with stays. */
  lemma {:induction false} CallsStayInRuns(states: seq<State>, steps: seq<Step>, i: nat, j: nat, r: nat)
    requires Run(states, steps) && i <= j < |states| && r < |states[i].reqs|
    ensures r < |states[j].reqs| && states[i].reqs[r].calls <= states[j].reqs[r].calls
  {
    hide Next, Enabled;
    if i < j {
      CallsStayInRuns(states, steps, i, j - 1, r);
      CallsStay(states[j - 1], steps[j - 1], r);
    }
  }

  // ----- What the handlers are told -----

  /** The result of the accept, once its log-in handler knows it, or its user's handler was called. */
  function Telling(q: Request): Option<Result> {
    match q.stage
    case Handling(result) => Some(result)
    case Erased(result) => Some(result)
    case Handed(result) => Some(result)
    case _ => if q.calls != [] then Some(q.calls[0]) else None
  }

  /** The step in which the result of an accept comes about: its socket fails, its log-in ends, or the server goes. */
  ghost predicate Brings(t: Step, r: nat, result: Result) {
    || (t.SockFails? && t.r == r && result == Some(t.e))
    || t == LogInDone(r, result)
    || (t.Destroy? && result == ABORTED)
  }

  /** Between the first `i` steps and the request: the result it has comes from a step; and a result that a step brought
      about has stayed. */
  ghost predicate Traced(steps: seq<Step>, i: nat, r: nat, q: Request)
    requires i <= |steps|
  {
    && (Telling(q).Some? ==> exists j :: 0 <= j < i && Brings(steps[j], r, Telling(q).value))
    && (forall j :: 0 <= j < i && steps[j].SockFails? && steps[j].r == r ==> q.calls == [Some(steps[j].e)])
    && (forall j :: 0 <= j < i && steps[j].LogInDone? && steps[j].r == r ==> Telling(q) == Some(steps[j].result))
  }

  /** How a step changes what a request tells. */
  ghost predicate ToldChange(q: Request, t: Step, r: nat, q': Request) {
    && (Telling(q).Some? ==> Telling(q') == Telling(q))
    && (q.calls != [] ==> q'.calls == q.calls)
    && (Telling(q).None? && Telling(q').Some? ==> Brings(t, r, Telling(q').value))
    && (t.SockFails? && t.r == r ==> q'.calls == [Some(t.e)])
    && (t.LogInDone? && t.r == r ==> Telling(q') == Some(t.result))
  }

  lemma ToldStep(s: State, t: Step, r: nat)
    requires Inv(s) && Enabled(s, t) && r < |s.reqs|
    ensures r < |Next(s, t).reqs| && ToldChange(s.reqs[r], t, r, Next(s, t).reqs[r])
  {
    hide Next, Inv, ToldChange;
    if t.Destroy? {
      ToldAtEnd(s, r);
    } else if UpToLogIn(t) {
      ToldBefore(s, t, r);
    } else if t.HandOver? {
      ToldHandedOver(s, t.r, r);
    } else {
      ToldAfter(s, t, r);
    }
  }

  lemma ToldAtEnd(s: State, r: nat)
    requires Inv(s) && Enabled(s, Destroy) && r < |s.reqs|
    ensures r < |Next(s, Destroy).reqs| && ToldChange(s.reqs[r], Destroy, r, Next(s, Destroy).reqs[r])
  {
    hide NamesOk, GraveyardOk, Drop;
    OwnersOnly();
    assert !HalfWay(s, r);
  }

  lemma ToldBefore(s: State, t: Step, r: nat)
    requires Inv(s) && Enabled(s, t) && r < |s.reqs| && UpToLogIn(t)
    ensures r < |Next(s, t).reqs| && ToldChange(s.reqs[r], t, r, Next(s, t).reqs[r])
  {
    hide NamesOk, GraveyardOk, Drop;
    OwnersOnly();
  }

  lemma ToldAfter(s: State, t: Step, r: nat)
    requires Inv(s) && Enabled(s, t) && r < |s.reqs| && !UpToLogIn(t) && !t.HandOver? && !t.Destroy?
    ensures r < |Next(s, t).reqs| && ToldChange(s.reqs[r], t, r, Next(s, t).reqs[r])
  {
    hide NamesOk, GraveyardOk, Drop, Lock;
    OwnersOnly();
  }

  lemma ToldHandedOver(s: State, k: nat, r: nat)
    requires Inv(s) && Enabled(s, HandOver(k)) && r < |s.reqs|
    ensures r < |Next(s, HandOver(k)).reqs| && ToldChange(s.reqs[r], HandOver(k), r, Next(s, HandOver(k)).reqs[r])
  {
    hide NamesOk, GraveyardOk, Drop;
    OwnersOnly();
  }

  lemma Untouched(s: State, t: Step)
    requires Enabled(s, t)
    ensures |s.reqs| <= |Next(s, t).reqs|
    ensures (t.SockFails? || t.LogInDone?) ==> t.r < |s.reqs|
    ensures forall r :: |s.reqs| <= r < |Next(s, t).reqs| ==> Next(s, t).reqs[r] == NEW
  {
  }

  lemma {:induction false} CountGrows(states: seq<State>, steps: seq<Step>, j: nat, i: nat)
    requires Run(states, steps) && j <= i < |states|
    ensures |states[j].reqs| <= |states[i].reqs|
  {
    hide Next, Enabled;
    if j < i {
      CountGrows(states, steps, j, i - 1);
      Untouched(states[i - 1], steps[i - 1]);
    }
  }

  lemma {:induction false} TracedInRuns(states: seq<State>, steps: seq<Step>, i: nat, r: nat)
    requires Run(states, steps) && i < |states| && r < |states[i].reqs|
    ensures Traced(steps, i, r, states[i].reqs[r])
  {
    hide Next, Enabled, Brings;
    var s, t := states[i - 1], steps[i - 1];
    if r < |s.reqs| {
      TracedInRuns(states, steps, i - 1, r);
      InvInRuns(states, steps, i - 1);
      ToldStep(s, t, r);
    } else {
      forall j | 0 <= j < i ensures !((steps[j].SockFails? || steps[j].LogInDone?) && steps[j].r == r) {
        CountGrows(states, steps, j, i - 1);
        Untouched(states[j], steps[j]);
      }
      Untouched(s, t);
    }
  }

  /** What an accept's handler is called with is what a step brought about: the error of its socket; the result of its
      log-in; or the shutdown code, when the server went before either. */
  lemma {:induction false} CalledWithResult(states: seq<State>, steps: seq<Step>, i: nat, r: nat)
    requires Run(states, steps) && i < |states| && r < |states[i].reqs| && states[i].reqs[r].calls != []
    ensures |states[i].reqs[r].calls| == 1
    ensures var result := states[i].reqs[r].calls[0];
            && (exists j :: 0 <= j < i && Brings(steps[j], r, result))
            && (forall j :: 0 <= j < i && steps[j].SockFails? && steps[j].r == r ==> result == Some(steps[j].e))
            && (forall j :: 0 <= j < i && steps[j].LogInDone? && steps[j].r == r ==> result == steps[j].result)
  {
    hide Brings;
    InvInRuns(states, steps, i);
    TracedInRuns(states, steps, i, r);
    var q := states[i].reqs[r];
    assert RequestOk(q);
    assert q.calls == [q.calls[0]] && Telling(q) == Some(q.calls[0]);
  }

  // ----- Owners -----

  /** A session is released in a step exactly if that step takes away its last owner, and then on the thread of the step;
      once released it stays so. */
  lemma {:induction false} ReleasedWithLastOwner(states: seq<State>, steps: seq<Step>, i: nat, r: nat)
    requires Run(states, steps) && i < |steps| && r < |states[i].reqs|
    ensures r < |states[i + 1].reqs|
    ensures var q, q' := states[i].reqs[r], states[i + 1].reqs[r];
            && (q.owners != {} && q'.owners == {} ==> q.released.None? && q'.released == Some(ThreadOf(steps[i])))
            && (q.owners == {} || q'.owners != {} ==> q'.released == q.released)
            && (q.released.Some? ==> q'.owners == {})
  {
    hide Next, Enabled;
    InvInRuns(states, steps, i);
    ReleasedStep(states[i], steps[i], r);
    OwnersReleased(states[i], r);
  }

  lemma OwnersReleased(s: State, r: nat)
    requires Inv(s) && r < |s.reqs|
    ensures s.reqs[r].owners != {} ==> s.reqs[r].released.None?
  {
  }

  /** How the release of a session goes with its owners. */
  ghost predicate ReleaseOk(q: Request, q': Request, on: Thread) {
    && (q.owners != {} && q'.owners == {} ==> q'.released == Some(on))
    && (q.owners == {} || q'.owners != {} ==> q'.released == q.released)
    && (q.released.Some? ==> q'.owners == {})
  }

  lemma ReleasedStep(s: State, t: Step, r: nat)
    requires Inv(s) && Enabled(s, t) && r < |s.reqs|
    ensures r < |Next(s, t).reqs| && ReleaseOk(s.reqs[r], Next(s, t).reqs[r], ThreadOf(t))
  {
    hide Next, Inv, ReleaseOk;
    if t.Destroy? {
      ReleasedAtEnd(s, r);
    } else if UpToLogIn(t) {
      ReleasedBefore(s, t, r);
    } else {
      ReleasedAfter(s, t, r);
    }
  }

  lemma ReleasedAtEnd(s: State, r: nat)
    requires Inv(s) && Enabled(s, Destroy) && r < |s.reqs|
    ensures r < |Next(s, Destroy).reqs| && ReleaseOk(s.reqs[r], Next(s, Destroy).reqs[r], User)
  {
    hide NamesOk;
    assert !HalfWay(s, r);
  }

  lemma ReleasedBefore(s: State, t: Step, r: nat)
    requires Inv(s) && Enabled(s, t) && r < |s.reqs| && UpToLogIn(t)
    ensures r < |Next(s, t).reqs| && ReleaseOk(s.reqs[r], Next(s, t).reqs[r], ThreadOf(t))
  {
    hide NamesOk;
  }

  lemma ReleasedAfter(s: State, t: Step, r: nat)
    requires Inv(s) && Enabled(s, t) && r < |s.reqs| && !UpToLogIn(t) && !t.Destroy?
    ensures r < |Next(s, t).reqs| && ReleaseOk(s.reqs[r], Next(s, t).reqs[r], ThreadOf(t))
  {
    hide NamesOk, HandOverSession;
    if t.HandOver? {
      ReleasedHandedOver(s, t.r, r);
    }
  }

  lemma ReleasedHandedOver(s: State, k: nat, r: nat)
    requires Inv(s) && k < |s.reqs| && s.reqs[k].stage.Erased? && r < |s.reqs|
    ensures var s' := HandOverSession(s, k, OwnWorker);
            r < |s'.reqs| && ReleaseOk(s.reqs[r], s'.reqs[r], OwnWorker)
  {
    hide NamesOk, GraveyardOk;
  }

  /** Both weak pointers taken of a session logging in find it: the one of the set-up hook, which follows the making of the
      namespace, as the incomplete set has the session, and the one of the log-in handler, which has it from then on. */
  lemma {:induction false} SessionFound(states: seq<State>, steps: seq<Step>, i: nat, r: nat)
    requires Run(states, steps) && i < |steps|
    ensures steps[i] == MakeNs(r) ==> r < |states[i + 1].reqs| && IncompleteSet in states[i + 1].reqs[r].owners
    ensures steps[i].LogInDone? && steps[i].r == r ==>
              && r < |states[i + 1].reqs| && IncompleteSet in states[i].reqs[r].owners
              && HandlerLocal in states[i + 1].reqs[r].owners
  {
    hide NamesOk, GraveyardOk;
    InvInRuns(states, steps, i);
  }

  /** The log-in handler hands a failed session over while it holds it: its own variable lets go only when the task posted
      to the graveyard thread has the session. */
  lemma {:induction false} HandedOver(states: seq<State>, steps: seq<Step>, i: nat, r: nat)
    requires Run(states, steps) && i < |steps| && steps[i] == HandOver(r)
    ensures r < |states[i].reqs| && r < |states[i + 1].reqs| && states[i].reqs[r].stage.Erased?
    ensures var q, q' := states[i].reqs[r], states[i + 1].reqs[r];
            && HandlerLocal in q.owners && HandlerLocal !in q'.owners && IncompleteSet !in q.owners
            && (q.stage.result.Some? ==>
                  GraveyardTask in q'.owners && r in states[i + 1].graveyard && Target !in q'.owners)
            && (q.stage.result.None? ==> q'.owners == {Target})
  {
    InvInRuns(states, steps, i);
    InvInRuns(states, steps, i + 1);
  }

  /** The worker thread of a session never takes away its last owner: released there, the session would wait for the
      thread it is on. */
  lemma {:induction false} FailedNotOnOwnWorker(states: seq<State>, steps: seq<Step>, i: nat, r: nat)
    requires Run(states, steps) && i < |states| && r < |states[i].reqs|
    ensures states[i].reqs[r].released != Some(OwnWorker)
    ensures i < |steps| && ThreadOf(steps[i]) == OwnWorker && states[i].reqs[r].owners != {} ==>
              r < |states[i + 1].reqs| && states[i + 1].reqs[r].owners != {}
  {
    InvInRuns(states, steps, i);
    if i < |steps| {
      InvInRuns(states, steps, i + 1);
      ReleasedWithLastOwner(states, steps, i, r);
    }
  }

  /** Without the graveyard thread every failed session still has its task there. */
  ghost predicate Unburied(s: State) {
    s.alive && !s.graveyardRuns ==>
      forall r :: 0 <= r < |s.reqs| && s.reqs[r].session && Failed(s.reqs[r]) ==> GraveyardTask in s.reqs[r].owners
  }

  lemma UnburiedStep(s: State, t: Step)
    requires Inv(s) && Unburied(s) && Enabled(s, t)
    ensures Unburied(Next(s, t)) && Next(s, t).graveyardRuns == s.graveyardRuns
  {
    hide NamesOk, GraveyardOk, HandOverSession;
    if t.HandOver? {
      UnburiedHandedOver(s, t.r);
    } else if t.Destroy? {
      assert !Next(s, t).alive;
    } else if UpToLogIn(t) {
      hide Next;
      UnburiedBefore(s, t);
    } else {
      hide Next;
      UnburiedAfter(s, t);
    }
  }

  lemma UnburiedBefore(s: State, t: Step)
    requires Inv(s) && Unburied(s) && Enabled(s, t) && UpToLogIn(t)
    ensures Unburied(Next(s, t)) && Next(s, t).graveyardRuns == s.graveyardRuns
  {
    hide NamesOk, GraveyardOk;
  }

  lemma UnburiedAfter(s: State, t: Step)
    requires Inv(s) && Unburied(s) && Enabled(s, t) && !UpToLogIn(t) && !t.HandOver? && !t.Destroy?
    ensures Unburied(Next(s, t)) && Next(s, t).graveyardRuns == s.graveyardRuns
  {
    hide NamesOk, GraveyardOk;
  }

  lemma UnburiedHandedOver(s: State, k: nat)
    requires Inv(s) && Unburied(s) && k < |s.reqs| && s.reqs[k].stage.Erased?
    ensures var s' := HandOverSession(s, k, OwnWorker); Unburied(s') && s'.graveyardRuns == s.graveyardRuns
  {
    hide NamesOk, GraveyardOk;
  }

  lemma {:induction false} UnburiedInRuns(states: seq<State>, steps: seq<Step>, i: nat)
    requires Run(states, steps) && i < |states|
    ensures Unburied(states[i]) && states[i].graveyardRuns == states[0].graveyardRuns
  {
    hide Next, Enabled;
    if i > 0 {
      UnburiedInRuns(states, steps, i - 1);
      InvInRuns(states, steps, i - 1);
      UnburiedStep(states[i - 1], steps[i - 1]);
    }
  }

  /** While the server lives, its graveyard thread has caught up and the accept handler has returned: a failed session is
      released if that thread was started (the constructor was given a place for an error code), and is not otherwise. */
  lemma {:induction false} ReleasedExactly(states: seq<State>, steps: seq<Step>, i: nat, r: nat)
    requires Run(states, steps) && i < |states| && states[i].alive && !Enabled(states[i], Bury)
    requires r < |states[i].reqs| && states[i].reqs[r].session && Failed(states[i].reqs[r])
    requires !states[i].reqs[r].accepting
    ensures states[i].reqs[r].released.Some? <==> states[0].graveyardRuns
  {
    InvInRuns(states, steps, i);
    UnburiedInRuns(states, steps, i);
    if states[0].graveyardRuns {
      assert states[i].graveyard == [];
      NoOwnerLeft(states[i].reqs[r]);
    }
  }

  lemma NoOwnerLeft(q: Request)
    requires RequestOk(q) && q.session && Failed(q) && !q.accepting && GraveyardTask !in q.owners
    ensures q.owners == {} && q.released.Some?
  {
    forall o | o in q.owners ensures false {
      match o
      case AcceptLocal =>
      case IncompleteSet =>
      case HandlerLocal =>
      case GraveyardTask =>
      case Target =>
    }
  }

  /** After the destructor no session object of a failed or aborted accept is left; one of a successful accept is the
      user's. */
  lemma {:induction false} AllReleased(states: seq<State>, steps: seq<Step>, i: nat, r: nat)
    requires Run(states, steps) && i < |states| && !states[i].alive
    requires r < |states[i].reqs| && states[i].reqs[r].session
    ensures states[i].reqs[r].calls != [None] ==> states[i].reqs[r].owners == {} && states[i].reqs[r].released.Some?
    ensures states[i].reqs[r].released.Some? || states[i].reqs[r].owners == {Target}
  {
    InvInRuns(states, steps, i);
    var q := states[i].reqs[r];
    if q.calls == [None] {
      UsersOnly(q);
    } else {
      NoOwnerLeft(q);
    }
  }

  /** The only accept of a server. */
  function Single(q: Request, incomplete: set<nat>, graveyard: seq<nat>, graveyardRuns: bool): State {
    State([q], incomplete, 0, graveyard, graveyardRuns, true, [], false)
  }

  lemma SingleStep(s: State, t: Step, q: Request, incomplete: set<nat>, graveyard: seq<nat>)
    requires |s.reqs| == 1 && s.lastNs == 0 && s.alive && s.made == [] && !s.eraseFailed
    requires Enabled(s, t) && Next(s, t).incomplete == incomplete
    requires |Next(s, t).reqs| == 1 && Next(s, t).reqs[0].owners == q.owners && Next(s, t).reqs[0] == q
    requires Next(s, t).graveyard == graveyard && (t.Erase? ==> t.r in s.incomplete) && !t.MakeNs? && !t.Destroy?
    ensures Next(s, t) == Single(q, incomplete, graveyard, s.graveyardRuns)
  {
  }

  /** One more step. */
  lemma Extend(states: seq<State>, steps: seq<Step>, t: Step) returns (states': seq<State>, steps': seq<Step>)
    requires Run(states, steps) && Enabled(states[|steps|], t)
    ensures Run(states', steps') && states'[0] == states[0] && |steps'| == |steps| + 1
    ensures states'[|steps'|] == Next(states[|steps|], t)
  {
    hide Next, Enabled;
    states', steps' := states + [Next(states[|steps|], t)], steps + [t];
  }

  /** A log-in under way; the accept handler has not returned. */
  lemma LogInStarted(errCode: bool) returns (states: seq<State>, steps: seq<Step>)
    ensures Run(states, steps) && states[0].graveyardRuns == errCode
    ensures states[|steps|] ==
              Single(Request(LoggingIn, true, {AcceptLocal, IncompleteSet}, None, [], None, true), {0}, [], errCode)
  {
    var q1 := NEW;
    var s1 := Single(q1, {}, [], errCode);
    states, steps := [Initial(errCode), s1], [AsyncAccept];
    assert s1 == Next(states[0], AsyncAccept);
    var q2 := Request(Made, true, {AcceptLocal}, None, [], None, true);
    SingleStep(s1, SockAccepted(0), q2, {}, []);
    states, steps := Extend(states, steps, SockAccepted(0));
    var q3 := q2.(stage := LoggingIn, owners := {AcceptLocal, IncompleteSet});
    SingleStep(states[|steps|], StartLogIn(0), q3, {0}, []);
    states, steps := Extend(states, steps, StartLogIn(0));
  }

  /** That log-in fails, and the session is out of the set. */
  lemma ErasedLogIn(e: Error, errCode: bool) returns (states: seq<State>, steps: seq<Step>)
    requires e != ShutdownAborted
    ensures Run(states, steps) && states[0].graveyardRuns == errCode
    ensures states[|steps|] == Single(Request(Erased(Some(e)), true, {AcceptLocal, HandlerLocal}, None, [], None, true),
                                      {}, [], errCode)
  {
    hide Run;
    var q3 := Request(LoggingIn, true, {AcceptLocal, IncompleteSet}, None, [], None, true);
    states, steps := LogInStarted(errCode);
    var q4 := q3.(stage := Handling(Some(e)), owners := {AcceptLocal, IncompleteSet, HandlerLocal});
    SingleStep(Single(q3, {0}, [], errCode), LogInDone(0, Some(e)), q4, {0}, []);
    states, steps := Extend(states, steps, LogInDone(0, Some(e)));
    var q5 := q4.(stage := Erased(Some(e)), owners := {AcceptLocal, HandlerLocal});
    SingleStep(Single(q4, {0}, [], errCode), Erase(0), q5, {}, []);
    states, steps := Extend(states, steps, Erase(0));
  }

  /** It is handed over, and the user told. */
  lemma FailedLogIn(e: Error, errCode: bool) returns (states: seq<State>, steps: seq<Step>)
    requires e != ShutdownAborted
    ensures Run(states, steps) && states[0].graveyardRuns == errCode
    ensures states[|steps|]
            == Single(Request(Stage.Finished, true, {AcceptLocal, GraveyardTask}, None, [Some(e)], None, true),
                      {}, [0], errCode)
  {
    hide Run;
    var q5 := Request(Erased(Some(e)), true, {AcceptLocal, HandlerLocal}, None, [], None, true);
    states, steps := ErasedLogIn(e, errCode);
    var q6 := q5.(stage := Handed(Some(e)), owners := {AcceptLocal, GraveyardTask});
    SingleStep(Single(q5, {}, [], errCode), HandOver(0), q6, {}, [0]);
    states, steps := Extend(states, steps, HandOver(0));
    var q7 := q6.(stage := Stage.Finished, calls := [Some(e)]);
    SingleStep(Single(q6, {}, [0], errCode), Step.Finish(0), q7, {}, [0]);
    states, steps := Extend(states, steps, Step.Finish(0));
  }

  /** A server whose graveyard thread was not started: a log-in has failed, its handler has run and every thread is at
      rest, and the session is still there. */
  lemma NeverReleased(e: Error) returns (states: seq<State>, steps: seq<Step>)
    requires e != ShutdownAborted
    ensures Run(states, steps) && !states[0].graveyardRuns
    ensures var s := states[|steps|];
            && s.alive && !Enabled(s, Bury) && |s.reqs| == 1 && !s.reqs[0].accepting
            && s.reqs[0].calls == [Some(e)] && s.reqs[0].session && s.reqs[0].released.None?
  {
    states, steps := FailedLogIn(e, false);
    assert GraveyardTask in states[|steps|].reqs[0].owners - {AcceptLocal};
    states, steps := Extend(states, steps, AcceptReturns(0));
  }

  /** The accept handler may be the last to let go: the log-in has failed and the graveyard thread is through before the
      handler that started the log-in returns. */
  lemma ReleasedByAcceptor(e: Error) returns (states: seq<State>, steps: seq<Step>)
    requires e != ShutdownAborted
    ensures Run(states, steps) && |states[|steps|].reqs| == 1 && states[|steps|].reqs[0].released == Some(Acceptor)
  {
    states, steps := FailedLogIn(e, true);
    states, steps := Extend(states, steps, Bury);
    states, steps := Extend(states, steps, AcceptReturns(0));
  }

  ghost predicate NamesDistinct(s: State) {
    forall q, r :: 0 <= q < r < |s.reqs| && s.reqs[q].ns.Some? && s.reqs[r].ns.Some? ==> s.reqs[q].ns != s.reqs[r].ns
  }

  /** No two sessions share a client namespace, if and only if the 64-bit counter has not gone round. */
  lemma {:induction false} NamesDistinctExactly(states: seq<State>, steps: seq<Step>, i: nat)
    requires Run(states, steps) && i < |states|
    ensures NamesDistinct(states[i]) <==> |states[i].made| <= WRAP
  {
    InvInRuns(states, steps, i);
    NamesDistinctIff(states[i]);
  }

  lemma NamesDistinctIff(s: State)
    requires NamesOk(s)
    ensures NamesDistinct(s) <==> |s.made| <= WRAP
  {
    if |s.made| <= WRAP {
      forall q, r | 0 <= q < r < |s.reqs| && s.reqs[q].ns.Some? && s.reqs[r].ns.Some?
        ensures s.reqs[q].ns != s.reqs[r].ns
      {
        var j :| 0 <= j < |s.made| && s.made[j] == q;
        var k :| 0 <= k < |s.made| && s.made[k] == r;
        Remainders(j + 1, k + 1);
      }
    } else {
      var a, b := s.made[0], s.made[WRAP];
      assert s.reqs[a].ns == Some(1 % WRAP) && s.reqs[b].ns == Some((WRAP + 1) % WRAP);
      assert (WRAP + 1) % WRAP == 1 % WRAP;
      assert a != b && s.reqs[a].ns == s.reqs[b].ns;
    }
  }

  lemma Remainders(j: nat, k: nat)
    requires 1 <= j <= WRAP && 1 <= k <= WRAP && j != k
    ensures j % WRAP != k % WRAP
  {
  }

  // ----- The object -----

  class Server {
    var reqs: seq<Request>
    var incompleteSessions: set<nat>
    var lastCliNamespace: nat
    var graveyard: seq<nat>
    var graveyardRuns: bool
    var alive: bool
    ghost var made: seq<nat>
    ghost var eraseFailed: bool

    ghost function View(): State
      reads this
    {
      State(reqs, incompleteSessions, lastCliNamespace, graveyard, graveyardRuns, alive, made, eraseFailed)
    }

    constructor (errCode: bool)
      ensures View() == Initial(errCode)
    {
      reqs, incompleteSessions, lastCliNamespace, graveyard := [], {}, 0, [];
      graveyardRuns, alive, made, eraseFailed := errCode, true, [], false;
    }

    method AsyncAccept() returns (r: nat)
      requires alive
      modifies this`reqs
      ensures View() == Next(old(View()), Step.AsyncAccept) && r == |old(reqs)|
    {
      r := |reqs|;
      reqs := reqs + [NEW];
    }

    /** The accept handler, first part: an error goes to the user; otherwise the session is made. */
    method OnSocket(r: nat, err: Option<Error>)
      requires At(View(), r, Listening)
      modifies this`reqs
      ensures View() == Next(old(View()), if err.Some? then SockFails(r, err.value) else SockAccepted(r))
    {
      if err.Some? {
        reqs := reqs[r := Call(reqs[r], err)];
        return;
      }
      reqs := reqs[r := Gain(reqs[r].(stage := Made, accepting := true, session := true), AcceptLocal)];
    }

    /** The accept handler, second part: the session goes into the set and starts its log-in. */
    method InsertIncomplete(r: nat)
      requires Enabled(View(), StartLogIn(r))
      modifies this`reqs, this`incompleteSessions
      ensures View() == Next(old(View()), StartLogIn(r))
    {
      incompleteSessions := incompleteSessions + {r};
      reqs := reqs[r := Gain(reqs[r].(stage := LoggingIn), IncompleteSet)];
    }

    /** The accept handler returns. */
    method ReturnFromAccept(r: nat)
      requires Enabled(View(), AcceptReturns(r))
      modifies this`reqs
      ensures View() == Next(old(View()), AcceptReturns(r))
    {
      reqs := reqs[r := Drop(reqs[r].(accepting := false), AcceptLocal, Acceptor)];
    }

    method CliNamespace(r: nat) returns (ns: nat)
      requires Enabled(View(), MakeNs(r))
      modifies this`lastCliNamespace, this`reqs, this`made
      ensures View() == Next(old(View()), MakeNs(r)) && ns == lastCliNamespace
    {
      lastCliNamespace := (lastCliNamespace + 1) % WRAP;
      ns := lastCliNamespace;
      reqs := reqs[r := reqs[r].(ns := Some(ns))];
      made := made + [r];
    }

    /** The log-in handler locks its weak pointer. */
    method LockSession(r: nat, result: Result)
      requires Enabled(View(), LogInDone(r, result))
      modifies this`reqs
      ensures View() == Next(old(View()), LogInDone(r, result))
    {
      reqs := reqs[r := Lock(reqs[r].(stage := Handling(result)))];
    }

    /** The log-in handler takes its session out of the set, which succeeds. */
    method EraseIncomplete(r: nat) returns (erasedOk: bool)
      requires Enabled(View(), Erase(r))
      modifies this`reqs, this`incompleteSessions, this`eraseFailed
      ensures View() == Next(old(View()), Erase(r))
      ensures old(Inv(View())) ==> erasedOk && reqs[r].owners != {}
    {
      assert Inv(View()) ==> RequestOk(reqs[r]) && r in incompleteSessions;
      assert RequestOk(reqs[r]) ==> HandlerLocal in reqs[r].owners - {IncompleteSet};
      erasedOk := r in incompleteSessions;
      eraseFailed := eraseFailed || !erasedOk;
      incompleteSessions := incompleteSessions - {r};
      reqs := reqs[r := Drop(reqs[r].(stage := Erased(reqs[r].stage.result)), IncompleteSet, OwnWorker)];
    }

    /** The log-in handler gives a failed session to the graveyard thread, which is an owner before the handler's variable
        ceases to be one, and a good one to the user. */
    method HandOverSession(r: nat)
      requires Enabled(View(), HandOver(r))
      modifies this`reqs, this`graveyard
      ensures View() == Next(old(View()), HandOver(r))
    {
      var result := reqs[r].stage.result;
      reqs := reqs[r := reqs[r].(stage := Handed(result))];
      if result.Some? {
        graveyard := graveyard + [r];
        reqs := reqs[r := Gain(reqs[r], GraveyardTask)];
        reqs := reqs[r := Drop(reqs[r], HandlerLocal, OwnWorker)];
        return;
      }
      reqs := reqs[r := Move(reqs[r])];
    }

    /** The log-in handler calls the user's. */
    method FinishLogIn(r: nat)
      requires Enabled(View(), Step.Finish(r))
      modifies this`reqs
      ensures View() == Next(old(View()), Step.Finish(r))
    {
      reqs := reqs[r := Call(reqs[r], reqs[r].stage.result)];
      reqs := reqs[r := Drop(reqs[r], HandlerLocal, OwnWorker)];
    }

    /** The graveyard thread runs its oldest task. */
    method RunGraveyardTask()
      requires Enabled(View(), Bury)
      modifies this`reqs, this`graveyard
      ensures View() == Next(old(View()), Bury)
    {
      var r := graveyard[0];
      graveyard := graveyard[1..];
      reqs := reqs[r := Drop(reqs[r], GraveyardTask, Graveyard)];
    }

    /** The graveyard's queue is dropped, each task with its session. */
    method DropGraveyard()
      requires forall r | r in graveyard :: r < |reqs|
      modifies this`graveyard, this`reqs
      ensures graveyard == [] && |reqs| == |old(reqs)|
      ensures forall k :: 0 <= k < |reqs| ==>
                reqs[k] == if k in old(graveyard) then Drop(old(reqs)[k], GraveyardTask, User) else old(reqs)[k]
    {
      ghost var was := reqs;
      while graveyard != []
        invariant |reqs| == |was|
        invariant forall r | r in graveyard :: r in old(graveyard) && r < |was|
        invariant forall k :: 0 <= k < |reqs| && k in old(graveyard) && k !in graveyard ==>
                    reqs[k] == Drop(was[k], GraveyardTask, User)
        invariant forall k :: 0 <= k < |reqs| ==>
                    reqs[k] == was[k] || (k in old(graveyard) && reqs[k] == Drop(was[k], GraveyardTask, User))
        decreases |graveyard|
      {
        var r := graveyard[0];
        assert r in graveyard && graveyard == [r] + graveyard[1..];
        graveyard := graveyard[1..];
        reqs := reqs[r := Drop(reqs[r], GraveyardTask, User)];
      }
    }

    /** The acceptor fires the handlers it still has. */
    method AbortListening()
      modifies this`reqs
      ensures |reqs| == |old(reqs)|
      ensures forall k :: 0 <= k < |reqs| ==>
                reqs[k] == if old(reqs)[k].stage == Listening then Call(old(reqs)[k], ABORTED) else old(reqs)[k]
    {
      var i := 0;
      while i < |reqs|
        invariant 0 <= i <= |reqs| == |old(reqs)|
        invariant forall k :: 0 <= k < i ==>
                    reqs[k] == if old(reqs)[k].stage == Listening then Call(old(reqs)[k], ABORTED) else old(reqs)[k]
        invariant forall k :: i <= k < |reqs| ==> reqs[k] == old(reqs)[k]
      {
        if reqs[i].stage == Listening {
          reqs := reqs[i := Call(reqs[i], ABORTED)];
        }
        i := i + 1;
      }
    }

    /** The incomplete sessions are let go, each firing its handler. */
    method DestroyIncomplete()
      requires forall r | r in incompleteSessions :: r < |reqs|
      modifies this`reqs, this`incompleteSessions
      ensures incompleteSessions == {} && |reqs| == |old(reqs)|
      ensures forall k :: 0 <= k < |reqs| ==>
                reqs[k] == if k in old(incompleteSessions) then Call(Drop(old(reqs)[k], IncompleteSet, User), ABORTED)
                           else old(reqs)[k]
    {
      ghost var was := reqs;
      while incompleteSessions != {}
        invariant incompleteSessions <= old(incompleteSessions) && |reqs| == |was|
        invariant forall k :: 0 <= k < |reqs| && k in old(incompleteSessions) && k !in incompleteSessions ==>
                    reqs[k] == Call(Drop(was[k], IncompleteSet, User), ABORTED)
        invariant forall k :: 0 <= k < |reqs| && (k !in old(incompleteSessions) || k in incompleteSessions) ==>
                    reqs[k] == was[k]
        decreases incompleteSessions
      {
        var r :| r in incompleteSessions;
        incompleteSessions := incompleteSessions - {r};
        reqs := reqs[r := Call(Drop(reqs[r], IncompleteSet, User), ABORTED)];
      }
    }

    /** The destructor: no handler is left waiting, and no failed session is left. */
    method Shutdown()
      requires Enabled(View(), Destroy) && Inv(View())
      modifies this
      ensures View() == Next(old(View()), Destroy)
    {
      ghost var s := View();
      DropGraveyard();
      AbortListening();
      DestroyIncomplete();
      alive := false;
      forall k | 0 <= k < |reqs| ensures reqs[k] == Abort(s.reqs[k], User) {
        assert !HalfWay(s, k);
        assert RequestOk(s.reqs[k]);
      }
      assert reqs == Aborted(s, User).reqs;
    }
  }
}
