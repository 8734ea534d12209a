/** Runs of one server session, against any client, any failures and any order of user calls. */
module ServerRuns {
  import opened MasterChannel
  import opened ServerModel

  datatype Step =
    | DoDeliver(m: Msg)
    | DoFail(e: Error)
    | DoTask(ops: Ops)
    | DoEndWait(end: WaitEnd)
    | DoInitHandlers(passiveEnabled: bool, late: Option<Error>)
    | DoMdt(made: bool)
    | DoOpen(b: nat, op: SendOp)
    | DoEnd(op: SendOp)
    | DoDestroy

  /** The user has the session object only after a successful log-in.  W does nothing else while it is blocked. */
  ghost predicate Enabled(s: Server, t: Step) {
    !s.dead && match t
    case DoDeliver(_) => Up(s.link)
    case DoFail(_) => Up(s.link)
    case DoTask(_) => s.sess.wait.NoWait? && s.link.queue != [] && WellFormedTask(s.link.queue[0])
    case DoEndWait(end) => s.sess.wait.OpenWait? || (s.sess.wait.AckWait? && !end.TimedOut?)
    case DoInitHandlers(_, _) => s.sess.wait.NoWait? && LoggedIn(s)
    case DoMdt(_) => s.sess.wait.NoWait? && LoggedIn(s)
    case DoOpen(b, _) => s.sess.wait.NoWait? && LoggedIn(s) && b < |s.mdts|
    case DoEnd(_) => s.sess.wait.NoWait? && LoggedIn(s) && s.sess.finisher
    case DoDestroy => s.sess.wait.NoWait?
  }

  ghost function Next(s: Server, t: Step): Server
    requires Enabled(s, t)
  {
    match t
    case DoDeliver(m) => Deliver(s, m)
    case DoFail(e) => s.(link := HoseAsync(s.link, e))
    case DoTask(ops) => RunTask(s, ops)
    case DoEndWait(end) => if s.sess.wait.AckWait? then AckUnanswered(s, end) else OpenUnanswered(s, end)
    case DoInitHandlers(pe, late) => InitHandlers(s, pe, late).0
    case DoMdt(made) => MdtBuilder(s, made)
    case DoOpen(b, op) => OpenStart(s, b, op).0
    case DoEnd(op) => SendEnd(s, op)
    case DoDestroy => Destroy(s)
  }

  ghost predicate Initial(s: Server) {
    s == Accepting(s.cfg, s.login.outCli, s.login.outSrv)
  }

  ghost predicate Run(states: seq<Server>, steps: seq<Step>) {
    && |states| == |steps| + 1
    && Initial(states[0])
    && forall i :: 0 <= i < |steps| ==> Enabled(states[i], steps[i]) && states[i + 1] == Next(states[i], steps[i])
  }

  // ----- Invariants -----

  ghost predicate ErrorQueued(l: Link) {
    exists i :: 0 <= i < |l.queue| && l.queue[i].ErrorTask?
  }

  ghost predicate OnlyErrors(l: Link, from: nat) {
    forall i :: from <= i < |l.queue| ==> l.queue[i].ErrorTask?
  }

  /** The channel reports failure once: a queued error means it is down (or destroyed), and no second one is queued. */
  ghost predicate ErrorsOk(l: Link) {
    && (Up(l) ==> !ErrorQueued(l))
    && (forall i, j :: 0 <= i < j < |l.queue| ==> !(l.queue[i].ErrorTask? && l.queue[j].ErrorTask?))
    && (forall i :: 0 <= i < |l.queue| ==> WellFormedTask(l.queue[i]))
  }

  /** The end message is expected, or was handed over. */
  predicate EndDue(ch: Chan) {
    ch.end == EndExpected || ch.end == EndTaken
  }

  /** The log-in handler is stored: then something is sure to run it, without the help of the client. */
  ghost predicate LoggingIn(l: Link, w: Wait) {
    || (l.queue == [StartTask] && l.chan.None? && w.NoWait?)
    || (l.chan.Some? && (Up(l) || ErrorQueued(l)) && !l.chan.value.opens && !EndDue(l.chan.value) &&
        (w.AckWait? ==> !l.chan.value.loginPending) &&
        (if w.NoWait? && !l.chan.value.loginPending && l.queue != [] && l.queue[0].LogInTask?
         then OnlyErrors(l, 1) else OnlyErrors(l, 0)))
  }

  /** The log-in handler has run: no task of the log-in phase is left. */
  ghost predicate LogInOver(l: Link, handlersSet: bool) {
    && (l.chan.Some? ==> !l.chan.value.loginPending)
    && (l.chan.None? ==> !handlersSet && OnlyErrors(l, 0))
    && (l.chan.Some? && l.chan.value.opens ==> handlersSet && l.chan.value.cache == [])
    && (l.chan.Some? && EndDue(l.chan.value) ==> handlersSet)
    && forall i :: 0 <= i < |l.queue| ==>
         && !l.queue[i].StartTask? && !l.queue[i].LogInTask?
         && (l.queue[i].OpenTask? || l.queue[i].PreInitTask? || l.queue[i].EndTask? ==> handlersSet)
  }

  ghost predicate PhaseOk(s: Server) {
    if s.dead then true
    else if s.login.onDone then
      && !s.sess.handlersSet && s.mdts == [] && !s.sess.wait.OpenWait? && s.sess.preInit.None?
      && LoggingIn(s.link, s.sess.wait)
    else
      && !s.sess.wait.AckWait? && (s.mdts != [] ==> s.sess.handlersSet)
      && LogInOver(s.link, s.sess.handlersSet)
  }

  ghost predicate PreInitOk(preInit: Option<Error>, l: Link) {
    preInit.Some? ==> l.chan.Some? && !Up(l) && !ErrorQueued(l)
  }

  /** The on-error handler runs at most once, last of all events, and only after the handlers are set. */
  ghost predicate SessOk(s: Sess) {
    && (forall i :: 0 <= i < |s.log| && s.log[i].OnError? ==> i == |s.log| - 1 && s.hosed == Some(s.log[i].e))
    && (s.hosed.Some? ==> s.log != [] && s.log[|s.log| - 1] == OnError(s.hosed.value) && s.wait.NoWait?)
    && (!s.handlersSet ==> s.log == [] && s.hosed.None? && !s.wait.OpenWait? && !s.finisher)
  }

  /** The finisher is there from the setting of the handlers on, except after a cached error, which no other follows. */
  ghost predicate FinisherOk(s: Server) {
    s.cfg.graceful && s.sess.handlersSet && s.sess.preInit.None? ==> s.sess.finisher
  }

  /** The log-in handler runs exactly once: it has, or it is stored; after the destructor it has. */
  ghost predicate LogInOnce(s: Server) {
    && |s.login.dones| == (if s.login.onDone then 0 else 1)
    && (s.dead ==> !s.login.onDone)
  }

  ghost predicate Inv(s: Server) {
    && LogInOnce(s) && ErrorsOk(s.link) && PhaseOk(s) && PreInitOk(s.sess.preInit, s.link) && SessOk(s.sess)
    && FinisherOk(s) && s.faults == {}
  }

  // ----- Steps -----

  lemma HoseQueues(l: Link, e: Error)
    requires l.chan.Some?
    ensures ErrorQueued(HoseAsync(l, e))
  {
    assert HoseAsync(l, e).queue[|l.queue|].ErrorTask?;
  }

  ghost predicate IsError(l: Link, i: int) {
    0 <= i < |l.queue| && l.queue[i].ErrorTask?
  }

  /** While the channel is up and only errors could be queued, nothing is. */
  lemma NothingQueued(l: Link)
    requires ErrorsOk(l) && Up(l) && OnlyErrors(l, 0)
    ensures l.queue == []
  {
    assert IsError(l, 0) ==> ErrorQueued(l);
  }

  lemma InvDeliver(s: Server, m: Msg)
    requires Inv(s) && Enabled(s, DoDeliver(m))
    ensures Inv(Deliver(s, m))
  {
    hide Inv, Deliver;
    if s.link.chan.value.loginPending {
      InvFirst(s, m);
    } else {
      InvAnswer(s, m);
    }
  }

  lemma InvFirst(s: Server, m: Msg)
    requires Inv(s) && Enabled(s, DoDeliver(m)) && s.link.chan.value.loginPending
    ensures Inv(Deliver(s, m))
  {
    HoseQueues(s.link.(recv := s.link.recv + [m]), UNEXPECTED);
    assert s.link.queue == [] ==> OnlyErrors(Deliver(s, m).link, 1);
    NothingQueued(s.link);
  }

  lemma InvAnswer(s: Server, m: Msg)
    requires Inv(s) && Enabled(s, DoDeliver(m)) && !s.link.chan.value.loginPending
    ensures Inv(Deliver(s, m))
  {
    hide SessOk;
    if s.login.onDone && s.sess.wait.AckWait? {
      NothingQueued(s.link);
    }
    AnsweredOk(s.sess, m);
  }

  lemma AnsweredOk(s: Sess, m: Msg)
    requires SessOk(s)
    ensures SessOk(s.(wait := NoWait))
    ensures m.ToClientRsp? && s.wait.OpenWait? ==> SessOk(OpenAnswered(s, m))
  {
  }

  lemma InvFail(s: Server, e: Error)
    requires Inv(s) && Enabled(s, DoFail(e))
    ensures Inv(s.(link := HoseAsync(s.link, e)))
  {
    HoseQueues(s.link, e);
  }

  ghost function Popped(s: Server): Server
    requires s.link.queue != []
  {
    s.(link := s.link.(queue := s.link.queue[1..]))
  }

  lemma InvStart(s: Server, creds: Option<Error>, late: Option<Error>)
    requires Inv(s) && s.sess.wait.NoWait? && !s.dead && s.link.queue != [] && s.link.queue[0].StartTask?
    ensures Inv(Start(Popped(s), creds, late))
  {
    assert s.link.queue == [StartTask];
    if late.Some? {
      HoseQueues(Popped(s).link.(chan := Some(Chan(true, true, false, [], EndUnexpected))), late.value);
    }
  }

  /** The log-in request has been taken off the queue. */
  ghost predicate Handling(s: Server) {
    && Inv(s) && !s.dead && s.login.onDone && s.sess.wait.NoWait?
    && s.link.chan.Some? && !s.link.chan.value.loginPending && OnlyErrors(s.link, 0)
  }

  lemma LogInTaken(s: Server)
    requires Inv(s) && s.sess.wait.NoWait? && !s.dead && s.link.queue != [] && s.link.queue[0].LogInTask?
    ensures Handling(Popped(s))
  {
    if ErrorQueued(s.link) {
      var i :| 0 <= i < |s.link.queue| && s.link.queue[i].ErrorTask? && s.link.queue[i] != s.link.queue[0];
      assert Popped(s).link.queue[i - 1].ErrorTask?;
    }
  }

  lemma FailLogInOk(s: Server, e: Error)
    requires LogInOnce(s) && !s.dead && s.login.onDone && !s.sess.handlersSet && s.mdts == []
    requires SessOk(s.sess) && s.faults == {} && s.sess.preInit.None? && s.sess.wait.NoWait?
    requires OnlyErrors(s.link, 0) && |s.link.queue| <= 1
    ensures Inv(FailLogIn(s, e))
  {
  }

  lemma AtMostOne(l: Link)
    requires ErrorsOk(l) && OnlyErrors(l, 0)
    ensures |l.queue| <= 1
  {
    assert !(IsError(l, 0) && IsError(l, 1));
  }

  lemma InvLogIn(s: Server, m: Msg, env: LogInEnv, ops: LogInOps)
    requires Handling(s) && m.LogInReq?
    ensures Inv(OnLogInReq(s, m, env, ops))
  {
    hide Respond, LogInReqError, Inv, FailLogIn;
    var s1 := if NsMade(s, m, env) then s.(login := s.login.(ns := Some(env.ns))) else s;
    assert Handling(s1) by { NsIrrelevant(s, env.ns); }
    FailedOk(s1, if LogInReqError(s, m, env).Some? then LogInReqError(s, m, env).value else UNEXPECTED);
    RespondOk(s1, m.nCli, if s.cfg.wantsSrv then env.nSrv else 0, env.ns, ops);
  }

  lemma NsIrrelevant(s: Server, ns: string)
    requires Handling(s)
    ensures Handling(s.(login := s.login.(ns := Some(ns))))
  {
  }

  lemma FailedOk(s: Server, e: Error)
    requires Handling(s)
    ensures Inv(FailLogIn(s, e))
  {
    AtMostOne(s.link);
    FailLogInOk(s, e);
  }

  lemma RespondOk(s: Server, nCli: nat, nSrv: nat, ns: string, ops: LogInOps)
    requires Handling(s)
    ensures Inv(Respond(s, nCli, nSrv, ns, ops))
  {
    hide OpenInits, FailLogIn;
    SendOk(s, LogInRsp(1, 1, ns, nSrv), ops.op);
    var s1 := s.(link := Send(s.link, LogInRsp(1, 1, ns, nSrv), ops.op).0);
    if Up(s1.link) {
      NothingQueued(s1.link);
      if nCli + nSrv > 0 {
        OpenInitsOk(s1, nCli, nCli + nSrv, ops.run);
      }
    }
  }

  lemma SendOk(s: Server, m: Msg, op: SendOp)
    requires Handling(s)
    ensures var (l, r) := Send(s.link, m, op);
            && (r.Sent? ==> Handling(s.(link := l)) && Up(l))
            && (r.Refused? ==> Inv(s.(link := l)))
            && (r.Failed? ==> Inv(FailLogIn(s.(link := l), r.e)))
  {
    AtMostOne(s.link);
    if Up(s.link) {
      NothingQueued(s.link);
      match op
      case SendOk =>
      case SendFails(e) => FailLogInOk(s.(link := Down(s.link)), e);
      case SendLate(e) => HoseQueues(s.link, e);
    }
  }

  lemma OpenInitsOk(s: Server, nCli: nat, n: nat, run: InitRun)
    requires Handling(s) && Up(s.link) && n > 0
    ensures Inv(OpenInits(s, nCli, n, run))
  {
    hide Inv, FailLogIn, Handling, InitsSent;
    AwaitAckOk(s, nCli, n);
    match run
    case AllSent =>
    case NoResource(k) => SentOk(s, k); FailedOk(InitsSent(s, k), ResourceUnavailable);
    case SendStops(k, op) =>
      SentOk(s, k);
      SendOk(InitsSent(s, k), InitMsg(s.lastMq, k), op);
      StopOk(s, k, op);
  }

  lemma StopOk(s: Server, k: nat, op: SendOp)
    requires Handling(InitsSent(s, k)) && Up(s.link)
    ensures var s1 := InitsSent(s, k);
            var (l, r) := Send(s1.link, InitMsg(s.lastMq, k), op);
            var s2 := s1.(link := l, lastMq := s.lastMq + k + 1);
            && (r.Refused? ==> Inv(s2))
            && (r.Failed? ==> Inv(FailLogIn(s2, r.e)))
  {
    hide InitsSent;
    SendOk(InitsSent(s, k).(lastMq := s.lastMq + k + 1), InitMsg(s.lastMq, k), op);
  }

  lemma SentOk(s: Server, k: nat)
    requires Handling(s)
    ensures Handling(InitsSent(s, k))
  {
    hide InitMsgs;
  }

  lemma AwaitAckOk(s: Server, nCli: nat, n: nat)
    requires Handling(s) && Up(s.link) && n > 0
    ensures Inv(AwaitAck(s, nCli, n))
  {
    hide InitMsgs, InitEnds;
  }

  /** The channel and the queue after the log-in. */
  ghost predicate Settled(l: Link, handlersSet: bool, preInit: Option<Error>) {
    ErrorsOk(l) && LogInOver(l, handlersSet) && PreInitOk(preInit, l)
  }

  lemma LateSendOk(l: Link, handlersSet: bool, preInit: Option<Error>, m: Msg, op: SendOp)
    requires Settled(l, handlersSet, preInit) && l.chan.Some?
    ensures Settled(Send(l, m, op).0, handlersSet, preInit)
  {
    if op.SendLate? {
      HoseQueues(l, op.e);
    }
  }

  lemma PopOk(s: Server)
    requires Inv(s) && s.link.queue != [] && s.link.queue[0].OpenTask? && !s.dead && s.sess.wait.NoWait?
    ensures Settled(Popped(s).link, s.sess.handlersSet, s.sess.preInit) && s.sess.handlersSet && !s.login.onDone
  {
  }

  lemma LoggedOk(s: Sess, e: Error, id: nat, peer: Peer)
    requires SessOk(s) && s.hosed.None? && s.handlersSet && s.wait.NoWait?
    ensures SessOk(s.(hosed := Some(e), log := s.log + [OnError(e)]))
    ensures SessOk(Emit(s, PassiveOpen(id, peer)))
  {
  }

  lemma InvOpenReq(s: Server, id: nat, made: bool, op: SendOp)
    requires Inv(s) && s.sess.wait.NoWait? && !s.dead && s.link.queue != [] && s.link.queue[0] == OpenTask(id)
    ensures Inv(OnOpenReq(Popped(s), id, made, op))
  {
    hide LoggingIn, LogInOver, ErrorsOk, PreInitOk, SessOk;
    PopOk(s);
    if s.sess.hosed.None? && s.link.chan.Some? {
      var result := if !s.sess.passiveEnabled then RejectedPassiveOpen
                    else if made then Accepted else RejectedResourceUnavailable;
      var mq := if result == Accepted then s.lastMq + 1 else s.lastMq;
      LateSendOk(Popped(s).link, true, s.sess.preInit, ToServerRsp(id, result, Mq(mq, true), Mq(mq, false)), op);
      LoggedOk(s.sess, if op.SendFails? then op.e else UNEXPECTED, id, ServerPeer(Mq(mq, true), Mq(mq, false)));
    }
  }

  lemma InvError(s: Server, e: Error)
    requires Inv(s) && s.sess.wait.NoWait? && !s.dead && s.link.queue != [] && s.link.queue[0] == ErrorTask(e)
    ensures Inv(OnChannelError(Popped(s), e))
  {
    hide SessOk;
    SessError(s.sess, e);
  }

  lemma SessError(s: Sess, e: Error)
    requires SessOk(s) && s.wait.NoWait?
    ensures s.handlersSet && s.hosed.None? ==> SessOk(s.(hosed := Some(e), log := s.log + [OnError(e)]))
    ensures !s.handlersSet ==> SessOk(s.(preInit := Some(e)))
  {
  }

  lemma InvPreInit(s: Server)
    requires Inv(s) && s.sess.wait.NoWait? && !s.dead && s.link.queue != [] && s.link.queue[0] == PreInitTask
    ensures Inv(OnPreInit(Popped(s)))
  {
  }

  lemma InvEnd(s: Server)
    requires Inv(s) && s.sess.wait.NoWait? && !s.dead && s.link.queue != [] && s.link.queue[0] == EndTask
    ensures Inv(OnEnd(Popped(s)))
  {
  }

  lemma InvSendEnd(s: Server, op: SendOp)
    requires Inv(s) && Enabled(s, DoEnd(op))
    ensures Inv(SendEnd(s, op))
  {
    hide LoggingIn, LogInOver, ErrorsOk, PreInitOk, SessOk, Send;
    LateSendOk(s.link, s.sess.handlersSet, s.sess.preInit, GracefulSessionEnd, op);
  }

  lemma InvTask(s: Server, ops: Ops)
    requires Inv(s) && Enabled(s, DoTask(ops))
    ensures Inv(RunTask(s, ops))
  {
    hide Inv, Start, OnLogInReq, OnOpenReq, OnChannelError, OnPreInit, OnEnd, Handling;
    match s.link.queue[0]
    case StartTask => InvStart(s, ops.creds, ops.late);
    case LogInTask(_, req) => LogInTaken(s); InvLogIn(Popped(s), req, ops.env, ops.login);
    case OpenTask(id) => InvOpenReq(s, id, ops.made, ops.op);
    case ErrorTask(e) => InvError(s, e);
    case PreInitTask => InvPreInit(s);
    case EndTask => InvEnd(s);
  }

  lemma InvAckUnanswered(s: Server, end: WaitEnd)
    requires Inv(s) && !s.dead && s.sess.wait.AckWait? && !end.TimedOut?
    ensures Inv(AckUnanswered(s, end))
  {
    hide FailLogIn;
    var s1 := s.(sess := s.sess.(wait := NoWait));
    AtMostOne(s.link);
    if Up(s.link) {
      NothingQueued(s.link);
      HoseQueues(s.link, end.e);
      FailLogInOk(s1, end.e);
    }
  }

  lemma InvOpenUnanswered(s: Server, end: WaitEnd)
    requires Inv(s) && !s.dead && s.sess.wait.OpenWait?
    ensures Inv(OpenUnanswered(s, end))
  {
    if Up(s.link) && end.WaitLate? {
      HoseQueues(s.link, end.e);
    }
  }

  lemma InvInitHandlers(s: Server, passiveEnabled: bool, late: Option<Error>)
    requires Inv(s) && Enabled(s, DoInitHandlers(passiveEnabled, late))
    ensures Inv(InitHandlers(s, passiveEnabled, late).0)
  {
    hide LoggingIn, LogInOver, ErrorsOk, PreInitOk, ExpectOpens, ExpectEnd;
    if !s.sess.handlersSet {
      PostPreInitOk(s.link, s.sess.preInit);
      ExpectOpensOk(s.link, late);
      ExpectEndOk(ExpectOpens(s.link, late));
    }
  }

  lemma PostPreInitOk(l: Link, preInit: Option<Error>)
    requires Settled(l, false, preInit) && l.chan.Some?
    ensures preInit.Some? ==> Settled(l.(queue := l.queue + [PreInitTask]), true, preInit)
  {
  }

  lemma ExpectOpensOk(l: Link, late: Option<Error>)
    requires l.chan.Some?
    ensures Settled(l, false, None) ==> Settled(ExpectOpens(l, late), true, None)
    ensures ExpectOpens(l, late).chan.Some?
  {
    if Up(l) && late.Some? {
      HoseQueues(l, late.value);
    }
  }

  lemma ExpectEndOk(l: Link)
    requires l.chan.Some?
    ensures Settled(l, true, None) ==> Settled(ExpectEnd(l), true, None)
  {
  }

  lemma InvMdt(s: Server, made: bool)
    requires Inv(s) && Enabled(s, DoMdt(made))
    ensures Inv(MdtBuilder(s, made))
  {
  }

  lemma InvOpen(s: Server, b: nat, op: SendOp)
    requires Inv(s) && Enabled(s, DoOpen(b, op))
    ensures Inv(OpenStart(s, b, op).0)
  {
    hide LoggingIn, LogInOver, ErrorsOk, PreInitOk, SessOk;
    if s.mdts[b].Ready? && s.sess.hosed.None? {
      LateSendOk(s.link, true, s.sess.preInit, ToClientReq(s.mdts[b].c2s, s.mdts[b].s2c), op);
      SessOpens(s.sess, if op.SendFails? then op.e else UNEXPECTED, OpenWait(|s.link.sent|, s.mdts[b].c2s, s.mdts[b].s2c));
    }
  }

  lemma SessOpens(s: Sess, e: Error, w: Wait)
    requires SessOk(s) && s.hosed.None? && s.handlersSet && s.wait.NoWait?
    ensures SessOk(s.(hosed := Some(e), log := s.log + [OnError(e)])) && SessOk(s.(wait := w))
  {
  }

  lemma InvDestroy(s: Server)
    requires Inv(s) && Enabled(s, DoDestroy)
    ensures Inv(Destroy(s))
  {
  }

  lemma InvStep(s: Server, t: Step)
    requires Inv(s) && Enabled(s, t)
    ensures Inv(Next(s, t))
  {
    hide Inv, Deliver, RunTask, AckUnanswered, OpenUnanswered, InitHandlers, MdtBuilder, OpenStart, SendEnd, Destroy;
    match t
    case DoDeliver(m) => InvDeliver(s, m);
    case DoFail(e) => InvFail(s, e);
    case DoTask(ops) => InvTask(s, ops);
    case DoEndWait(end) =>
      if s.sess.wait.AckWait? { InvAckUnanswered(s, end); } else { InvOpenUnanswered(s, end); }
    case DoInitHandlers(pe, late) => InvInitHandlers(s, pe, late);
    case DoMdt(made) => InvMdt(s, made);
    case DoOpen(b, op) => InvOpen(s, b, op);
    case DoEnd(op) => InvSendEnd(s, op);
    case DoDestroy => InvDestroy(s);
  }

  lemma {:induction false} InvInRuns(states: seq<Server>, steps: seq<Step>, i: nat)
    requires Run(states, steps) && i < |states|
    ensures Inv(states[i])
  {
    if i > 0 {
      InvInRuns(states, steps, i - 1);
      InvStep(states[i - 1], steps[i - 1]);
    }
  }
}
