/** What the owner and the user of one server session can count on in every run, whatever the client does. */
module ServerGuarantees {
  import opened MasterChannel
  import opened ServerModel
  import opened ServerRuns
  import opened ServerWire

  // ----- The log-in handler -----

  /** What has been told to the owner and to the user is never taken back. */
  ghost predicate Told(s: Server, s': Server) {
    s.login.dones <= s'.login.dones && s.sess.log <= s'.sess.log
  }

  lemma ToldStep(s: Server, t: Step)
    requires Enabled(s, t)
    ensures Told(s, Next(s, t))
  {
    hide Deliver, Keeps;
    if t.DoDeliver? {
      DeliverKeeps(s, t.m);
    } else {
      hide Next;
      StepKeeps(s, t);
      KeepsTold(s, Next(s, t));
    }
  }

  lemma KeepsTold(s: Server, s': Server)
    requires Keeps(s, s')
    ensures Told(s, s')
  {
  }

  lemma {:induction false} ToldInRuns(states: seq<Server>, steps: seq<Step>, i: nat, j: nat)
    requires Run(states, steps) && i <= j < |states|
    ensures Told(states[i], states[j])
  {
    hide Enabled, Next;
    if i < j {
      ToldInRuns(states, steps, i, j - 1);
      ToldStep(states[j - 1], steps[j - 1]);
    }
  }

  /** The log-in handler has run or is stored, never both; once it has run it never runs again; when the destructor is
      done it has run. */
  lemma {:induction false} LogInFiresOnce(states: seq<Server>, steps: seq<Step>, i: nat, j: nat)
    requires Run(states, steps) && i <= j < |states|
    ensures |states[i].login.dones| == (if states[i].login.onDone then 0 else 1)
    ensures states[i].dead ==> |states[i].login.dones| == 1
    ensures !states[i].login.onDone ==> states[j].login.dones == states[i].login.dones
  {
    InvInRuns(states, steps, i);
    InvInRuns(states, steps, j);
    ToldInRuns(states, steps, i, j);
  }

  /** While the handler is stored, something that leads to it is under way: the first task, a healthy channel, or a
      queued error task. */
  lemma {:induction false} LogInNotForgotten(states: seq<Server>, steps: seq<Step>, i: nat)
    requires Run(states, steps) && i < |states| && states[i].login.onDone
    ensures states[i].link.queue == [StartTask] || Up(states[i].link) || ErrorQueued(states[i].link)
  {
    InvInRuns(states, steps, i);
  }

  /** Running the queued error task completes a log-in still under way. */
  lemma ErrorCompletesLogIn(s: Server, ops: Ops)
    requires Inv(s) && Enabled(s, DoTask(ops)) && s.link.queue[0].ErrorTask? && s.login.onDone
    ensures !RunTask(s, ops).login.onDone
  {
  }

  // ----- The on-error handler -----

  /** Once the on-error handler has run, which needs the handlers to be set, nothing is ever told to the user again. */
  lemma {:induction false} ErrorIsFinal(states: seq<Server>, steps: seq<Step>, i: nat, j: nat, e: Error)
    requires Run(states, steps) && i <= j < |states| && OnError(e) in states[i].sess.log
    ensures states[j].sess.log == states[i].sess.log && states[j].sess.hosed == Some(e) && states[i].sess.handlersSet
    ensures forall k :: 0 <= k < |states[i].sess.log| - 1 ==> !states[i].sess.log[k].OnError?
  {
    InvInRuns(states, steps, i);
    InvInRuns(states, steps, j);
    ToldInRuns(states, steps, i, j);
    var a := states[i].sess.log;
    var b := states[j].sess.log;
    var k :| 0 <= k < |a| && a[k] == OnError(e);
    assert b[k] == OnError(e);
  }

  /** The assertions of the source that this model has hold in every run, whatever the client sends. */
  lemma {:induction false} AssertionsHold(states: seq<Server>, steps: seq<Step>, i: nat)
    requires Run(states, steps) && i < |states|
    ensures states[i].faults == {}
  {
    InvInRuns(states, steps, i);
  }

  // ----- The containers of init-channels -----

  /** The handler is told what the containers hold; and they hold what they were given with, unless the log-in succeeded
      with init-channels. */
  ghost predicate Containers(s: Server, outCli: seq<Peer>, outSrv: seq<Peer>) {
    && (s.login.dones != [] ==> s.login.dones[0].byCli == s.login.outCli && s.login.dones[0].bySrv == s.login.outSrv)
    && ((s.login.outCli == outCli && s.login.outSrv == outSrv) || (Succeeded(s) && Agreed(s.link.recv, s.link.sent) > 0))
  }

  lemma ContainersStep(s: Server, t: Step, outCli: seq<Peer>, outSrv: seq<Peer>)
    requires Inv(s) && Wire(s) && Enabled(s, t) && Containers(s, outCli, outSrv)
    ensures Containers(Next(s, t), outCli, outSrv)
  {
    hide Deliver;
    if t.DoDeliver? {
      DeliverContainers(s, t.m, outCli, outSrv);
    } else {
      hide Next, Inv, LogInOk, OpensOk;
      StepKeeps(s, t);
      assert Agreed(Next(s, t).link.recv, Next(s, t).link.sent) == 0 ==> Agreed(s.link.recv, s.link.sent) == 0;
      assert Succeeded(s) ==> Succeeded(Next(s, t));
    }
  }

  lemma DeliverContainers(s: Server, m: Msg, outCli: seq<Peer>, outSrv: seq<Peer>)
    requires Inv(s) && Wire(s) && Enabled(s, DoDeliver(m)) && Containers(s, outCli, outSrv)
    ensures Containers(Deliver(s, m), outCli, outSrv)
  {
    hide OpensOk, PhaseOk, ErrorsOk, Deliver, Before;
    DeliverKeeps(s, m);
    if s.link.sent != [] {
      Received(s, m);
    }
    if s.sess.wait.AckWait? {
      AckWaits(s);
    }
  }

  lemma AckWaits(s: Server)
    requires Inv(s) && Wire(s) && !s.dead && s.sess.wait.AckWait?
    ensures s.login.onDone && s.login.dones == [] && s.link.sent != [] && Agreed(s.link.recv, s.link.sent) > 0
  {
  }

  lemma {:induction false} ContainersInRuns(states: seq<Server>, steps: seq<Step>, i: nat)
    requires Run(states, steps) && i < |states|
    ensures Containers(states[i], states[0].login.outCli, states[0].login.outSrv)
  {
    hide Enabled, Next;
    if i > 0 {
      ContainersInRuns(states, steps, i - 1);
      WireInRuns(states, steps, i - 1);
      ContainersStep(states[i - 1], steps[i - 1], states[0].login.outCli, states[0].login.outSrv);
    }
  }

  /** A log-in that fails leaves the containers as they were. */
  lemma {:induction false} FailureTouchesNothing(states: seq<Server>, steps: seq<Step>, i: nat)
    requires Run(states, steps) && i < |states| && states[i].login.dones != [] && !Succeeded(states[i])
    ensures states[i].login.dones[0].byCli == states[0].login.outCli
    ensures states[i].login.dones[0].bySrv == states[0].login.outSrv
  {
    ContainersInRuns(states, steps, i);
  }

  /** The documentation promises a successful log-in containers of exactly the agreed sizes.  For each container that was
      passed, that is what happens if and only if init-channels were agreed on, or it was empty. */
  lemma {:induction false} ContainersExactly(states: seq<Server>, steps: seq<Step>, i: nat)
    requires Run(states, steps) && i < |states| && Succeeded(states[i])
    ensures var s := states[i];
            var n := Agreed(s.link.recv, s.link.sent);
            && s.link.sent != [] && s.link.sent[0].LogInRsp? && s.link.recv != [] && s.link.recv[0].LogInReq?
            && (states[0].cfg.wantsCli ==>
                  (|s.login.dones[0].byCli| == s.link.recv[0].nCli <==> n > 0 || states[0].login.outCli == []))
            && (states[0].cfg.wantsSrv ==>
                  (|s.login.dones[0].bySrv| == s.link.sent[0].nSrv <==> n > 0 || states[0].login.outSrv == []))
  {
    ContainersInRuns(states, steps, i);
    WireInRuns(states, steps, i);
    WantsInRuns(states, steps, i);
    Sizes(states[i]);
  }

  lemma Sizes(s: Server)
    requires Wire(s) && Succeeded(s)
    ensures ServerWire.SentOk(s.link.recv, s.link.sent)
    ensures Agreed(s.link.recv, s.link.sent) > 0 ==>
              && (s.cfg.wantsCli ==> |s.login.dones[0].byCli| == s.link.recv[0].nCli)
              && (s.cfg.wantsSrv ==> |s.login.dones[0].bySrv| == s.link.sent[0].nSrv)
  {
    hide OpensOk;
  }

  lemma {:induction false} WantsInRuns(states: seq<Server>, steps: seq<Step>, i: nat)
    requires Run(states, steps) && i < |states|
    ensures states[i].cfg == states[0].cfg
  {
    hide Next, Enabled;
    if i > 0 {
      WantsInRuns(states, steps, i - 1);
      WantsStep(states[i - 1], steps[i - 1]);
    }
  }

  lemma WantsStep(s: Server, t: Step)
    requires Enabled(s, t)
    ensures Next(s, t).cfg == s.cfg
  {
    if !t.DoDeliver? {
      hide Next, Enabled;
      StepKeeps(s, t);
    }
  }

  // ----- Opening a channel on a hosed session -----

  ghost predicate Uses(t: Step, b: nat) {
    t.DoOpen? && t.b == b
  }

  /** On a hosed session: the resources that are left are those of builders obtained earlier and not used. */
  ghost predicate MdtsStep(s: Server, t: Step, s': Server) {
    && s'.sess.hosed.Some? && |s.mdts| <= |s'.mdts|
    && forall b :: 0 <= b < |s'.mdts| ==>
         (s'.mdts[b].Ready? <==> b < |s.mdts| && s.mdts[b].Ready? && !Uses(t, b))
  }

  lemma MdtsTask(s: Server, ops: Ops)
    requires Enabled(s, DoTask(ops)) && s.sess.hosed.Some?
    ensures RunTask(s, ops).mdts == s.mdts && RunTask(s, ops).sess.hosed.Some?
  {
    hide LogInReqError, NsMade, Finish, OpenInits, Send, Receive;
    match s.link.queue[0]
    case LogInTask(_, m) => MdtsLogIn(Popped(s), m, ops.env, ops.login);
    case _ =>
  }

  lemma MdtsLogIn(s: Server, m: Msg, env: LogInEnv, ops: LogInOps)
    requires m.LogInReq?
    ensures OnLogInReq(s, m, env, ops).mdts == s.mdts && OnLogInReq(s, m, env, ops).sess.hosed == s.sess.hosed
  {
    hide LogInReqError, NsMade, Finish, Respond;
    if s.link.chan.Some? && LogInReqError(s, m, env).None? {
      var login := if NsMade(s, m, env) then s.login.(ns := Some(env.ns)) else s.login;
      MdtsRespond(s.(login := login), m.nCli, if s.cfg.wantsSrv then env.nSrv else 0, env.ns, ops);
    }
  }

  lemma MdtsRespond(s: Server, nCli: nat, nSrv: nat, ns: string, ops: LogInOps)
    requires s.link.chan.Some?
    ensures var s' := Respond(s, nCli, nSrv, ns, ops); s'.mdts == s.mdts && s'.sess.hosed == s.sess.hosed
  {
    hide Finish, InitMsgs, InitEnds;
  }

  lemma HosedStep(s: Server, t: Step)
    requires Enabled(s, t) && s.sess.hosed.Some?
    ensures MdtsStep(s, t, Next(s, t))
  {
    hide RunTask, Deliver, OpenUnanswered, Finish, OpenStart, ExpectAll;
    match t
    case DoTask(ops) => MdtsTask(s, ops);
    case DoDeliver(m) => MdtsDeliver(s, m);
    case DoEndWait(end) => MdtsEndWait(s, end);
    case DoOpen(b, op) => MdtsOpen(s, b, op);
    case _ =>
  }

  lemma MdtsDeliver(s: Server, m: Msg)
    requires Up(s.link)
    ensures Deliver(s, m).mdts == s.mdts && Deliver(s, m).sess.hosed == s.sess.hosed
  {
    hide Receive, Finish;
  }

  lemma MdtsEndWait(s: Server, end: WaitEnd)
    requires s.sess.hosed.Some?
    ensures OpenUnanswered(s, end).mdts == s.mdts && OpenUnanswered(s, end).sess.hosed.Some?
  {
  }

  lemma MdtsOpen(s: Server, b: nat, op: SendOp)
    requires s.sess.hosed.Some? && b < |s.mdts| && s.link.chan.Some?
    ensures MdtsStep(s, DoOpen(b, op), OpenStart(s, b, op).0)
  {
    hide Send;
  }

  /** The builder `b` was there, with resources, when the session was hosed in step `j`, and was not used until `i`. */
  ghost predicate StillReady(states: seq<Server>, steps: seq<Step>, j: nat, i: nat, b: nat)
    requires Run(states, steps) && j < i < |states|
  {
    && b < |states[j + 1].mdts| && states[j + 1].mdts[b].Ready?
    && forall k :: j < k < i ==> !Uses(steps[k], b)
  }

  lemma {:induction false} HosedInRuns(states: seq<Server>, steps: seq<Step>, j: nat, i: nat, b: nat)
    requires Run(states, steps) && j < i < |states| && states[j + 1].sess.hosed.Some?
    ensures states[i].sess.hosed.Some? && |states[j + 1].mdts| <= |states[i].mdts|
    ensures b < |states[i].mdts| && states[i].mdts[b].Ready? <==> StillReady(states, steps, j, i, b)
  {
    hide Next, Enabled;
    if j + 1 < i {
      HosedInRuns(states, steps, j, i - 1, b);
      HosedStep(states[i - 1], steps[i - 1]);
    }
  }

  /** The documentation promises `false` from `open_channel()` once the session is hosed.  Code-less failure is what
      happens if and only if the metadata builder was obtained, with resources, before the hosing, and not used since. */
  lemma {:induction false} HosedOpenExactly(states: seq<Server>, steps: seq<Step>, j: nat, i: nat)
    requires Run(states, steps) && j < i < |steps| && steps[i].DoOpen?
    requires states[j].sess.hosed.None? && states[j + 1].sess.hosed.Some?
    ensures steps[i].b < |states[i].mdts| && states[i].link.chan.Some?
    ensures var r := OpenStart(states[i], steps[i].b, steps[i].op).1;
            && (r == OpenFalse <==> StillReady(states, steps, j, i, steps[i].b))
            && (r == OpenError(ResourceUnavailable) <==> !StillReady(states, steps, j, i, steps[i].b))
  {
    HosedInRuns(states, steps, j, i, steps[i].b);
  }

  /** A builder obtained from a hosed session is never one of those. */
  lemma HosedBuilder(s: Server, made: bool, op: SendOp)
    requires s.sess.hosed.Some? && s.sess.handlersSet && s.link.chan.Some?
    ensures var s' := MdtBuilder(s, made);
            |s'.mdts| == |s.mdts| + 1 && OpenStart(s', |s.mdts|, op).1 == OpenError(ResourceUnavailable)
  {
  }

  // ----- Witnesses -----

  lemma ExtendRun(states: seq<Server>, steps: seq<Step>, t: Step) returns (states': seq<Server>, steps': seq<Step>)
    requires Run(states, steps) && Enabled(states[|steps|], t)
    ensures steps' == steps + [t] && states' == states + [Next(states[|steps|], t)] && Run(states', steps')
  {
    hide Next, Enabled;
    states', steps' := states + [Next(states[|steps|], t)], steps + [t];
  }

  const ENV := LogInEnv(true, true, true, None, "7", 0)
  const TASK := DoTask(Ops(None, None, ENV, LogInOps(SendOk, AllSent), true, SendOk))
  const REQUEST := LogInReq(1, 1, 0)
  const BROKEN := SystemError(104)

  /** Logged in, without init-channels. */
  ghost function In(cfg: Config, out: seq<Peer>): Server {
    var s := Accepting(cfg, out, out);
    s.(login := LogIn(false, [Done(None, out, out)], out, out, Some("7")),
       link := Link(Some(Chan(true, false, false, [], EndUnexpected)), [], [LogInRsp(1, 1, "7", 0)], [REQUEST]))
  }

  lemma ToIn(cfg: Config, out: seq<Peer>)
    ensures var s := Accepting(cfg, out, out);
            && Enabled(s, TASK)
            && Enabled(Next(s, TASK), DoDeliver(REQUEST))
            && Enabled(Next(Next(s, TASK), DoDeliver(REQUEST)), TASK)
            && Next(Next(Next(s, TASK), DoDeliver(REQUEST)), TASK) == In(cfg, out)
  {
    var s := Next(Accepting(cfg, out, out), TASK);
    assert s.link.queue == [] && s.link.sent == [];
    s := Next(s, DoDeliver(REQUEST));
    assert s.link.queue == [LogInTask(0, REQUEST)] && s.link.recv == [REQUEST];
    s := Next(s, TASK);
    assert s.link.queue == [] && s.link.sent == [LogInRsp(1, 1, "7", 0)] && s.login.dones == [Done(None, out, out)];
  }

  lemma RunToIn(cfg: Config, out: seq<Peer>) returns (states: seq<Server>, steps: seq<Step>)
    ensures Run(states, steps) && |steps| == 3 && |states| == 4
    ensures states[0] == Accepting(cfg, out, out) && states[3] == In(cfg, out)
  {
    ToIn(cfg, out);
    hide Next, Enabled;
    states, steps := [Accepting(cfg, out, out)], [];
    states, steps := ExtendRun(states, steps, TASK);
    states, steps := ExtendRun(states, steps, DoDeliver(REQUEST));
    states, steps := ExtendRun(states, steps, TASK);
  }

  /** A successful log-in without init-channels, with the channels of before still in both containers. */
  lemma ContainersLeft(stale: Peer) returns (states: seq<Server>, steps: seq<Step>)
    ensures Run(states, steps) && |states| == 4 && states[0].login.outCli == states[0].login.outSrv == [stale]
    ensures Succeeded(states[3]) && Agreed(states[3].link.recv, states[3].link.sent) == 0
    ensures states[3].login.dones[0].byCli == states[3].login.dones[0].bySrv == [stale]
  {
    states, steps := RunToIn(Config(true, true, false), [stale]);
  }

  /** In PEER state, with `queue` waiting, and what else there is. */
  ghost function Peered(cfg: Config, chan: Chan, queue: seq<Task>, mdts: seq<Mdt>, recv: seq<Msg>): Server {
    var s := In(cfg, []);
    s.(link := Link(Some(chan), queue, [LogInRsp(1, 1, "7", 0)], recv), mdts := mdts, lastMq := |mdts|,
       sess := Sess(true, true, None, None, NoWait, [], cfg.graceful))
  }

  const HANDLERS := DoInitHandlers(true, None)
  const CFG := Config(true, true, false)
  const READY := Ready(Mq(1, true), Mq(1, false))

  lemma ToBroken()
    ensures var s := In(CFG, []);
            && Enabled(s, HANDLERS)
            && Enabled(Next(s, HANDLERS), DoMdt(true))
            && Enabled(Next(Next(s, HANDLERS), DoMdt(true)), DoFail(BROKEN))
            && Next(Next(Next(s, HANDLERS), DoMdt(true)), DoFail(BROKEN))
               == Peered(CFG, Chan(false, false, true, [], EndUnexpected), [ErrorTask(BROKEN)], [READY], [REQUEST])
  {
    var s := Next(In(CFG, []), HANDLERS);
    assert OpenTasks([]) == [] && s.link.queue == [];
    s := Next(s, DoMdt(true));
    assert s.mdts == [READY];
    s := Next(s, DoFail(BROKEN));
    assert s.link.queue == [ErrorTask(BROKEN)];
  }

  /** A builder is made, with resources, then the session is hosed: `open_channel()` fails without a code.  A builder made
      only then gives an error instead. */
  lemma HosedOpenBothWays() returns (states: seq<Server>, steps: seq<Step>)
    ensures Run(states, steps) && |states| == 9
    ensures var s := states[7];
            && s.sess.hosed.Some? && s.mdts == [READY] && s.link.chan.Some?
            && OpenStart(s, 0, SendOk).1 == OpenFalse
    ensures var s := states[8];
            && s.sess.hosed.Some? && |s.mdts| == 2 && s.link.chan.Some?
            && OpenStart(s, 1, SendOk).1 == OpenError(ResourceUnavailable)
  {
    hide Run, Next, Enabled, OpenStart, In, Peered;
    states, steps := RunToIn(CFG, []);
    ToBroken();
    var s := Peered(CFG, Chan(false, false, true, [], EndUnexpected), [ErrorTask(BROKEN)], [READY], [REQUEST]);
    HosedBoth(s);
    states, steps := ExtendRun(states, steps, HANDLERS);
    states, steps := ExtendRun(states, steps, DoMdt(true));
    states, steps := ExtendRun(states, steps, DoFail(BROKEN));
    states, steps := ExtendRun(states, steps, TASK);
    states, steps := ExtendRun(states, steps, DoMdt(true));
  }

  lemma HosedBoth(s: Server)
    requires s == Peered(CFG, Chan(false, false, true, [], EndUnexpected), [ErrorTask(BROKEN)], [READY], [REQUEST])
    ensures Enabled(s, TASK)
    ensures var h := Next(s, TASK);
            && Enabled(h, DoMdt(true)) && h.link.chan.Some? && h.sess.hosed.Some? && h.mdts == [READY]
            && OpenStart(h, 0, SendOk).1 == OpenFalse
            && var g := Next(h, DoMdt(true));
               && g.link.chan.Some? && g.sess.hosed.Some? && |g.mdts| == 2
               && OpenStart(g, 1, SendOk).1 == OpenError(ResourceUnavailable)
  {
  }

  const SOFT := Config(true, true, true)

  /** The end message and a channel failure compete in a session that finishes gracefully; the first one is told. */
  lemma EndComesFirst() returns (states: seq<Server>, steps: seq<Step>)
    ensures Run(states, steps) && |states| == 9 && states[6].link.queue == [EndTask, ErrorTask(BROKEN)]
    ensures states[8].sess.log == [OnError(SessionFinished)] && states[8].faults == {}
  {
    hide Run, Next, Enabled, In, Peered;
    states, steps := RunToIn(SOFT, []);
    ToCompeting();
    var s := Peered(SOFT, Chan(false, false, true, [], EndTaken), [EndTask, ErrorTask(BROKEN)], [],
                    [REQUEST, GracefulSessionEnd]);
    EndFirst(s);
    states, steps := ExtendRun(states, steps, HANDLERS);
    states, steps := ExtendRun(states, steps, DoDeliver(GracefulSessionEnd));
    states, steps := ExtendRun(states, steps, DoFail(BROKEN));
    states, steps := ExtendRun(states, steps, TASK);
    states, steps := ExtendRun(states, steps, TASK);
  }

  lemma ToCompeting()
    ensures var s := In(SOFT, []);
            && Enabled(s, HANDLERS)
            && Enabled(Next(s, HANDLERS), DoDeliver(GracefulSessionEnd))
            && Enabled(Next(Next(s, HANDLERS), DoDeliver(GracefulSessionEnd)), DoFail(BROKEN))
            && Next(Next(Next(s, HANDLERS), DoDeliver(GracefulSessionEnd)), DoFail(BROKEN))
               == Peered(SOFT, Chan(false, false, true, [], EndTaken), [EndTask, ErrorTask(BROKEN)], [],
                         [REQUEST, GracefulSessionEnd])
  {
    var s := Next(In(SOFT, []), HANDLERS);
    assert OpenTasks([]) == [] && s.link.queue == [] && s.link.chan == Some(Chan(true, false, true, [], EndExpected));
    s := Next(s, DoDeliver(GracefulSessionEnd));
    assert s.link.queue == [EndTask] && s.link.recv == [REQUEST, GracefulSessionEnd];
    s := Next(s, DoFail(BROKEN));
    assert s.link.queue == [EndTask, ErrorTask(BROKEN)];
  }

  lemma EndFirst(s: Server)
    requires s == Peered(SOFT, Chan(false, false, true, [], EndTaken), [EndTask, ErrorTask(BROKEN)], [],
                         [REQUEST, GracefulSessionEnd])
    ensures s.link.queue == [EndTask, ErrorTask(BROKEN)] && Enabled(s, TASK) && Enabled(Next(s, TASK), TASK)
    ensures var s' := Next(Next(s, TASK), TASK); s'.sess.log == [OnError(SessionFinished)] && s'.faults == {}
  {
    assert Next(s, TASK).link.queue == [ErrorTask(BROKEN)];
  }
}
