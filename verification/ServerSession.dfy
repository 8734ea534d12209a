/** The server session object.  Its methods are the bodies that the source runs on thread W; each is shown to do what the
    function of the same name in `ServerModel` says, on the view of the object as a value. */
module ServerSession {
  import opened MasterChannel
  import opened ServerModel
  import SR = ServerRuns
  import SW = ServerWire
  import SG = ServerGuarantees

  class Session {
    /** Is the log-in handler stored; its executions; and the user's two containers, if given. */
    var onDone: bool
    var dones: seq<Done>
    var outCli: seq<Peer>
    var outSrv: seq<Peer>
    const cfg: Config
    var cliNs: Option<string>
    /** The master channel with the queue of W. */
    var link: Link
    var handlersSet: bool
    var passiveEnabled: bool
    var preInitCode: Option<Error>
    var hosedCode: Option<Error>
    var wait: Wait
    var log: seq<Event>
    var finisher: bool
    var lastMq: nat
    /** The metadata builders the user holds. */
    var mdts: seq<Mdt>
    var dead: bool
    ghost var faults: set<Fault>

    ghost function View(): Server
      reads this
    {
      Server(LogIn(onDone, dones, outCli, outSrv, cliNs), link,
             Sess(handlersSet, passiveEnabled, preInitCode, hosedCode, wait, log, finisher), lastMq, mdts, cfg, dead,
             faults)
    }

    /** `async_accept_log_in()` is called right after construction. */
    constructor (cfg: Config, outCli: seq<Peer>, outSrv: seq<Peer>)
      ensures View() == Accepting(cfg, outCli, outSrv)
    {
      onDone, dones, cliNs := true, [], None;
      this.outCli, this.outSrv, this.cfg := outCli, outSrv, cfg;
      link := Link(None, [StartTask], [], []);
      handlersSet, passiveEnabled, preInitCode, hosedCode := false, false, None, None;
      wait, log, finisher, lastMq, mdts, dead := NoWait, [], false, 0, [], false;
      faults := {};
    }

    ghost method Assert(cond: bool, f: Fault)
      modifies this`faults
      ensures View() == Check(old(View()), cond, f)
    {
      if !cond {
        faults := faults + {f};
      }
    }

    /** The handler, if `stored`, has been run, with what the containers hold, and cleared. */
    ghost predicate RunsOnce(stored: bool, before: seq<Done>, result: Option<Error>)
      reads this
    {
      !onDone && dones == before + if stored then [Done(result, outCli, outSrv)] else []
    }

    method InvokeLogInOnDone(result: Option<Error>)
      modifies this`onDone, this`dones, this`faults
      ensures View() == Fire(old(View()), result)
      ensures RunsOnce(old(onDone), old(dones), result)
    {
      Assert(onDone, EmptyHandler);
      if onDone {
        dones := dones + [Done(result, outCli, outSrv)];
        onDone := false;
      }
    }

    method Fail(e: Error)
      modifies this`link, this`onDone, this`dones, this`faults
      ensures View() == FailLogIn(old(View()), e)
      ensures link.chan.None? && link.queue == old(link).queue && RunsOnce(old(onDone), old(dones), Some(e))
    {
      link := link.(chan := None);
      InvokeLogInOnDone(Some(e));
    }

    method Hose(e: Error)
      modifies this`hosedCode, this`log, this`faults
      ensures View() == ServerModel.Hose(old(View()), e)
      ensures hosedCode == Some(e) && log == old(log) + [OnError(e)]
    {
      Assert(hosedCode.None?, HosedTwice);
      hosedCode := Some(e);
      log := log + [OnError(e)];
    }

    /** The first task of `async_accept_log_in()`. */
    method Start(creds: Option<Error>, late: Option<Error>)
      modifies this`link, this`onDone, this`dones, this`faults
      ensures View() == ServerModel.Start(old(View()), creds, late)
    {
      if creds.Some? {
        InvokeLogInOnDone(creds);
        return;
      }
      link := link.(chan := Some(Chan(true, true, false, [], EndUnexpected)));
      if late.Some? {
        link := HoseAsync(link, late.value);
      }
    }

    /** The log-in request, up to the response. */
    method OnLogInReq(m: Msg, env: LogInEnv, ops: LogInOps)
      requires m.LogInReq?
      modifies this`link, this`onDone, this`dones, this`faults, this`cliNs, this`wait, this`lastMq
      ensures View() == ServerModel.OnLogInReq(old(View()), m, env, ops)
    {
      hide ServerModel.Respond, LogInReqError;
      ghost var s := View();
      Assert(link.chan.Some?, NullChannel);
      NamespaceIrrelevant(s, View(), m, env);
      NamespaceIrrelevant(s, View(), m, env.(setup := None));
      var reached := LogInError(m, env.(setup := None));
      if reached.None? {
        cliNs := Some(env.ns);
      }
      NamespaceIrrelevant(s, View(), m, env);
      var err := LogInError(m, env);
      if err.Some? {
        Fail(err.value);
      } else if link.chan.None? {
        Fail(UNEXPECTED);
      } else {
        Respond(m.nCli, if cfg.wantsSrv then env.nSrv else 0, env.ns, ops);
      }
    }

    lemma NamespaceIrrelevant(s: Server, s': Server, m: Msg, env: LogInEnv)
      requires m.LogInReq? && s'.cfg == s.cfg
      ensures LogInReqError(s', m, env) == LogInReqError(s, m, env)
    {
    }

    /** The checks of the log-in request, in order. */
    method LogInError(m: Msg, env: LogInEnv) returns (err: Option<Error>)
      requires m.LogInReq?
      ensures err == LogInReqError(View(), m, env)
      ensures err.None? <==>
                m.ver >= 1 && m.verAux >= 1 && env.configOk && (m.nCli == 0 || cfg.wantsCli) && env.appKnown && env.credsOk
                && env.setup.None?
    {
      if !Negotiable(m.ver) || !Negotiable(m.verAux) {
        return Some(ProtocolVersionUnsupported);
      }
      if !env.configOk {
        return Some(ConfigMismatch);
      }
      if m.nCli != 0 && !cfg.wantsCli {
        return Some(InvalidArgument);
      }
      if !env.appKnown {
        return Some(ClientAppUnknown);
      }
      if !env.credsOk {
        return Some(ClientAppBadCreds);
      }
      return env.setup;
    }

    method Respond(nCli: nat, nSrv: nat, ns: string, ops: LogInOps)
      requires link.chan.Some?
      modifies this`link, this`onDone, this`dones, this`faults, this`wait, this`lastMq
      ensures View() == ServerModel.Respond(old(View()), nCli, nSrv, ns, ops)
    {
      hide ServerModel.OpenInits;
      var (l, r) := Send(link, LogInRsp(1, 1, ns, nSrv), ops.op);
      link := l;
      if r.Refused? {
        return;
      }
      if r.Failed? {
        Fail(r.e);
        return;
      }
      if nCli + nSrv == 0 {
        InvokeLogInOnDone(None);
        return;
      }
      OpenInits(nCli, nCli + nSrv, ops.run);
    }

    /** The loop over the init-channels: make the resources, tell the client; on the last one, wait for the answer. */
    method OpenInits(nCli: nat, n: nat, run: InitRun)
      requires Up(link) && n > 0
      modifies this`link, this`onDone, this`dones, this`faults, this`wait, this`lastMq
      ensures View() == ServerModel.OpenInits(old(View()), nCli, n, run)
    {
      hide InitMsgs, InitEnds, InitsSent, ServerModel.OpenInits;
      ghost var s := View();
      var base := lastMq;
      var id := |link.sent|;
      var initChannels := [];
      var idx := 0;
      NoneSent(s);
      while idx != n
        invariant 0 <= idx <= n
        invariant View() == InitsSent(s, idx)
        invariant initChannels == InitEnds(base, idx)
        invariant Clean(run) || idx <= run.k || n <= run.k
      {
        InitsSentFields(s, idx);
        EndsNext(base, idx);
        initChannels := initChannels + [InitEnd(lastMq, 0)];
        var ok := OpenInit(idx, run, s, nCli, n);
        if !ok {
          return;
        }
        idx := idx + 1;
      }
      InitsSentFields(s, n);
      InitRuns(s, nCli, n, run);
      wait := AckWait(id + n - 1, nCli, initChannels);
    }

    /** One round of the loop: make one channel's resources, tell the client; and end the log-in if that fails. */
    method OpenInit(idx: nat, run: InitRun, ghost s: Server, ghost nCli: nat, ghost n: nat) returns (ok: bool)
      requires Up(s.link) && idx < n && View() == InitsSent(s, idx) && (Clean(run) || idx <= run.k || n <= run.k)
      modifies this`link, this`onDone, this`dones, this`faults, this`lastMq
      ensures ok ==> View() == InitsSent(s, idx + 1) && (Clean(run) || idx + 1 <= run.k || n <= run.k)
      ensures !ok ==> View() == ServerModel.OpenInits(s, nCli, n, run)
    {
      hide InitsSent, InitMsgs, InitEnds, ServerModel.OpenInits, FailLogIn, Send, RunsOnce;
      InitsSentFields(s, idx);
      InitRuns(s, nCli, n, run);
      if run.NoResource? && run.k == idx {
        Fail(ResourceUnavailable);
        return false;
      }
      var op := if run.SendStops? && run.k == idx then run.op else SendOk;
      InitsSentNext(s, idx, op);
      var r := SendInit(op);
      if r.Failed? {
        Fail(r.e);
      }
      return r.Sent?;
    }

    lemma InitsSentFields(s: Server, k: nat)
      ensures var s' := InitsSent(s, k);
              s'.link.chan == s.link.chan && s'.lastMq == s.lastMq + k && s'.sess == s.sess
    {
    }

    method SendInit(op: SendOp) returns (r: SendResult)
      requires link.chan.Some?
      modifies this`link, this`lastMq
      ensures var (l, res) := Send(old(link), InitMsg(old(lastMq), 0), op);
              r == res && View() == old(View()).(link := l, lastMq := old(lastMq) + 1)
    {
      lastMq := lastMq + 1;
      var (l, res) := Send(link, ToClientReq(Mq(lastMq, true), Mq(lastMq, false)), op);
      link := l;
      return res;
    }

    lemma InitsSentNext(s: Server, k: nat, op: SendOp)
      requires Up(s.link)
      ensures var (l, r) := Send(InitsSent(s, k).link, InitMsg(s.lastMq + k, 0), op);
              && (r.Sent? <==> op == SendOk)
              && (r.Sent? ==> InitsSent(s, k).(link := l, lastMq := s.lastMq + k + 1) == InitsSent(s, k + 1))
    {
      MsgsNext(s.link.sent, s.lastMq, k);
    }

    predicate Clean(run: InitRun) {
      run.AllSent? || (run.SendStops? && run.op == SendOk)
    }

    /** The ways the loop ends. */
    lemma InitRuns(s: Server, nCli: nat, n: nat, run: InitRun)
      requires s.link.chan.Some? && n > 0
      ensures Clean(run) || run.k >= n ==> ServerModel.OpenInits(s, nCli, n, run) == AwaitAck(s, nCli, n)
      ensures run.NoResource? && run.k < n ==>
                ServerModel.OpenInits(s, nCli, n, run) == FailLogIn(InitsSent(s, run.k), ResourceUnavailable)
      ensures run.SendStops? && run.k < n && run.op != SendOk ==>
                var (l, r) := Send(InitsSent(s, run.k).link, InitMsg(s.lastMq, run.k), run.op);
                var s2 := InitsSent(s, run.k).(link := l, lastMq := s.lastMq + run.k + 1);
                ServerModel.OpenInits(s, nCli, n, run) == if r.Failed? then FailLogIn(s2, r.e) else s2
    {
    }

    lemma NoneSent(s: Server)
      ensures InitsSent(s, 0) == s && InitEnds(s.lastMq, 0) == []
    {
      assert s.link.sent + InitMsgs(s.lastMq, 0) == s.link.sent;
    }

    lemma MsgsNext(sent: seq<Msg>, base: nat, k: nat)
      ensures sent + InitMsgs(base, k + 1) == sent + InitMsgs(base, k) + [InitMsg(base, k)]
    {
    }

    lemma EndsNext(base: nat, k: nat)
      ensures InitEnds(base, k + 1) == InitEnds(base, k) + [InitEnd(base + k, 0)]
    {
    }

    /** Moves some of the init-channels, one by one, into an emptied container. */
    method MoveChannels(initChannels: seq<Peer>, from: nat, to: nat) returns (out: seq<Peer>)
      requires from <= to <= |initChannels|
      ensures out == initChannels[from..to]
    {
      out := [];
      var idx := from;
      while idx != to
        invariant from <= idx <= to
        invariant out == initChannels[from..idx]
      {
        out := out + [initChannels[idx]];
        idx := idx + 1;
      }
    }

    /** Fill the containers, the client-requested init-channels first. */
    method FillContainers(nCli: nat, initChannels: seq<Peer>)
      requires nCli <= |initChannels|
      modifies this`outCli, this`outSrv
      ensures View() == Filled(old(View()), nCli, initChannels)
      ensures cfg.wantsCli ==> outCli == initChannels[..nCli]
      ensures cfg.wantsCli && cfg.wantsSrv ==> outCli + outSrv == initChannels
    {
      var idx := 0;
      if cfg.wantsCli {
        outCli := MoveChannels(initChannels, 0, nCli);
        idx := nCli;
      }
      if cfg.wantsSrv {
        outSrv := MoveChannels(initChannels, idx, |initChannels|);
      }
    }

    /** The acknowledgement is in. */
    method OnAck(nCli: nat, initChannels: seq<Peer>)
      requires nCli <= |initChannels|
      modifies this`wait, this`outCli, this`outSrv, this`onDone, this`dones, this`faults
      ensures View() == AckAnswered(old(View()), nCli, initChannels)
      ensures RunsOnce(old(onDone), old(dones), None)
      ensures cfg.wantsCli ==> outCli == initChannels[..nCli]
      ensures cfg.wantsCli && cfg.wantsSrv ==> outCli + outSrv == initChannels
    {
      hide Filled;
      wait := NoWait;
      FillContainers(nCli, initChannels);
      InvokeLogInOnDone(None);
    }

    method OnNoAck(end: WaitEnd)
      modifies this`wait, this`link, this`onDone, this`dones, this`faults
      ensures View() == AckUnanswered(old(View()), end)
    {
      if !Up(link) {
        wait := NoWait;
        return;
      }
      match end
      case TimedOut =>
      case WaitFails(e) =>
        wait := NoWait;
        Fail(e);
      case WaitLate(e) =>
        wait := NoWait;
        link := HoseAsync(link, e);
    }

    method OnMasterChannelError(e: Error)
      modifies this`link, this`onDone, this`dones, this`faults, this`preInitCode, this`hosedCode, this`log
      ensures View() == OnChannelError(old(View()), e)
      ensures old(link).chan.None? ==> View() == old(View())
      ensures old(link).chan.Some? && old(onDone) ==>
                link.chan.None? && log == old(log) && RunsOnce(true, old(dones), Some(e))
      ensures old(link).chan.Some? && !old(onDone) ==>
                && dones == old(dones)
                && (!handlersSet ==> preInitCode == Some(e) && log == old(log))
                && (handlersSet ==> log == old(log) + if old(hosedCode).None? then [OnError(e)] else [])
    {
      if link.chan.None? {
        return;
      }
      if onDone {
        Fail(e);
        return;
      }
      if !handlersSet {
        Assert(preInitCode.None?, PreInitTwice);
        preInitCode := Some(e);
        return;
      }
      Assert(cfg.graceful ==> finisher, NoFinisher);
      if hosedCode.None? {
        Hose(e);
      }
    }

    /** The handler of the end message. */
    method OnMasterChannelGracefulSessionEnd()
      modifies this`hosedCode, this`log, this`faults
      ensures View() == OnEnd(old(View()))
      ensures hosedCode.Some? && log == old(log) + if old(hosedCode).None? then [OnError(SessionFinished)] else []
    {
      if hosedCode.None? {
        Hose(SessionFinished);
      }
    }

    /** The destructor's message. */
    method SendGracefulSessionEnd(op: SendOp)
      requires link.chan.Some?
      modifies this`link
      ensures View() == SendEnd(old(View()), op)
    {
      var (l, r) := Send(link, GracefulSessionEnd, op);
      link := l;
    }

    method InitHandlers(passiveEnabled: bool, late: Option<Error>) returns (ok: bool)
      requires link.chan.Some?
      modifies this`handlersSet, this`passiveEnabled, this`link, this`finisher
      ensures (View(), ok) == ServerModel.InitHandlers(old(View()), passiveEnabled, late)
      ensures ok == !old(handlersSet) && handlersSet
      ensures ok ==> (finisher <==> old(finisher) || (cfg.graceful && preInitCode.None?))
    {
      hide ServerModel.SetHandlers;
      if handlersSet {
        return false;
      }
      handlersSet := true;
      this.passiveEnabled := passiveEnabled;
      SetHandlers(late);
      return true;
    }

    /** A cached error is posted; otherwise requests are expected. */
    method SetHandlers(late: Option<Error>)
      requires link.chan.Some?
      modifies this`link, this`finisher
      ensures View() == ServerModel.SetHandlers(old(View()), late)
      ensures finisher <==> old(finisher) || (cfg.graceful && preInitCode.None?)
    {
      hide ExpectAll;
      if preInitCode.Some? {
        link := link.(queue := link.queue + [PreInitTask]);
      } else {
        ExpectInPeer(late);
      }
    }

    /** Open requests are expected; and the finisher, if one is required, expects the end message. */
    method ExpectInPeer(late: Option<Error>)
      requires link.chan.Some?
      modifies this`link, this`finisher
      ensures link == ExpectAll(old(link), cfg.graceful, late) && finisher == (old(finisher) || cfg.graceful)
    {
      link := ExpectOpens(link, late);
      if cfg.graceful {
        link := ExpectEnd(link);
        finisher := true;
      }
    }

    /** The task that `InitHandlers` posts when an error was cached. */
    method OnPreInit()
      modifies this`hosedCode, this`log, this`faults
      ensures View() == ServerModel.OnPreInit(old(View()))
      ensures log == old(log) + if old(hosedCode).None? && preInitCode.Some? then [OnError(preInitCode.value)] else []
    {
      if hosedCode.Some? || preInitCode.None? {
        return;
      }
      Hose(preInitCode.value);
    }

    method OnMasterChannelOpenChannelReq(id: nat, made: bool, op: SendOp)
      modifies this`lastMq, this`link, this`hosedCode, this`log, this`faults
      ensures View() == OnOpenReq(old(View()), id, made, op)
      ensures old(hosedCode).None? && Up(old(link)) ==>
                log == old(log)
                       + (if op.SendFails? then [OnError(op.e)]
                          else if op == SendOk && passiveEnabled && made
                          then [PassiveOpen(id, Peer(Mq(old(lastMq) + 1, false), Mq(old(lastMq) + 1, true)))]
                          else [])
    {
      hide Answer;
      if hosedCode.Some? || link.chan.None? {
        return;
      }
      var result := Accepted;
      if !passiveEnabled {
        result := RejectedPassiveOpen;
      } else if made {
        lastMq := lastMq + 1;
      } else {
        result := RejectedResourceUnavailable;
      }
      AnswerOpenReq(id, result, op);
    }

    method AnswerOpenReq(id: nat, result: OpenResult, op: SendOp)
      requires link.chan.Some?
      modifies this`link, this`hosedCode, this`log, this`faults
      ensures View() == Answer(old(View()), id, result, op)
      ensures Up(old(link)) ==>
                log == old(log)
                       + (if op.SendFails? then [OnError(op.e)]
                          else if op == SendOk && result == Accepted
                          then [PassiveOpen(id, Peer(Mq(lastMq, false), Mq(lastMq, true)))]
                          else [])
    {
      hide Send;
      SendReports(link, ToServerRsp(id, result, Mq(lastMq, true), Mq(lastMq, false)), op);
      var (l, r) := Send(link, ToServerRsp(id, result, Mq(lastMq, true), Mq(lastMq, false)), op);
      link := l;
      if r.Refused? {
        return;
      }
      if r.Failed? {
        Hose(r.e);
        return;
      }
      if result != Accepted {
        return;
      }
      log := log + [PassiveOpen(id, ServerPeer(Mq(lastMq, true), Mq(lastMq, false)))];
    }

    lemma SendReports(l: Link, m: Msg, op: SendOp)
      requires l.chan.Some?
      ensures Up(l) ==>
                Send(l, m, op).1 == match op case SendOk => Sent case SendFails(e) => Failed(e) case SendLate(_) => Refused
    {
    }

    method MdtBuilder(made: bool)
      modifies this`mdts, this`lastMq
      ensures View() == ServerModel.MdtBuilder(old(View()), made)
    {
      if !handlersSet {
        return;
      }
      if hosedCode.Some? || !made {
        mdts := mdts + [Unavailable];
        return;
      }
      lastMq := lastMq + 1;
      mdts := mdts + [Ready(Mq(lastMq, true), Mq(lastMq, false))];
    }

    /** `open_channel()` up to the wait for the response. */
    method OpenChannel(b: nat, op: SendOp) returns (result: OpenReturn)
      requires b < |mdts| && link.chan.Some?
      modifies this`mdts, this`link, this`wait, this`hosedCode, this`log, this`faults
      ensures (View(), result) == OpenStart(old(View()), b, op)
    {
      hide Send;
      var mdt := mdts[b];
      if !mdt.Ready? {
        return OpenError(ResourceUnavailable);
      }
      mdts := mdts[b := Used];
      if hosedCode.Some? {
        return OpenFalse;
      }
      var id := |link.sent|;
      var (l, r) := Send(link, ToClientReq(mdt.c2s, mdt.s2c), op);
      link := l;
      if r.Failed? {
        Hose(r.e);
      }
      if r.Sent? {
        wait := OpenWait(id, mdt.c2s, mdt.s2c);
        return OpenWaits;
      }
      return OpenFalse;
    }

    /** `open_channel()` from a response on. */
    method OpenChannelAnswered(m: Msg)
      requires m.ToClientRsp? && wait.OpenWait?
      modifies this`wait, this`log
      ensures View() == old(View()).(sess := OpenAnswered(old(View()).sess, m))
      ensures wait == NoWait
      ensures log == old(log)
                     + if m.result == Accepted then [ActiveOpen(m.to, Peer(old(wait).s2c, old(wait).c2s))] else []
    {
      var peer := ServerPeer(wait.c2s, wait.s2c);
      wait := NoWait;
      if m.result == Accepted {
        log := log + [ActiveOpen(m.to, peer)];
      }
    }

    /** `open_channel()` when no response comes. */
    method OpenChannelUnanswered(end: WaitEnd)
      modifies this`wait, this`link, this`hosedCode, this`log, this`faults
      ensures View() == OpenUnanswered(old(View()), end)
    {
      hide Down, HoseAsync, ServerModel.Hose;
      wait := NoWait;
      if !Up(link) {
        return;
      }
      match end
      case TimedOut =>
      case WaitFails(e) =>
        link := Down(link);
        Hose(e);
      case WaitLate(e) => link := HoseAsync(link, e);
    }

    /** The destructor, once W is stopped. */
    method Destroy()
      modifies this`onDone, this`dones, this`dead, this`faults
      ensures View() == ServerModel.Destroy(old(View()))
      ensures dead && log == old(log)
      ensures if old(onDone) then RunsOnce(true, old(dones), Some(ShutdownAborted)) else !onDone && dones == old(dones)
    {
      if onDone {
        InvokeLogInOnDone(Some(ShutdownAborted));
      }
      dead := true;
    }

    // ----- Whatever happens to the object -----

    /** A message arrives on the master channel. */
    method MasterChannelDelivers(m: Msg)
      requires Up(link) && (wait.AckWait? ==> wait.nCli <= |wait.ends|)
      modifies this`link, this`wait, this`outCli, this`outSrv, this`onDone, this`dones, this`log, this`faults
      ensures View() == Deliver(old(View()), m)
    {
      hide Receive, AckAnswered, RunsOnce;
      var answer := !link.chan.value.loginPending && m.ToClientRsp?;
      link := Receive(link, m);
      if !answer {
        return;
      }
      match wait
      case NoWait =>
      case AckWait(id, nCli, ends) => if m.to == id { OnAck(nCli, ends); }
      case OpenWait(id, _, _) => if m.to == id { OpenChannelAnswered(m); }
    }

    /** W takes its next task. */
    method RunTask(ops: Ops)
      requires link.queue != [] && WellFormedTask(link.queue[0])
      modifies this
      ensures View() == ServerModel.RunTask(old(View()), ops)
    {
      hide ServerModel.Start, ServerModel.OnLogInReq, OnOpenReq, OnChannelError, ServerModel.OnPreInit, OnEnd, RunsOnce;
      var t := link.queue[0];
      link := link.(queue := link.queue[1..]);
      match t
      case StartTask => Start(ops.creds, ops.late);
      case LogInTask(_, req) => OnLogInReq(req, ops.env, ops.login);
      case OpenTask(id) => OnMasterChannelOpenChannelReq(id, ops.made, ops.op);
      case ErrorTask(e) => OnMasterChannelError(e);
      case PreInitTask => OnPreInit();
      case EndTask => OnMasterChannelGracefulSessionEnd();
    }

    /** What happens, one thing at a time: a call of the user, a message, a failure of the channel, a task of W, the end of
        a wait, the destructor. */
    method Perform(t: SR.Step)
      requires SR.Enabled(View(), t) && (wait.AckWait? ==> wait.nCli <= |wait.ends|)
      modifies this
      ensures View() == SR.Next(old(View()), t)
    {
      hide Deliver, ServerModel.RunTask, AckUnanswered, OpenUnanswered, ServerModel.InitHandlers, ServerModel.MdtBuilder,
           OpenStart, SendEnd, ServerModel.Destroy, RunsOnce;
      match t
      case DoDeliver(m) => MasterChannelDelivers(m);
      case DoFail(e) => link := HoseAsync(link, e);
      case DoTask(ops) => RunTask(ops);
      case DoEndWait(end) =>
        if wait.AckWait? {
          OnNoAck(end);
        } else {
          OpenChannelUnanswered(end);
        }
      case DoInitHandlers(pe, late) => var _ := InitHandlers(pe, late);
      case DoMdt(made) => MdtBuilder(made);
      case DoOpen(b, op) => var _ := OpenChannel(b, op);
      case DoEnd(op) => SendGracefulSessionEnd(op);
      case DoDestroy => Destroy();
    }
  }

  /** A session object with all that has happened to it. */
  class Life {
    const session: Session
    ghost var states: seq<Server>
    ghost var steps: seq<SR.Step>

    /** The object has gone through a run of the model. */
    ghost predicate Valid()
      reads this, session
    {
      SR.Run(states, steps) && session.View() == states[|steps|]
    }

    constructor (cfg: Config, outCli: seq<Peer>, outSrv: seq<Peer>)
      ensures Valid() && fresh(session) && steps == [] && states == [Accepting(cfg, outCli, outSrv)]
    {
      session := new Session(cfg, outCli, outSrv);
      states, steps := [Accepting(cfg, outCli, outSrv)], [];
    }

    method Perform(t: SR.Step)
      requires Valid() && SR.Enabled(session.View(), t)
      modifies this, session
      ensures Valid() && steps == old(steps) + [t] && states == old(states) + [session.View()]
      ensures old(session.dones) <= session.dones && old(session.log) <= session.log
      ensures old(session.hosedCode).Some? ==> session.log == old(session.log)
    {
      hide SR.Enabled, SR.Next, SR.Inv, SW.Wire;
      SR.InvInRuns(states, steps, |steps|);
      SW.WireInRuns(states, steps, |steps|);
      AckFits(session.View());
      StepTells(session.View(), t);
      session.Perform(t);
      states, steps := states + [session.View()], steps + [t];
    }

    /** What owner and user of the object can count on at any time: the log-in handler is stored or has run once; the error
        is told once, after the handlers are set, and nothing after it; and no assertion of the source has failed. */
    lemma Guaranteed()
      requires Valid()
      ensures |session.dones| == (if session.onDone then 0 else 1) && (session.dead ==> !session.onDone)
      ensures forall i :: 0 <= i < |session.log| && session.log[i].OnError? ==>
                i == |session.log| - 1 && session.hosedCode == Some(session.log[i].e) && session.handlersSet
      ensures session.faults == {}
    {
      hide SR.PhaseOk, SR.ErrorsOk, SR.PreInitOk;
      SR.InvInRuns(states, steps, |steps|);
    }
  }

  lemma AckFits(s: Server)
    requires SW.Wire(s)
    ensures s.sess.wait.AckWait? ==> s.sess.wait.nCli <= |s.sess.wait.ends|
  {
  }

  /** What one step adds to what was told. */
  lemma StepTells(s: Server, t: SR.Step)
    requires SR.Enabled(s, t) && SR.Inv(s)
    ensures s.login.dones <= SR.Next(s, t).login.dones && s.sess.log <= SR.Next(s, t).sess.log
    ensures s.sess.hosed.Some? ==> SR.Next(s, t).sess.log == s.sess.log
  {
    hide SR.Enabled, SR.Next, SR.PhaseOk, SR.ErrorsOk, SR.PreInitOk;
    SG.ToldStep(s, t);
    SR.InvStep(s, t);
    if s.sess.hosed.Some? {
      var log := SR.Next(s, t).sess.log;
      assert log[|s.sess.log| - 1] == OnError(s.sess.hosed.value);
    }
  }
}
