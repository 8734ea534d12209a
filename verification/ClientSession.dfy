/** The client session object.  Its methods are the bodies that the source runs on thread W; each is shown to do what the
    function of the same name in `ClientModel` says, on the view of the object as a value. */
module ClientSession {
  import opened MasterChannel
  import opened ClientModel
  import CR = ClientRuns
  import CC = ClientCancels
  import CG = ClientGuarantees

  class Session {
    var state: State
    var onDone: Option<nat>
    var dones: seq<Done>
    var nextToken: nat
    /** Is it a cancelled PEER state that CONNECTING came from. */
    var cancelled: bool
    /** The master channel with the queue of W. */
    var link: Link
    var hosedCode: Option<Error>
    var wait: Option<nat>
    var log: seq<Event>
    var finisher: bool
    /** What the running attempt was given. */
    var args: Args
    var initChannels: seq<Peer>
    var srvNs: Option<string>
    var cliNs: Option<string>
    const cfg: Config
    ghost var faults: set<Fault>

    ghost function View(): Client
      reads this
    {
      Client(Conn(state, onDone, dones, nextToken, cancelled), link, Sess(hosedCode, wait, log, finisher), args,
             initChannels, srvNs, cliNs, cfg, faults)
    }

    constructor (cfg: Config)
      ensures View() == Fresh(cfg)
    {
      this.cfg := cfg;
      state, onDone, dones, nextToken, cancelled := Null, None, [], 0, false;
      link := Link(None, [], [], [], 0);
      hosedCode, wait, log, finisher := None, None, [], false;
      args, initChannels, srvNs, cliNs := Args(None, false), [], None, None;
      faults := {};
    }

    ghost method Assert(cond: bool, f: Fault)
      modifies this`faults
      ensures View() == Check(old(View()), cond, f)
    {
      if !cond {
        faults := faults + {f};
      }
    }

    /** The stored handler, `f`, is emptied before it runs. */
    ghost predicate RunsOnce(f: Option<nat>, before: seq<Done>, result: Option<Error>)
      reads this
    {
      && onDone.None? && !cancelled
      && (f.None? ==> dones == before)
      && (f.Some? ==> |dones| == |before| + 1 && before < dones
                      && dones[|before|].token == f.value && dones[|before|].result == result)
    }

    method InvokeConnOnDone(result: Option<Error>, byCli: seq<Peer>, bySrv: seq<Peer>)
      modifies this`onDone, this`dones, this`cancelled, this`faults
      ensures View() == Fire(old(View()), state, result, byCli, bySrv)
      ensures RunsOnce(old(onDone), old(dones), result)
      ensures old(onDone).Some? ==> dones[|old(dones)|].byCli == byCli && dones[|old(dones)|].bySrv == bySrv
    {
      Assert(onDone.Some?, EmptyHandler);
      cancelled := false;
      if onDone.Some? {
        var f := onDone.value;
        onDone := None;
        dones := dones + [Done(f, result, byCli, bySrv)];
      }
    }

    method Fail(e: Error)
      modifies this`link, this`state, this`onDone, this`dones, this`cancelled, this`faults
      ensures View() == FailConnect(old(View()), e)
      ensures state == Null && link.chan.None? && link.queue == old(link).queue
      ensures RunsOnce(old(onDone), old(dones), Some(e))
    {
      link := link.(chan := None);
      state := Null;
      InvokeConnOnDone(Some(e), [], []);
    }

    /** The source's wrapper of a sub-class runs inside the completion handler. */
    method Succeed(byCli: seq<Peer>, bySrv: seq<Peer>, w: Wrapper)
      modifies this`link, this`state, this`onDone, this`dones, this`nextToken, this`cancelled, this`faults
      ensures View() == ClientModel.Succeed(old(View()), byCli, bySrv, w)
      ensures w.Keep? ==> state == InPeer && link == old(link) && RunsOnce(old(onDone), old(dones), None)
    {
      state := InPeer;
      InvokeConnOnDone(None, byCli, bySrv);
      match w
      case Keep => Assert(!cfg.graceful, PeerNotCancelled);
      case ToNull => CancelPeerStateToNull();
      case ToConnecting => CancelPeerStateToConnecting();
    }

    method CancelPeerStateToNull()
      modifies this`link, this`state
      ensures View() == CancelToNull(old(View()))
    {
      link := link.(chan := None);
      state := Null;
    }

    method CancelPeerStateToConnecting()
      modifies this`state, this`onDone, this`nextToken, this`cancelled
      ensures View() == old(View()).(conn := Begin(old(View()).conn, true))
    {
      EnterConnecting(true);
    }

    /** The handler of a new attempt is stored. */
    method EnterConnecting(afterCancel: bool)
      modifies this`state, this`onDone, this`nextToken, this`cancelled
      ensures View() == old(View()).(conn := Begin(old(View()).conn, afterCancel))
      ensures state == Connecting && onDone == Some(old(nextToken))
    {
      state := Connecting;
      cancelled := afterCancel;
      onDone := Some(nextToken);
      nextToken := nextToken + 1;
    }

    method CompleteAfterCancel(err: Option<Error>)
      modifies this`link, this`state, this`onDone, this`dones, this`cancelled, this`finisher, this`faults
      ensures View() == Complete(old(View()), err)
      ensures state == (if err.Some? then Null else InPeer) && RunsOnce(old(onDone), old(dones), err)
      ensures err.Some? ==> link.chan.None?
    {
      hide FailConnect, Fire, ClientModel.MakeFinisher;
      if err.Some? {
        Fail(err.value);
      } else {
        CompleteInPeer();
      }
    }

    method CompleteInPeer()
      modifies this`link, this`state, this`onDone, this`dones, this`cancelled, this`finisher, this`faults
      ensures View() == Fire(ClientModel.MakeFinisher(old(View())), InPeer, None, [], [])
      ensures state == InPeer && RunsOnce(old(onDone), old(dones), None)
    {
      hide ClientModel.MakeFinisher, Fire, RunsOnce;
      FinisherIgnores(View());
      state := InPeer;
      MakeFinisher();
      InvokeConnOnDone(None, [], []);
    }

    /** Making the finisher and running the handler do not look at the state they find. */
    lemma FinisherIgnores(c: Client)
      ensures ClientModel.MakeFinisher(c.(conn := c.conn.(state := InPeer)))
              == ClientModel.MakeFinisher(c).(conn := c.conn.(state := InPeer))
      ensures ClientModel.MakeFinisher(c).conn == c.conn
      ensures forall c': Client :: c'.conn == c.conn ==>
                Fire(c'.(conn := c.conn.(state := InPeer)), InPeer, None, [], []) == Fire(c', InPeer, None, [], [])
    {
      hide ExpectEnd;
    }

    method MakeFinisher()
      modifies this`link, this`finisher, this`faults
      ensures View() == ClientModel.MakeFinisher(old(View()))
      ensures cfg.graceful && old(link).chan.Some? ==> finisher
    {
      if !cfg.graceful {
        return;
      }
      if link.chan.None? {
        Assert(false, NullChannel);
        return;
      }
      link := ExpectEnd(link);
      finisher := true;
    }

    method Hose(e: Error)
      modifies this`hosedCode, this`log, this`faults
      ensures View() == ClientModel.Hose(old(View()), e)
      ensures hosedCode == Some(e) && log == old(log) + [OnError(e)]
    {
      Assert(hosedCode.None?, HosedTwice);
      hosedCode := Some(e);
      log := log + [OnError(e)];
    }

    /** The end of `async_connect()`, when it fails before there is a channel. */
    method ConnectFails(e: Error)
      modifies this`state, this`onDone, this`dones, this`cancelled, this`faults
      ensures View() == Fire(old(View()), Null, Some(e), [], [])
      ensures state == Null && RunsOnce(old(onDone), old(dones), Some(e))
    {
      state := Null;
      InvokeConnOnDone(Some(e), [], []);
    }

    method AsyncConnect(args: Args, run: ConnectRun) returns (started: bool)
      modifies this
      ensures (View(), started) == Connect(old(View()), args, run)
      ensures started == (old(state) == Null)
      ensures started && !run.Requested? ==> state == Null && RunsOnce(Some(old(nextToken)), old(dones), Some(run.e))
      ensures started && run.Requested? ==>
                if run.op.SendFails? then state == Null && RunsOnce(Some(old(nextToken)), old(dones), Some(run.op.e))
                else state == Connecting && onDone == Some(old(nextToken)) && dones == old(dones)
    {
      hide ClientModel.Attempt, Begin;
      if state != Null {
        return false;
      }
      EnterConnecting(false);
      this.args := args;
      Attempt(run);
      return true;
    }

    /** The rest of `async_connect()`. */
    method Attempt(run: ConnectRun)
      modifies this`link, this`initChannels, this`state, this`onDone, this`dones, this`cancelled, this`srvNs, this`faults
      ensures View() == ClientModel.Attempt(old(View()), run)
      ensures !run.Requested? ==> state == Null && RunsOnce(old(onDone), old(dones), Some(run.e))
      ensures run.Requested? ==>
                if run.op.SendFails? then state == Null && RunsOnce(old(onDone), old(dones), Some(run.op.e))
                else state == old(state) && onDone == old(onDone) && dones == old(dones)
    {
      hide ClientModel.RequestLogIn, Fire, RunsOnce, Check;
      if run.NoNamespace? {
        ConnectFails(run.e);
        return;
      }
      Assert(srvNs.None?, SetTwice);
      srvNs := Some(run.srvNs);
      if run.NoSocket? {
        ConnectFails(run.e);
        return;
      }
      RequestLogIn(run.op);
    }

    /** The part of `async_connect()` that has a connected socket. */
    method RequestLogIn(op: SendOp)
      modifies this`link, this`initChannels, this`state, this`onDone, this`dones, this`cancelled, this`faults
      ensures View() == ClientModel.RequestLogIn(old(View()), op)
      ensures if op.SendFails? then state == Null && RunsOnce(old(onDone), old(dones), Some(op.e))
              else state == old(state) && onDone == old(onDone) && dones == old(dones)
    {
      hide Finish;
      Assert(link.chan.None?, ChannelKept);
      link := NewChannel(link);
      initChannels := [];
      var (l, r) := Send(link, LogInReq(1, 1, NCli(args)), op);
      link := l;
      if r.Failed? {
        Fail(r.e);
      }
    }

    method OnMasterChannelLogInRsp(m: Msg, late: Option<Error>, w: Wrapper)
      modifies this
      ensures View() == OnLogInRsp(old(View()), m, late, w)
    {
      hide LogInRspError, Fire, ClientModel.LoggedIn;
      Assert(state == Connecting && onDone.Some?, LogInOutOfState);
      var err := LogInRspError(args, m);
      if err.Some? {
        Fail(err.value);
        return;
      }
      Assert(cliNs.None?, SetTwice);
      cliNs := Some(m.ns);
      LoggedIn(m.nSrv + NCli(args), late, w);
    }

    /** The part of `on_master_channel_log_in_rsp()` that knows how many init-channels are to come. */
    method LoggedIn(n: nat, late: Option<Error>, w: Wrapper)
      modifies this
      ensures View() == ClientModel.LoggedIn(old(View()), n, late, w)
    {
      hide Expect, ClientModel.Succeed;
      if link.chan.None? {
        Assert(false, NullChannel);
        return;
      }
      var (l, ok) := Expect(link, if n == 0 then OpenHandler else InitHandler(n), late);
      link := l;
      if n == 0 && ok {
        Succeed([], [], w);
      }
    }

    /** The init-channels are moved, one by one, into the client-requested container and then the other. */
    method OutArgs() returns (byCli: seq<Peer>, bySrv: seq<Peer>)
      requires |initChannels| >= NCli(args) && (!args.wantsSrv ==> |initChannels| == NCli(args))
      ensures byCli == ByCli(View()) && bySrv == BySrv(View())
      ensures byCli + bySrv == initChannels && |byCli| == NCli(args)
    {
      byCli, bySrv := [], [];
      var idx := 0;
      while idx != NCli(args)
        invariant 0 <= idx <= NCli(args)
        invariant byCli == initChannels[..idx]
      {
        byCli := byCli + [initChannels[idx]];
        idx := idx + 1;
      }
      if args.wantsSrv {
        while idx != |initChannels|
          invariant NCli(args) <= idx <= |initChannels|
          invariant bySrv == initChannels[NCli(args)..idx]
        {
          bySrv := bySrv + [initChannels[idx]];
          idx := idx + 1;
        }
        assert initChannels[NCli(args)..idx] == initChannels[NCli(args)..];
      }
      assert idx == |initChannels|;
    }

    method OnMasterChannelInitOpenChannel(ch: nat, n: nat, x: Inbound, ops: Ops)
      requires x.msg.ToClientReq?
      requires Up(link) && link.chan.value.id == ch && |initChannels| + 1 == n ==> CC.Sized(args, n)
      modifies this
      ensures View() == OnInitOpen(old(View()), ch, n, x, ops)
    {
      hide AckInit;
      Assert(state == Connecting && onDone.Some?, InitOutOfState);
      if link.chan.None? || link.chan.value.id != ch {
        Assert(false, InitOverflow);
        return;
      }
      Assert(|initChannels| < n, InitOverflow);
      initChannels := initChannels + [ClientPeer(x.msg.c2s, x.msg.s2c)];
      if |initChannels| != n {
        return;
      }
      AckInitChannels(x.id, ops);
    }

    /** The part of `on_master_channel_init_open_channel()` that has all channels. */
    method AckInitChannels(id: nat, ops: Ops)
      requires link.chan.Some? && (Up(link) ==> CC.Sized(args, |initChannels|))
      modifies this
      ensures View() == AckInit(old(View()), id, ops)
    {
      hide SwitchAndAck, ClientModel.Succeed;
      var r := SwitchHandlersAndAck(id, ops);
      if r.Refused? {
        return;
      }
      if r.Failed? {
        state := Null;
        InvokeConnOnDone(Some(r.e), [], []);
        return;
      }
      assert Up(old(link)) by { SentMeansUp(old(link), id, ops); }
      var byCli, bySrv := OutArgs();
      Succeed(byCli, bySrv, ops.wrapper);
    }

    lemma SentMeansUp(l: Link, id: nat, ops: Ops)
      requires l.chan.Some?
      ensures SwitchAndAck(l, id, ops).1.Sent? ==> Up(l)
    {
    }

    method SwitchHandlersAndAck(id: nat, ops: Ops) returns (r: SendResult)
      requires link.chan.Some?
      modifies this`link
      ensures (link, r) == SwitchAndAck(old(link), id, ops)
    {
      var (l1, ok1) := UndoExpect(link, ops.late1);
      link := l1;
      if !ok1 {
        return Refused;
      }
      var (l2, ok2) := Expect(link, OpenHandler, ops.late2);
      link := l2;
      if !ok2 {
        return Refused;
      }
      var (l3, res) := Send(link, ToClientRsp(id, Accepted), ops.op);
      link := l3;
      return res;
    }

    method OnMasterChannelError(ch: nat, e: Error)
      modifies this
      ensures View() == OnChannelError(old(View()), ch, e)
      ensures var stale := old(link).chan.None? || old(link).chan.value.id != ch;
              && (stale ==> View() == old(View()))
              && (!stale && old(state) == Connecting ==>
                    state == Null && link.chan.None? && log == old(log) && RunsOnce(old(onDone), old(dones), Some(e)))
              && (!stale && old(state) != Connecting ==>
                    dones == old(dones) && log == old(log) + if old(hosedCode).None? then [OnError(e)] else [])
    {
      hide FailConnect, RunsOnce, ClientModel.Hose;
      if link.chan.None? || link.chan.value.id != ch {
        return;
      }
      Assert(state != Null, ErrorInNull);
      if state == Connecting {
        Fail(e);
        return;
      }
      HoseOnError(e);
    }

    /** A channel error in PEER. */
    method HoseOnError(e: Error)
      modifies this`hosedCode, this`log, this`faults
      ensures var c := Check(old(View()), cfg.graceful ==> finisher, NoFinisher);
              View() == if old(hosedCode).None? then ClientModel.Hose(c, e) else c
      ensures log == old(log) + if old(hosedCode).None? then [OnError(e)] else []
    {
      Assert(cfg.graceful ==> finisher, NoFinisher);
      if hosedCode.None? {
        Hose(e);
      }
    }

    /** The handler of the end message. */
    method OnMasterChannelGracefulSessionEnd()
      modifies this`hosedCode, this`log, this`faults
      ensures View() == OnEnd(old(View()))
      ensures hosedCode.Some? && log == old(log) + if old(hosedCode).None? then [OnError(SessionFinished)] else []
    {
      if hosedCode.None? {
        Hose(SessionFinished);
      }
    }

    /** The destructor's message. */
    method SendGracefulSessionEnd(op: SendOp)
      modifies this`link, this`faults
      ensures View() == SendEnd(old(View()), op)
    {
      if link.chan.None? {
        Assert(false, NullChannel);
        return;
      }
      var (l, r) := Send(link, GracefulSessionEnd, op);
      link := l;
    }

    method OnMasterChannelOpenChannelReq(x: Inbound, op: SendOp)
      requires x.msg.ToClientReq?
      modifies this
      ensures View() == OnOpenReq(old(View()), x, op)
      ensures old(hosedCode).Some? ==> View() == old(View())
      ensures old(hosedCode).None? && Up(old(link)) ==>
                log == old(log)
                       + (if op.SendFails? then [OnError(op.e)]
                          else if op == SendOk && cfg.passiveEnabled then [PassiveOpen(x.id, Peer(x.msg.c2s, x.msg.s2c))]
                          else [])
    {
      if hosedCode.Some? {
        return;
      }
      if link.chan.None? {
        Assert(false, NullChannel);
        return;
      }
      var result := Accepted;
      if !cfg.passiveEnabled {
        result := RejectedPassiveOpen;
      }
      var (l, r) := Send(link, ToClientRsp(x.id, result), op);
      link := l;
      if r.Refused? {
        return;
      }
      if r.Failed? {
        Hose(r.e);
        return;
      }
      if result != Accepted {
        return;
      }
      log := log + [PassiveOpen(x.id, ClientPeer(x.msg.c2s, x.msg.s2c))];
    }

    /** `open_channel()` up to the wait for the response. */
    method OpenChannel(op: SendOp) returns (waits: bool)
      requires state == InPeer
      modifies this
      ensures (View(), waits) == OpenStart(old(View()), op)
    {
      if hosedCode.Some? {
        return false;
      }
      if link.chan.None? {
        Assert(false, NullChannel);
        return false;
      }
      var id := |link.sent|;
      var (l, r) := Send(link, ToServerReq, op);
      link := l;
      if r.Failed? {
        Hose(r.e);
      }
      if r.Sent? {
        wait := Some(id);
      }
      return r.Sent?;
    }

    /** `open_channel()` from a response on. */
    method OpenChannelAnswered(m: Msg)
      requires m.ToServerRsp?
      modifies this`wait, this`log
      ensures View() == old(View()).(sess := OpenAnswered(old(View()).sess, m))
      ensures wait == None
      ensures log == old(log) + if m.result == Accepted then [ActiveOpen(m.to, Peer(m.c2s, m.s2c))] else []
    {
      wait := None;
      if m.result == Accepted {
        log := log + [ActiveOpen(m.to, ClientPeer(m.c2s, m.s2c))];
      }
    }

    /** `open_channel()` when no response comes. */
    method OpenChannelUnanswered(end: WaitEnd)
      modifies this
      ensures View() == OpenUnanswered(old(View()), end)
    {
      hide Down, HoseAsync, ClientModel.Hose;
      wait := None;
      if !Up(link) {
        return;
      }
      match end
      case TimedOut =>
      case WaitFails(e) =>
        link := Down(link);
        Hose(e);
      case WaitLate(e) => link := HoseAsync(link, e);
    }

    // ----- Whatever happens to the object -----

    /** A message arrives on the master channel. */
    method MasterChannelDelivers(m: Msg)
      requires Up(link)
      modifies this`link, this`wait, this`log
      ensures View() == Deliver(old(View()), m)
    {
      var answer := !link.chan.value.loginPending && m.ToServerRsp? && wait == Some(m.to);
      link := Receive(link, m);
      if answer {
        OpenChannelAnswered(m);
      }
    }

    /** W takes its next task. */
    method RunTask(ops: Ops)
      requires link.queue != [] && WellFormedTask(link.queue[0])
      requires CC.Any(View()) && CC.Fits(args, link)
      modifies this
      ensures View() == ClientModel.RunTask(old(View()), ops)
    {
      hide CC.Any, CC.Fits, CC.Sized, OnLogInRsp, OnInitOpen, OnOpenReq, OnChannelError, OnEnd, RunsOnce;
      var t := link.queue[0];
      if t.InitTask? && Up(link) && t.chan == link.chan.value.id && |initChannels| + 1 == t.n {
        CC.SizedAtLast(View());
      }
      link := link.(queue := link.queue[1..]);
      match t
      case LogInRspTask(x) => OnMasterChannelLogInRsp(x.msg, ops.late1, ops.wrapper);
      case InitTask(ch, n, x) => OnMasterChannelInitOpenChannel(ch, n, x, ops);
      case OpenTask(x) => OnMasterChannelOpenChannelReq(x, ops.op);
      case ErrorTask(ch, e) => OnMasterChannelError(ch, e);
      case EndTask => OnMasterChannelGracefulSessionEnd();
    }

    /** What happens, one thing at a time: a call of the user, a message, a failure of the channel, a task of W, the end of
        a wait. */
    method Perform(s: CR.Step)
      requires CR.Enabled(View(), s) && CC.Any(View()) && CC.Fits(args, link)
      modifies this
      ensures View() == CR.Next(old(View()), s)
    {
      hide CC.Any, CC.Fits, ClientModel.RunTask, Connect, Deliver, OpenStart, OpenUnanswered, SendEnd, Complete, RunsOnce;
      match s
      case DoConnect(args, run) => var _ := AsyncConnect(args, run);
      case DoDeliver(m) => MasterChannelDelivers(m);
      case DoFail(e) => link := HoseAsync(link, e);
      case DoTask(ops) => RunTask(ops);
      case DoOpen(op) => var _ := OpenChannel(op);
      case DoEndWait(end) => OpenChannelUnanswered(end);
      case DoComplete(err) => CompleteAfterCancel(err);
      case DoEnd(op) => SendGracefulSessionEnd(op);
    }
  }

  /** A session object with all that has happened to it. */
  class Life {
    const session: Session
    ghost var states: seq<Client>
    ghost var steps: seq<CR.Step>

    /** The object has gone through a run of the model. */
    ghost predicate Valid()
      reads this, session
    {
      CR.Run(states, steps) && session.View() == states[|steps|]
    }

    constructor (cfg: Config)
      ensures Valid() && fresh(session) && steps == [] && states == [Fresh(cfg)]
    {
      session := new Session(cfg);
      states, steps := [Fresh(cfg)], [];
    }

    method Perform(s: CR.Step)
      requires Valid() && CR.Enabled(session.View(), s)
      modifies this, session
      ensures Valid() && steps == old(steps) + [s] && states == old(states) + [session.View()]
      ensures old(session.dones) <= session.dones && old(session.log) <= session.log
      ensures old(session.hosedCode).Some? ==> session.log == old(session.log)
    {
      hide CR.Enabled, CR.Next, CC.Any, CC.Fits;
      CC.AnyInRuns(states, steps, |steps|);
      CC.FitsInRuns(states, steps, |steps|);
      CC.AnyStep(session.View(), s);
      StepTells(session.View(), s);
      session.Perform(s);
      states, steps := states + [session.View()], steps + [s];
    }

    /** What the user of the object can count on at any time: a stored handler means an attempt under way, and every
        earlier one has run once, in the order they were given; the error is told once, and nothing after it. */
    lemma Guaranteed()
      requires Valid()
      ensures session.onDone.Some? <==> session.state == Connecting
      ensures |session.dones| + (if session.onDone.Some? then 1 else 0) == session.nextToken
      ensures forall i :: 0 <= i < |session.dones| ==> session.dones[i].token == i
      ensures forall i :: 0 <= i < |session.log| && session.log[i].OnError? ==>
                i == |session.log| - 1 && session.hosedCode == Some(session.log[i].e)
    {
      hide CC.LinkAny;
      CC.AnyInRuns(states, steps, |steps|);
    }
  }

  /** What one step adds to what was told. */
  lemma StepTells(c: Client, s: CR.Step)
    requires CR.Enabled(c, s) && CC.Any(c) && CC.Any(CR.Next(c, s))
    ensures c.conn.dones <= CR.Next(c, s).conn.dones && c.sess.log <= CR.Next(c, s).sess.log
    ensures c.sess.hosed.Some? ==> CR.Next(c, s).sess.log == c.sess.log
  {
    hide CR.Enabled, CR.Next, CC.LinkAny, CR.HandlersOnce;
    CR.HandlersOnceStep(c, s);
    CG.TokensGrow(c, s);
    if c.sess.hosed.Some? {
      var log := CR.Next(c, s).sess.log;
      assert log[|c.sess.log| - 1] == OnError(c.sess.hosed.value);
    }
  }
}
