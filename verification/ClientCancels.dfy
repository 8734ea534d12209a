/** Runs of one client object in which a sub-class may cancel the PEER state, inside any completion and in any way. */
module ClientCancels {
  import opened MasterChannel
  import opened ClientModel
  import opened ClientRuns

  /** A task of the channel `id`. */
  ghost predicate About(t: Task, id: nat) {
    (t.ErrorTask? || t.InitTask?) && t.chan == id
  }

  ghost predicate NoLogIn(l: Link) {
    forall i :: 0 <= i < |l.queue| ==> !l.queue[i].LogInRspTask?
  }

  ghost predicate NoInit(l: Link) {
    forall i :: 0 <= i < |l.queue| ==> !(l.queue[i].InitTask? && l.chan.Some? && l.queue[i].chan == l.chan.value.id)
  }

  /** Channels are numbered as they are made; tasks and cache hold what they should. */
  ghost predicate Formed(l: Link) {
    && (l.chan.Some? ==>
          && l.chan.value.id < l.nextChan
          && (forall i :: 0 <= i < |l.chan.value.cache| ==> l.chan.value.cache[i].msg.ToClientReq?)
          && (l.chan.value.handler != NoHandler ==> l.chan.value.cache == [] && !l.chan.value.loginPending))
    && (forall i :: 0 <= i < |l.queue| ==>
          WellFormedTask(l.queue[i]) && (l.queue[i].ErrorTask? || l.queue[i].InitTask? ==> l.queue[i].chan < l.nextChan))
    && (Up(l) ==> !ErrorQueued(l))
  }

  /** The log-in response waits in the queue: nothing of its channel is before it, and nothing but errors after it. */
  ghost predicate LogInDue(l: Link, i: int) {
    && 0 <= i < |l.queue| && l.chan.Some? && l.chan.value.handler == NoHandler && !l.chan.value.loginPending
    && NoInit(l)
    && (forall j :: 0 <= j < i ==> !About(l.queue[j], l.chan.value.id))
    && (forall j :: 0 <= j < |l.queue| && j != i ==> !l.queue[j].LogInRspTask?)
  }

  ghost predicate LogInOnce(connecting: bool, l: Link) {
    && (forall i :: 0 <= i < |l.queue| && l.queue[i].LogInRspTask? ==> connecting && LogInDue(l, i))
    && (Up(l) && l.chan.value.loginPending ==>
          && connecting && NoLogIn(l) && l.chan.value.cache == [] && l.chan.value.handler == NoHandler
          && forall j :: 0 <= j < |l.queue| ==> !About(l.queue[j], l.chan.value.id))
  }

  /** `k`: the init-channels collected.  Leftover init-channel tasks never complete the list again. */
  ghost predicate InitsOk(connecting: bool, l: Link, k: nat) {
    && (Up(l) && l.chan.value.handler.InitHandler? ==> connecting)
    && (forall i :: 0 <= i < |l.queue| && l.queue[i].InitTask? && Up(l) && l.queue[i].chan == l.chan.value.id ==>
          || l.chan.value.handler == InitHandler(l.queue[i].n)
          || (l.chan.value.handler == OpenHandler && k >= l.queue[i].n))
  }

  ghost predicate EndOk(state: State, l: Link, finisher: bool) {
    && (finisher ==> state == InPeer)
    && (forall i :: 0 <= i < |l.queue| && l.queue[i].EndTask? ==> finisher)
    && (l.chan.Some? && (l.chan.value.end == EndExpected || l.chan.value.end == EndTaken) ==> finisher)
  }

  ghost predicate StateOk(state: State, cancelled: bool, l: Link) {
    && (state != Null ==> l.chan.Some?)
    && (state == Null ==> !Up(l) && !ErrorQueued(l))
    && (cancelled ==> state == Connecting)
    && (Up(l) && l.chan.value.handler == OpenHandler ==> state == InPeer || cancelled)
    && (state == InPeer || cancelled ==> NoLogIn(l) && !(Up(l) && l.chan.value.loginPending))
  }

  ghost predicate LinkAny(state: State, cancelled: bool, l: Link, k: nat, finisher: bool) {
    && Formed(l) && StateOk(state, cancelled, l)
    && LogInOnce(state == Connecting && !cancelled, l)
    && InitsOk(state == Connecting && !cancelled, l, k)
    && EndOk(state, l, finisher)
  }

  /** The on-error handler has run at most once, last of all events; and not while W waits. */
  ghost predicate Final(s: Sess) {
    && (forall i :: 0 <= i < |s.log| && s.log[i].OnError? ==> i == |s.log| - 1 && s.hosed == Some(s.log[i].e))
    && (s.hosed.Some? ==> s.log != [] && s.log[|s.log| - 1] == OnError(s.hosed.value) && s.wait.None?)
  }

  ghost predicate Any(c: Client) {
    && HandlersOnce(c.conn)
    && LinkAny(c.conn.state, c.conn.cancelled, c.link, |c.init|, c.sess.finisher)
    && Final(c.sess) && (c.sess.wait.Some? ==> c.conn.state == InPeer)
  }

  // ----- The channel and the queue -----

  lemma AnySend(state: State, x: bool, l: Link, k: nat, fin: bool, m: Msg, op: SendOp)
    requires LinkAny(state, x, l, k, fin) && l.chan.Some?
    ensures LinkAny(state, x, Send(l, m, op).0, k, fin)
  {
    if Up(l) {
      match op
      case SendOk =>
      case SendFails(_) => AnyDown(state, x, l, k, fin);
      case SendLate(e) => AnyHose(state, x, l, k, fin, e);
    }
  }

  lemma AnyDown(state: State, x: bool, l: Link, k: nat, fin: bool)
    requires LinkAny(state, x, l, k, fin) && l.chan.Some?
    ensures LinkAny(state, x, Down(l), k, fin)
  {
    DueStays(l, Down(l));
  }

  /** Queue and handler stay. */
  lemma DueStays(l: Link, l': Link)
    requires l'.queue == l.queue && l.chan.Some? && l'.chan.Some? && l'.chan.value.id == l.chan.value.id
    requires l'.chan.value.handler == l.chan.value.handler && l'.chan.value.loginPending == l.chan.value.loginPending
    ensures forall i :: LogInDue(l, i) ==> LogInDue(l', i)
  {
  }

  lemma AnyHose(state: State, x: bool, l: Link, k: nat, fin: bool, e: Error)
    requires LinkAny(state, x, l, k, fin) && Up(l)
    ensures LinkAny(state, x, HoseAsync(l, e), k, fin)
  {
    hide HandlersOnce;
    var l' := HoseAsync(l, e);
    forall i | 0 <= i < |l'.queue| && l'.queue[i].LogInRspTask?
      ensures LogInDue(l', i)
    {
      assert LogInDue(l, i);
    }
  }

  lemma AnyReceive(state: State, x: bool, l: Link, k: nat, fin: bool, m: Msg)
    requires LinkAny(state, x, l, k, fin) && Up(l)
    ensures LinkAny(state, x, Receive(l, m), k, fin)
  {
    hide LogInOnce, Formed, StateOk, InitsOk, EndOk;
    FormedReceive(l, m);
    LogInReceive(state == Connecting && !x, l, m);
    StateReceive(state, x, l, k, fin, m);
    InitsReceive(state == Connecting && !x, l, k, m);
  }

  lemma FormedReceive(l: Link, m: Msg)
    requires Formed(l) && Up(l)
    ensures Formed(Receive(l, m))
  {
  }

  lemma StateReceive(state: State, x: bool, l: Link, k: nat, fin: bool, m: Msg)
    requires LinkAny(state, x, l, k, fin) && Up(l)
    ensures StateOk(state, x, Receive(l, m)) && EndOk(state, Receive(l, m), fin)
  {
    hide Formed, LogInOnce, InitsOk;
  }

  lemma InitsReceive(connecting: bool, l: Link, k: nat, m: Msg)
    requires InitsOk(connecting, l, k) && Up(l)
    ensures InitsOk(connecting, Receive(l, m), k)
  {
  }

  lemma LogInReceive(connecting: bool, l: Link, m: Msg)
    requires LogInOnce(connecting, l) && Formed(l) && Up(l)
    ensures LogInOnce(connecting, Receive(l, m))
  {
    var l' := Receive(l, m);
    forall i | 0 <= i < |l'.queue| && l'.queue[i].LogInRspTask?
      ensures LogInDue(l', i)
    {
      if i < |l.queue| {
        assert LogInDue(l, i);
      }
    }
  }

  lemma AnyPop(state: State, x: bool, l: Link, k: nat, fin: bool)
    requires LinkAny(state, x, l, k, fin) && l.queue != [] && !l.queue[0].LogInRspTask?
    ensures LinkAny(state, x, Pop(l), k, fin)
  {
    var l' := Pop(l);
    forall i | 0 <= i < |l'.queue| && l'.queue[i].LogInRspTask?
      ensures LogInDue(l', i)
    {
      assert LogInDue(l, i + 1);
    }
  }

  /** The channel is dropped, with no log-in response in the queue. */
  lemma AnyDrop(state: State, x: bool, l: Link, k: nat)
    requires LinkAny(state, x, l, k, false) && NoLogIn(l)
    ensures LinkAny(Null, false, l.(chan := None), k, false)
  {
  }

  lemma AnyNew(l: Link, k: nat)
    requires LinkAny(Null, false, l, k, false)
    ensures LinkAny(Connecting, false, NewChannel(l), 0, false)
  {
  }

  lemma AnyTakeLogIn(state: State, x: bool, l: Link, k: nat, fin: bool)
    requires LinkAny(state, x, l, k, fin) && l.queue != [] && l.queue[0].LogInRspTask?
    ensures state == Connecting && !x && l.chan.Some? && l.chan.value.handler == NoHandler && !l.chan.value.loginPending
    ensures LinkAny(state, x, Pop(l), k, fin) && NoLogIn(Pop(l)) && NoInit(Pop(l))
  {
    assert LogInDue(l, 0);
  }

  /** The response is good, and the handler is installed. */
  lemma AnyExpect(l: Link, h: Handler, late: Option<Error>, k: nat)
    requires LinkAny(Connecting, false, l, k, false) && NoLogIn(l) && NoInit(l) && l.chan.Some? && h != NoHandler
    requires l.chan.value.handler == NoHandler && !l.chan.value.loginPending
    ensures var (l', ok) := Expect(l, h, late);
            && (ok && h == OpenHandler ==> LinkAny(InPeer, false, l', k, false) && LinkAny(Connecting, true, l', k, false))
            && (!ok || h.InitHandler? ==> LinkAny(Connecting, false, l', k, false))
            && NoLogIn(l')
  {
    if Up(l) && late.Some? {
      AnyHose(Connecting, false, l, k, false, late.value);
    } else if Up(l) {
      AnyExpected(l, h, k);
    }
  }

  lemma AnyExpected(l: Link, h: Handler, k: nat)
    requires LinkAny(Connecting, false, l, k, false) && NoLogIn(l) && NoInit(l) && Up(l) && h != NoHandler
    requires l.chan.value.handler == NoHandler && !l.chan.value.loginPending
    ensures var l' := Expect(l, h, None).0;
            && (h == OpenHandler ==> LinkAny(InPeer, false, l', k, false) && LinkAny(Connecting, true, l', k, false))
            && (h.InitHandler? ==> LinkAny(Connecting, false, l', k, false))
            && NoLogIn(l')
  {
    hide HandlerTasks;
    TasksOf(l.chan.value.id, h, l.chan.value.cache);
  }

  lemma TasksOf(ch: nat, h: Handler, xs: seq<Inbound>)
    requires h != NoHandler
    ensures var ts := HandlerTasks(ch, h, xs);
            |ts| == |xs| && forall i :: 0 <= i < |xs| ==> ts[i] == HandlerTask(ch, h, xs[i])
  {
  }

  /** A task of the current channel at the head: the log-in response is not in the queue. */
  lemma NoLogInAfter(state: State, x: bool, l: Link, k: nat, fin: bool)
    requires LinkAny(state, x, l, k, fin) && l.queue != [] && l.chan.Some? && About(l.queue[0], l.chan.value.id)
    ensures NoLogIn(l)
  {
    forall i | 0 <= i < |l.queue| ensures !l.queue[i].LogInRspTask? {
      assert LogInDue(l, i) ==> i == 0;
    }
  }

  lemma AnySwitch(l: Link, n: nat, k: nat, id: nat, ops: Ops)
    requires LinkAny(Connecting, false, l, k, false) && NoLogIn(l) && l.chan.Some? && k >= n
    requires Up(l) ==> l.chan.value.handler == InitHandler(n)
    ensures var (l', r) := SwitchAndAck(l, id, ops);
            && (r.Refused? ==> LinkAny(Connecting, false, l', k, false))
            && (r.Failed? ==> LinkAny(Null, false, l', k, false))
            && (r.Sent? ==> LinkAny(InPeer, false, l', k, false) && LinkAny(Connecting, true, l', k, false))
            && NoLogIn(l')
  {
    if Up(l) {
      var (l1, ok1) := UndoExpect(l, ops.late1);
      if !ok1 {
        AnyHose(Connecting, false, l, k, false, ops.late1.value);
      } else {
        SwitchedUp(l, n, k, id, ops);
      }
    }
  }

  lemma SwitchedUp(l: Link, n: nat, k: nat, id: nat, ops: Ops)
    requires LinkAny(Connecting, false, l, k, false) && NoLogIn(l) && Up(l) && k >= n
    requires l.chan.value.handler == InitHandler(n) && ops.late1.None?
    ensures var (l', r) := SwitchAndAck(l, id, ops);
            && (r.Refused? ==> LinkAny(Connecting, false, l', k, false))
            && (r.Failed? ==> LinkAny(Null, false, l', k, false))
            && (r.Sent? ==> LinkAny(InPeer, false, l', k, false) && LinkAny(Connecting, true, l', k, false))
            && NoLogIn(l')
  {
    hide LinkAny, NoLogIn, SwitchAndAck, HoseAsync, Down;
    assert l.chan.value.cache == [] by { NoneCached(l, k); }
    SwitchForms(l, id, ops);
    var late := if ops.late2.Some? then ops.late2.value else if ops.op.SendLate? then ops.op.e else ChannelError(0);
    AnyHosedSwitch(l, NoHandler, k, late);
    AnyHosedSwitch(l, OpenHandler, k, late);
    AnyOpened(l, n, k, ToClientRsp(id, Accepted));
  }

  lemma NoneCached(l: Link, k: nat)
    requires LinkAny(Connecting, false, l, k, false) && l.chan.Some? && l.chan.value.handler != NoHandler
    ensures l.chan.value.cache == []
  {
  }

  /** The handler was taken away or replaced, and then the channel fails in the background. */
  lemma AnyHosedSwitch(l: Link, h: Handler, k: nat, e: Error)
    requires LinkAny(Connecting, false, l, k, false) && NoLogIn(l) && Up(l) && l.chan.value.handler.InitHandler?
    ensures var l' := HoseAsync(WithHandler(l, h), e); LinkAny(Connecting, false, l', k, false) && NoLogIn(l')
  {
    var l' := HoseAsync(WithHandler(l, h), e);
    assert l'.queue[|l.queue|].ErrorTask? && forall i :: 0 <= i < |l.queue| ==> l'.queue[i] == l.queue[i];
    assert l.chan.value.cache == [];
  }

  lemma AnyOpened(l: Link, n: nat, k: nat, m: Msg)
    requires LinkAny(Connecting, false, l, k, false) && NoLogIn(l) && Up(l) && k >= n
    requires l.chan.value.handler == InitHandler(n)
    ensures var l' := WithHandler(l, OpenHandler);
            && LinkAny(Null, false, Down(l'), k, false) && NoLogIn(Down(l'))
            && LinkAny(InPeer, false, l'.(sent := l.sent + [m]), k, false)
            && LinkAny(Connecting, true, l'.(sent := l.sent + [m]), k, false)
            && NoLogIn(l'.(sent := l.sent + [m]))
  {
  }

  // ----- Steps -----

  lemma AnyConnect(c: Client, args: Args, run: ConnectRun)
    requires Any(c) && c.sess.wait.None?
    ensures Any(Connect(c, args, run).0)
  {
    hide HandlersOnce, LinkAny, Send, RequestLogIn, Finish;
    HandlersConnect(c, args, run);
    if c.conn.state == Null {
      NullFacts(c.conn.cancelled, c.link, |c.init|, c.sess.finisher);
      BeginOk(c.conn, false);
      if run.Requested? {
        AnyRequest(SetSrvNs(c.(conn := Begin(c.conn, false), args := args), run.srvNs), run.op);
      } else {
        HandlersFinish(Begin(c.conn, false), Some(run.e), [], []);
        NotCancelled(Begin(c.conn, false), Null, Some(run.e));
      }
    }
  }

  lemma NotCancelled(k: Conn, state: State, result: Option<Error>)
    ensures !Finish(k, state, result, [], []).cancelled && Finish(k, state, result, [], []).state == state
  {
  }

  lemma AnyRequest(c: Client, op: SendOp)
    requires LinkAny(Null, false, c.link, |c.init|, false) && c.conn.state == Connecting && !c.conn.cancelled
    requires !c.sess.finisher
    ensures LinkHolds(RequestLogIn(c, op)) && RequestLogIn(c, op).sess == c.sess
  {
    hide LinkAny, Send, Finish;
    AnyNew(c.link, |c.init|);
    var m := LogInReq(1, 1, NCli(c.args));
    AnySend(Connecting, false, NewChannel(c.link), 0, false, m, op);
    assert NoLogIn(Send(NewChannel(c.link), m, op).0) by {
      NullFacts(false, c.link, |c.init|, false);
      SendNoLogIn(NewChannel(c.link), m, op);
    }
    AnyDrop(Connecting, false, Send(NewChannel(c.link), m, op).0, 0);
    if op.SendFails? {
      NotCancelled(c.conn, Null, Some(op.e));
    }
    SendReports(NewChannel(c.link), m, op);
  }

  lemma NullFacts(x: bool, l: Link, k: nat, fin: bool)
    requires LinkAny(Null, x, l, k, fin)
    ensures !x && !fin && NoLogIn(l) && LinkAny(Null, false, l, k, false)
  {
  }

  lemma SendNoLogIn(l: Link, m: Msg, op: SendOp)
    requires NoLogIn(l) && l.chan.Some?
    ensures NoLogIn(Send(l, m, op).0) && Send(l, m, op).0.chan.Some?
  {
  }

  lemma AnyDeliver(c: Client, m: Msg)
    requires Any(c) && Up(c.link)
    ensures Any(Deliver(c, m))
  {
    hide HandlersOnce, LinkAny;
    AnyReceive(c.conn.state, c.conn.cancelled, c.link, |c.init|, c.sess.finisher, m);
  }

  ghost predicate LinkHolds(c: Client) {
    LinkAny(c.conn.state, c.conn.cancelled, c.link, |c.init|, c.sess.finisher)
  }

  lemma AnySucceed(c: Client, byCli: seq<Peer>, bySrv: seq<Peer>, w: Wrapper)
    requires c.link.chan.Some? && NoLogIn(c.link) && !c.sess.finisher
    requires LinkAny(InPeer, false, c.link, |c.init|, false) && LinkAny(Connecting, true, c.link, |c.init|, false)
    ensures LinkHolds(Succeed(c, byCli, bySrv, w)) && Succeed(c, byCli, bySrv, w).sess == c.sess
  {
    hide LinkAny;
    AnyDrop(InPeer, false, c.link, |c.init|);
  }

  lemma AnyLoggedIn(c: Client, n: nat, late: Option<Error>, w: Wrapper)
    requires c.conn.state == Connecting && !c.conn.cancelled && !c.sess.finisher
    requires LinkAny(Connecting, false, c.link, |c.init|, false) && NoLogIn(c.link) && NoInit(c.link) && c.link.chan.Some?
    requires c.link.chan.value.handler == NoHandler && !c.link.chan.value.loginPending
    ensures LinkHolds(LoggedIn(c, n, late, w)) && LoggedIn(c, n, late, w).sess == c.sess
  {
    hide LinkAny, Expect, Succeed;
    AnyExpect(c.link, if n == 0 then OpenHandler else InitHandler(n), late, |c.init|);
    ExpectKeepsChan(c.link, if n == 0 then OpenHandler else InitHandler(n), late);
    if n == 0 && Expect(c.link, OpenHandler, late).1 {
      AnySucceed(c.(link := Expect(c.link, OpenHandler, late).0), [], [], w);
    }
  }

  lemma ExpectKeepsChan(l: Link, h: Handler, late: Option<Error>)
    requires l.chan.Some? && h != NoHandler
    ensures Expect(l, h, late).0.chan.Some?
  {
  }

  lemma AnyLogInRsp(c: Client, m: Msg, late: Option<Error>, w: Wrapper)
    requires Any(c) && c.link.queue != [] && c.link.queue[0].LogInRspTask? && c.sess.wait.None?
    ensures Any(OnLogInRsp(Popped(c), m, late, w))
  {
    hide HandlersOnce, LinkAny, LoggedIn, LogInRspError;
    HandlersLogInRsp(Popped(c), m, late, w);
    AnyTakeLogIn(c.conn.state, c.conn.cancelled, c.link, |c.init|, c.sess.finisher);
    NoFinisher(c.conn.state, c.conn.cancelled, c.link, |c.init|, c.sess.finisher);
    AnyDrop(Connecting, false, Pop(c.link), |c.init|);
    if LogInRspError(c.args, m).None? {
      var c0 := Popped(c);
      var c1 := Check(Check(c0, c0.conn.state == Connecting && c0.conn.onDone.Some?, LogInOutOfState),
                      c0.cliNs.None?, SetTwice).(cliNs := Some(m.ns));
      AnyLoggedIn(c1, m.nSrv + NCli(c.args), late, w);
    }
  }

  lemma NoFinisher(state: State, x: bool, l: Link, k: nat, fin: bool)
    requires LinkAny(state, x, l, k, fin) && state != InPeer
    ensures !fin
  {
  }

  lemma AnyAck(c: Client, n: nat, id: nat, ops: Ops)
    requires LinkHolds(c) && c.link.chan.Some? && NoLogIn(c.link) && |c.init| >= n
    requires Up(c.link) ==> c.conn.state == Connecting && !c.conn.cancelled && c.link.chan.value.handler == InitHandler(n)
    ensures LinkHolds(AckInit(c, id, ops)) && AckInit(c, id, ops).sess == c.sess
  {
    hide LinkAny, SwitchAndAck, Succeed, ByCli, BySrv;
    if !Up(c.link) {
      SwitchRefused(c.link, id, ops);
    } else {
      NoFinisher(c.conn.state, c.conn.cancelled, c.link, |c.init|, c.sess.finisher);
      AnySwitch(c.link, n, |c.init|, id, ops);
      var (l, r) := SwitchAndAck(c.link, id, ops);
      assert l.chan.Some? by { SwitchKeepsChan(c.link, id, ops); }
      if r.Sent? {
        AnySucceed(c.(link := l), ByCli(c), BySrv(c), ops.wrapper);
      }
    }
  }

  lemma SwitchKeepsChan(l: Link, id: nat, ops: Ops)
    requires l.chan.Some?
    ensures SwitchAndAck(l, id, ops).0.chan.Some?
  {
  }

  lemma MoreInits(state: State, x: bool, l: Link, k: nat, fin: bool)
    requires LinkAny(state, x, l, k, fin)
    ensures LinkAny(state, x, l, k + 1, fin)
  {
  }

  /** An init-channel task of the current channel finds the list being collected, or complete. */
  lemma AtInit(state: State, x: bool, l: Link, k: nat, fin: bool)
    requires LinkAny(state, x, l, k, fin) && l.queue != [] && l.queue[0].InitTask? && Up(l)
    requires l.queue[0].chan == l.chan.value.id
    ensures k >= l.queue[0].n || (state == Connecting && !x && l.chan.value.handler == InitHandler(l.queue[0].n))
    ensures k + 1 == l.queue[0].n ==> state == Connecting && !x && l.chan.value.handler == InitHandler(l.queue[0].n)
  {
  }

  lemma AnyInitOpen(c: Client, ch: nat, n: nat, x: Inbound, ops: Ops)
    requires Any(c) && c.link.queue != [] && c.link.queue[0] == InitTask(ch, n, x) && x.msg.ToClientReq?
    requires c.sess.wait.None?
    ensures Any(OnInitOpen(Popped(c), ch, n, x, ops))
  {
    hide HandlersOnce, LinkAny, AckInit;
    HandlersInitOpen(Popped(c), ch, n, x, ops);
    var c0 := Popped(c);
    AnyPop(c.conn.state, c.conn.cancelled, c.link, |c.init|, c.sess.finisher);
    if c.link.chan.Some? && c.link.chan.value.id == ch {
      NoLogInAfter(c.conn.state, c.conn.cancelled, c.link, |c.init|, c.sess.finisher);
      MoreInits(c.conn.state, c.conn.cancelled, c0.link, |c.init|, c.sess.finisher);
      if Up(c.link) {
        AtInit(c.conn.state, c.conn.cancelled, c.link, |c.init|, c.sess.finisher);
      }
      var c1 := Check(c0, c.conn.state == Connecting && c.conn.onDone.Some?, InitOutOfState);
      var c2 := Check(c1, |c.init| < n, InitOverflow).(init := c.init + [ClientPeer(x.msg.c2s, x.msg.s2c)]);
      if |c2.init| == n {
        AnyAck(c2, n, x.id, ops);
      }
    }
  }

  lemma AnyError(c: Client, ch: nat, e: Error)
    requires Any(c) && c.link.queue != [] && c.link.queue[0] == ErrorTask(ch, e) && c.sess.wait.None?
    ensures Any(OnChannelError(Popped(c), ch, e))
  {
    hide HandlersOnce, LinkAny;
    HandlersError(Popped(c), ch, e);
    AnyPop(c.conn.state, c.conn.cancelled, c.link, |c.init|, c.sess.finisher);
    if c.link.chan.Some? && c.link.chan.value.id == ch && c.conn.state == Connecting {
      NoLogInAfter(c.conn.state, c.conn.cancelled, c.link, |c.init|, c.sess.finisher);
      NoFinisher(c.conn.state, c.conn.cancelled, c.link, |c.init|, c.sess.finisher);
      AnyDrop(Connecting, c.conn.cancelled, Pop(c.link), |c.init|);
    }
  }

  lemma AnyOpenReq(c: Client, x: Inbound, op: SendOp)
    requires Any(c) && c.link.queue != [] && c.link.queue[0] == OpenTask(x) && x.msg.ToClientReq? && c.sess.wait.None?
    ensures Any(OnOpenReq(Popped(c), x, op))
  {
    hide HandlersOnce, LinkAny;
    AnyPop(c.conn.state, c.conn.cancelled, c.link, |c.init|, c.sess.finisher);
    if c.link.chan.Some? {
      AnySend(c.conn.state, c.conn.cancelled, Pop(c.link), |c.init|, c.sess.finisher,
              ToClientRsp(x.id, if c.cfg.passiveEnabled then Accepted else RejectedPassiveOpen), op);
    }
  }

  lemma AnyEnd(c: Client)
    requires Any(c) && c.link.queue != [] && c.link.queue[0].EndTask? && c.sess.wait.None?
    ensures Any(OnEnd(Popped(c)))
  {
    hide HandlersOnce, LinkAny;
    AnyPop(c.conn.state, c.conn.cancelled, c.link, |c.init|, c.sess.finisher);
  }

  lemma AnyTask(c: Client, ops: Ops)
    requires Any(c) && Enabled(c, DoTask(ops))
    ensures Any(RunTask(c, ops))
  {
    hide Any, OnLogInRsp, OnInitOpen, OnOpenReq, OnChannelError, OnEnd;
    match c.link.queue[0]
    case LogInRspTask(x) => AnyLogInRsp(c, x.msg, ops.late1, ops.wrapper);
    case InitTask(ch, n, x) => AnyInitOpen(c, ch, n, x, ops);
    case OpenTask(x) => AnyOpenReq(c, x, ops.op);
    case ErrorTask(ch, e) => AnyError(c, ch, e);
    case EndTask => AnyEnd(c);
  }

  lemma AnyOpen(c: Client, op: SendOp)
    requires Any(c) && Enabled(c, DoOpen(op))
    ensures Any(OpenStart(c, op).0) && c.link.chan.Some?
  {
    hide HandlersOnce, Formed, LogInOnce, InitsOk, EndOk;
    AnySend(c.conn.state, c.conn.cancelled, c.link, |c.init|, c.sess.finisher, ToServerReq, op);
  }

  lemma AnyEndWait(c: Client, end: WaitEnd)
    requires Any(c) && c.sess.wait.Some?
    ensures Any(OpenUnanswered(c, end))
  {
    hide HandlersOnce, LinkAny;
    if Up(c.link) {
      AnyDown(c.conn.state, c.conn.cancelled, c.link, |c.init|, c.sess.finisher);
      AnyHose(c.conn.state, c.conn.cancelled, c.link, |c.init|, c.sess.finisher,
              if end.TimedOut? then OpenTimeout else end.e);
    }
  }

  lemma AnySendEnd(c: Client, op: SendOp)
    requires Any(c) && Enabled(c, DoEnd(op))
    ensures Any(SendEnd(c, op)) && c.link.chan.Some?
  {
    hide HandlersOnce, Formed, LogInOnce, InitsOk, EndOk;
    AnySend(c.conn.state, c.conn.cancelled, c.link, |c.init|, c.sess.finisher, GracefulSessionEnd, op);
  }

  lemma AnyFinisher(l: Link, k: nat, graceful: bool)
    requires LinkAny(Connecting, true, l, k, false)
    ensures l.chan.Some? && NoLogIn(l)
    ensures LinkAny(InPeer, false, if graceful then ExpectEnd(l) else l, k, graceful)
  {
  }

  lemma AnyComplete(c: Client, err: Option<Error>)
    requires Any(c) && Enabled(c, DoComplete(err))
    ensures Any(Complete(c, err)) && c.link.chan.Some?
  {
    hide LinkAny;
    NoFinisher(c.conn.state, c.conn.cancelled, c.link, |c.init|, c.sess.finisher);
    AnyFinisher(c.link, |c.init|, c.cfg.graceful);
    AnyDrop(Connecting, true, c.link, |c.init|);
  }

  lemma AnyStep(c: Client, s: Step)
    requires Any(c) && Enabled(c, s)
    ensures Any(Next(c, s))
  {
    hide Any, Connect, Deliver, RunTask, OpenStart, OpenUnanswered, SendEnd, Complete;
    match s
    case DoConnect(args, run) => AnyConnect(c, args, run);
    case DoDeliver(m) => AnyDeliver(c, m);
    case DoFail(e) => AnyFail(c, e);
    case DoTask(ops) => AnyTask(c, ops);
    case DoOpen(op) => AnyOpen(c, op);
    case DoEndWait(end) => AnyEndWait(c, end);
    case DoComplete(err) => AnyComplete(c, err);
    case DoEnd(op) => AnySendEnd(c, op);
  }

  lemma AnyFail(c: Client, e: Error)
    requires Any(c) && Up(c.link)
    ensures Any(c.(link := HoseAsync(c.link, e)))
  {
    hide HandlersOnce, LinkAny;
    AnyHose(c.conn.state, c.conn.cancelled, c.link, |c.init|, c.sess.finisher, e);
  }

  lemma {:induction false} AnyInRuns(states: seq<Client>, steps: seq<Step>, i: nat)
    requires Run(states, steps) && i < |states|
    ensures Any(states[i])
  {
    hide Enabled, Next;
    if i > 0 {
      AnyInRuns(states, steps, i - 1);
      AnyStep(states[i - 1], steps[i - 1]);
    } else {
      AnyFresh(states[0].cfg);
    }
  }

  // ----- The sizes of the lists of init-channels -----

  /** `n` init-channels fill the client-requested container, and leave none over if there is no other. */
  predicate Sized(args: Args, n: nat) {
    NCli(args) <= n && (!args.wantsSrv ==> n == NCli(args))
  }

  ghost predicate Fits(args: Args, l: Link) {
    Up(l) && l.chan.value.handler.InitHandler? ==> Sized(args, l.chan.value.handler.n)
  }

  lemma FitsLogInRsp(c: Client, m: Msg, late: Option<Error>, w: Wrapper)
    requires Fits(c.args, c.link)
    ensures Fits(c.args, OnLogInRsp(c, m, late, w).link) && OnLogInRsp(c, m, late, w).args == c.args
  {
    hide Finish, LoggedIn;
    if LogInRspError(c.args, m).None? {
      var c1 := Check(c, c.conn.state == Connecting && c.conn.onDone.Some?, LogInOutOfState);
      FitsLoggedIn(Check(c1, c.cliNs.None?, SetTwice).(cliNs := Some(m.ns)), m.nSrv + NCli(c.args), late, w);
    }
  }

  lemma FitsLoggedIn(c: Client, n: nat, late: Option<Error>, w: Wrapper)
    requires Fits(c.args, c.link) && Sized(c.args, n)
    ensures Fits(c.args, LoggedIn(c, n, late, w).link) && LoggedIn(c, n, late, w).args == c.args
  {
    hide Finish;
  }

  lemma FitsInitOpen(c: Client, ch: nat, n: nat, x: Inbound, ops: Ops)
    requires Fits(c.args, c.link) && x.msg.ToClientReq?
    ensures Fits(c.args, OnInitOpen(c, ch, n, x, ops).link) && OnInitOpen(c, ch, n, x, ops).args == c.args
  {
    hide SwitchAndAck, Finish, ByCli, BySrv;
    if c.link.chan.Some? {
      FitsSwitch(c.args, c.link, x.id, ops);
    }
  }

  lemma FitsSwitch(args: Args, l: Link, id: nat, ops: Ops)
    requires Fits(args, l) && l.chan.Some?
    ensures Fits(args, SwitchAndAck(l, id, ops).0)
  {
  }

  lemma FitsTask(c: Client, ops: Ops)
    requires Fits(c.args, c.link) && c.link.queue != [] && WellFormedTask(c.link.queue[0])
    ensures Fits(c.args, RunTask(c, ops).link) && RunTask(c, ops).args == c.args
  {
    hide OnLogInRsp, OnInitOpen, Finish;
    match c.link.queue[0]
    case LogInRspTask(x) => FitsLogInRsp(Popped(c), x.msg, ops.late1, ops.wrapper);
    case InitTask(ch, n, x) => FitsInitOpen(Popped(c), ch, n, x, ops);
    case _ =>
  }

  lemma FitsStep(c: Client, s: Step)
    requires Any(c) && Fits(c.args, c.link) && Enabled(c, s)
    ensures Fits(Next(c, s).args, Next(c, s).link)
  {
    hide RunTask, Attempt, Finish, HandlersOnce, Formed, LogInOnce, InitsOk, EndOk, Send;
    match s
    case DoTask(ops) => FitsTask(c, ops);
    case DoConnect(args, run) =>
      if c.conn.state == Null {
        FitsAttempt(c.(conn := Begin(c.conn, false), args := args), run);
      }
    case DoOpen(op) => FitsSend(c.args, c.link, ToServerReq, op);
    case DoEnd(op) => FitsSend(c.args, c.link, GracefulSessionEnd, op);
    case _ =>
  }

  lemma FitsSend(args: Args, l: Link, m: Msg, op: SendOp)
    requires Fits(args, l) && l.chan.Some?
    ensures Fits(args, Send(l, m, op).0)
  {
  }

  lemma FitsAttempt(c: Client, run: ConnectRun)
    requires !Up(c.link)
    ensures Fits(c.args, Attempt(c, run).link) && Attempt(c, run).args == c.args
  {
    hide Finish;
  }

  lemma {:induction false} FitsInRuns(states: seq<Client>, steps: seq<Step>, i: nat)
    requires Run(states, steps) && i < |states|
    ensures Fits(states[i].args, states[i].link)
  {
    hide Enabled, Next;
    if i > 0 {
      FitsInRuns(states, steps, i - 1);
      AnyInRuns(states, steps, i - 1);
      FitsStep(states[i - 1], steps[i - 1]);
    }
  }

  /** The task that completes the list of init-channels, of a channel that is up, finds it of the right size. */
  lemma SizedAtLast(c: Client)
    requires Any(c) && Fits(c.args, c.link) && c.link.queue != [] && c.link.queue[0].InitTask?
    requires Up(c.link) && c.link.queue[0].chan == c.link.chan.value.id && |c.init| + 1 == c.link.queue[0].n
    ensures Sized(c.args, |c.init| + 1)
  {
    hide LinkAny;
    AtInit(c.conn.state, c.conn.cancelled, c.link, |c.init|, c.sess.finisher);
  }

  lemma AnyFresh(cfg: Config)
    ensures Any(Fresh(cfg))
  {
  }
}
