/** How the client collects the init-channels, against a server that sends nothing but them until it is acknowledged. */
module ClientInits {
  import opened MasterChannel
  import opened ClientModel
  import opened ClientRuns
  import opened ClientWire

  /** What the client relies on: before it has acknowledged, it has received the log-in response and at most the `n`
      init-channel messages. */
  ghost predicate Promise(l: Link) {
    var n := Agreed(l.sent, l.recv);
    n > 0 && |l.sent| <= 1 ==> |l.recv| <= n + 1 && forall i :: 1 <= i < |l.recv| ==> l.recv[i].ToClientReq?
  }

  function InitReqs(queue: seq<Task>): seq<Inbound> {
    if queue == [] then []
    else (if queue[0].InitTask? then [queue[0].req] else []) + InitReqs(queue[1..])
  }

  /** The messages received from the `a`-th on. */
  function Window(recv: seq<Msg>, a: nat): seq<Inbound>
    requires a <= |recv|
  {
    seq(|recv| - a, i requires 0 <= i < |recv| - a => Inbound(a + i, recv[a + i]))
  }

  /** The channels collected so far are those of the first messages after the log-in response. */
  ghost predicate Filled(init: seq<Peer>, recv: seq<Msg>) {
    && |init| < |recv|
    && forall j :: 1 <= j <= |init| ==>
         recv[j].ToClientReq? && init[j - 1] == ClientPeer(recv[j].c2s, recv[j].s2c)
  }

  ghost predicate TasksOk(state: State, l: Link, n: nat) {
    && (forall i :: 0 <= i < |l.queue| && l.queue[i].InitTask? ==>
          && l.chan.Some? && l.chan.value.id == l.queue[i].chan && l.queue[i].n == n
          && state == Connecting && l.chan.value.handler.InitHandler?)
    && (forall i, j :: 0 <= i < j < |l.queue| && l.queue[i].ErrorTask? && l.queue[j].InitTask? ==>
          l.chan.Some? && l.queue[i].chan != l.chan.value.id)
  }

  ghost predicate WindowOk(state: State, l: Link, init: seq<Peer>, n: nat) {
    && (state == Connecting && l.chan.Some? && l.chan.value.handler.InitHandler? ==>
          && |init| <= n && Filled(init, l.recv) && InitReqs(l.queue) == Window(l.recv, |init| + 1))
    && (state == Connecting && Up(l) && l.chan.value.handler == NoHandler ==>
          init == [] && (n > 0 && l.recv != [] ==> Cache(l) == Window(l.recv, 1)))
  }

  /** All init-channels are there, and were handed to the user. */
  ghost predicate Complete(c: Client) {
    var l := c.link;
    var n := Agreed(l.sent, l.recv);
    var k := |c.conn.dones| - 1;
    && (n > 0 ==> |c.init| == n && Filled(c.init, l.recv))
    && (n > 0 && |l.sent| > 1 ==> l.sent[1] == ToClientRsp(n, Accepted))
    && k >= 0 && c.conn.dones[k].byCli == (if n > 0 then ByCli(c) else [])
    && c.conn.dones[k].bySrv == (if n > 0 then BySrv(c) else [])
  }

  ghost predicate Collect(c: Client) {
    var n := Agreed(c.link.sent, c.link.recv);
    && TasksOk(c.conn.state, c.link, n)
    && WindowOk(c.conn.state, c.link, c.init, n)
    && (c.conn.state == InPeer ==> Complete(c))
    && c.faults !! {InitOutOfState, InitOverflow}
  }

  // ----- Queues and windows -----

  lemma {:induction false} InitReqsAppend(q: seq<Task>, r: seq<Task>)
    ensures InitReqs(q + r) == InitReqs(q) + InitReqs(r)
  {
    if q == [] {
      assert q + r == r;
    } else {
      assert (q + r)[1..] == q[1..] + r;
      InitReqsAppend(q[1..], r);
      assert InitReqs(q + r) == (if q[0].InitTask? then [q[0].req] else []) + InitReqs((q + r)[1..]);
    }
  }

  lemma {:induction false} NoInitReqs(q: seq<Task>)
    requires forall i :: 0 <= i < |q| ==> !q[i].InitTask?
    ensures InitReqs(q) == []
  {
    if q != [] {
      NoInitReqs(q[1..]);
    }
  }

  lemma {:induction false} InitReqsOfTasks(ch: nat, n: nat, xs: seq<Inbound>)
    ensures InitReqs(HandlerTasks(ch, InitHandler(n), xs)) == xs
  {
    if xs != [] {
      InitReqsOfTasks(ch, n, xs[1..]);
      assert HandlerTasks(ch, InitHandler(n), xs)[1..] == HandlerTasks(ch, InitHandler(n), xs[1..]);
    }
  }

  lemma WindowMore(recv: seq<Msg>, a: nat, m: Msg)
    requires a <= |recv|
    ensures Window(recv + [m], a) == Window(recv, a) + [Inbound(|recv|, m)]
  {
  }

  lemma WindowNext(recv: seq<Msg>, a: nat)
    requires a < |recv|
    ensures Window(recv, a) == [Inbound(a, recv[a])] + Window(recv, a + 1)
  {
  }

  // ----- Steps -----

  /** No init-channel task is queued. */
  ghost predicate NoInits(l: Link) {
    forall i :: 0 <= i < |l.queue| ==> !l.queue[i].InitTask?
  }

  lemma NoInitsOk(state: State, l: Link, n: nat)
    requires NoInits(l)
    ensures TasksOk(state, l, n) && InitReqs(l.queue) == []
  {
    NoInitReqs(l.queue);
  }

  /** Nothing is collected yet, and nothing is left from an earlier attempt. */
  lemma CollectNothing(c: Client)
    requires NoInits(c.link) && c.conn.state != InPeer && c.faults !! {InitOutOfState, InitOverflow}
    requires c.conn.state == Connecting ==> c.link.chan.Some? && c.link.chan.value.handler == NoHandler
    requires c.conn.state == Connecting ==> c.init == [] && c.link.recv == []
    ensures Collect(c)
  {
    NoInitsOk(c.conn.state, c.link, Agreed(c.link.sent, c.link.recv));
  }

  lemma CollectConnect(c: Client, args: Args, run: ConnectRun)
    requires Inv(c) && LogInOk(c) && Collect(c) && c.sess.wait.None?
    ensures Collect(Connect(c, args, run).0)
  {
    hide Inv, LogInOk, Collect, Finish, RequestLogIn;
    if c.conn.state == Null {
      NullTasksOk(c);
      NoFaults(c);
      FinishState(Begin(c.conn, false));
      if run.Requested? {
        RequestCollects(SetSrvNs(c.(conn := Begin(c.conn, false), args := args), run.srvNs), run.op);
      } else {
        CollectNothing(Connect(c, args, run).0);
      }
    }
  }

  lemma RequestCollects(c: Client, op: SendOp)
    requires NoInits(c.link) && c.conn.state == Connecting && c.faults !! {InitOutOfState, InitOverflow}
    ensures Collect(RequestLogIn(c, op))
  {
    hide Send, Collect, Finish;
    SendNoInits(NewChannel(c.link), LogInReq(1, 1, NCli(c.args)), op);
    FinishState(c.conn);
    CollectNothing(RequestLogIn(c, op));
  }

  lemma SendNoInits(l: Link, m: Msg, op: SendOp)
    requires l.chan.Some? && NoInits(l)
    ensures var l' := Send(l, m, op).0;
            NoInits(l') && l'.chan.Some? && l'.chan.value.handler == l.chan.value.handler && l'.recv == l.recv
  {
  }

  lemma NullTasksOk(c: Client)
    requires Collect(c) && c.conn.state == Null
    ensures NoInits(c.link)
  {
  }

  lemma FinishState(k: Conn)
    ensures forall state, result, byCli, bySrv :: Finish(k, state, result, byCli, bySrv).state == state
  {
  }

  lemma CollectDeliver(c: Client, m: Msg)
    requires Inv(c) && LogInOk(c) && Collect(c) && Up(c.link) && Promise(Deliver(c, m).link)
    ensures Collect(Deliver(c, m))
  {
    hide Inv, LogInOk, Collect, Deliver, Promise;
    if c.conn.state == InPeer {
      DeliverInPeer(c, m);
    } else if c.link.recv == [] {
      DeliverFirst(c, m);
    } else {
      assert c.conn.state == Connecting by { if c.conn.state == Null { NullIsDown(c); } }
      DeliverInit(c, m);
    }
  }

  lemma DeliverInPeer(c: Client, m: Msg)
    requires Inv(c) && LogInOk(c) && Collect(c) && Up(c.link) && c.conn.state == InPeer
    ensures Collect(Deliver(c, m))
  {
    hide Inv, LogInOk, Collect;
    PeerOpens(c);
    PeerNoInits(c);
    NoFaults(c);
    CollectLater(c, Deliver(c, m), [m]);
  }

  lemma PeerOpens(c: Client)
    requires Inv(c) && LogInOk(c) && Up(c.link) && c.conn.state == InPeer
    ensures c.link.chan.value.handler == OpenHandler && !c.link.chan.value.loginPending && c.link.recv != []
  {
  }

  lemma FilledMore(init: seq<Peer>, recv: seq<Msg>, more: seq<Msg>)
    ensures Filled(init, recv) ==> Filled(init, recv + more)
  {
  }

  lemma DeliverFirst(c: Client, m: Msg)
    requires Inv(c) && LogInOk(c) && Collect(c) && Up(c.link) && c.link.recv == [] && c.conn.state != InPeer
    ensures Collect(Deliver(c, m))
  {
    hide HandlersOnce, LogInRspError;
    WindowEnd(Deliver(c, m).link.recv);
  }

  lemma DeliverInit(c: Client, m: Msg)
    requires Inv(c) && LogInOk(c) && Collect(c) && Up(c.link) && Promise(Deliver(c, m).link)
    requires c.conn.state == Connecting && c.link.recv != []
    ensures Collect(Deliver(c, m))
  {
    hide HandlersOnce, LogInRspError;
    var l := c.link;
    var l' := Deliver(c, m).link;
    var n := Agreed(l.sent, l.recv);
    assert Agreed(l'.sent, l'.recv) == n && l'.recv[|l.recv|] == m;
    if l.chan.value.handler.InitHandler? {
      var t := InitTask(l.chan.value.id, n, Inbound(|l.recv|, m));
      InitReqsAppend(l.queue, [t]);
      assert InitReqs([t]) == [t.req];
      WindowMore(l.recv, |c.init| + 1, m);
    } else {
      WindowMore(l.recv, 1, m);
    }
  }

  lemma WindowEnd(recv: seq<Msg>)
    requires |recv| == 1
    ensures Window(recv, 1) == []
  {
  }

  /** A queue that gets shorter, or gets an error, keeps what is said of its init-channel tasks. */
  lemma TasksPop(state: State, l: Link, n: nat)
    requires TasksOk(state, l, n) && l.queue != []
    ensures TasksOk(state, Pop(l), n)
    ensures !l.queue[0].InitTask? ==> InitReqs(Pop(l).queue) == InitReqs(l.queue)
  {
  }

  lemma TasksHose(state: State, l: Link, n: nat, e: Error)
    requires TasksOk(state, l, n) && l.chan.Some?
    ensures TasksOk(state, HoseAsync(l, e), n) && InitReqs(HoseAsync(l, e).queue) == InitReqs(l.queue)
    ensures TasksOk(state, Down(l), n)
  {
    InitReqsAppend(l.queue, [ErrorTask(l.chan.value.id, e)]);
    NoInitReqs([ErrorTask(l.chan.value.id, e)]);
  }

  lemma CollectFail(c: Client, e: Error)
    requires Collect(c) && Up(c.link)
    ensures Collect(c.(link := HoseAsync(c.link, e)))
  {
    hide TasksOk, Filled;
    TasksHose(c.conn.state, c.link, Agreed(c.link.sent, c.link.recv), e);
  }

  lemma ResponseFacts(c: Client, x: Inbound)
    requires Inv(c) && LogInOk(c) && Collect(c) && c.link.queue != [] && c.link.queue[0] == LogInRspTask(x)
    ensures c.conn.state == Connecting && c.conn.onDone.Some?
    ensures var l := Pop(c.link);
            && l.chan.Some? && l.chan.value.handler == NoHandler && l.recv != [] && x.msg == l.recv[0]
            && l.sent != [] && l.sent[0] == LogInReq(1, 1, NCli(c.args))
            && (forall i :: 0 <= i < |l.queue| ==> l.queue[i].ErrorTask?)
            && (Up(l) ==> !ErrorQueued(l))
            && (Up(l) ==> c.init == [] && (Agreed(l.sent, l.recv) > 0 ==> Cache(l) == Window(l.recv, 1)))
  {
    hide HandlersOnce, LogInRspError, ClientWire.SentOk, SessOk, InitOk, TasksOk;
    Pending(c.conn);
    PopLogInOk(c.conn.state, c.link);
  }

  lemma CollectResponse(c: Client, x: Inbound, late: Option<Error>)
    requires Inv(c) && LogInOk(c) && Collect(c) && c.link.queue != [] && c.link.queue[0] == LogInRspTask(x)
    ensures Collect(OnLogInRsp(Popped(c), x.msg, late, Keep))
  {
    hide Inv, LogInOk, LogInRspError, LoggedIn, Collect, ErrorQueued, Window;
    ResponseFacts(c, x);
    NoFaults(c);
    if LogInRspError(c.args, x.msg).None? {
      var c0 := Popped(c);
      var c1 := Check(Check(c0, c0.conn.state == Connecting && c0.conn.onDone.Some?, LogInOutOfState),
                      c0.cliNs.None?, SetTwice).(cliNs := Some(x.msg.ns));
      CollectLoggedIn(c1, x.msg.nSrv + NCli(c.args), late);
    } else {
      CollectNothing(OnLogInRsp(Popped(c), x.msg, late, Keep));
    }
  }

  lemma CollectLoggedIn(c: Client, n: nat, late: Option<Error>)
    requires c.conn.state == Connecting && c.conn.onDone.Some?
    requires c.link.chan.Some? && c.link.chan.value.handler == NoHandler
    requires n == Agreed(c.link.sent, c.link.recv) && c.link.recv != [] && c.faults !! {InitOutOfState, InitOverflow}
    requires forall i :: 0 <= i < |c.link.queue| ==> c.link.queue[i].ErrorTask?
    requires Up(c.link) ==> !ErrorQueued(c.link) && c.init == [] && (n > 0 ==> Cache(c.link) == Window(c.link.recv, 1))
    ensures Collect(LoggedIn(c, n, late, Keep))
  {
    hide Expect, TasksOk, WindowOk, ErrorQueued;
    ResponseExpect(c.link, c.init, n, late);
    InPeerWindow(Expect(c.link, OpenHandler, late).0, c.init, n);
  }

  lemma InPeerWindow(l: Link, init: seq<Peer>, n: nat)
    ensures WindowOk(InPeer, l, init, n) && WindowOk(Null, l, init, n)
  {
  }

  lemma ResponseExpect(l: Link, init: seq<Peer>, n: nat, late: Option<Error>)
    requires l.chan.Some? && l.chan.value.handler == NoHandler && n == Agreed(l.sent, l.recv) && l.recv != []
    requires forall i :: 0 <= i < |l.queue| ==> l.queue[i].ErrorTask?
    requires Up(l) ==> !ErrorQueued(l)
    requires Up(l) ==> init == [] && (n > 0 ==> Cache(l) == Window(l.recv, 1))
    ensures var (l', ok) := Expect(l, if n == 0 then OpenHandler else InitHandler(n), late);
            && l'.sent == l.sent && l'.recv == l.recv
            && TasksOk(if n == 0 && ok then InPeer else Connecting, l', n)
            && (!(n == 0 && ok) ==> WindowOk(Connecting, l', init, n))
  {
    NoInitReqs(l.queue);
    if Up(l) && late.None? && n > 0 {
      InitReqsAppend(l.queue, HandlerTasks(l.chan.value.id, InitHandler(n), Cache(l)));
      InitReqsOfTasks(l.chan.value.id, n, Cache(l));
    }
  }

  lemma {:induction false} EmptyWindow(q: seq<Task>)
    requires InitReqs(q) == []
    ensures forall i :: 0 <= i < |q| ==> !q[i].InitTask?
  {
    if q != [] {
      EmptyWindow(q[1..]);
    }
  }

  /** The head of the queue is the next init-channel message, in the order received. */
  ghost predicate AtInit(c: Client, ch: nat, n: nat, x: Inbound) {
    var l := c.link;
    var k := |c.init|;
    && l.queue != [] && c.conn.state == Connecting && c.conn.onDone.Some? && l.chan.Some? && l.chan.value.id == ch
    && l.chan.value.handler.InitHandler? && Cache(l) == []
    && n == Agreed(l.sent, l.recv) && k < n && |l.sent| == 1 && k + 1 < |l.recv| <= n + 1
    && x == Inbound(k + 1, l.recv[k + 1]) && x.msg.ToClientReq? && Filled(c.init, l.recv)
    && TasksOk(Connecting, Pop(l), n) && InitReqs(Pop(l).queue) == Window(l.recv, k + 2)
  }

  lemma InitFacts(c: Client, ch: nat, n: nat, x: Inbound)
    requires Inv(c) && LogInOk(c) && Collect(c) && Promise(c.link)
    requires c.link.queue != [] && c.link.queue[0] == InitTask(ch, n, x) && x.msg.ToClientReq?
    ensures AtInit(c, ch, n, x)
  {
    hide HandlersOnce, LogInRspError, SessOk, InitOk;
    Pending(c.conn);
    var l := c.link;
    WindowNext(l.recv, |c.init| + 1);
    assert InitReqs(l.queue) == [x] + InitReqs(l.queue[1..]);
    assert InitReqs(l.queue)[0] == x && InitReqs(l.queue)[1..] == InitReqs(l.queue[1..]);
    assert Window(l.recv, |c.init| + 1)[1..] == Window(l.recv, |c.init| + 2);
    TasksPop(Connecting, l, n);
  }

  lemma SwitchInits(l: Link, id: nat, ops: Ops)
    requires l.chan.Some? && Cache(l) == [] && NoInits(l)
    ensures var (l', r) := SwitchAndAck(l, id, ops);
            && NoInits(l') && (Up(l') ==> r.Sent?) && l'.recv == l.recv
            && l'.sent == (if r.Sent? then l.sent + [ToClientRsp(id, Accepted)] else l.sent)
  {
  }

  lemma CollectInit(c: Client, ch: nat, n: nat, x: Inbound, ops: Ops)
    requires Inv(c) && LogInOk(c) && Collect(c) && Promise(c.link)
    requires c.link.queue != [] && c.link.queue[0] == InitTask(ch, n, x) && x.msg.ToClientReq?
    requires ops.wrapper == Keep
    ensures Collect(OnInitOpen(Popped(c), ch, n, x, ops))
  {
    hide Inv, LogInOk, SwitchAndAck, TasksOk, ByCli, BySrv;
    InitFacts(c, ch, n, x);
    var l := Pop(c.link);
    var init := c.init + [ClientPeer(x.msg.c2s, x.msg.s2c)];
    assert Filled(init, l.recv);
    if |init| == n {
      FullWindow(l, n);
      SwitchInits(l, x.id, ops);
      CollectLast(Popped(c).(init := init), n, x.id, ops);
    }
  }

  lemma FullWindow(l: Link, n: nat)
    requires |l.recv| == n + 1 && InitReqs(l.queue) == Window(l.recv, n + 1)
    ensures NoInits(l)
  {
    EmptyWindow(l.queue);
  }

  lemma CollectLast(c: Client, n: nat, id: nat, ops: Ops)
    requires c.conn.state == Connecting && c.conn.onDone.Some? && c.link.chan.Some? && Cache(c.link) == []
    requires |c.link.recv| == n + 1 && |c.link.sent| == 1 && n == Agreed(c.link.sent, c.link.recv) > 0 && id == n
    requires NoInits(c.link) && |c.init| == n && Filled(c.init, c.link.recv)
    requires c.faults !! {InitOutOfState, InitOverflow} && ops.wrapper == Keep
    ensures Collect(AckInit(c, id, ops))
  {
    hide SwitchAndAck, Filled, TasksOk, ByCli, BySrv;
    var (l', r) := SwitchAndAck(c.link, id, ops);
    SwitchInits(c.link, id, ops);
    assert l'.sent[0] == c.link.sent[0];
    assert Agreed(l'.sent, l'.recv) == n;
    NoInitsOk(AckInit(c, id, ops).conn.state, l', n);
    assert Window(l'.recv, n + 1) == [];
    ListsSame(c, AckInit(c, id, ops));
  }

  lemma ListsSame(c: Client, c': Client)
    requires c'.args == c.args && c'.init == c.init
    ensures ByCli(c') == ByCli(c) && BySrv(c') == BySrv(c)
  {
  }

  lemma ErrFacts(c: Client, ch: nat, e: Error)
    requires Inv(c) && Collect(c) && c.link.queue != [] && c.link.queue[0] == ErrorTask(ch, e)
    ensures c.conn.state == Connecting ==> c.conn.onDone.Some?
    ensures c.link.chan.Some? && c.link.chan.value.id == ch ==> NoInits(Pop(c.link))
  {
    hide HandlersOnce, ChannelOk, SessOk, InitOk, WindowOk;
    Pending(c.conn);
    assert forall i :: 0 <= i < |Pop(c.link).queue| ==> Pop(c.link).queue[i] == c.link.queue[i + 1];
  }

  lemma CollectPopped(c: Client)
    requires Collect(c) && c.link.queue != [] && c.link.queue[0].ErrorTask?
    ensures Collect(Popped(c))
  {
    hide TasksOk, Filled, ByCli, BySrv;
    TasksPop(c.conn.state, c.link, Agreed(c.link.sent, c.link.recv));
    ListsSame(c, Popped(c));
  }

  lemma CollectErr(c: Client, ch: nat, e: Error)
    requires Inv(c) && LogInOk(c) && Collect(c) && c.link.queue != [] && c.link.queue[0] == ErrorTask(ch, e)
    ensures Collect(OnChannelError(Popped(c), ch, e))
  {
    hide Inv, LogInOk, Collect;
    ErrFacts(c, ch, e);
    NoFaults(c);
    var c' := OnChannelError(Popped(c), ch, e);
    if c.conn.state == InPeer {
      PeerNoInits(c);
      CollectLater(c, c', []);
    } else if c.link.chan.Some? && c.link.chan.value.id == ch {
      CollectNothing(c');
    } else {
      CollectPopped(c);
    }
  }

  /** A step of the PEER state, which may have received something. */
  lemma CollectLater(c: Client, c': Client, received: seq<Msg>)
    requires Inv(c) && LogInOk(c) && Collect(c) && c.conn.state == InPeer
    requires c'.conn == c.conn && c'.args == c.args && c'.init == c.init && c'.link.recv == c.link.recv + received
    requires c'.link.sent == c.link.sent || exists m :: c'.link.sent == c.link.sent + [m]
    requires NoInits(c'.link) && c'.faults !! {InitOutOfState, InitOverflow}
    ensures Collect(c')
  {
    hide Inv, Filled, TasksOk, WindowOk, ByCli, BySrv;
    var n := Agreed(c.link.sent, c.link.recv);
    assert c'.link.sent[0] == c.link.sent[0] && c'.link.recv[0] == c.link.recv[0];
    assert Agreed(c'.link.sent, c'.link.recv) == n;
    FilledMore(c.init, c.link.recv, received);
    ListsSame(c, c');
    NoInitsOk(InPeer, c'.link, n);
    InPeerWindow(c'.link, c.init, n);
  }

  lemma PeerNoInits(c: Client)
    requires Inv(c) && Collect(c) && c.conn.state == InPeer
    ensures NoInits(c.link) && c.link.chan.Some?
  {
  }

  lemma CollectOpenReq(c: Client, x: Inbound, op: SendOp)
    requires Inv(c) && LogInOk(c) && Collect(c)
    requires c.link.queue != [] && c.link.queue[0] == OpenTask(x) && x.msg.ToClientReq?
    ensures Collect(OnOpenReq(Popped(c), x, op))
  {
    hide Inv, LogInOk, Collect;
    AtOpenTask(c);
    PeerNoInits(c);
    NoFaults(c);
    CollectLater(c, OnOpenReq(Popped(c), x, op), []);
  }

  lemma CollectEnd(c: Client)
    requires Inv(c) && LogInOk(c) && Collect(c) && c.link.queue != [] && c.link.queue[0].EndTask?
    ensures Collect(OnEnd(Popped(c)))
  {
    hide Inv, LogInOk, Collect;
    AtOpenTask(c);
    PeerNoInits(c);
    NoFaults(c);
    CollectLater(c, OnEnd(Popped(c)), []);
  }

  lemma CollectSendEnd(c: Client, op: SendOp)
    requires Inv(c) && LogInOk(c) && Collect(c) && Enabled(c, DoEnd(op))
    ensures Collect(SendEnd(c, op))
  {
    hide Inv, LogInOk, Collect;
    PeerNoInits(c);
    NoFaults(c);
    CollectLater(c, SendEnd(c, op), []);
  }

  lemma NoFaults(c: Client)
    requires Collect(c)
    ensures c.faults !! {InitOutOfState, InitOverflow}
  {
  }

  lemma CollectOpenStart(c: Client, op: SendOp)
    requires Inv(c) && LogInOk(c) && Collect(c) && Enabled(c, DoOpen(op))
    ensures Collect(OpenStart(c, op).0)
  {
    hide Inv, LogInOk, Collect;
    PeerNoInits(c);
    NoFaults(c);
    CollectLater(c, OpenStart(c, op).0, []);
  }

  lemma CollectEndWait(c: Client, end: WaitEnd)
    requires Inv(c) && LogInOk(c) && Collect(c) && c.sess.wait.Some?
    ensures Collect(OpenUnanswered(c, end))
  {
    hide Inv, LogInOk, Collect;
    assert c.conn.state == InPeer by { WaitInPeer(c); }
    PeerNoInits(c);
    NoFaults(c);
    CollectLater(c, OpenUnanswered(c, end), []);
  }

  lemma WaitInPeer(c: Client)
    requires Inv(c) && c.sess.wait.Some?
    ensures c.conn.state == InPeer
  {
  }

  lemma CollectTask(c: Client, ops: Ops)
    requires Inv(c) && LogInOk(c) && Collect(c) && Enabled(c, DoTask(ops)) && ops.wrapper == Keep && Promise(c.link)
    ensures Collect(RunTask(c, ops))
  {
    hide Inv, LogInOk, Collect, Promise, OnLogInRsp, OnInitOpen, OnOpenReq, OnChannelError, OnEnd;
    match c.link.queue[0]
    case LogInRspTask(x) => CollectResponse(c, x, ops.late1);
    case InitTask(ch, n, x) => CollectInit(c, ch, n, x, ops);
    case OpenTask(x) => CollectOpenReq(c, x, ops.op);
    case ErrorTask(ch, e) => CollectErr(c, ch, e);
    case EndTask => CollectEnd(c);
  }

  lemma CollectStep(c: Client, s: Step)
    requires Inv(c) && LogInOk(c) && Collect(c) && Enabled(c, s) && Vanilla(s)
    requires Promise(c.link) && Promise(Next(c, s).link)
    ensures Collect(Next(c, s))
  {
    hide Inv, LogInOk, Collect, Promise, Connect, Deliver, RunTask, OpenStart, OpenUnanswered, SendEnd;
    match s
    case DoConnect(args, run) => CollectConnect(c, args, run);
    case DoDeliver(m) => CollectDeliver(c, m);
    case DoFail(e) => CollectFail(c, e);
    case DoTask(ops) => CollectTask(c, ops);
    case DoOpen(op) => CollectOpenStart(c, op);
    case DoEndWait(end) => CollectEndWait(c, end);
    case DoEnd(op) => CollectSendEnd(c, op);
  }
}
