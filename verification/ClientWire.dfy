/** What one client object sends, and what it makes of the channels it opens, against any server. */
module ClientWire {
  import opened MasterChannel
  import opened ClientModel
  import opened ClientRuns

  // ----- The log-in on the wire -----

  /** What is sent on one channel: the log-in request; the acknowledgement if there are init-channels; then the rest. */
  ghost predicate SentOk(n: nat, sent: seq<Msg>) {
    && (n > 0 && |sent| > 1 ==> sent[1].ToClientRsp?)
    && (forall k :: 1 <= k < |sent| ==> sent[k].ToClientRsp? || sent[k].ToServerReq? || sent[k].GracefulSessionEnd?)
  }

  /** The client has handled a good log-in response. */
  ghost predicate Welcome(c: Client) {
    && c.link.recv != [] && LogInRspError(c.args, c.link.recv[0]).None? && c.cliNs == Some(c.link.recv[0].ns)
  }

  ghost predicate LogInOk(c: Client) {
    var l := c.link;
    var n := Agreed(l.sent, l.recv);
    && (l.sent != [] ==> l.sent[0].LogInReq?)
    && (c.conn.state != Null && l.sent != [] ==> l.sent[0] == LogInReq(1, 1, NCli(c.args)))
    && (c.conn.state != Null && (Up(l) || l.recv != []) ==> l.sent != [])
    && (c.conn.state != InPeer ==> |l.sent| <= 1)
    && SentOk(n, l.sent)
    && (l.chan.Some? ==> (l.chan.value.loginPending <==> l.recv == []))
    && (c.conn.state != Null && l.chan.Some? && l.chan.value.handler != NoHandler ==> Welcome(c))
    && (c.conn.state != Null && l.chan.Some? && l.chan.value.handler.InitHandler? ==> l.chan.value.handler.n == n > 0)
    && (forall i :: 0 <= i < |l.queue| && l.queue[i].LogInRspTask? ==> l.recv != [] && l.queue[i].rsp.msg == l.recv[0])
    && (c.conn.state == InPeer ==>
          && Welcome(c) && l.sent != []
          && c.conn.dones != [] && c.conn.dones[|c.conn.dones| - 1].result.None?
          && (n > 0 ==> |l.sent| > 1))
  }

  lemma LogInDeliver(c: Client, m: Msg)
    requires Inv(c) && LogInOk(c) && Up(c.link)
    ensures LogInOk(Deliver(c, m))
  {
    hide LogInOk, Receive, Inv;
    LogInReceive(c, m);
    LogInSame(c.(link := Receive(c.link, m)), Deliver(c, m));
  }

  lemma LogInReceive(c: Client, m: Msg)
    requires Inv(c) && LogInOk(c) && Up(c.link)
    ensures LogInOk(c.(link := Receive(c.link, m)))
  {
    hide HandlersOnce, LogInRspError, SessOk, InitOk;
  }

  lemma LogInConnect(c: Client, args: Args, run: ConnectRun)
    requires Inv(c) && LogInOk(c) && c.sess.wait.None?
    ensures LogInOk(Connect(c, args, run).0)
  {
    hide Attempt, Inv, LogInOk;
    if c.conn.state == Null {
      NoneInNull(c);
      LogInAttempt(c.(conn := Begin(c.conn, false), args := args), run, c);
    } else {
      assert Connect(c, args, run).0 == c;
    }
  }

  lemma LogInAttempt(c: Client, run: ConnectRun, before: Client)
    requires c.conn.state == Connecting && LogInOk(before) && before.conn.state == Null && c.link == before.link
    requires NoLogInRsp(c.link)
    ensures LogInOk(Attempt(c, run))
  {
    hide LogInOk, RequestLogIn, NoLogInRsp;
    if run.Requested? {
      LogInRequest(SetSrvNs(c, run.srvNs), run.op);
    } else {
      LogInNull(before, Attempt(c, run));
    }
  }

  lemma LogInNull(c: Client, c': Client)
    requires LogInOk(c) && c.conn.state == Null && c'.conn.state == Null && c'.link == c.link
    ensures LogInOk(c')
  {
    hide LogInRspError;
  }

  lemma LogInRequest(c: Client, op: SendOp)
    requires c.conn.state == Connecting && NoLogInRsp(c.link)
    ensures LogInOk(RequestLogIn(c, op))
  {
    hide LogInRspError;
  }

  lemma NoneInNull(c: Client)
    requires Inv(c) && c.conn.state == Null
    ensures NoLogInRsp(c.link)
  {
  }

  ghost predicate NoLogInRsp(l: Link) {
    forall i :: 0 <= i < |l.queue| ==> !l.queue[i].LogInRspTask?
  }

  lemma ExpectKeeps(l: Link, h: Handler, late: Option<Error>)
    requires l.chan.Some? && h != NoHandler && NoLogInRsp(l)
    ensures var (l', ok) := Expect(l, h, late);
            && l'.sent == l.sent && l'.recv == l.recv && l'.chan.Some? && NoLogInRsp(l')
            && l'.chan.value.loginPending == l.chan.value.loginPending
            && l'.chan.value.handler == (if ok then h else l.chan.value.handler)
            && (Up(l') ==> Up(l))
  {
  }

  /** The log-in response is about to be handled. */
  lemma AtResponse(c: Client, x: Inbound)
    requires Inv(c) && LogInOk(c) && c.link.queue != [] && c.link.queue[0] == LogInRspTask(x)
    ensures c.conn.state == Connecting && c.conn.onDone.Some?
    ensures var l := Pop(c.link);
            && l.chan.Some? && l.chan.value.handler == NoHandler && !l.chan.value.loginPending && NoLogInRsp(l)
            && l.recv != [] && x.msg == l.recv[0]
            && |l.sent| == 1 && l.sent[0] == LogInReq(1, 1, NCli(c.args)) && SentOk(Agreed(l.sent, l.recv), l.sent)
    ensures OnlyErrors(Pop(c.link))
  {
    hide HandlersOnce, LogInRspError, ChannelOk, SessOk, InitOk;
    PopLogInOk(c.conn.state, c.link);
    Pending(c.conn);
  }

  ghost predicate OnlyErrors(l: Link) {
    forall i :: 0 <= i < |l.queue| ==> l.queue[i].ErrorTask?
  }

  /** What the client is like once it has handled the response. */
  ghost predicate Responded(c: Client, c': Client) {
    var n := Agreed(c.link.sent, c.link.recv);
    && c'.args == c.args && c'.link.sent == c.link.sent && c'.link.recv == c.link.recv && NoLogInRsp(c'.link)
    && (c'.conn.state == Null ==> c'.link.chan.None?)
    && (c'.conn.state != Null && c.link.recv != [] ==>
          && LogInRspError(c.args, c.link.recv[0]).None? && c'.cliNs == Some(c.link.recv[0].ns)
          && c'.link.chan.Some? && !c'.link.chan.value.loginPending
          && (c'.link.chan.value.handler.InitHandler? ==> c'.link.chan.value.handler.n == n > 0))
    && (c'.conn.state == InPeer ==>
          n == 0 && c'.conn.dones != [] && c'.conn.dones[|c'.conn.dones| - 1].result.None?)
  }

  lemma RespondedLoggedIn(c: Client, n: nat, late: Option<Error>)
    requires c.conn.state == Connecting && c.conn.onDone.Some? && c.link.chan.Some? && NoLogInRsp(c.link)
    requires !c.link.chan.value.loginPending && c.link.chan.value.handler == NoHandler
    requires n == Agreed(c.link.sent, c.link.recv)
    requires c.link.recv != [] && LogInRspError(c.args, c.link.recv[0]).None? && c.cliNs == Some(c.link.recv[0].ns)
    ensures Responded(c, LoggedIn(c, n, late, Keep))
  {
    hide LogInRspError, Expect;
    ExpectKeeps(c.link, if n == 0 then OpenHandler else InitHandler(n), late);
  }

  lemma Responds(c: Client, x: Inbound, late: Option<Error>)
    requires Inv(c) && LogInOk(c) && c.link.queue != [] && c.link.queue[0] == LogInRspTask(x)
    ensures Responded(c, OnLogInRsp(Popped(c), x.msg, late, Keep))
  {
    hide Inv, LogInRspError, LoggedIn, SentOk, LogInOk;
    AtResponse(c, x);
    if LogInRspError(c.args, x.msg).None? {
      var c0 := Popped(c);
      var c1 := Check(Check(c0, c0.conn.state == Connecting && c0.conn.onDone.Some?, LogInOutOfState),
                      c0.cliNs.None?, SetTwice).(cliNs := Some(x.msg.ns));
      RespondedLoggedIn(c1, x.msg.nSrv + NCli(c.args), late);
    }
  }

  lemma LogInResponse(c: Client, x: Inbound, late: Option<Error>)
    requires Inv(c) && LogInOk(c) && c.link.queue != [] && c.link.queue[0] == LogInRspTask(x)
    ensures LogInOk(OnLogInRsp(Popped(c), x.msg, late, Keep))
  {
    hide Inv, LogInRspError, SentOk, OnLogInRsp;
    AtResponse(c, x);
    Responds(c, x, late);
  }

  /** What the switch of handlers and the acknowledgement do to the messages. */
  lemma SwitchKeeps(l: Link, id: nat, ops: Ops)
    requires l.chan.Some? && NoLogInRsp(l) && (Up(l) ==> l.chan.value.cache == [])
    ensures var (l', r) := SwitchAndAck(l, id, ops);
            && l'.sent == (if r.Sent? then l.sent + [ToClientRsp(id, Accepted)] else l.sent)
            && l'.recv == l.recv && l'.chan.Some? && NoLogInRsp(l')
            && l'.chan.value.loginPending == l.chan.value.loginPending
            && (Up(l') ==> Up(l))
            && (r.Sent? ==> l'.chan.value.handler == OpenHandler && Up(l'))
            && (r.Refused? ==> !l'.chan.value.handler.InitHandler? || l'.chan.value.handler == l.chan.value.handler)
            && (r.Failed? ==> !Up(l'))
            && (l'.chan.value.handler != l.chan.value.handler ==> Up(l))
  {
    hide SwitchAndAck;
    if !Up(l) {
      SwitchRefused(l, id, ops);
    } else {
      SwitchForms(l, id, ops);
    }
  }

  lemma NoneQueued(c: Client)
    requires Inv(c) && c.link.queue != [] && c.link.queue[0].InitTask?
    requires c.link.chan.Some? && c.link.queue[0].chan == c.link.chan.value.id
    ensures NoLogInRsp(Pop(c.link)) && (c.link.chan.value.handler != NoHandler ==> c.link.chan.value.cache == [])
    ensures Up(c.link) && c.conn.state == Connecting ==> c.link.chan.value.handler.InitHandler?
  {
    forall i | 0 <= i < |c.link.queue| ensures !c.link.queue[i].LogInRspTask? {
      assert LogInQueued(c.link, i) ==> i == 0 || Stale(c.link.queue[0], c.link.chan.value.id);
    }
  }

  lemma LogInAck(c: Client, id: nat, ops: Ops)
    requires LogInOk(c) && c.conn.state == Connecting && c.conn.onDone.Some? && c.link.chan.Some? && NoLogInRsp(c.link)
    requires c.link.chan.value.handler != NoHandler ==> c.link.chan.value.cache == []
    requires Up(c.link) ==> c.link.chan.value.handler.InitHandler?
    requires ops.wrapper == Keep
    ensures LogInOk(AckInit(c, id, ops))
  {
    hide LogInRspError, SwitchAndAck, ByCli, BySrv;
    SwitchKeeps(c.link, id, ops);
    var (l, r) := SwitchAndAck(c.link, id, ops);
    var c' := AckInit(c, id, ops);
    assert c'.link == l && (c'.conn.state == Connecting ==> r.Refused?);
    assert c.link.sent != [] ==> l.sent[0] == c.link.sent[0];
    assert Agreed(l.sent, l.recv) == Agreed(c.link.sent, c.link.recv);
  }

  /** The view of the log-in does not depend on the channels collected. */
  lemma LogInPopped(c: Client, c': Client)
    requires LogInOk(c) && c.link.queue != [] && c'.conn == c.conn && c'.args == c.args && c'.cliNs == c.cliNs
    requires c'.link == Pop(c.link)
    ensures LogInOk(c')
  {
    hide LogInRspError;
  }

  lemma LogInInit(c: Client, ch: nat, n: nat, x: Inbound, ops: Ops)
    requires Inv(c) && LogInOk(c) && c.link.queue != [] && c.link.queue[0] == InitTask(ch, n, x) && x.msg.ToClientReq?
    requires ops.wrapper == Keep
    ensures LogInOk(OnInitOpen(Popped(c), ch, n, x, ops))
  {
    hide HandlersOnce, LogInOk, AckInit, LinkOk;
    Pending(c.conn);
    var c0 := Popped(c);
    var c1 := Check(c0, c.conn.state == Connecting && c.conn.onDone.Some?, InitOutOfState);
    var c2 := Check(c1, |c.init| < n, InitOverflow).(init := c.init + [ClientPeer(x.msg.c2s, x.msg.s2c)]);
    LogInPopped(c, Check(c1, false, InitOverflow));
    LogInPopped(c, c2);
    if c.link.chan.Some? && c.link.chan.value.id == ch {
      if c.conn.state == Connecting {
        NoneQueued(c);
        LogInAck(c2, x.id, ops);
      } else if !Up(c.link) {
        AckRefused(c2, x.id, ops);
      }
    }
  }

  lemma LogInErr(c: Client, ch: nat, e: Error)
    requires Inv(c) && LogInOk(c) && c.link.queue != [] && c.link.queue[0] == ErrorTask(ch, e)
    ensures LogInOk(OnChannelError(Popped(c), ch, e))
  {
    hide Inv, LogInOk, FailConnect;
    LogInPop(c);
    if c.link.chan.None? || c.link.chan.value.id != ch {
      assert OnChannelError(Popped(c), ch, e) == Popped(c);
    } else if c.conn.state == Connecting {
      LogInDropped(Popped(c), e);
    } else {
      LogInSame(Popped(c), OnChannelError(Popped(c), ch, e));
    }
  }

  lemma LogInPop(c: Client)
    requires LogInOk(c) && c.link.queue != []
    ensures LogInOk(Popped(c))
  {
    hide LogInRspError;
  }

  lemma LogInDropped(c: Client, e: Error)
    requires LogInOk(c) && c.conn.state == Connecting
    ensures LogInOk(FailConnect(c, e))
  {
    hide LogInRspError;
  }

  lemma LogInSame(c: Client, c': Client)
    requires LogInOk(c) && c'.conn == c.conn && c'.link == c.link && c'.args == c.args && c'.cliNs == c.cliNs
    ensures LogInOk(c')
  {
    hide LogInRspError;
  }

  /** A step of the PEER state, seen from the log-in. */
  lemma LogInLater(c: Client, c': Client)
    requires Inv(c) && LogInOk(c) && c.conn.state == InPeer
    requires c'.conn == c.conn && c'.args == c.args && c'.cliNs == c.cliNs
    requires c'.link.recv == c.link.recv && NoLogInRsp(c'.link) && (Up(c'.link) ==> Up(c.link))
    requires c'.link.chan.Some? && c.link.chan.Some?
    requires c'.link.chan.value.loginPending == c.link.chan.value.loginPending
    requires c'.link.chan.value.handler == c.link.chan.value.handler
    requires c'.link.sent == c.link.sent
          || exists m: Msg :: (m.ToClientRsp? || m.ToServerReq? || m.GracefulSessionEnd?) && c'.link.sent == c.link.sent + [m]
    ensures LogInOk(c')
  {
    hide HandlersOnce, LogInRspError, Inv;
    assert Agreed(c'.link.sent, c'.link.recv) == Agreed(c.link.sent, c.link.recv);
  }

  lemma InPeerFacts(c: Client)
    requires Inv(c) && c.conn.state == InPeer
    ensures c.link.chan.Some? && NoLogInRsp(c.link)
  {
  }

  lemma AtOpenTask(c: Client)
    requires Inv(c) && c.link.queue != [] && (c.link.queue[0].OpenTask? || c.link.queue[0].EndTask?)
    ensures c.conn.state == InPeer && (c.sess.hosed.Some? ==> c.sess.wait.None?)
  {
  }

  lemma LogInOpenReq(c: Client, x: Inbound, op: SendOp)
    requires Inv(c) && LogInOk(c) && c.link.queue != [] && c.link.queue[0] == OpenTask(x) && x.msg.ToClientReq?
    ensures LogInOk(OnOpenReq(Popped(c), x, op)) && c.conn.state == InPeer
  {
    hide HandlersOnce, LogInRspError, ChannelOk, Inv, LogInOk;
    AtOpenTask(c);
    InPeerFacts(c);
    LogInLater(c, OnOpenReq(Popped(c), x, op));
  }

  lemma LogInOpenStart(c: Client, op: SendOp)
    requires Inv(c) && LogInOk(c) && Enabled(c, DoOpen(op))
    ensures LogInOk(OpenStart(c, op).0)
  {
    hide HandlersOnce, LogInRspError, ChannelOk, Inv, LogInOk;
    InPeerFacts(c);
    LogInLater(c, OpenStart(c, op).0);
  }

  lemma LogInEndWait(c: Client, end: WaitEnd)
    requires Inv(c) && LogInOk(c) && c.sess.wait.Some?
    ensures LogInOk(OpenUnanswered(c, end))
  {
    hide HandlersOnce, LogInRspError, ChannelOk, LogInOk;
    InPeerFacts(c);
    LogInLater(c, OpenUnanswered(c, end));
  }

  lemma LogInEnd(c: Client)
    requires Inv(c) && LogInOk(c) && c.link.queue != [] && c.link.queue[0].EndTask?
    ensures LogInOk(OnEnd(Popped(c))) && c.conn.state == InPeer
  {
    hide HandlersOnce, LogInRspError, ChannelOk, Inv, LogInOk;
    AtOpenTask(c);
    InPeerFacts(c);
    LogInLater(c, OnEnd(Popped(c)));
  }

  lemma LogInSendEnd(c: Client, op: SendOp)
    requires Inv(c) && LogInOk(c) && Enabled(c, DoEnd(op))
    ensures LogInOk(SendEnd(c, op))
  {
    hide HandlersOnce, LogInRspError, ChannelOk, Inv, LogInOk;
    InPeerFacts(c);
    LogInLater(c, SendEnd(c, op));
  }

  lemma LogInFail(c: Client, e: Error)
    requires Inv(c) && LogInOk(c) && Up(c.link)
    ensures LogInOk(c.(link := HoseAsync(c.link, e)))
  {
    hide HandlersOnce, LogInRspError, ChannelOk;
  }

  lemma LogInTask(c: Client, ops: Ops)
    requires Inv(c) && LogInOk(c) && Enabled(c, DoTask(ops)) && ops.wrapper == Keep
    ensures LogInOk(RunTask(c, ops))
  {
    hide Inv, LogInOk, OnLogInRsp, OnInitOpen, OnOpenReq, OnChannelError, OnEnd;
    match c.link.queue[0]
    case LogInRspTask(x) => LogInResponse(c, x, ops.late1);
    case InitTask(ch, n, x) => LogInInit(c, ch, n, x, ops);
    case OpenTask(x) => LogInOpenReq(c, x, ops.op);
    case ErrorTask(ch, e) => LogInErr(c, ch, e);
    case EndTask => LogInEnd(c);
  }

  lemma LogInStep(c: Client, s: Step)
    requires Inv(c) && LogInOk(c) && Enabled(c, s) && Vanilla(s)
    ensures LogInOk(Next(c, s))
  {
    hide Inv, LogInOk, Connect, Deliver, RunTask, OpenStart, OpenUnanswered, SendEnd;
    match s
    case DoConnect(args, run) => LogInConnect(c, args, run);
    case DoDeliver(m) => LogInDeliver(c, m);
    case DoFail(e) => LogInFail(c, e);
    case DoTask(ops) => LogInTask(c, ops);
    case DoOpen(op) => LogInOpenStart(c, op);
    case DoEndWait(end) => LogInEndWait(c, end);
    case DoEnd(op) => LogInSendEnd(c, op);
  }

  // ----- The chain of requests -----

  function Answered(sent: seq<Msg>): seq<nat> {
    if sent == [] then []
    else
      var m := sent[|sent| - 1];
      Answered(sent[..|sent| - 1]) + (if m.ToClientRsp? then [m.to] else [])
  }

  function OpenIds(queue: seq<Task>): seq<nat> {
    if queue == [] then []
    else (if queue[0].OpenTask? then [queue[0].req.id] else []) + OpenIds(queue[1..])
  }

  function Ids(xs: seq<Inbound>): seq<nat> {
    seq(|xs|, i requires 0 <= i < |xs| => xs[i].id)
  }

  function Cache(l: Link): seq<Inbound> {
    if l.chan.Some? then l.chan.value.cache else []
  }

  ghost predicate Requested(recv: seq<Msg>, id: nat) {
    id < |recv| && recv[id].ToClientReq?
  }

  /** The requests of the server, in the order they are answered: those answered, those in the queue of W, those
      cached. */
  ghost function Chain(l: Link): seq<nat> {
    Answered(l.sent) + OpenIds(l.queue) + Ids(Cache(l))
  }

  ghost predicate Order(l: Link) {
    Increasing(Chain(l)) && forall i :: 0 <= i < |Chain(l)| ==> Requested(l.recv, Chain(l)[i])
  }

  ghost predicate Got(recv: seq<Msg>, x: Inbound) {
    x.id < |recv| && recv[x.id] == x.msg
  }

  ghost predicate TaskHeld(t: Task, recv: seq<Msg>, chan: Option<Chan>) {
    && (t.OpenTask? ==> Got(recv, t.req))
    && (t.InitTask? && chan.Some? && t.chan == chan.value.id ==> Got(recv, t.req))
  }

  /** A message in a task about the current channel, or in the cache, was received on that channel. */
  ghost predicate Held(l: Link) {
    && (forall i :: 0 <= i < |l.queue| ==> TaskHeld(l.queue[i], l.recv, l.chan))
    && (forall i :: 0 <= i < |Cache(l)| ==> Got(l.recv, Cache(l)[i]))
  }

  ghost predicate ChainOk(l: Link) {
    Order(l) && Held(l)
  }

  lemma {:induction false} OpenIdsAppend(q: seq<Task>, r: seq<Task>)
    ensures OpenIds(q + r) == OpenIds(q) + OpenIds(r)
  {
    if q == [] {
      assert q + r == r;
    } else {
      assert (q + r)[1..] == q[1..] + r;
      OpenIdsAppend(q[1..], r);
      assert OpenIds(q + r) == (if q[0].OpenTask? then [q[0].req.id] else []) + OpenIds((q + r)[1..]);
    }
  }

  lemma {:induction false} OpenIdsOfTasks(ch: nat, h: Handler, xs: seq<Inbound>)
    requires h != NoHandler
    ensures OpenIds(HandlerTasks(ch, h, xs)) == if h == OpenHandler then Ids(xs) else []
  {
    if xs != [] {
      OpenIdsOfTasks(ch, h, xs[1..]);
      assert HandlerTasks(ch, h, xs)[1..] == HandlerTasks(ch, h, xs[1..]);
      assert Ids(xs) == [xs[0].id] + Ids(xs[1..]);
    }
  }

  lemma AnsweredSent(sent: seq<Msg>, m: Msg)
    ensures Answered(sent + [m]) == Answered(sent) + (if m.ToClientRsp? then [m.to] else [])
  {
    assert (sent + [m])[..|sent|] == sent;
  }

  lemma OrderSame(l: Link, l': Link)
    requires Order(l) && Chain(l') == Chain(l) && l'.recv == l.recv
    ensures Order(l')
  {
  }

  lemma OrderShrinks(l: Link, l': Link, a: seq<nat>, x: seq<nat>, b: seq<nat>)
    requires Order(l) && Chain(l) == a + x + b && Chain(l') == a + b && l'.recv == l.recv
    ensures Order(l')
  {
    assert forall i :: 0 <= i < |a| ==> Chain(l')[i] == Chain(l)[i];
    assert forall i :: |a| <= i < |a + b| ==> Chain(l')[i] == Chain(l)[i + |x|];
  }

  lemma ChainPop(l: Link)
    requires ChainOk(l) && l.queue != []
    ensures ChainOk(Pop(l))
  {
    hide Order, Answered, Increasing, Ids;
    var x := if l.queue[0].OpenTask? then [l.queue[0].req.id] else [];
    Regroup(Answered(l.sent), x, OpenIds(l.queue[1..]), Ids(Cache(l)));
    OrderShrinks(l, Pop(l), Answered(l.sent), x, OpenIds(l.queue[1..]) + Ids(Cache(l)));
  }

  lemma ChainDown(l: Link)
    requires ChainOk(l) && l.chan.Some?
    ensures ChainOk(Down(l)) && ChainOk(l.(chan := None))
  {
    hide Answered, OpenIds;
    var l' := l.(chan := None);
    assert Ids([]) == [];
    assert Chain(l) == Answered(l.sent) + OpenIds(l.queue) + Ids(Cache(l)) + [];
    assert Chain(l') == Answered(l.sent) + OpenIds(l.queue) + [];
    OrderShrinks(l, l', Answered(l.sent) + OpenIds(l.queue), Ids(Cache(l)), []);
    OrderSame(l, Down(l));
  }

  lemma ChainHose(l: Link, e: Error)
    requires ChainOk(l) && l.chan.Some?
    ensures ChainOk(HoseAsync(l, e))
  {
    hide Order, Answered, OpenIds;
    OpenIdsAppend(l.queue, [ErrorTask(l.chan.value.id, e)]);
    assert OpenIds([ErrorTask(l.chan.value.id, e)]) == [] by { NoOpenIds([ErrorTask(l.chan.value.id, e)]); }
    assert Cache(HoseAsync(l, e)) == Cache(l);
    assert Chain(HoseAsync(l, e)) == Chain(l);
    OrderSame(l, HoseAsync(l, e));
  }

  lemma {:induction false} NoOpenIds(q: seq<Task>)
    requires forall i :: 0 <= i < |q| ==> !q[i].OpenTask?
    ensures OpenIds(q) == []
  {
    if q != [] {
      NoOpenIds(q[1..]);
    }
  }

  lemma ChainAnswer(l: Link, x: Inbound, m: Msg)
    requires ChainOk(l) && l.queue != [] && l.queue[0] == OpenTask(x) && m.ToClientRsp? && m.to == x.id
    ensures ChainOk(Pop(l).(sent := l.sent + [m]))
  {
    AnsweredSent(l.sent, m);
    assert Chain(Pop(l).(sent := l.sent + [m])) == Chain(l);
  }

  lemma ChainSend(l: Link, m: Msg)
    requires ChainOk(l) && !m.ToClientRsp?
    ensures ChainOk(l.(sent := l.sent + [m]))
  {
    AnsweredSent(l.sent, m);
    assert Chain(l.(sent := l.sent + [m])) == Chain(l);
  }

  lemma GotMore(recv: seq<Msg>, m: Msg)
    ensures forall x :: Got(recv, x) ==> Got(recv + [m], x)
    ensures Got(recv + [m], Inbound(|recv|, m))
    ensures forall t, chan :: TaskHeld(t, recv, chan) ==> TaskHeld(t, recv + [m], chan)
  {
  }

  lemma HeldReceive(l: Link, m: Msg)
    requires Held(l) && Up(l)
    ensures Held(Receive(l, m))
  {
    hide Got;
    GotMore(l.recv, m);
    var l' := Receive(l, m);
    var ch := l.chan.value;
    var x := Inbound(|l.recv|, m);
    forall i | 0 <= i < |l'.queue|
      ensures TaskHeld(l'.queue[i], l'.recv, l'.chan)
    {
      if i < |l.queue| {
        assert l'.queue[i] == l.queue[i] && TaskHeld(l.queue[i], l.recv, l.chan);
      }
    }
    assert Cache(l') == Cache(l) || Cache(l') == Cache(l) + [x];
  }

  lemma QueueMore(q: seq<Task>, t: Task)
    ensures OpenIds(q + [t]) == OpenIds(q) + if t.OpenTask? then [t.req.id] else []
  {
    OpenIdsAppend(q, [t]);
    assert [t][1..] == [];
  }

  lemma IdsMore(xs: seq<Inbound>, x: Inbound)
    ensures Ids(xs + [x]) == Ids(xs) + [x.id] && Ids([]) == []
  {
  }

  lemma OrderReceive(l: Link, m: Msg)
    requires Order(l) && Up(l) && (l.chan.value.handler != NoHandler ==> Cache(l) == [])
    requires l.chan.value.loginPending ==> l.chan.value.handler == NoHandler && Cache(l) == []
    ensures Order(Receive(l, m))
  {
    hide Order, Increasing, Answered, OpenIds, Ids;
    var ch, x := l.chan.value, Inbound(|l.recv|, m);
    QueueMore(l.queue, LogInRspTask(x));
    QueueMore(l.queue, EndTask);
    if ch.handler != NoHandler {
      QueueMore(l.queue, HandlerTask(ch.id, ch.handler, x));
    }
    IdsMore(ch.cache, x);
    Appended(Answered(l.sent), OpenIds(l.queue), Ids(ch.cache), x.id);
    OrderGrows(l, Receive(l, m), m);
  }

  /** A message is received, and is the last of the chain if it is a request. */
  lemma OrderGrows(l: Link, l': Link, m: Msg)
    requires Order(l) && l'.recv == l.recv + [m]
    requires Chain(l') == Chain(l) || (m.ToClientReq? && Chain(l') == Chain(l) + [|l.recv|])
    ensures Order(l')
  {
    hide Chain;
    if Chain(l') != Chain(l) {
      IncreasingAppend(Chain(l), |l.recv|);
    }
  }

  lemma Empties(a: seq<nat>, b: seq<nat>)
    ensures a + [] + b == a + b == a + ([] + b) + []
    ensures a + [] + [] == a == a + ([] + []) + []
  {
  }

  lemma ChainExpect(l: Link, h: Handler, late: Option<Error>)
    requires ChainOk(l) && l.chan.Some? && h != NoHandler && OpenIds(l.queue) == []
    ensures ChainOk(Expect(l, h, late).0)
  {
    hide Order, Answered, OpenIds, Ids, Held;
    var l' := Expect(l, h, late).0;
    if !Up(l) {
    } else if late.Some? {
      ChainHose(l, late.value);
    } else {
      var ts := HandlerTasks(l.chan.value.id, h, Cache(l));
      OpenIdsAppend(l.queue, ts);
      OpenIdsOfTasks(l.chan.value.id, h, Cache(l));
      Empties(Answered(l.sent), Ids(Cache(l)));
      assert Ids([]) == [] by { NoIds(); }
      if h == OpenHandler {
        assert Chain(l') == Chain(l);
        OrderSame(l, l');
      } else {
        Empties(Answered(l.sent) + Ids(Cache(l)), []);
        OrderShrinks(l, l', Answered(l.sent), Ids(Cache(l)), []);
      }
      HeldExpect(l, h);
    }
  }

  lemma NoIds()
    ensures Ids([]) == []
  {
  }

  lemma HeldExpect(l: Link, h: Handler)
    requires Held(l) && Up(l) && h != NoHandler
    ensures Held(Expect(l, h, None).0)
  {
    var q := Expect(l, h, None).0.queue;
    assert forall i :: |l.queue| <= i < |q| ==>
                         q[i] == HandlerTask(l.chan.value.id, h, Cache(l)[i - |l.queue|]) && Got(l.recv, q[i].req);
  }

  /** The acknowledgement is the first answer. */
  lemma ChainSwitch(l: Link, x: Inbound, ops: Ops)
    requires ChainOk(l) && l.chan.Some? && Cache(l) == [] && OpenIds(l.queue) == [] && Answered(l.sent) == []
    requires Requested(l.recv, x.id)
    ensures ChainOk(SwitchAndAck(l, x.id, ops).0)
  {
    hide Order, Answered, OpenIds;
    if Up(l) {
      var (l1, ok1) := UndoExpect(l, ops.late1);
      if !ok1 {
        ChainHose(l, ops.late1.value);
      } else {
        OrderSame(l, l1);
        ChainExpect(l1, OpenHandler, ops.late2);
        var (l2, ok2) := Expect(l1, OpenHandler, ops.late2);
        if ok2 {
          assert l2.queue == l1.queue;
          if ops.op.SendOk? {
            AnsweredSent(l.sent, ToClientRsp(x.id, Accepted));
            FirstAnswer(l2.(sent := l.sent + [ToClientRsp(x.id, Accepted)]), x.id);
          } else if ops.op.SendFails? {
            ChainDown(l2);
          } else {
            ChainHose(l2, ops.op.e);
          }
        }
      }
    }
  }

  lemma FirstAnswer(l: Link, id: nat)
    requires Chain(l) == [id] && Requested(l.recv, id)
    ensures Order(l)
  {
  }

  // ----- Channels opened after the log-in -----

  /** What is sent after the log-in is over. */
  function Later(n: nat, sent: seq<Msg>): seq<Msg> {
    var k := if n > 0 then 2 else 1;
    if |sent| < k then [] else sent[k..]
  }

  /** Passive opens emitted to the user are the accepting responses sent, each with the pipes it was asked to use. */
  ghost predicate PassiveOk(log: seq<Event>, later: seq<Msg>, recv: seq<Msg>) {
    && (forall m | m in later && m.ToClientRsp? && m.result == Accepted ::
          Requested(recv, m.to) && PassiveOpen(m.to, ClientPeer(recv[m.to].c2s, recv[m.to].s2c)) in log)
    && (forall e | e in log && e.PassiveOpen? ::
          ToClientRsp(e.id, Accepted) in later && e.id < |recv| && recv[e.id] == ToClientReq(e.peer.tx, e.peer.rx))
    && (forall i, j :: 0 <= i < j < |log| && log[i].PassiveOpen? && log[j].PassiveOpen? ==> log[i].id < log[j].id)
  }

  /** An active open that succeeded uses the pipes of the response; it, or one that waits, was asked for. */
  ghost predicate ActiveOk(recv: seq<Msg>, sent: seq<Msg>, sess: Sess) {
    var log := sess.log;
    && (forall i :: 0 <= i < |log| && log[i].ActiveOpen? ==>
          && log[i].id < |sent| && sent[log[i].id].ToServerReq?
          && ToServerRsp(log[i].id, Accepted, log[i].peer.tx, log[i].peer.rx) in recv)
    && (forall i, j :: 0 <= i < j < |log| && log[i].ActiveOpen? && log[j].ActiveOpen? ==> log[i].id < log[j].id)
    && (sess.wait.Some? ==>
          && sess.wait.value < |sent| && sent[sess.wait.value].ToServerReq?
          && forall i :: 0 <= i < |log| && log[i].ActiveOpen? ==> log[i].id < sess.wait.value)
  }

  ghost predicate OpensOk(c: Client) {
    && ChainOk(c.link)
    && PassiveOk(c.sess.log, Later(Agreed(c.link.sent, c.link.recv), c.link.sent), c.link.recv)
    && ActiveOk(c.link.recv, c.link.sent, c.sess)
  }

  ghost predicate Wire(c: Client) {
    LogInOk(c) && OpensOk(c)
  }

  lemma LaterSent(n: nat, sent: seq<Msg>, m: Msg)
    requires |sent| >= (if n > 0 then 2 else 1)
    ensures Later(n, sent + [m]) == Later(n, sent) + [m]
  {
  }

  lemma {:induction false} AnsweredIn(sent: seq<Msg>, m: Msg)
    requires m in sent && m.ToClientRsp?
    ensures m.to in Answered(sent)
  {
    if m != sent[|sent| - 1] {
      assert m in sent[..|sent| - 1];
      AnsweredIn(sent[..|sent| - 1], m);
    }
  }

  lemma {:induction false} NoAnswers(sent: seq<Msg>)
    requires forall i :: 0 <= i < |sent| ==> !sent[i].ToClientRsp?
    ensures Answered(sent) == []
  {
    if sent != [] {
      NoAnswers(sent[..|sent| - 1]);
    }
  }

  /** The request at the head of the queue comes after those answered. */
  lemma HeadIsNext(l: Link, x: Inbound)
    requires Order(l) && l.queue != [] && l.queue[0] == OpenTask(x)
    ensures forall y | y in Answered(l.sent) :: y < x.id
  {
    assert OpenIds(l.queue)[0] == x.id;
    forall y | y in Answered(l.sent) ensures y < x.id {
      var i :| 0 <= i < |Answered(l.sent)| && Answered(l.sent)[i] == y;
      assert Chain(l)[i] == y && Chain(l)[|Answered(l.sent)|] == x.id;
    }
  }

  lemma PassivePlain(log: seq<Event>, later: seq<Msg>, recv: seq<Msg>, m: Msg, e: Event)
    requires PassiveOk(log, later, recv) && (m.ToClientRsp? ==> m.result != Accepted) && !e.PassiveOpen?
    ensures PassiveOk(log, later + [m], recv) && PassiveOk(log + [e], later, recv)
  {
  }

  lemma PassiveReceive(log: seq<Event>, later: seq<Msg>, recv: seq<Msg>, m: Msg)
    requires PassiveOk(log, later, recv)
    ensures PassiveOk(log, later, recv + [m])
  {
  }

  lemma PassiveEmitted(log: seq<Event>, later: seq<Msg>, l: Link, x: Inbound)
    requires PassiveOk(log, later, l.recv) && x.msg.ToClientReq? && Got(l.recv, x) && forall m | m in later :: m in l.sent
    requires forall y | y in Answered(l.sent) :: y < x.id
    ensures PassiveOk(log + [PassiveOpen(x.id, ClientPeer(x.msg.c2s, x.msg.s2c))],
                      later + [ToClientRsp(x.id, Accepted)], l.recv)
  {
    forall i | 0 <= i < |log| && log[i].PassiveOpen?
      ensures log[i].id < x.id
    {
      assert log[i] in log;
      AnsweredIn(l.sent, ToClientRsp(log[i].id, Accepted));
    }
  }

  lemma ActivePlain(recv: seq<Msg>, sent: seq<Msg>, sess: Sess, sess': Sess)
    requires ActiveOk(recv, sent, sess) && (sess'.wait == sess.wait || sess'.wait == None)
    requires sess'.log == sess.log || exists e: Event :: !e.ActiveOpen? && sess'.log == sess.log + [e]
    ensures ActiveOk(recv, sent, sess')
  {
  }

  lemma ActiveMore(recv: seq<Msg>, sent: seq<Msg>, sess: Sess, m: Msg)
    requires ActiveOk(recv, sent, sess)
    ensures ActiveOk(recv, sent + [m], sess) && ActiveOk(recv + [m], sent, sess)
    ensures m.ToServerReq? ==> ActiveOk(recv, sent + [m], sess.(wait := Some(|sent|)))
    ensures m.ToServerRsp? && sess.wait == Some(m.to) ==> ActiveOk(recv + [m], sent, OpenAnswered(sess, m))
  {
    hide ActiveOk;
    ActiveSent(recv, sent, sess, m);
    ActiveReceived(recv, sent, sess, m);
  }

  lemma ActiveSent(recv: seq<Msg>, sent: seq<Msg>, sess: Sess, m: Msg)
    requires ActiveOk(recv, sent, sess)
    ensures ActiveOk(recv, sent + [m], sess)
    ensures m.ToServerReq? ==> ActiveOk(recv, sent + [m], sess.(wait := Some(|sent|)))
  {
  }

  lemma ActiveReceived(recv: seq<Msg>, sent: seq<Msg>, sess: Sess, m: Msg)
    requires ActiveOk(recv, sent, sess)
    ensures ActiveOk(recv + [m], sent, sess)
    ensures m.ToServerRsp? && sess.wait == Some(m.to) ==> ActiveOk(recv + [m], sent, OpenAnswered(sess, m))
  {
  }

  /** While nothing was opened, only the chain matters. */
  lemma NothingOpened(c: Client)
    requires ChainOk(c.link) && c.sess.log == [] && c.sess.wait == None
    requires |c.link.sent| <= (if Agreed(c.link.sent, c.link.recv) > 0 then 2 else 1)
    ensures OpensOk(c)
  {
    hide ChainOk;
  }

  lemma BeforePeer(c: Client)
    requires Inv(c) && LogInOk(c) && c.conn.state != InPeer
    ensures c.sess.log == [] && c.sess.wait == None && |c.link.sent| <= 1
  {
    hide HandlersOnce, ChannelOk;
  }

  lemma NoRequests(state: State, l: Link, q: seq<Task>)
    requires ChannelOk(state, l) && state != InPeer && forall i :: 0 <= i < |q| ==> q[i] in l.queue
    ensures OpenIds(q) == []
  {
    forall i | 0 <= i < |q| ensures !q[i].OpenTask? {
      assert q[i] in l.queue;
      var j :| 0 <= j < |l.queue| && l.queue[j] == q[i];
    }
    NoOpenIds(q);
  }

  lemma ChainNew(l: Link)
    requires OpenIds(l.queue) == [] && forall i :: 0 <= i < |l.queue| ==> TaskOk(l.queue[i], l) && !l.queue[i].OpenTask?
    ensures ChainOk(NewChannel(l))
  {
    assert Chain(NewChannel(l)) == [];
  }

  lemma NullTasks(c: Client)
    requires Inv(c) && c.conn.state == Null
    ensures forall i :: 0 <= i < |c.link.queue| ==> TaskOk(c.link.queue[i], c.link) && !c.link.queue[i].OpenTask?
    ensures OpenIds(c.link.queue) == []
  {
    NoRequests(Null, c.link, c.link.queue);
  }

  lemma ChainRequest(l: Link, m: Msg, op: SendOp)
    requires ChainOk(l) && !m.ToClientRsp? && l.chan.Some?
    ensures ChainOk(Send(l, m, op).0) && ChainOk(Send(l, m, op).0.(chan := None))
  {
    hide ChainOk;
    ChainDown(l);
    ChainSend(l, m);
    if op.SendLate? {
      ChainHose(l, op.e);
    }
    ChainDown(Send(l, m, op).0);
  }

  lemma OpensConnect(c: Client, args: Args, run: ConnectRun)
    requires Inv(c) && Wire(c) && c.sess.wait.None?
    ensures OpensOk(Connect(c, args, run).0)
  {
    hide Inv, LogInOk, ChainOk, PassiveOk, ActiveOk, Send;
    if c.conn.state == Null && run.Requested? {
      NullTasks(c);
      ChainNew(c.link);
      ChainRequest(NewChannel(c.link), LogInReq(1, 1, NCli(args)), run.op);
      LogInConnect(c, args, run);
      InvConnect(c, args, run);
      BeforePeer(Connect(c, args, run).0);
      NothingOpened(Connect(c, args, run).0);
    }
  }

  lemma DeliverFacts(c: Client)
    requires Inv(c) && LogInOk(c) && Up(c.link)
    ensures c.link.chan.value.handler != NoHandler ==> Cache(c.link) == []
    ensures c.link.chan.value.loginPending ==> c.link.chan.value.handler == NoHandler && Cache(c.link) == []
    ensures c.conn.state == InPeer ==> c.link.recv != []
  {
  }

  lemma OpensDeliver(c: Client, m: Msg)
    requires Inv(c) && Wire(c) && Up(c.link)
    ensures OpensOk(Deliver(c, m))
  {
    hide Inv, LogInOk, Order, Held, PassiveOk, ActiveOk;
    var l := c.link;
    DeliverFacts(c);
    OrderReceive(l, m);
    HeldReceive(l, m);
    if c.conn.state == InPeer {
      assert (l.recv + [m])[0] == l.recv[0];
      PassiveReceive(c.sess.log, Later(Agreed(l.sent, l.recv), l.sent), l.recv, m);
      ActiveMore(l.recv, l.sent, c.sess, m);
      if m.ToServerRsp? && c.sess.wait == Some(m.to) && m.result == Accepted {
        PassivePlain(c.sess.log, Later(Agreed(l.sent, l.recv), l.sent), l.recv + [m], m,
                     ActiveOpen(m.to, ClientPeer(m.c2s, m.s2c)));
      }
    } else {
      BeforePeer(c);
      NothingOpened(Deliver(c, m));
    }
  }

  lemma OpensFail(c: Client, e: Error)
    requires Wire(c) && Up(c.link)
    ensures OpensOk(c.(link := HoseAsync(c.link, e)))
  {
    hide ChainOk, PassiveOk, ActiveOk;
    ChainHose(c.link, e);
  }

  /** A task on the way to PEER. */
  lemma OpensEarly(c: Client, c': Client)
    requires Inv(c) && LogInOk(c) && c.conn.state != InPeer && c'.sess == c.sess && c'.link.recv == c.link.recv
    requires c'.link.sent == c.link.sent
          || exists m: Msg :: c'.link.sent == c.link.sent + [m] && (c.link.sent == [] || Agreed(c.link.sent, c.link.recv) > 0)
    requires ChainOk(c'.link)
    ensures OpensOk(c')
  {
    hide Inv, LogInOk, ChainOk;
    BeforePeer(c);
    assert c.link.sent != [] ==> c'.link.sent[0] == c.link.sent[0];
    NothingOpened(c');
  }

  lemma OpensResponse(c: Client, x: Inbound, late: Option<Error>)
    requires Inv(c) && Wire(c) && c.link.queue != [] && c.link.queue[0] == LogInRspTask(x)
    ensures OpensOk(OnLogInRsp(Popped(c), x.msg, late, Keep))
  {
    hide Inv, LogInRspError, Expect, ChainOk, PassiveOk, ActiveOk, LogInOk, Finish, Later, Agreed;
    AtResponse(c, x);
    ChainPop(c.link);
    ChainDown(Pop(c.link));
    NoOpenIds(Pop(c.link).queue);
    ChainExpect(Pop(c.link), OpenHandler, late);
    ExpectMessages(Pop(c.link), OpenHandler, late);
    if x.msg.LogInRsp? && NCli(c.args) + x.msg.nSrv > 0 {
      ChainExpect(Pop(c.link), InitHandler(x.msg.nSrv + NCli(c.args)), late);
      ExpectMessages(Pop(c.link), InitHandler(x.msg.nSrv + NCli(c.args)), late);
    }
    OpensEarly(c, OnLogInRsp(Popped(c), x.msg, late, Keep));
  }

  lemma ExpectMessages(l: Link, h: Handler, late: Option<Error>)
    requires l.chan.Some? && h != NoHandler
    ensures Expect(l, h, late).0.sent == l.sent && Expect(l, h, late).0.recv == l.recv
  {
  }

  /** The first init-channel task of the current channel: nothing else of that channel is under way. */
  lemma AtInitTask(c: Client, ch: nat, n: nat, x: Inbound)
    requires Inv(c) && Wire(c) && c.link.queue != [] && c.link.queue[0] == InitTask(ch, n, x) && x.msg.ToClientReq?
    requires c.link.chan.Some? && c.link.chan.value.id == ch && c.conn.state != InPeer
    ensures OpenIds(c.link.queue[1..]) == [] && Answered(c.link.sent) == []
    ensures Requested(c.link.recv, x.id)
    ensures c.conn.state == Connecting && Up(c.link) ==> Cache(c.link) == [] && Agreed(c.link.sent, c.link.recv) > 0
  {
    hide LinkOk, PhaseOk, HandlersOnce, SessOk, InitOk, Order, PassiveOk, ActiveOk, SentOk, Welcome;
    NoRequests(c.conn.state, c.link, c.link.queue[1..]);
    NoAnswers(c.link.sent);
    HeldInit(c.link, x);
    UpInitHandler(c);
  }

  lemma HeldInit(l: Link, x: Inbound)
    requires Held(l) && l.queue != [] && l.queue[0].InitTask? && l.queue[0].req == x && x.msg.ToClientReq?
    requires l.chan.Some? && l.queue[0].chan == l.chan.value.id
    ensures Requested(l.recv, x.id)
  {
    assert TaskHeld(l.queue[0], l.recv, l.chan);
  }

  lemma UpInitHandler(c: Client)
    requires Inv(c) && c.link.queue != [] && c.link.queue[0].InitTask?
    requires c.link.chan.Some? && c.link.queue[0].chan == c.link.chan.value.id
    ensures c.conn.state == Connecting && Up(c.link) ==> Cache(c.link) == [] && c.link.chan.value.handler.InitHandler?
  {
    hide HandlersOnce, SessOk, InitOk;
  }

  lemma SwitchMessages(l: Link, id: nat, ops: Ops)
    requires l.chan.Some?
    ensures var (l', r) := SwitchAndAck(l, id, ops);
            && l'.recv == l.recv
            && (l'.sent == l.sent || (Up(l) && l'.sent == l.sent + [ToClientRsp(id, Accepted)]))
  {
  }

  lemma OpensInit(c: Client, ch: nat, n: nat, x: Inbound, ops: Ops)
    requires Inv(c) && Wire(c) && c.link.queue != [] && c.link.queue[0] == InitTask(ch, n, x) && x.msg.ToClientReq?
    requires ops.wrapper == Keep
    ensures OpensOk(OnInitOpen(Popped(c), ch, n, x, ops))
  {
    hide Inv, LogInOk, ChainOk, PassiveOk, ActiveOk, SwitchAndAck, OnInitOpen;
    assert ChainOk(c.link) by { WireChain(c); }
    ChainPop(c.link);
    if c.conn.state == InPeer {
      InitInPeer(c, ch, n, x, ops);
    } else {
      InitShape(Popped(c), ch, n, x, ops);
      if c.link.chan.Some? && c.link.chan.value.id == ch {
        InitSwitch(c, ch, n, x, ops);
      }
      OpensEarly(c, OnInitOpen(Popped(c), ch, n, x, ops));
    }
  }

  lemma WireChain(c: Client)
    requires Wire(c)
    ensures ChainOk(c.link)
  {
  }

  /** The channel is left alone, or the handlers are switched on it. */
  lemma InitShape(c: Client, ch: nat, n: nat, x: Inbound, ops: Ops)
    requires x.msg.ToClientReq? && ops.wrapper == Keep
    ensures var c' := OnInitOpen(c, ch, n, x, ops);
            && c'.sess == c.sess
            && (c'.link == c.link
                || (c.link.chan.Some? && c.link.chan.value.id == ch && c'.link == SwitchAndAck(c.link, x.id, ops).0))
  {
    hide SwitchAndAck, ByCli, BySrv, Finish;
  }

  lemma InitSwitch(c: Client, ch: nat, n: nat, x: Inbound, ops: Ops)
    requires Inv(c) && Wire(c) && c.link.queue != [] && c.link.queue[0] == InitTask(ch, n, x) && x.msg.ToClientReq?
    requires c.link.chan.Some? && c.link.chan.value.id == ch && c.conn.state != InPeer
    ensures var l' := SwitchAndAck(Pop(c.link), x.id, ops).0;
            && ChainOk(l') && l'.recv == c.link.recv
            && (l'.sent == c.link.sent
                || (l'.sent == c.link.sent + [ToClientRsp(x.id, Accepted)] && Agreed(c.link.sent, c.link.recv) > 0))
  {
    hide Inv, LogInOk, ChainOk, PassiveOk, ActiveOk, SwitchAndAck;
    ChainPop(c.link);
    AtInitTask(c, ch, n, x);
    SwitchMessages(Pop(c.link), x.id, ops);
    if c.conn.state == Connecting && Up(c.link) {
      ChainSwitch(Pop(c.link), x, ops);
    } else {
      if c.conn.state == Null { NullIsDown(c); }
      SwitchRefused(Pop(c.link), x.id, ops);
    }
  }

  lemma NullIsDown(c: Client)
    requires Inv(c) && c.conn.state == Null
    ensures !Up(c.link)
  {
  }

  /** A leftover init-channel task changes nothing but the queue. */
  lemma InitInPeer(c: Client, ch: nat, n: nat, x: Inbound, ops: Ops)
    requires Inv(c) && c.link.queue != [] && c.link.queue[0] == InitTask(ch, n, x) && x.msg.ToClientReq?
    requires c.conn.state == InPeer
    ensures var c' := OnInitOpen(Popped(c), ch, n, x, ops); c'.link == Pop(c.link) && c'.sess == c.sess
  {
    if c.link.chan.Some? && !Up(c.link) {
      SwitchRefused(Pop(c.link), x.id, ops);
    }
  }

  lemma OpensErr(c: Client, ch: nat, e: Error)
    requires Inv(c) && Wire(c) && c.link.queue != [] && c.link.queue[0] == ErrorTask(ch, e)
    ensures OpensOk(OnChannelError(Popped(c), ch, e))
  {
    hide Inv, LogInOk, ChainOk, PassiveOk, ActiveOk, Later, Agreed, OnChannelError;
    ErrorShape(Popped(c), ch, e);
    ChainPop(c.link);
    if c.link.chan.Some? {
      ChainDown(Pop(c.link));
    }
    PassivePlain(c.sess.log, Later(Agreed(c.link.sent, c.link.recv), c.link.sent), c.link.recv, ToServerReq, OnError(e));
    ActivePlain(c.link.recv, c.link.sent, c.sess, OnChannelError(Popped(c), ch, e).sess);
  }

  /** The channel may go, and the error may be told. */
  lemma ErrorShape(c: Client, ch: nat, e: Error)
    ensures var c' := OnChannelError(c, ch, e);
            && (c'.link == c.link || (c.link.chan.Some? && c'.link == c.link.(chan := None)))
            && (c'.sess == c.sess || c'.sess == HosedSess(c.sess, e))
  {
    hide Finish;
  }

  /** In PEER state the log-in messages have been sent. */
  lemma PeerSent(c: Client, m: Msg)
    requires Inv(c) && LogInOk(c) && c.conn.state == InPeer
    ensures var n := Agreed(c.link.sent, c.link.recv);
            && Agreed(c.link.sent + [m], c.link.recv) == n
            && Later(n, c.link.sent + [m]) == Later(n, c.link.sent) + [m]
            && c.link.chan.Some?
    ensures forall y | y in Later(Agreed(c.link.sent, c.link.recv), c.link.sent) :: y in c.link.sent
  {
    hide HandlersOnce;
    assert (c.link.sent + [m])[0] == c.link.sent[0];
    LaterSent(Agreed(c.link.sent, c.link.recv), c.link.sent, m);
  }

  lemma OpensOpenReq(c: Client, x: Inbound, op: SendOp)
    requires Inv(c) && Wire(c) && c.link.queue != [] && c.link.queue[0] == OpenTask(x) && x.msg.ToClientReq?
    requires c.sess.wait.None?
    ensures OpensOk(OnOpenReq(Popped(c), x, op))
  {
    hide Inv, LogInOk, Order, Held, PassiveOk, ActiveOk, Later;
    ChainPop(c.link);
    AtOpenTask(c);
    var l := c.link;
    var m := ToClientRsp(x.id, if c.cfg.passiveEnabled then Accepted else RejectedPassiveOpen);
    PeerSent(c, m);
    var later := Later(Agreed(l.sent, l.recv), l.sent);
    if c.sess.hosed.None? && Up(l) {
      match op
      case SendOk =>
        ChainAnswer(l, x, m);
        ActiveMore(l.recv, l.sent, c.sess, m);
        if c.cfg.passiveEnabled {
          HeadIsNext(l, x);
          assert Got(l.recv, x) by { HeldHead(l, x); }
          PassiveEmitted(c.sess.log, later, l, x);
          ActivePlain(l.recv, l.sent + [m], c.sess, OnOpenReq(Popped(c), x, op).sess);
        } else {
          PassivePlain(c.sess.log, later, l.recv, m, OnError(InvalidArgument));
        }
      case SendFails(e) =>
        ChainDown(Pop(l));
        PassivePlain(c.sess.log, later, l.recv, ToServerReq, OnError(e));
        ActivePlain(l.recv, l.sent, c.sess, HosedSess(c.sess, e));
      case SendLate(e) => ChainHose(Pop(l), e);
    }
  }

  lemma HeldHead(l: Link, x: Inbound)
    requires Held(l) && l.queue != [] && l.queue[0] == OpenTask(x)
    ensures Got(l.recv, x)
  {
  }

  lemma OpensOpenStart(c: Client, op: SendOp)
    requires Inv(c) && Wire(c) && Enabled(c, DoOpen(op))
    ensures OpensOk(OpenStart(c, op).0)
  {
    hide Inv, LogInOk, ChainOk, PassiveOk, ActiveOk, Later;
    var l := c.link;
    PeerSent(c, ToServerReq);
    var later := Later(Agreed(l.sent, l.recv), l.sent);
    if Up(l) {
      ChainSend(l, ToServerReq);
      ActiveMore(l.recv, l.sent, c.sess, ToServerReq);
      PassivePlain(c.sess.log, later, l.recv, ToServerReq, OnError(if op.SendOk? then InvalidArgument else op.e));
      if !op.SendOk? {
        ChainDown(l);
        ChainHose(l, op.e);
        ActivePlain(l.recv, l.sent, c.sess, HosedSess(c.sess, op.e));
      }
    }
  }

  lemma OpensEndWait(c: Client, end: WaitEnd)
    requires Inv(c) && Wire(c) && c.sess.wait.Some?
    ensures OpensOk(OpenUnanswered(c, end))
  {
    hide Inv, LogInOk, ChainOk, PassiveOk, ActiveOk, Later;
    var l := c.link;
    ActivePlain(l.recv, l.sent, c.sess, OpenUnanswered(c, end).sess);
    if Up(l) && !end.TimedOut? {
      ChainDown(l);
      ChainHose(l, end.e);
      PassivePlain(c.sess.log, Later(Agreed(l.sent, l.recv), l.sent), l.recv, ToServerReq, OnError(end.e));
    }
  }

  lemma OpensEnd(c: Client)
    requires Inv(c) && Wire(c) && c.link.queue != [] && c.link.queue[0].EndTask?
    ensures OpensOk(OnEnd(Popped(c)))
  {
    hide Inv, LogInOk, ChainOk, PassiveOk, ActiveOk;
    ChainPop(c.link);
    var later := Later(Agreed(c.link.sent, c.link.recv), c.link.sent);
    PassivePlain(c.sess.log, later, c.link.recv, ToServerReq, OnError(SessionFinished));
    ActivePlain(c.link.recv, c.link.sent, c.sess, OnEnd(Popped(c)).sess);
  }

  lemma OpensSendEnd(c: Client, op: SendOp)
    requires Inv(c) && Wire(c) && Enabled(c, DoEnd(op))
    ensures OpensOk(SendEnd(c, op))
  {
    hide Inv, LogInOk, ChainOk, PassiveOk, ActiveOk, Later;
    var l := c.link;
    PeerSent(c, GracefulSessionEnd);
    if Up(l) {
      match op
      case SendOk =>
        ChainSend(l, GracefulSessionEnd);
        ActiveMore(l.recv, l.sent, c.sess, GracefulSessionEnd);
        PassivePlain(c.sess.log, Later(Agreed(l.sent, l.recv), l.sent), l.recv, GracefulSessionEnd, OnError(SessionFinished));
      case SendFails(_) => ChainDown(l);
      case SendLate(e) => ChainHose(l, e);
    }
  }

  lemma OpensTask(c: Client, ops: Ops)
    requires Inv(c) && Wire(c) && Enabled(c, DoTask(ops)) && ops.wrapper == Keep
    ensures OpensOk(RunTask(c, ops))
  {
    hide Inv, Wire, OpensOk, OnLogInRsp, OnInitOpen, OnOpenReq, OnChannelError, OnEnd;
    match c.link.queue[0]
    case LogInRspTask(x) => OpensResponse(c, x, ops.late1);
    case InitTask(ch, n, x) => OpensInit(c, ch, n, x, ops);
    case OpenTask(x) => OpensOpenReq(c, x, ops.op);
    case ErrorTask(ch, e) => OpensErr(c, ch, e);
    case EndTask => OpensEnd(c);
  }

  lemma OpensStep(c: Client, s: Step)
    requires Inv(c) && Wire(c) && Enabled(c, s) && Vanilla(s)
    ensures OpensOk(Next(c, s))
  {
    hide Inv, Wire, OpensOk, Connect, Deliver, RunTask, OpenStart, OpenUnanswered, SendEnd;
    match s
    case DoConnect(args, run) => OpensConnect(c, args, run);
    case DoDeliver(m) => OpensDeliver(c, m);
    case DoFail(e) => OpensFail(c, e);
    case DoTask(ops) => OpensTask(c, ops);
    case DoOpen(op) => OpensOpenStart(c, op);
    case DoEndWait(end) => OpensEndWait(c, end);
    case DoEnd(op) => OpensSendEnd(c, op);
  }

  lemma WireStep(c: Client, s: Step)
    requires Inv(c) && Wire(c) && Enabled(c, s) && Vanilla(s)
    ensures Wire(Next(c, s))
  {
    hide Inv, LogInOk, OpensOk, Next, Enabled;
    LogInStep(c, s);
    OpensStep(c, s);
  }

  lemma {:induction false} WireInRuns(states: seq<Client>, steps: seq<Step>, i: nat)
    requires Run(states, steps) && i < |states|
    requires forall j :: 0 <= j < |steps| ==> Vanilla(steps[j])
    ensures Inv(states[i]) && Wire(states[i])
  {
    InvInRuns(states, steps, i);
    if i > 0 {
      WireInRuns(states, steps, i - 1);
      WireStep(states[i - 1], steps[i - 1]);
    } else {
      FreshOk(states[0].cfg);
    }
  }

  lemma NoneIncrease()
    ensures Increasing([])
  {
  }

  lemma FreshOk(cfg: Config)
    ensures Wire(Fresh(cfg))
  {
    hide Increasing;
    assert Increasing([]) by { NoneIncrease(); }
    assert Chain(Fresh(cfg).link) == [];
  }
}
