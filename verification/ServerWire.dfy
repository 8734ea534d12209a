/** What one server session sends, and what it makes of the channels it opens, against any client. */
module ServerWire {
  import opened MasterChannel
  import opened ServerModel
  import opened ServerRuns

  // ----- The log-in on the wire -----

  ghost predicate Acked(recv: seq<Msg>, n: nat) {
    exists j :: 0 <= j < |recv| && recv[j].ToClientRsp? && recv[j].to == n
  }

  /** First the response, then the init-channels, then nothing until the last of them is acknowledged. */
  ghost predicate SentOk(recv: seq<Msg>, sent: seq<Msg>) {
    && recv != [] && recv[0].LogInReq? && sent != [] && sent[0].LogInRsp?
    && var n := Agreed(recv, sent);
    && (forall i :: 1 <= i < |sent| && i <= n ==> sent[i] == InitMsg(0, i - 1))
    && (forall i :: n < i < |sent| && 0 < i ==>
          sent[i].ToClientReq? || sent[i].ToServerRsp? || sent[i].GracefulSessionEnd?)
    && (n > 0 && |sent| > n + 1 ==> Acked(recv, n))
  }

  /** The log-in handler was told of success. */
  predicate Succeeded(s: Server) {
    s.login.dones != [] && s.login.dones[0].result.None?
  }

  /** The two containers hold the server's ends of the init-channels, the client-requested ones in the first. */
  ghost predicate ListsOk(s: Server, n: nat, nCli: nat)
    requires Succeeded(s)
  {
    && (n > 0 && s.cfg.wantsCli && nCli <= n ==> s.login.dones[0].byCli == InitEnds(0, n)[..nCli])
    && (n > 0 && s.cfg.wantsSrv && nCli <= n ==> s.login.dones[0].bySrv == InitEnds(0, n)[nCli..])
  }

  /** Before the response is sent. */
  ghost predicate Before(s: Server) {
    var l := s.link;
    && s.lastMq == 0 && !LoggedIn(s) && !Succeeded(s) && !s.sess.wait.AckWait?
    && (s.login.onDone && l.chan.None? ==> l.recv == [])
    && (Up(l) && l.chan.value.loginPending ==> l.recv == [])
    && (forall i :: 0 <= i < |l.queue| && l.queue[i].LogInTask? ==> l.recv != [] && l.recv[0] == l.queue[i].req)
  }

  ghost predicate NoLogInTask(l: Link) {
    && (l.chan.Some? ==> !l.chan.value.loginPending)
    && (forall i :: 0 <= i < |l.queue| ==> !l.queue[i].LogInTask? && !l.queue[i].StartTask?)
  }

  ghost predicate After(s: Server)
    requires SentOk(s.link.recv, s.link.sent)
  {
    var l := s.link;
    var n := Agreed(l.recv, l.sent);
    && NoLogInTask(l)
    && (!s.cfg.wantsCli ==> l.recv[0].nCli == 0) && (!s.cfg.wantsSrv ==> l.sent[0].nSrv == 0)
    && s.login.ns == Some(l.sent[0].ns)
    && (LoggedIn(s) ==> Succeeded(s))
    && (Succeeded(s) ==> |l.sent| > n && (n > 0 ==> Acked(l.recv, n)) && ListsOk(s, n, l.recv[0].nCli))
    && (s.sess.wait.AckWait? ==>
          n > 0 && |l.sent| == n + 1 && s.sess.wait == AckWait(n, l.recv[0].nCli, InitEnds(0, n)))
  }

  ghost predicate LogInOk(s: Server) {
    if s.link.sent == [] then Before(s) else SentOk(s.link.recv, s.link.sent) && After(s)
  }

  // ----- Channels opened after the log-in -----

  /** Does a message hand over a newly made pair of pipes? */
  predicate Carries(m: Msg) {
    m.ToClientReq? || (m.ToServerRsp? && m.result == Accepted)
  }

  ghost predicate WholePair(c2s: Mq, s2c: Mq, last: nat) {
    c2s == Mq(c2s.id, true) && s2c == Mq(c2s.id, false) && 1 <= c2s.id <= last
  }

  /** Every pair is handed over at most once, whole; one not handed over yet waits in one metadata builder. */
  ghost predicate MqsOk(sent: seq<Msg>, mdts: seq<Mdt>, last: nat) {
    && (forall i :: 0 <= i < |sent| && Carries(sent[i]) ==> WholePair(sent[i].c2s, sent[i].s2c, last))
    && (forall i, j :: 0 <= i < j < |sent| && Carries(sent[i]) && Carries(sent[j]) ==>
          sent[i].c2s.id != sent[j].c2s.id)
    && (forall b :: 0 <= b < |mdts| && mdts[b].Ready? ==> WholePair(mdts[b].c2s, mdts[b].s2c, last))
    && (forall b, i :: 0 <= b < |mdts| && 0 <= i < |sent| && mdts[b].Ready? && Carries(sent[i]) ==>
          mdts[b].c2s.id != sent[i].c2s.id)
    && (forall b, d :: 0 <= b < d < |mdts| && mdts[b].Ready? && mdts[d].Ready? ==> mdts[b].c2s.id != mdts[d].c2s.id)
  }

  /** Passive opens emitted to the user are the accepting responses sent. */
  ghost predicate PassiveOk(log: seq<Event>, sent: seq<Msg>) {
    && (forall m | m in sent && m.ToServerRsp? && m.result == Accepted ::
          PassiveOpen(m.to, ServerPeer(m.c2s, m.s2c)) in log)
    && (forall e | e in log && e.PassiveOpen? :: ToServerRsp(e.id, Accepted, e.peer.rx, e.peer.tx) in sent)
    && (forall i, j :: 0 <= i < j < |log| && log[i].PassiveOpen? && log[j].PassiveOpen? ==> log[i].id < log[j].id)
  }

  ghost predicate Requested(recv: seq<Msg>, id: nat) {
    id < |recv| && recv[id].ToServerReq?
  }

  function Cache(l: Link): seq<nat> {
    if l.chan.Some? then l.chan.value.cache else []
  }

  function RspIds(sent: seq<Msg>): seq<nat> {
    if sent == [] then []
    else
      var m := sent[|sent| - 1];
      RspIds(sent[..|sent| - 1]) + (if m.ToServerRsp? then [m.to] else [])
  }

  function OpenIds(queue: seq<Task>): seq<nat> {
    if queue == [] then []
    else (if queue[0].OpenTask? then [queue[0].id] else []) + OpenIds(queue[1..])
  }

  /** The requests of the client, in the order they are answered: those answered, those in the queue of W, those
      cached. */
  ghost function Chain(l: Link): seq<nat> {
    RspIds(l.sent) + OpenIds(l.queue) + Cache(l)
  }

  ghost predicate Order(l: Link) {
    Increasing(Chain(l)) && forall i :: 0 <= i < |Chain(l)| ==> Requested(l.recv, Chain(l)[i])
  }

  /** An active open that succeeded, or waits for its answer, is about a request sent after the log-in. */
  ghost predicate ActiveOk(recv: seq<Msg>, sent: seq<Msg>, sess: Sess) {
    var n := Agreed(recv, sent);
    var log := sess.log;
    && (forall i :: 0 <= i < |log| && log[i].ActiveOpen? ==>
          && n < log[i].id < |sent| && sent[log[i].id] == ToClientReq(log[i].peer.rx, log[i].peer.tx)
          && ToClientRsp(log[i].id, Accepted) in recv)
    && (forall i, j :: 0 <= i < j < |log| && log[i].ActiveOpen? && log[j].ActiveOpen? ==> log[i].id < log[j].id)
    && (sess.wait.OpenWait? ==>
          && n < sess.wait.id < |sent| && sent[sess.wait.id] == ToClientReq(sess.wait.c2s, sess.wait.s2c)
          && forall i :: 0 <= i < |log| && log[i].ActiveOpen? ==> log[i].id < sess.wait.id)
  }

  ghost predicate OpensOk(s: Server) {
    && MqsOk(s.link.sent, s.mdts, s.lastMq)
    && PassiveOk(s.sess.log, s.link.sent)
    && Order(s.link)
    && ActiveOk(s.link.recv, s.link.sent, s.sess)
  }

  ghost predicate Wire(s: Server) {
    LogInOk(s) && OpensOk(s)
  }

  // ----- The chain of requests -----

  ghost function Pop(l: Link): Link
    requires l.queue != []
  {
    l.(queue := l.queue[1..])
  }

  lemma {:induction false} OpenIdsAppend(q: seq<Task>, r: seq<Task>)
    ensures OpenIds(q + r) == OpenIds(q) + OpenIds(r)
  {
    if q == [] {
      assert q + r == r;
    } else {
      assert (q + r)[1..] == q[1..] + r;
      OpenIdsAppend(q[1..], r);
      assert OpenIds(q + r) == (if q[0].OpenTask? then [q[0].id] else []) + OpenIds((q + r)[1..]);
    }
  }

  lemma {:induction false} OpenIdsOfTasks(ids: seq<nat>)
    ensures OpenIds(OpenTasks(ids)) == ids
  {
    if ids != [] {
      OpenIdsOfTasks(ids[1..]);
      assert OpenTasks(ids)[1..] == OpenTasks(ids[1..]);
    }
  }

  lemma RspIdsSent(sent: seq<Msg>, m: Msg)
    ensures RspIds(sent + [m]) == RspIds(sent) + (if m.ToServerRsp? then [m.to] else [])
  {
    assert (sent + [m])[..|sent|] == sent;
  }

  /** Requests leave the chain by being dropped; or they move along it. */
  lemma OrderShrinks(l: Link, l': Link, a: seq<nat>, x: seq<nat>, b: seq<nat>)
    requires Order(l) && Chain(l) == a + x + b && Chain(l') == a + b && l'.recv == l.recv
    ensures Order(l')
  {
    assert forall i :: 0 <= i < |a| ==> Chain(l')[i] == Chain(l)[i];
    assert forall i :: |a| <= i < |a + b| ==> Chain(l')[i] == Chain(l)[i + |x|];
  }

  lemma OrderSame(l: Link, l': Link)
    requires Order(l) && Chain(l') == Chain(l) && l'.recv == l.recv
    ensures Order(l')
  {
  }

  lemma OrderPop(l: Link)
    requires Order(l) && l.queue != []
    ensures Order(Pop(l))
  {
    hide Order, RspIds, Increasing;
    var x := if l.queue[0].OpenTask? then [l.queue[0].id] else [];
    Regroup(RspIds(l.sent), x, OpenIds(l.queue[1..]), Cache(l));
    OrderShrinks(l, Pop(l), RspIds(l.sent), x, OpenIds(l.queue[1..]) + Cache(l));
  }

  lemma OrderPush(l: Link, t: Task)
    requires Order(l) && !t.OpenTask?
    ensures Order(l.(queue := l.queue + [t]))
  {
    OpenIdsAppend(l.queue, [t]);
    assert OpenIds([t]) == [];
    assert Chain(l.(queue := l.queue + [t])) == Chain(l);
  }

  lemma OrderDown(l: Link)
    requires Order(l) && l.chan.Some?
    ensures Order(Down(l)) && Order(l.(chan := None))
  {
    var l' := l.(chan := None);
    assert Chain(l) == RspIds(l.sent) + OpenIds(l.queue) + Cache(l) + [];
    assert Chain(l') == RspIds(l.sent) + OpenIds(l.queue) + [];
    OrderShrinks(l, l', RspIds(l.sent) + OpenIds(l.queue), Cache(l), []);
  }

  lemma OrderHose(l: Link, e: Error)
    requires Order(l) && l.chan.Some?
    ensures Order(HoseAsync(l, e))
  {
    OrderDown(l);
    OrderPush(Down(l), ErrorTask(e));
  }

  lemma OrderAnswer(l: Link, id: nat, m: Msg)
    requires Order(l) && l.queue != [] && l.queue[0] == OpenTask(id) && m.ToServerRsp? && m.to == id
    ensures Order(Pop(l).(sent := l.sent + [m]))
  {
    hide Order, RspIds, OpenIds;
    RspIdsSent(l.sent, m);
    assert OpenIds(l.queue) == [id] + OpenIds(l.queue[1..]) by { OpenIdsHead(l.queue); }
    Regroup(RspIds(l.sent), [id], OpenIds(l.queue[1..]), Cache(l));
    OrderSame(l, Pop(l).(sent := l.sent + [m]));
  }

  lemma OpenIdsHead(q: seq<Task>)
    requires q != []
    ensures OpenIds(q) == (if q[0].OpenTask? then [q[0].id] else []) + OpenIds(q[1..])
  {
  }

  lemma OrderSend(l: Link, m: Msg)
    requires Order(l) && !m.ToServerRsp?
    ensures Order(l.(sent := l.sent + [m]))
  {
    RspIdsSent(l.sent, m);
    assert Chain(l.(sent := l.sent + [m])) == Chain(l);
  }

  lemma QueueMore(q: seq<Task>, t: Task)
    ensures OpenIds(q + [t]) == OpenIds(q) + if t.OpenTask? then [t.id] else []
  {
    OpenIdsAppend(q, [t]);
    assert [t][1..] == [];
  }

  lemma OrderReceive(l: Link, m: Msg)
    requires Order(l) && Up(l) && (l.chan.value.opens ==> Cache(l) == [])
    ensures Order(Receive(l, m))
  {
    hide RspIds, OpenIds, Order, Increasing;
    var id := |l.recv|;
    QueueMore(l.queue, LogInTask(id, m));
    QueueMore(l.queue, ErrorTask(UNEXPECTED));
    QueueMore(l.queue, OpenTask(id));
    QueueMore(l.queue, EndTask);
    Appended(RspIds(l.sent), OpenIds(l.queue), Cache(l), id);
    OrderGrows(l, Receive(l, m), m);
  }

  /** A message is received, and is the last of the chain if it is a request. */
  lemma OrderGrows(l: Link, l': Link, m: Msg)
    requires Order(l) && l'.recv == l.recv + [m]
    requires Chain(l') == Chain(l) || (m.ToServerReq? && Chain(l') == Chain(l) + [|l.recv|])
    ensures Order(l')
  {
    if Chain(l') != Chain(l) {
      IncreasingAppend(Chain(l), |l.recv|);
    }
  }

  lemma OrderExpect(l: Link, late: Option<Error>)
    requires Order(l) && l.chan.Some?
    ensures Order(ExpectOpens(l, late))
  {
    hide Order, RspIds, OpenIds;
    if !Up(l) {
    } else if late.Some? {
      OrderHose(l, late.value);
    } else {
      OpenIdsAppend(l.queue, OpenTasks(Cache(l)));
      OpenIdsOfTasks(Cache(l));
      Regroup(RspIds(l.sent), OpenIds(l.queue), Cache(l), []);
      assert Cache(ExpectOpens(l, late)) == [];
      OrderSame(l, ExpectOpens(l, late));
    }
  }
  // ----- Pairs of pipes -----

  lemma MqsPlain(sent: seq<Msg>, mdts: seq<Mdt>, last: nat, m: Msg)
    requires MqsOk(sent, mdts, last) && !Carries(m)
    ensures MqsOk(sent + [m], mdts, last)
  {
  }

  lemma MqsSent(sent: seq<Msg>, mdts: seq<Mdt>, last: nat, m: Msg)
    requires MqsOk(sent, mdts, last) && Carries(m) && m.c2s == Mq(last + 1, true) && m.s2c == Mq(last + 1, false)
    ensures MqsOk(sent + [m], mdts, last + 1)
  {
  }

  lemma MqsLost(sent: seq<Msg>, mdts: seq<Mdt>, last: nat, last': nat)
    requires MqsOk(sent, mdts, last) && last <= last'
    ensures MqsOk(sent, mdts, last')
  {
  }

  lemma MqsBuilt(sent: seq<Msg>, mdts: seq<Mdt>, last: nat)
    requires MqsOk(sent, mdts, last)
    ensures MqsOk(sent, mdts + [Ready(Mq(last + 1, true), Mq(last + 1, false))], last + 1)
    ensures MqsOk(sent, mdts + [Unavailable], last)
  {
  }

  lemma MqsUsed(sent: seq<Msg>, mdts: seq<Mdt>, last: nat, b: nat)
    requires MqsOk(sent, mdts, last) && b < |mdts| && mdts[b].Ready?
    ensures MqsOk(sent, mdts[b := Used], last)
    ensures MqsOk(sent + [ToClientReq(mdts[b].c2s, mdts[b].s2c)], mdts[b := Used], last)
  {
  }

  lemma MqsNone(last: nat)
    ensures MqsOk([], [], last)
  {
  }

  lemma MqsInits(rsp: Msg, k: nat, last: nat)
    requires rsp.LogInRsp? && k <= last
    ensures MqsOk([rsp] + InitMsgs(0, k), [], last)
  {
    var sent := [rsp] + InitMsgs(0, k);
    assert forall i :: 1 <= i < |sent| ==> sent[i] == InitMsg(0, i - 1);
  }

  // ----- Log-in steps -----

  /** Nothing is opened before the log-in is over. */
  ghost predicate Quiet(s: Server) {
    s.mdts == [] && s.sess.log == [] && !s.sess.wait.OpenWait? && Order(s.link)
  }

  lemma QuietStart(s: Server)
    requires Inv(s) && !s.dead && s.login.onDone && OpensOk(s)
    ensures Quiet(s)
  {
  }

  lemma {:induction false} NoRsps(sent: seq<Msg>)
    requires forall i :: 0 <= i < |sent| ==> !sent[i].ToServerRsp?
    ensures RspIds(sent) == []
  {
    if sent != [] {
      NoRsps(sent[..|sent| - 1]);
    }
  }

  lemma QuietOpens(s: Server, k: nat)
    requires Quiet(s) && k <= s.lastMq
    requires s.link.sent == [] || (s.link.sent[0].LogInRsp? && s.link.sent == [s.link.sent[0]] + InitMsgs(0, k))
    ensures OpensOk(s) && forall e :: OpensOk(FailLogIn(s, e))
  {
    hide Order, MqsOk;
    MqsNone(s.lastMq);
    if s.link.sent != [] {
      MqsInits(s.link.sent[0], k, s.lastMq);
    }
    if s.link.chan.Some? {
      OrderDown(s.link);
    }
  }

  lemma QuietSent(s: Server, rsp: Msg, k: nat)
    requires Quiet(s) && rsp.LogInRsp? && forall i :: 0 <= i < |s.link.sent| ==> !s.link.sent[i].ToServerRsp?
    ensures Order(s.link.(sent := [rsp] + InitMsgs(0, k)))
  {
    NoRsps(s.link.sent);
    NoRsps([rsp] + InitMsgs(0, k));
    OrderSame(s.link, s.link.(sent := [rsp] + InitMsgs(0, k)));
  }

  lemma Received(s: Server, m: Msg)
    requires SentOk(s.link.recv, s.link.sent)
    ensures SentOk(s.link.recv + [m], s.link.sent)
    ensures Agreed(s.link.recv + [m], s.link.sent) == Agreed(s.link.recv, s.link.sent)
    ensures (s.link.recv + [m])[0] == s.link.recv[0]
    ensures forall n: nat :: Acked(s.link.recv, n) || (m.ToClientRsp? && m.to == n) ==> Acked(s.link.recv + [m], n)
  {
    var recv := s.link.recv;
    forall n: nat | Acked(recv, n) || (m.ToClientRsp? && m.to == n)
      ensures Acked(recv + [m], n)
    {
      if Acked(recv, n) {
        var j :| 0 <= j < |recv| && recv[j].ToClientRsp? && recv[j].to == n;
        assert (recv + [m])[j] == recv[j];
      } else {
        assert (recv + [m])[|recv|] == m;
      }
    }
  }

  lemma DeliverBefore(s: Server, m: Msg)
    requires Inv(s) && s.link.sent == [] && Before(s) && Enabled(s, DoDeliver(m))
    ensures Before(Deliver(s, m)) && Deliver(s, m).link.sent == []
  {
    assert s.link.chan.value.loginPending ==> (s.link.recv + [m])[0] == m;
  }

  lemma DeliverAfter(s: Server, m: Msg)
    requires Inv(s) && s.link.sent != [] && LogInOk(s) && Enabled(s, DoDeliver(m))
    ensures LogInOk(Deliver(s, m))
  {
    hide SentOk, Acked, InitEnd, Agreed, LoggingIn, LogInOver, SessOk, ErrorsOk, Receive, NoLogInTask;
    Received(s, m);
    ReceiveShape(s.link, m);
    assert SentOk(s.link.recv + [m], s.link.sent);
  }

  lemma ReceiveShape(l: Link, m: Msg)
    requires Up(l) && NoLogInTask(l)
    ensures var l' := Receive(l, m);
            NoLogInTask(l') && l'.sent == l.sent && l'.recv == l.recv + [m] && l'.chan.Some? && !l.chan.value.loginPending
  {
  }

  /** What holds from the response on, while the log-in handler has not run. */
  ghost predicate Inits(s: Server, nCli: nat, k: nat) {
    var l := s.link;
    && l.recv != [] && l.recv[0].LogInReq? && l.recv[0].nCli == nCli
    && l.sent != [] && l.sent[0].LogInRsp? && l.sent == [l.sent[0]] + InitMsgs(0, k) && k <= Agreed(l.recv, l.sent)
    && NoLogInTask(l) && s.login.onDone && s.login.dones == [] && s.sess.wait.NoWait?
    && (!s.cfg.wantsCli ==> l.recv[0].nCli == 0) && (!s.cfg.wantsSrv ==> l.sent[0].nSrv == 0)
    && s.login.ns == Some(l.sent[0].ns)
    && Quiet(s) && k <= s.lastMq
  }

  lemma InitsWire(s: Server, nCli: nat, k: nat)
    requires Inits(s, nCli, k)
    ensures Wire(s)
    ensures forall e :: Wire(FailLogIn(s, e))
  {
    hide OpensOk, Quiet;
    QuietOpens(s, k);
  }

  lemma InitsSends(s: Server, nCli: nat, k: nat, m: Msg, op: SendOp)
    requires Inits(s, nCli, k) && s.link.chan.Some? && op != SendOk
    ensures Inits(s.(link := Send(s.link, m, op).0), nCli, k)
  {
    hide Order;
    OrderDown(s.link);
    OrderHose(s.link, if op.SendLate? then op.e else UNEXPECTED);
  }

  lemma InitsMore(s: Server, nCli: nat, n: nat, k: nat)
    requires Inits(s, nCli, 0) && n == Agreed(s.link.recv, s.link.sent) && k <= n && s.lastMq == 0
    ensures Inits(InitsSent(s, k), nCli, k)
  {
    hide Order;
    assert s.link.sent == [s.link.sent[0]];
    QuietSent(s, s.link.sent[0], k);
  }

  lemma OpenInitsWire(s: Server, nCli: nat, n: nat, run: InitRun)
    requires Inits(s, nCli, 0) && n == Agreed(s.link.recv, s.link.sent) && n > 0 && s.lastMq == 0
    requires Up(s.link)
    ensures Wire(OpenInits(s, nCli, n, run))
  {
    hide Inits, FailLogIn, InitsSent, Wire;
    AwaitAckWire(s, nCli, n);
    match run
    case AllSent =>
    case NoResource(k) =>
      if k < n {
        InitsMore(s, nCli, n, k);
        InitsWire(InitsSent(s, k), nCli, k);
      }
    case SendStops(k, op) =>
      if k < n && op != SendOk {
        InitsMore(s, nCli, n, k);
        StopWire(s, nCli, k, op);
      }
  }

  lemma StopWire(s: Server, nCli: nat, k: nat, op: SendOp)
    requires Inits(InitsSent(s, k), nCli, k) && s.link.chan.Some? && op != SendOk
    ensures var s1 := InitsSent(s, k);
            var (l, r) := Send(s1.link, InitMsg(s.lastMq, k), op);
            var s2 := s1.(link := l, lastMq := s.lastMq + k + 1);
            Wire(s2) && forall e :: Wire(FailLogIn(s2, e))
  {
    hide Wire, FailLogIn, InitMsgs;
    var s1 := InitsSent(s, k);
    var s2 := s1.(lastMq := s.lastMq + k + 1);
    assert Inits(s2, nCli, k);
    InitsSends(s2, nCli, k, InitMsg(s.lastMq, k), op);
    InitsWire(s2.(link := Send(s1.link, InitMsg(s.lastMq, k), op).0), nCli, k);
  }

  lemma AwaitAckWire(s: Server, nCli: nat, n: nat)
    requires Inits(s, nCli, 0) && n == Agreed(s.link.recv, s.link.sent) && n > 0 && s.lastMq == 0
    ensures Wire(AwaitAck(s, nCli, n))
  {
    hide Order, MqsOk;
    InitsMore(s, nCli, n, n);
    QuietOpens(InitsSent(s, n), n);
  }

  lemma RespondWire(s: Server, nCli: nat, nSrv: nat, ns: string, ops: LogInOps)
    requires Handling(s) && s.link.sent == [] && s.lastMq == 0 && NoLogInTask(s.link) && Before(s) && Quiet(s)
    requires s.link.recv != [] && s.link.recv[0].LogInReq? && s.link.recv[0].nCli == nCli
    requires (nCli > 0 ==> s.cfg.wantsCli) && (nSrv > 0 ==> s.cfg.wantsSrv) && s.login.ns == Some(ns)
    ensures Wire(Respond(s, nCli, nSrv, ns, ops))
  {
    hide OpenInits, Wire, Inits, Inv;
    var m := LogInRsp(1, 1, ns, nSrv);
    BeforeKeeps(s, m, ops.op);
    if Up(s.link) && ops.op.SendOk? {
      var s1 := s.(link := s.link.(sent := s.link.sent + [m]));
      assert Inits(s1, nCli, 0) by { ResponseSent(s, nCli, m); }
      if nCli + nSrv == 0 {
        NoInits(s1);
      } else {
        OpenInitsWire(s1, nCli, nCli + nSrv, ops.run);
      }
    }
  }

  lemma ResponseSent(s: Server, nCli: nat, m: Msg)
    requires Handling(s) && s.link.sent == [] && NoLogInTask(s.link) && m.LogInRsp? && Quiet(s)
    requires s.link.recv != [] && s.link.recv[0].LogInReq? && s.link.recv[0].nCli == nCli
    requires (nCli > 0 ==> s.cfg.wantsCli) && (m.nSrv > 0 ==> s.cfg.wantsSrv) && s.login.ns == Some(m.ns)
    ensures Inits(s.(link := s.link.(sent := s.link.sent + [m])), nCli, 0)
  {
    hide Order;
    QuietSent(s, m, 0);
    assert s.link.sent + [m] == [m] + InitMsgs(0, 0);
  }

  lemma NoInits(s: Server)
    requires Inits(s, 0, 0) && s.link.sent[0].nSrv == 0
    ensures Wire(Fire(s, None))
  {
    hide Order;
    assert s.link.sent == [s.link.sent[0]];
    QuietOpens(s, 0);
  }

  lemma BeforeKeeps(s: Server, m: Msg, op: SendOp)
    requires Handling(s) && s.link.sent == [] && NoLogInTask(s.link) && Before(s) && Quiet(s)
    ensures var (l, r) := Send(s.link, m, op);
            && (r.Refused? ==> Wire(s.(link := l)))
            && (r.Failed? ==> Wire(FailLogIn(s.(link := l), r.e)))
    ensures forall e :: Wire(FailLogIn(s, e))
  {
    hide OpensOk, Order, Inv;
    QuietOpens(s, 0);
    if s.link.chan.Some? {
      var l := Send(s.link, m, op).0;
      OrderDown(s.link);
      if op.SendLate? {
        OrderHose(s.link, op.e);
      }
      QuietOpens(s.(link := if Up(s.link) && op.SendOk? then s.link else l), 0);
    }
  }

  lemma LogInWire(s: Server, m: Msg, env: LogInEnv, ops: LogInOps)
    requires Handling(s) && s.link.sent == [] && Before(s) && m.LogInReq? && Quiet(s)
    requires s.link.recv != [] && s.link.recv[0] == m
    ensures Wire(OnLogInReq(s, m, env, ops))
  {
    hide Respond, Wire, FailLogIn;
    var s1 := if NsMade(s, m, env) then s.(login := s.login.(ns := Some(env.ns))) else s;
    assert Handling(s1) by { NsIrrelevant(s, env.ns); }
    BeforeKeeps(s1, m, SendOk);
    if LogInReqError(s, m, env).None? {
      RespondWire(s1, m.nCli, if s.cfg.wantsSrv then env.nSrv else 0, env.ns, ops);
    }
  }

  // ----- Later steps -----

  /** A step of the logged-in session, seen from the log-in. */
  lemma LogInLater(s: Server, s': Server)
    requires LogInOk(s) && LoggedIn(s) && !s'.sess.wait.AckWait?
    requires s'.login == s.login && s'.cfg == s.cfg
    requires s'.link.recv == s.link.recv && NoLogInTask(s'.link)
    requires s'.link.sent == s.link.sent
          || exists m: Msg :: (m.ToClientReq? || m.ToServerRsp? || m.GracefulSessionEnd?) && s'.link.sent == s.link.sent + [m]
    ensures LogInOk(s') && |s'.link.sent| > Agreed(s'.link.recv, s'.link.sent) == Agreed(s.link.recv, s.link.sent)
  {
    hide Acked, ListsOk;
    assert s'.link.sent[0] == s.link.sent[0];
    assert Agreed(s'.link.recv, s'.link.sent) == Agreed(s.link.recv, s.link.sent);
    assert forall i :: 0 <= i < |s.link.sent| ==> s'.link.sent[i] == s.link.sent[i];
    assert ListsOk(s', Agreed(s.link.recv, s.link.sent), s.link.recv[0].nCli) by { ListsSame(s, s'); }
  }

  lemma ListsSame(s: Server, s': Server)
    requires s'.login == s.login && s'.cfg == s.cfg && Succeeded(s)
    ensures forall n: nat, nCli: nat :: ListsOk(s, n, nCli) ==> ListsOk(s', n, nCli)
  {
  }

  lemma ActiveMore(recv: seq<Msg>, sent: seq<Msg>, sess: Sess, m: Msg)
    requires ActiveOk(recv, sent, sess) && sent != []
    ensures ActiveOk(recv, sent + [m], sess)
  {
  }

  lemma ActiveReceive(recv: seq<Msg>, sent: seq<Msg>, sess: Sess, m: Msg)
    requires ActiveOk(recv, sent, sess) && (sent == [] || recv != [])
    ensures ActiveOk(recv + [m], sent, sess)
  {
  }

  lemma ActiveAnswered(recv: seq<Msg>, sent: seq<Msg>, sess: Sess, m: Msg)
    requires ActiveOk(recv, sent, sess) && m in recv && m.ToClientRsp? && sess.wait.OpenWait? && sess.wait.id == m.to
    ensures ActiveOk(recv, sent, OpenAnswered(sess, m))
  {
  }

  lemma PassiveIrrelevant(log: seq<Event>, sent: seq<Msg>, e: Event)
    requires PassiveOk(log, sent) && !e.PassiveOpen?
    ensures PassiveOk(log + [e], sent)
  {
  }

  lemma PassivePlain(log: seq<Event>, sent: seq<Msg>, m: Msg)
    requires PassiveOk(log, sent) && (m.ToServerRsp? ==> m.result != Accepted)
    ensures PassiveOk(log, sent + [m])
  {
  }

  lemma {:induction false} RspIn(sent: seq<Msg>, m: Msg)
    requires m in sent && m.ToServerRsp?
    ensures m.to in RspIds(sent)
  {
    if m != sent[|sent| - 1] {
      assert m in sent[..|sent| - 1];
      RspIn(sent[..|sent| - 1], m);
    }
  }

  /** The request at the head of the queue comes after those answered. */
  lemma HeadIsNext(l: Link, id: nat)
    requires Order(l) && l.queue != [] && l.queue[0] == OpenTask(id)
    ensures forall x | x in RspIds(l.sent) :: x < id
  {
    assert OpenIds(l.queue)[0] == id;
    forall x | x in RspIds(l.sent) ensures x < id {
      var i :| 0 <= i < |RspIds(l.sent)| && RspIds(l.sent)[i] == x;
      assert Chain(l)[i] == x && Chain(l)[|RspIds(l.sent)|] == id;
    }
  }

  lemma PassiveEmitted(log: seq<Event>, sent: seq<Msg>, m: Msg)
    requires PassiveOk(log, sent) && m.ToServerRsp? && m.result == Accepted
    requires forall x | x in RspIds(sent) :: x < m.to
    ensures PassiveOk(log + [PassiveOpen(m.to, ServerPeer(m.c2s, m.s2c))], sent + [m])
  {
    forall i | 0 <= i < |log| && log[i].PassiveOpen?
      ensures log[i].id < m.to
    {
      assert log[i] in log;
      RspIn(sent, ToServerRsp(log[i].id, Accepted, log[i].peer.rx, log[i].peer.tx));
    }
  }

  lemma WireDeliver(s: Server, m: Msg)
    requires Inv(s) && Wire(s) && Enabled(s, DoDeliver(m))
    ensures Wire(Deliver(s, m))
  {
    hide LogInOk, Order, MqsOk, PassiveOk, ActiveOk;
    assert s.link.chan.value.opens ==> Cache(s.link) == [];
    OrderReceive(s.link, m);
    assert LogInOk(Deliver(s, m)) by { LogInDeliver(s, m); }
    var l := s.link;
    assert l.sent == [] || l.recv != [] by { SentFirst(s); }
    ActiveReceive(l.recv, l.sent, s.sess, m);
    if s.sess.wait.OpenWait? && m.ToClientRsp? && m.to == s.sess.wait.id {
      ActiveAnswered(l.recv + [m], l.sent, s.sess, m);
      PassiveIrrelevant(s.sess.log, l.sent, ActiveOpen(m.to, ServerPeer(s.sess.wait.c2s, s.sess.wait.s2c)));
    } else if s.sess.wait.AckWait? {
      assert ActiveOk(l.recv + [m], l.sent, s.sess.(wait := NoWait)) by { ActiveNoWait(l.recv + [m], l.sent, s.sess); }
    }
  }

  lemma ActiveNoWait(recv: seq<Msg>, sent: seq<Msg>, sess: Sess)
    requires ActiveOk(recv, sent, sess)
    ensures ActiveOk(recv, sent, sess.(wait := NoWait))
  {
  }

  lemma SentFirst(s: Server)
    requires LogInOk(s)
    ensures s.link.sent == [] || s.link.recv != []
    ensures LoggedIn(s) ==> s.link.sent != []
  {
  }

  lemma LogInDeliver(s: Server, m: Msg)
    requires Inv(s) && LogInOk(s) && Enabled(s, DoDeliver(m))
    ensures LogInOk(Deliver(s, m))
  {
    if s.link.sent == [] { DeliverBefore(s, m); } else { DeliverAfter(s, m); }
  }

  lemma LogInHose(s: Server, e: Error)
    requires LogInOk(s) && s.link.chan.Some?
    ensures LogInOk(s.(link := HoseAsync(s.link, e)))
  {
  }

  lemma WireFail(s: Server, e: Error)
    requires Inv(s) && Wire(s) && Up(s.link)
    ensures Wire(s.(link := HoseAsync(s.link, e)))
  {
    hide LogInOk, Order;
    LogInHose(s, e);
    OrderHose(s.link, e);
  }

  lemma LogInStart(s: Server, creds: Option<Error>, late: Option<Error>)
    requires Inv(s) && LogInOk(s) && s.sess.wait.NoWait? && !s.dead && s.link.queue != [] && s.link.queue[0].StartTask?
    ensures s.link.queue == [StartTask] && s.link.sent == []
    ensures LogInOk(Start(Popped(s), creds, late))
  {
    assert s.link.queue == [StartTask];
  }

  lemma WireStart(s: Server, creds: Option<Error>, late: Option<Error>)
    requires Inv(s) && Wire(s) && s.sess.wait.NoWait? && !s.dead && s.link.queue != [] && s.link.queue[0].StartTask?
    ensures Wire(Start(Popped(s), creds, late))
  {
    hide Order, MqsOk, PassiveOk, ActiveOk, LogInOk, Inv;
    LogInStart(s, creds, late);
    OrderPop(s.link);
    var l := Pop(s.link).(chan := Some(Chan(true, true, false, [], EndUnexpected)));
    assert Order(l) by { OrderStart(s.link); }
    OrderHose(l, if late.Some? then late.value else UNEXPECTED);
  }

  lemma OrderStart(l: Link)
    requires Order(l) && l.queue == [StartTask] && l.sent == []
    ensures Order(Pop(l).(chan := Some(Chan(true, true, false, [], EndUnexpected))))
  {
  }

  lemma LogInDue(s: Server, id: nat, m: Msg)
    requires Inv(s) && Wire(s) && s.sess.wait.NoWait? && !s.dead
    requires s.link.queue != [] && s.link.queue[0] == LogInTask(id, m)
    ensures s.link.sent == [] && Before(Popped(s)) && s.link.recv != [] && s.link.recv[0] == m && Quiet(Popped(s))
  {
    hide Order;
    QuietStart(s);
    OrderPop(s.link);
  }

  lemma WireLogIn(s: Server, id: nat, m: Msg, env: LogInEnv, ops: LogInOps)
    requires Inv(s) && Wire(s) && s.sess.wait.NoWait? && !s.dead
    requires s.link.queue != [] && s.link.queue[0] == LogInTask(id, m) && m.LogInReq?
    ensures Wire(OnLogInReq(Popped(s), m, env, ops))
  {
    hide OnLogInReq, Wire;
    LogInTaken(s);
    LogInDue(s, id, m);
    LogInWire(Popped(s), m, env, ops);
  }

  lemma ServerRspSent(s: Server, id: nat, m: Msg, op: SendOp)
    requires OpensOk(s) && s.link.chan.Some?
    requires s.link.queue != [] && s.link.queue[0] == OpenTask(id) && s.link.sent != []
    requires m.ToServerRsp? && m.to == id && s.sess.wait.NoWait?
    requires m.result == Accepted ==> m.c2s == Mq(s.lastMq + 1, true) && m.s2c == Mq(s.lastMq + 1, false)
    ensures var (l, r) := Send(Pop(s.link), m, op);
            var mq := if m.result == Accepted then s.lastMq + 1 else s.lastMq;
            && Order(l) && MqsOk(l.sent, s.mdts, mq)
            && PassiveOk(if r.Sent? && m.result == Accepted
                         then s.sess.log + [PassiveOpen(id, ServerPeer(m.c2s, m.s2c))] else s.sess.log, l.sent)
            && ActiveOk(l.recv, l.sent, s.sess)
  {
    hide Order, MqsOk, PassiveOk, ActiveOk;
    OrderPop(s.link);
    var mq := if m.result == Accepted then s.lastMq + 1 else s.lastMq;
    MqsLost(s.link.sent, s.mdts, s.lastMq, mq);
    if s.link.chan.value.up {
      match op
      case SendOk =>
        OrderAnswer(s.link, id, m);
        ActiveMore(s.link.recv, s.link.sent, s.sess, m);
        if m.result == Accepted {
          MqsSent(s.link.sent, s.mdts, s.lastMq, m);
          HeadIsNext(s.link, id);
          PassiveEmitted(s.sess.log, s.link.sent, m);
        } else {
          MqsPlain(s.link.sent, s.mdts, s.lastMq, m);
          PassivePlain(s.sess.log, s.link.sent, m);
        }
      case SendFails(e) => OrderDown(Pop(s.link));
      case SendLate(e) => OrderHose(Pop(s.link), e);
    }
  }

  lemma WireOpenReq(s: Server, id: nat, made: bool, op: SendOp)
    requires Inv(s) && Wire(s) && s.sess.wait.NoWait?
    requires !s.dead && s.link.queue != [] && s.link.queue[0] == OpenTask(id)
    ensures Wire(OnOpenReq(Popped(s), id, made, op))
  {
    hide LogInOk, Order, MqsOk, PassiveOk, ActiveOk, Inv;
    var s' := OnOpenReq(Popped(s), id, made, op);
    LogInOpenReq(s, id, made, op);
    if s.sess.hosed.None? {
      var result := if !s.sess.passiveEnabled then RejectedPassiveOpen
                    else if made then Accepted else RejectedResourceUnavailable;
      var mq := if result == Accepted then s.lastMq + 1 else s.lastMq;
      ServerRspSent(s, id, ToServerRsp(id, result, Mq(mq, true), Mq(mq, false)), op);
      if s'.sess.hosed.Some? {
        PassiveIrrelevant(s.sess.log, s'.link.sent, OnError(op.e));
      }
      ActivePlain(s'.link.recv, s'.link.sent, s.sess, s'.sess);
    } else {
      OrderPop(s.link);
    }
  }

  lemma ActivePlain(recv: seq<Msg>, sent: seq<Msg>, sess: Sess, sess': Sess)
    requires ActiveOk(recv, sent, sess) && sess'.wait == sess.wait
    requires sess'.log == sess.log || exists e: Event :: !e.ActiveOpen? && sess'.log == sess.log + [e]
    ensures ActiveOk(recv, sent, sess')
  {
  }

  lemma LogInOpenReq(s: Server, id: nat, made: bool, op: SendOp)
    requires Inv(s) && LogInOk(s) && s.sess.wait.NoWait? && !s.dead
    requires s.link.queue != [] && s.link.queue[0] == OpenTask(id)
    ensures LogInOk(OnOpenReq(Popped(s), id, made, op)) && LoggedIn(s) && s.link.sent != []
  {
    hide LogInOk, Inv, Answer, OnOpenReq;
    assert LoggedIn(s) && NoLogInTask(OnOpenReq(Popped(s), id, made, op).link) by { AfterOpenReq(s, id, made, op); }
    OpenReqShape(Popped(s), id, made, op);
    LogInLater(s, OnOpenReq(Popped(s), id, made, op));
    SentFirst(s);
  }

  lemma OpenReqShape(s: Server, id: nat, made: bool, op: SendOp)
    ensures var s' := OnOpenReq(s, id, made, op);
            && s'.login == s.login && s'.cfg == s.cfg && s'.sess.wait == s.sess.wait && s'.link.recv == s.link.recv
            && (s'.link.sent == s.link.sent || exists m: Msg :: m.ToServerRsp? && s'.link.sent == s.link.sent + [m])
  {
    hide Answer;
    if s.link.chan.Some? {
      var result := if !s.sess.passiveEnabled then RejectedPassiveOpen
                    else if made then Accepted else RejectedResourceUnavailable;
      AnswerShape(s, id, result, op);
      AnswerShape(s.(lastMq := s.lastMq + 1), id, result, op);
    }
  }

  lemma AnswerShape(s: Server, id: nat, result: OpenResult, op: SendOp)
    requires s.link.chan.Some?
    ensures var s' := Answer(s, id, result, op);
            var m := ToServerRsp(id, result, Mq(s.lastMq, true), Mq(s.lastMq, false));
            && s'.login == s.login && s'.cfg == s.cfg && s'.sess.wait == s.sess.wait && s'.link.recv == s.link.recv
            && (s'.link.sent == s.link.sent || s'.link.sent == s.link.sent + [m])
  {
  }

  lemma AfterOpenReq(s: Server, id: nat, made: bool, op: SendOp)
    requires Inv(s) && s.sess.wait.NoWait? && !s.dead && s.link.queue != [] && s.link.queue[0] == OpenTask(id)
    ensures LoggedIn(s) && NoLogInTask(OnOpenReq(Popped(s), id, made, op).link)
  {
  }

  lemma LogInError(s: Server, e: Error)
    requires Inv(s) && LogInOk(s) && !s.dead
    requires s.sess.wait.NoWait? && s.link.queue != [] && s.link.queue[0] == ErrorTask(e)
    ensures LogInOk(OnChannelError(Popped(s), e))
  {
    hide Acked, SentOk, SessOk;
    ErrorHandled(s, e);
    if s.link.sent != [] && Succeeded(s) {
      ListsSame(s, OnChannelError(Popped(s), e));
    }
  }

  lemma ErrorHandled(s: Server, e: Error)
    requires Inv(s) && !s.dead && s.sess.wait.NoWait? && s.link.queue != [] && s.link.queue[0] == ErrorTask(e)
    ensures Succeeded(s) || !s.login.onDone ==> OnChannelError(Popped(s), e).login == s.login
    ensures Succeeded(OnChannelError(Popped(s), e)) ==> Succeeded(s)
  {
  }

  lemma WireError(s: Server, e: Error)
    requires Inv(s) && Wire(s) && !s.dead
    requires s.sess.wait.NoWait? && s.link.queue != [] && s.link.queue[0] == ErrorTask(e)
    ensures Wire(OnChannelError(Popped(s), e))
  {
    hide LogInOk, Order, MqsOk, PassiveOk, ActiveOk, Inv;
    LogInError(s, e);
    OrderPop(s.link);
    if s.link.chan.Some? {
      OrderDown(Pop(s.link));
      PassiveIrrelevant(s.sess.log, s.link.sent, OnError(e));
      ActivePlain(s.link.recv, s.link.sent, s.sess, OnChannelError(Popped(s), e).sess);
    }
  }

  lemma LogInPreInit(s: Server)
    requires Inv(s) && LogInOk(s) && !s.dead
    requires s.sess.wait.NoWait? && s.link.queue != [] && s.link.queue[0] == PreInitTask
    ensures LogInOk(OnPreInit(Popped(s)))
  {
  }

  lemma WirePreInit(s: Server)
    requires Inv(s) && Wire(s) && !s.dead && s.sess.wait.NoWait? && s.link.queue != [] && s.link.queue[0] == PreInitTask
    ensures Wire(OnPreInit(Popped(s)))
  {
    hide LogInOk, Order, MqsOk, PassiveOk, ActiveOk, Inv;
    LogInPreInit(s);
    OrderPop(s.link);
    if s.sess.preInit.Some? {
      PassiveIrrelevant(s.sess.log, s.link.sent, OnError(s.sess.preInit.value));
    }
    ActivePlain(s.link.recv, s.link.sent, s.sess, OnPreInit(Popped(s)).sess);
  }

  lemma WireEnd(s: Server)
    requires Inv(s) && Wire(s) && !s.dead && s.sess.wait.NoWait? && s.link.queue != [] && s.link.queue[0] == EndTask
    ensures Wire(OnEnd(Popped(s)))
  {
    hide LogInOk, Order, MqsOk, PassiveOk, ActiveOk, Inv;
    assert LogInOk(OnEnd(Popped(s))) by { LogInEnd(s); }
    OrderPop(s.link);
    PassiveIrrelevant(s.sess.log, s.link.sent, OnError(SessionFinished));
    ActivePlain(s.link.recv, s.link.sent, s.sess, OnEnd(Popped(s)).sess);
  }

  lemma LogInEnd(s: Server)
    requires Inv(s) && LogInOk(s) && !s.dead && s.sess.wait.NoWait? && s.link.queue != [] && s.link.queue[0] == EndTask
    ensures LogInOk(OnEnd(Popped(s)))
  {
    hide Acked, SentOk, SessOk;
    if s.link.sent != [] && Succeeded(s) {
      ListsSame(s, OnEnd(Popped(s)));
    }
  }

  lemma WireSendEnd(s: Server, op: SendOp)
    requires Inv(s) && Wire(s) && Enabled(s, DoEnd(op))
    ensures Wire(SendEnd(s, op))
  {
    hide LogInOk, Order, MqsOk, PassiveOk, ActiveOk, Inv;
    assert LogInOk(SendEnd(s, op)) && s.link.sent != [] by { LogInSendEnd(s, op); }
    if s.link.chan.value.up {
      match op
      case SendOk =>
        OrderSend(s.link, GracefulSessionEnd);
        MqsPlain(s.link.sent, s.mdts, s.lastMq, GracefulSessionEnd);
        PassivePlain(s.sess.log, s.link.sent, GracefulSessionEnd);
        ActiveMore(s.link.recv, s.link.sent, s.sess, GracefulSessionEnd);
      case SendFails(_) => OrderDown(s.link);
      case SendLate(e) => OrderHose(s.link, e);
    }
  }

  lemma LogInSendEnd(s: Server, op: SendOp)
    requires Inv(s) && LogInOk(s) && Enabled(s, DoEnd(op))
    ensures LogInOk(SendEnd(s, op)) && s.link.sent != []
  {
    hide LogInOk, Inv;
    LoggedInFacts(s);
    LogInLater(s, SendEnd(s, op));
    SentFirst(s);
  }

  lemma WireTask(s: Server, ops: Ops)
    requires Inv(s) && Wire(s) && Enabled(s, DoTask(ops))
    ensures Wire(RunTask(s, ops))
  {
    hide Inv, Wire, Start, OnLogInReq, OnOpenReq, OnChannelError, OnPreInit, OnEnd;
    match s.link.queue[0]
    case StartTask => WireStart(s, ops.creds, ops.late);
    case LogInTask(id, req) => WireLogIn(s, id, req, ops.env, ops.login);
    case OpenTask(id) => WireOpenReq(s, id, ops.made, ops.op);
    case ErrorTask(e) => WireError(s, e);
    case PreInitTask => WirePreInit(s);
    case EndTask => WireEnd(s);
  }

  lemma LogInAckUnanswered(s: Server, end: WaitEnd)
    requires Inv(s) && LogInOk(s) && !s.dead && s.sess.wait.AckWait? && !end.TimedOut?
    ensures LogInOk(AckUnanswered(s, end))
  {
    if Up(s.link) {
      LogInHose(s, end.e);
    }
  }

  lemma WireAckUnanswered(s: Server, end: WaitEnd)
    requires Inv(s) && Wire(s) && !s.dead && s.sess.wait.AckWait? && !end.TimedOut?
    ensures Wire(AckUnanswered(s, end))
  {
    hide LogInOk, Order, MqsOk, PassiveOk, ActiveOk, Inv;
    LogInAckUnanswered(s, end);
    ActiveNoWait(s.link.recv, s.link.sent, s.sess);
    if Up(s.link) {
      OrderDown(s.link);
      OrderHose(s.link, end.e);
    }
  }

  lemma WaitingLoggedIn(s: Server)
    requires Inv(s) && !s.dead && s.sess.wait.OpenWait?
    ensures LoggedIn(s) && NoLogInTask(s.link)
  {
  }

  lemma LogInOpenUnanswered(s: Server, end: WaitEnd)
    requires Inv(s) && LogInOk(s) && !s.dead && s.sess.wait.OpenWait?
    ensures LogInOk(OpenUnanswered(s, end))
  {
    hide LogInOk, Inv;
    WaitingLoggedIn(s);
    LogInLater(s, OpenUnanswered(s, end));
  }

  lemma WireOpenUnanswered(s: Server, end: WaitEnd)
    requires Inv(s) && Wire(s) && !s.dead && s.sess.wait.OpenWait?
    ensures Wire(OpenUnanswered(s, end))
  {
    hide LogInOk, Order, MqsOk, PassiveOk, ActiveOk, Inv;
    assert LogInOk(OpenUnanswered(s, end)) by { LogInOpenUnanswered(s, end); }
    ActiveNoWait(s.link.recv, s.link.sent, s.sess);
    if Up(s.link) && !end.TimedOut? {
      OrderDown(s.link);
      OrderHose(s.link, end.e);
      PassiveIrrelevant(s.sess.log, s.link.sent, OnError(end.e));
    }
    ActivePlain(s.link.recv, s.link.sent, s.sess.(wait := NoWait), OpenUnanswered(s, end).sess);
  }

  lemma LoggedInFacts(s: Server)
    requires Inv(s) && !s.dead && LoggedIn(s)
    ensures NoLogInTask(s.link) && !s.sess.wait.AckWait?
  {
  }

  lemma OrderExpectEnd(l: Link)
    requires Order(l) && l.chan.Some?
    ensures Order(ExpectEnd(l))
  {
    hide Order, OpenIds, RspIds;
    QueueMore(l.queue, EndTask);
    OrderSame(l, ExpectEnd(l));
  }

  lemma OrderExpectAll(l: Link, graceful: bool, late: Option<Error>)
    requires Order(l) && l.chan.Some? && NoLogInTask(l)
    ensures var l' := ExpectAll(l, graceful, late);
            Order(l') && NoLogInTask(l') && l'.sent == l.sent && l'.recv == l.recv
  {
    hide Order, ExpectEnd;
    OrderExpect(l, late);
    OrderExpectEnd(ExpectOpens(l, late));
    ExpectEndKeeps(ExpectOpens(l, late));
  }

  lemma ExpectEndKeeps(l: Link)
    requires l.chan.Some?
    ensures var l' := ExpectEnd(l); l'.sent == l.sent && l'.recv == l.recv && (NoLogInTask(l) ==> NoLogInTask(l'))
  {
  }

  lemma WireInitHandlers(s: Server, passiveEnabled: bool, late: Option<Error>)
    requires Inv(s) && Wire(s) && Enabled(s, DoInitHandlers(passiveEnabled, late))
    ensures Wire(InitHandlers(s, passiveEnabled, late).0)
  {
    hide LogInOk, Order, MqsOk, PassiveOk, ActiveOk, Inv, ExpectAll;
    LoggedInFacts(s);
    OrderPush(s.link, PreInitTask);
    OrderExpectAll(s.link, s.cfg.graceful, late);
    LogInLater(s, InitHandlers(s, passiveEnabled, late).0);
    ActivePlain(s.link.recv, s.link.sent, s.sess, InitHandlers(s, passiveEnabled, late).0.sess);
  }

  lemma WireMdt(s: Server, made: bool)
    requires Inv(s) && Wire(s) && Enabled(s, DoMdt(made))
    ensures Wire(MdtBuilder(s, made))
  {
    hide LogInOk, Order, MqsOk, PassiveOk, ActiveOk, Inv;
    LoggedInFacts(s);
    LogInLater(s, MdtBuilder(s, made));
    MqsBuilt(s.link.sent, s.mdts, s.lastMq);
  }

  lemma ActiveWaits(recv: seq<Msg>, sent: seq<Msg>, sess: Sess, c2s: Mq, s2c: Mq)
    requires ActiveOk(recv, sent, sess) && |sent| > Agreed(recv, sent)
    ensures ActiveOk(recv, sent + [ToClientReq(c2s, s2c)], sess.(wait := OpenWait(|sent|, c2s, s2c)))
  {
  }

  lemma LogInOpen(s: Server, b: nat, op: SendOp)
    requires Inv(s) && LogInOk(s) && Enabled(s, DoOpen(b, op))
    ensures LogInOk(OpenStart(s, b, op).0) && |s.link.sent| > Agreed(s.link.recv, s.link.sent)
  {
    hide LogInOk, Inv;
    LoggedInFacts(s);
    LogInLater(s, s);
    LogInLater(s, OpenStart(s, b, op).0);
  }

  lemma WireOpen(s: Server, b: nat, op: SendOp)
    requires Inv(s) && Wire(s) && Enabled(s, DoOpen(b, op))
    ensures Wire(OpenStart(s, b, op).0)
  {
    hide LogInOk, Order, MqsOk, PassiveOk, ActiveOk, Inv;
    LogInOpen(s, b, op);
    if s.mdts[b].Ready? {
      var m := ToClientReq(s.mdts[b].c2s, s.mdts[b].s2c);
      MqsUsed(s.link.sent, s.mdts, s.lastMq, b);
      OrderSend(s.link, m);
      OrderDown(s.link);
      OrderHose(s.link, if op.SendOk? then UNEXPECTED else op.e);
      PassivePlain(s.sess.log, s.link.sent, m);
      PassiveIrrelevant(s.sess.log, s.link.sent, OnError(if op.SendOk? then UNEXPECTED else op.e));
      ActiveWaits(s.link.recv, s.link.sent, s.sess, m.c2s, m.s2c);
      var s' := OpenStart(s, b, op);
      if s'.1 != OpenWaits {
        ActivePlain(s.link.recv, s.link.sent, s.sess, s'.0.sess);
      }
    }
  }

  lemma LogInDestroy(s: Server)
    requires Inv(s) && LogInOk(s) && Enabled(s, DoDestroy)
    ensures LogInOk(Destroy(s))
  {
    hide Acked;
    if s.link.sent != [] && Succeeded(s) {
      ListsSame(s, Destroy(s));
    }
  }

  lemma WireDestroy(s: Server)
    requires Inv(s) && Wire(s) && Enabled(s, DoDestroy)
    ensures Wire(Destroy(s))
  {
    hide LogInOk, Order, MqsOk, PassiveOk, ActiveOk, Inv;
    LogInDestroy(s);
  }

  lemma WireStep(s: Server, t: Step)
    requires Inv(s) && Wire(s) && Enabled(s, t)
    ensures Wire(Next(s, t))
  {
    hide Inv, Wire, Deliver, RunTask, AckUnanswered, OpenUnanswered, InitHandlers, MdtBuilder, OpenStart, SendEnd, Destroy;
    match t
    case DoDeliver(m) => WireDeliver(s, m);
    case DoFail(e) => WireFail(s, e);
    case DoTask(ops) => WireTask(s, ops);
    case DoEndWait(end) =>
      if s.sess.wait.AckWait? { WireAckUnanswered(s, end); } else { WireOpenUnanswered(s, end); }
    case DoInitHandlers(pe, late) => WireInitHandlers(s, pe, late);
    case DoMdt(made) => WireMdt(s, made);
    case DoOpen(b, op) => WireOpen(s, b, op);
    case DoEnd(op) => WireSendEnd(s, op);
    case DoDestroy => WireDestroy(s);
  }

  lemma WireInitial(s: Server)
    requires Initial(s)
    ensures Wire(s)
  {
    hide Order, MqsOk;
    MqsNone(0);
    assert Chain(s.link) == [] by {
      NoRsps([]);
      assert OpenIds([StartTask]) == [];
    }
    EmptyChain(s.link);
  }

  lemma EmptyChain(l: Link)
    requires Chain(l) == []
    ensures Order(l)
  {
  }

  lemma {:induction false} WireInRuns(states: seq<Server>, steps: seq<Step>, i: nat)
    requires Run(states, steps) && i < |states|
    ensures Inv(states[i]) && Wire(states[i])
  {
    InvInRuns(states, steps, i);
    if i > 0 {
      WireInRuns(states, steps, i - 1);
      WireStep(states[i - 1], steps[i - 1]);
    } else {
      WireInitial(states[0]);
    }
  }

  // ----- What no step takes back -----

  /** Messages sent, and what the owner and the user were told, stay; a task receives nothing and leaves the user's
      containers alone. */
  ghost predicate Keeps(s: Server, s': Server) {
    && s.link.sent <= s'.link.sent && s'.link.recv == s.link.recv
    && s.login.dones <= s'.login.dones && s.sess.log <= s'.sess.log
    && s'.login.outCli == s.login.outCli && s'.login.outSrv == s.login.outSrv
    && s'.cfg == s.cfg
    && (s'.login.dones == s.login.dones
        || exists r :: s'.login.dones == s.login.dones + [Done(r, s.login.outCli, s.login.outSrv)])
  }

  lemma SendMessages(l: Link, m: Msg, op: SendOp)
    requires l.chan.Some?
    ensures var l' := Send(l, m, op).0; l'.chan.Some? && l.sent <= l'.sent && l'.recv == l.recv
  {
  }

  lemma OpenInitsKeeps(s: Server, nCli: nat, n: nat, run: InitRun)
    requires s.link.chan.Some? && n > 0
    ensures Keeps(s, OpenInits(s, nCli, n, run))
  {
    hide Send, InitMsgs, InitEnds, FailLogIn, Keeps;
    InitsKeep(s, n);
    assert Keeps(s, AwaitAck(s, nCli, n)) by { AwaitKeeps(s, nCli, n); }
    if !run.AllSent? {
      InitsKeep(s, run.k);
      if run.SendStops? {
        StopKeeps(s, run.k, run.op);
      }
    }
  }

  lemma InitsKeep(s: Server, k: nat)
    ensures Keeps(s, InitsSent(s, k)) && Keeps(s, FailLogIn(InitsSent(s, k), ResourceUnavailable))
  {
    hide InitMsgs;
  }

  lemma AwaitKeeps(s: Server, nCli: nat, n: nat)
    requires n > 0
    ensures Keeps(s, AwaitAck(s, nCli, n))
  {
    hide InitMsgs, InitEnds;
  }

  lemma StopKeeps(s: Server, k: nat, op: SendOp)
    requires s.link.chan.Some?
    ensures var (l, r) := Send(InitsSent(s, k).link, InitMsg(s.lastMq, k), op);
            var s2 := InitsSent(s, k).(link := l, lastMq := s.lastMq + k + 1);
            Keeps(s, s2) && (r.Failed? ==> Keeps(s, FailLogIn(s2, r.e)))
  {
    hide Send, InitMsgs;
    SendMessages(InitsSent(s, k).link, InitMsg(s.lastMq, k), op);
  }

  lemma RespondKeeps(s: Server, nCli: nat, nSrv: nat, ns: string, ops: LogInOps)
    requires s.link.chan.Some?
    ensures Keeps(s, Respond(s, nCli, nSrv, ns, ops))
  {
    hide OpenInits, Send;
    var m := LogInRsp(1, 1, ns, nSrv);
    SendMessages(s.link, m, ops.op);
    if nCli + nSrv > 0 {
      OpenInitsKeeps(s.(link := Send(s.link, m, ops.op).0), nCli, nCli + nSrv, ops.run);
    }
  }

  lemma LogInKeeps(s: Server, m: Msg, env: LogInEnv, ops: LogInOps)
    requires m.LogInReq?
    ensures Keeps(s, OnLogInReq(s, m, env, ops))
  {
    hide Respond, LogInReqError;
    if s.link.chan.Some? {
      var s1 := s.(login := if NsMade(s, m, env) then s.login.(ns := Some(env.ns)) else s.login);
      RespondKeeps(s1, m.nCli, if s.cfg.wantsSrv then env.nSrv else 0, env.ns, ops);
    }
  }

  lemma TaskKeeps(s: Server, ops: Ops)
    requires Enabled(s, DoTask(ops))
    ensures Keeps(s, RunTask(s, ops))
  {
    hide OnLogInReq, OnOpenReq;
    match s.link.queue[0]
    case LogInTask(_, m) => LogInKeeps(Popped(s), m, ops.env, ops.login);
    case OpenTask(id) => OpenReqKeeps(Popped(s), id, ops.made, ops.op);
    case _ =>
  }

  lemma OpenReqKeeps(s: Server, id: nat, made: bool, op: SendOp)
    ensures Keeps(s, OnOpenReq(s, id, made, op))
  {
    hide Answer, Keeps;
    if s.sess.hosed.None? && s.link.chan.Some? {
      var result := if !s.sess.passiveEnabled then RejectedPassiveOpen
                    else if made then Accepted else RejectedResourceUnavailable;
      AnswerKeeps(s, id, result, op);
      AnswerKeeps(s.(lastMq := s.lastMq + 1), id, result, op);
      KeepsMq(s, OnOpenReq(s, id, made, op));
    } else {
      assert Keeps(s, s) by { KeepsSame(s); }
    }
  }

  lemma AnswerKeeps(s: Server, id: nat, result: OpenResult, op: SendOp)
    requires s.link.chan.Some?
    ensures Keeps(s, Answer(s, id, result, op))
  {
    hide Send;
    SendMessages(s.link, ToServerRsp(id, result, Mq(s.lastMq, true), Mq(s.lastMq, false)), op);
  }

  lemma KeepsMq(s: Server, s': Server)
    ensures Keeps(s.(lastMq := s.lastMq + 1), s') ==> Keeps(s, s')
  {
  }

  lemma KeepsSame(s: Server)
    ensures Keeps(s, s)
  {
  }

  lemma AckWaitKeeps(s: Server, end: WaitEnd)
    ensures Keeps(s, AckUnanswered(s, end))
  {
  }

  lemma OpenWaitKeeps(s: Server, end: WaitEnd)
    ensures Keeps(s, OpenUnanswered(s, end))
  {
  }

  lemma OpenKeeps(s: Server, b: nat, op: SendOp)
    requires b < |s.mdts| && s.link.chan.Some?
    ensures Keeps(s, OpenStart(s, b, op).0)
  {
  }

  lemma StepKeeps(s: Server, t: Step)
    requires Enabled(s, t) && !t.DoDeliver?
    ensures Keeps(s, Next(s, t))
  {
    hide RunTask, ExpectOpens, AckUnanswered, OpenUnanswered, OpenStart;
    match t
    case DoTask(ops) => TaskKeeps(s, ops);
    case DoEndWait(end) => if s.sess.wait.AckWait? { AckWaitKeeps(s, end); } else { OpenWaitKeeps(s, end); }
    case DoOpen(b, op) => OpenKeeps(s, b, op);
    case DoInitHandlers(_, late) => ExpectKeeps(s.link, late);
    case _ =>
  }

  lemma ExpectKeeps(l: Link, late: Option<Error>)
    requires l.chan.Some?
    ensures var l' := ExpectOpens(l, late); l'.chan.Some? && l'.sent == l.sent && l'.recv == l.recv
  {
  }

  lemma DeliverKeeps(s: Server, m: Msg)
    requires Enabled(s, DoDeliver(m))
    ensures var s' := Deliver(s, m);
            && s'.link.sent == s.link.sent && s'.link.recv == s.link.recv + [m]
            && s.login.dones <= s'.login.dones && s.sess.log <= s'.sess.log
            && (s.sess.wait.AckWait? || s'.login == s.login)
            && (s'.login.dones == s.login.dones
                || s'.login.dones == s.login.dones + [Done(None, s'.login.outCli, s'.login.outSrv)])
            && (s'.login == s.login || !s.login.onDone || s'.login.dones != s.login.dones)
  {
  }

  lemma MessagesStep(s: Server, t: Step)
    requires Enabled(s, t)
    ensures var l' := Next(s, t).link;
            s.link.sent <= l'.sent && l'.recv == (if t.DoDeliver? then s.link.recv + [t.m] else s.link.recv)
  {
    hide Deliver;
    if t.DoDeliver? {
      DeliverKeeps(s, t.m);
    } else {
      hide Next;
      StepKeeps(s, t);
    }
  }
}
