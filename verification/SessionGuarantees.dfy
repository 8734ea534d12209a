/** What the two sides can count on in every run: the log-in, the init-channels, and every channel opened later. */
module SessionGuarantees {
  import opened MasterChannel
  import CM = ClientModel
  import CR = ClientRuns
  import CW = ClientWire
  import CI = ClientInits
  import SM = ServerModel
  import SR = ServerRuns
  import SW = ServerWire
  import opened SessionProtocol

  /** The client is in PEER state, and the server session was logged in. */
  ghost predicate BothIn(w: World) {
    w.cli.conn.state == CM.InPeer && SW.Succeeded(w.srv)
  }

  function CliDone(w: World): CM.Done
    requires w.cli.conn.dones != []
  {
    w.cli.conn.dones[|w.cli.conn.dones| - 1]
  }

  /** Opposite ends, position by position. */
  ghost predicate Matched(a: seq<Peer>, b: seq<Peer>) {
    |a| == |b| && forall i :: 0 <= i < |a| ==> Opposite(a[i], b[i])
  }

  ghost function Count(w: World): nat {
    Agreed(w.cli.link.sent, w.cli.link.recv)
  }

  // ----- Init-channels -----

  /** An init-channel task of the client is about one of the agreed init-channels, never about a channel the server
      opened later; the two assertions that rely on this never fail. */
  lemma {:induction false} InitHandlerSeesInitsOnly(states: seq<World>, steps: seq<Step>, i: nat)
    requires Run(states, steps) && i < |states|
    ensures var w := states[i];
            && w.cli.faults !! {CM.InitOutOfState, CM.InitOverflow}
            && forall k :: 0 <= k < |w.cli.link.queue| && w.cli.link.queue[k].InitTask? ==>
                 var t := w.cli.link.queue[k];
                 && w.cli.conn.state == CM.Connecting && t.n == Count(w)
                 && 1 <= t.req.id <= Count(w) && t.req.msg == SM.InitMsg(0, t.req.id - 1)
  {
    hide Run;
    InvInRuns(states, steps, i);
    InitTasks(states[i]);
  }

  lemma InitTasks(w: World)
    requires Inv(w)
    ensures w.cli.faults !! {CM.InitOutOfState, CM.InitOverflow}
    ensures forall k :: 0 <= k < |w.cli.link.queue| && w.cli.link.queue[k].InitTask? ==>
                 var t := w.cli.link.queue[k];
                 && w.cli.conn.state == CM.Connecting && t.n == Count(w)
                 && 1 <= t.req.id <= Count(w) && t.req.msg == SM.InitMsg(0, t.req.id - 1)
  {
    hide CR.Inv, SR.Inv, CW.OpensOk, SW.OpensOk;
    var l := w.cli.link;
    forall k | 0 <= k < |l.queue| && l.queue[k].InitTask?
      ensures var t := l.queue[k];
              && w.cli.conn.state == CM.Connecting && t.n == Count(w)
              && 1 <= t.req.id <= Count(w) && t.req.msg == SM.InitMsg(0, t.req.id - 1)
    {
      InitReqIn(l.queue, k);
      PromiseHolds(w);
      SameCount(w);
    }
  }

  lemma {:induction false} InitReqIn(q: seq<CM.Task>, k: nat)
    requires k < |q| && q[k].InitTask?
    ensures q[k].req in CI.InitReqs(q)
  {
    if k > 0 {
      InitReqIn(q[1..], k - 1);
    }
  }

  /** When the client has the last init-channel, everything the server has sent has arrived, and nothing more is sent
      before the acknowledgement: no message meets the client between the removal of one handler and the acknowledgement
      that follows the other. */
  lemma {:induction false} NothingBeforeAck(states: seq<World>, steps: seq<Step>, i: nat)
    requires Run(states, steps) && i < |states|
    requires states[i].cli.link.queue != [] && states[i].cli.link.queue[0].InitTask?
    requires |states[i].cli.init| + 1 == states[i].cli.link.queue[0].n
    ensures var w := states[i];
            && w.srv.link.sent == w.cli.link.recv && |w.cli.link.sent| == 1
            && !Enabled(w, ToClient)
            && forall t :: Enabled(w, t) && (t.Srv? || t.ToServer?) ==> Next(w, t).srv.link.sent == w.srv.link.sent
  {
    hide Run, Next, Enabled;
    InvInRuns(states, steps, i);
    var w := states[i];
    AllArrived(w);
    forall t | Enabled(w, t) && (t.Srv? || t.ToServer?)
      ensures Next(w, t).srv.link.sent == w.srv.link.sent
    {
      InvStep(w, t);
      SameClient(w, t);
      AllArrived(Next(w, t));
    }
  }

  lemma SameClient(w: World, t: Step)
    requires Enabled(w, t) && (t.Srv? || t.ToServer?)
    ensures Next(w, t).cli == w.cli
  {
    hide SR.Next;
  }

  lemma AllArrived(w: World)
    requires Inv(w) && w.cli.link.queue != [] && w.cli.link.queue[0].InitTask?
    requires |w.cli.init| + 1 == w.cli.link.queue[0].n
    ensures w.srv.link.sent == w.cli.link.recv && |w.cli.link.sent| == 1 && !Enabled(w, ToClient)
  {
    hide CR.Inv, SR.Inv, CW.OpensOk, SW.OpensOk, CI.Collect, CI.WindowOk, CI.TasksOk;
    PromiseHolds(w);
    var t := w.cli.link.queue[0];
    assert t.req.msg.ToClientReq? by { InitTaskFormed(w.cli); }
    CI.InitFacts(w.cli, t.chan, t.n, t.req);
    SameCount(w);
  }

  lemma InitTaskFormed(c: CM.Client)
    requires CR.Inv(c) && c.link.queue != [] && c.link.queue[0].InitTask?
    ensures c.link.queue[0].req.msg.ToClientReq?
  {
  }

  /** With init-channels to open, the server's log-in is complete only after the client has switched handlers. */
  lemma {:induction false} ServerLastWithInits(states: seq<World>, steps: seq<Step>, i: nat)
    requires Run(states, steps) && i < |states|
    requires SW.Succeeded(states[i].srv) && Agreed(states[i].srv.link.recv, states[i].srv.link.sent) > 0
    ensures var c := states[i].cli;
            && c.conn.state == CM.InPeer && c.link.chan.Some?
            && (CM.Up(c.link) ==> c.link.chan.value.handler == CM.OpenHandler)
  {
    hide Run;
    InvInRuns(states, steps, i);
    AckMeansPeer(states[i]);
    PeerHandler(states[i].cli);
  }

  lemma PeerHandler(c: CM.Client)
    requires CR.Inv(c) && c.conn.state == CM.InPeer
    ensures c.link.chan.Some? && (CM.Up(c.link) ==> c.link.chan.value.handler == CM.OpenHandler)
  {
  }

  lemma AckMeansPeer(w: World)
    requires Inv(w) && SW.Succeeded(w.srv) && Agreed(w.srv.link.recv, w.srv.link.sent) > 0
    ensures w.cli.conn.state == CM.InPeer
  {
    hide CR.Inv, SR.Inv, CW.OpensOk, SW.OpensOk;
  }

  /** When both are logged in with init-channels, the two sides hold opposite ends at each position of both lists. */
  lemma {:induction false} InitChannelsMatch(states: seq<World>, steps: seq<Step>, i: nat)
    requires Run(states, steps) && i < |states|
    requires BothIn(states[i]) && Count(states[i]) > 0
    ensures var w := states[i];
            var nCli := match w.cli.args.nCli case Some(k) => k case None => 0;   // the size of the container passed
            && w.cli.conn.dones != [] && CliDone(w).result.None?
            && |CliDone(w).byCli| == nCli && |CliDone(w).bySrv| == Count(w) - nCli
            && (w.srv.cfg.wantsCli ==> Matched(CliDone(w).byCli, w.srv.login.dones[0].byCli))
            && (w.srv.cfg.wantsSrv ==> Matched(CliDone(w).bySrv, w.srv.login.dones[0].bySrv))
            && (!w.srv.cfg.wantsCli ==> nCli == 0) && (!w.srv.cfg.wantsSrv ==> nCli == Count(w))
  {
    hide Run;
    InvInRuns(states, steps, i);
    ListsMatch(states[i]);
  }

  lemma ListsMatch(w: World)
    requires Inv(w) && BothIn(w) && Count(w) > 0
    ensures var nCli := CM.NCli(w.cli.args);
            && w.cli.conn.dones != [] && CliDone(w).result.None?
            && |CliDone(w).byCli| == nCli && |CliDone(w).bySrv| == Count(w) - nCli
            && (w.srv.cfg.wantsCli ==> Matched(CliDone(w).byCli, w.srv.login.dones[0].byCli))
            && (w.srv.cfg.wantsSrv ==> Matched(CliDone(w).bySrv, w.srv.login.dones[0].bySrv))
            && (!w.srv.cfg.wantsCli ==> nCli == 0) && (!w.srv.cfg.wantsSrv ==> nCli == Count(w))
  {
    hide Inv, SM.InitEnd, Opposite, BothIn;
    var n, nCli := Count(w), CM.NCli(w.cli.args);
    CliLists(w);
    SrvLists(w);
    EndsOpposite(w);
  }

  lemma CliLists(w: World)
    requires Inv(w) && BothIn(w) && Count(w) > 0
    ensures var nCli := CM.NCli(w.cli.args);
            && w.cli.conn.dones != [] && CliDone(w).result.None? && nCli <= Count(w) == |w.cli.init|
            && CliDone(w).byCli == w.cli.init[..nCli]
            && |CliDone(w).bySrv| == Count(w) - nCli
            && (nCli < Count(w) ==> CliDone(w).bySrv == w.cli.init[nCli..])
  {
    hide SR.Inv, CR.Inv, CW.OpensOk, SW.OpensOk;
    SameCount(w);
  }

  lemma SrvLists(w: World)
    requires Inv(w) && BothIn(w) && Count(w) > 0 && CM.NCli(w.cli.args) <= Count(w)
    ensures var nCli, n := CM.NCli(w.cli.args), Count(w);
            && w.srv.login.dones != []
            && (w.srv.cfg.wantsCli ==> w.srv.login.dones[0].byCli == SM.InitEnds(0, n)[..nCli])
            && (w.srv.cfg.wantsSrv ==> w.srv.login.dones[0].bySrv == SM.InitEnds(0, n)[nCli..])
            && (!w.srv.cfg.wantsCli ==> nCli == 0) && (!w.srv.cfg.wantsSrv ==> nCli == n)
  {
    hide SR.Inv, CR.Inv, CW.OpensOk, SW.OpensOk, CI.Collect;
    SameCount(w);
  }

  lemma EndsOpposite(w: World)
    requires Inv(w) && BothIn(w) && Count(w) > 0
    ensures |w.cli.init| == Count(w)
    ensures forall j :: 0 <= j < Count(w) ==> Opposite(w.cli.init[j], SM.InitEnd(0, j))
  {
    hide CR.Inv, SR.Inv, CW.OpensOk, SW.OpensOk;
    SameCount(w);
    forall j | 0 <= j < Count(w)
      ensures Opposite(w.cli.init[j], SM.InitEnd(0, j))
    {
      assert w.cli.link.recv[j + 1] == w.srv.link.sent[j + 1] == SM.InitMsg(0, j);
    }
  }

  /** A client in PEER state holds the namespace that its own server session made for it. */
  lemma {:induction false} SameNamespace(states: seq<World>, steps: seq<Step>, i: nat)
    requires Run(states, steps) && i < |states| && states[i].cli.conn.state == CM.InPeer
    ensures states[i].cli.cliNs.Some? && states[i].cli.cliNs == states[i].srv.login.ns
  {
    hide Run;
    InvInRuns(states, steps, i);
    NamesMatch(states[i]);
  }

  lemma NamesMatch(w: World)
    requires Inv(w) && w.cli.conn.state == CM.InPeer
    ensures w.cli.cliNs.Some? && w.cli.cliNs == w.srv.login.ns
  {
    hide CR.Inv, SR.Inv, CW.OpensOk, SW.OpensOk;
    SameCount(w);
  }

  // ----- Channels opened later -----

  ghost predicate OnceIn<T(!new)>(e: T, log: seq<T>) {
    exists i :: 0 <= i < |log| && log[i] == e && forall j :: 0 <= j < |log| && log[j] == e ==> j == i
  }

  /** An active open that succeeded on the server was emitted passively by the client: the opposite end, exactly once,
      and for no other channel under the same request. */
  ghost predicate ServerOpensMatched(w: World) {
    forall e | e in w.srv.sess.log && e.ActiveOpen? ::
      && OnceIn(CM.PassiveOpen(e.id, Peer(e.peer.rx, e.peer.tx)), w.cli.sess.log)
      && forall d | d in w.cli.sess.log && d.PassiveOpen? && d.id == e.id :: Opposite(d.peer, e.peer)
  }

  ghost predicate ClientOpensMatched(w: World) {
    forall e | e in w.cli.sess.log && e.ActiveOpen? ::
      && OnceIn(SM.PassiveOpen(e.id, Peer(e.peer.rx, e.peer.tx)), w.srv.sess.log)
      && forall d | d in w.srv.sess.log && d.PassiveOpen? && d.id == e.id :: Opposite(d.peer, e.peer)
  }

  lemma {:induction false} OpensMatched(states: seq<World>, steps: seq<Step>, i: nat)
    requires Run(states, steps) && i < |states|
    ensures ServerOpensMatched(states[i]) && ClientOpensMatched(states[i])
  {
    hide Run;
    InvInRuns(states, steps, i);
    ServerOpens(states[i]);
    ClientOpens(states[i]);
  }

  lemma PassiveOnce(log: seq<CM.Event>, e: CM.Event)
    requires forall i, j :: 0 <= i < j < |log| && log[i].PassiveOpen? && log[j].PassiveOpen? ==> log[i].id < log[j].id
    requires e in log && e.PassiveOpen?
    ensures OnceIn(e, log)
    ensures forall d | d in log && d.PassiveOpen? && d.id == e.id :: d == e
  {
    var i :| 0 <= i < |log| && log[i] == e;
    forall j | 0 <= j < |log| && log[j].PassiveOpen? && log[j].id == e.id
      ensures j == i
    {
    }
  }

  lemma SrvPassiveOnce(log: seq<SM.Event>, e: SM.Event)
    requires forall i, j :: 0 <= i < j < |log| && log[i].PassiveOpen? && log[j].PassiveOpen? ==> log[i].id < log[j].id
    requires e in log && e.PassiveOpen?
    ensures OnceIn(e, log)
    ensures forall d | d in log && d.PassiveOpen? && d.id == e.id :: d == e
  {
    var i :| 0 <= i < |log| && log[i] == e;
    forall j | 0 <= j < |log| && log[j].PassiveOpen? && log[j].id == e.id
      ensures j == i
    {
    }
  }

  /** The acknowledgement is about the last init-channel; an answer to anything else is a later message. */
  lemma AnswerIsLater(w: World, id: nat)
    requires Inv(w) && ToClientRsp(id, Accepted) in w.srv.link.recv && w.srv.link.sent != []
    requires id > Agreed(w.srv.link.recv, w.srv.link.sent)
    ensures ToClientRsp(id, Accepted) in CW.Later(Count(w), w.cli.link.sent)
    ensures w.cli.link.recv <= w.srv.link.sent
  {
    hide CR.Inv, SR.Inv, CW.OpensOk, SW.OpensOk;
    var sent := w.cli.link.sent;
    var j :| 0 <= j < |w.srv.link.recv| && w.srv.link.recv[j] == ToClientRsp(id, Accepted);
    assert sent[j] == ToClientRsp(id, Accepted);
    assert w.cli.conn.state == CM.InPeer && j >= 1;
    SameCount(w);
    var k := if Count(w) > 0 then 2 else 1;
    assert j >= k;
    assert sent[k..][j - k] == sent[j];
  }

  lemma ServerOpens(w: World)
    requires Inv(w)
    ensures ServerOpensMatched(w)
  {
    hide CR.Inv, SR.Inv, CW.LogInOk, CW.ChainOk, CW.ActiveOk, SW.LogInOk, SW.Order, SW.MqsOk, SW.PassiveOk, CW.PassiveOk,
         CI.Collect, CW.Later, OnceIn;
    var log := w.srv.sess.log;
    forall e | e in log && e.ActiveOpen?
      ensures OnceIn(CM.PassiveOpen(e.id, Peer(e.peer.rx, e.peer.tx)), w.cli.sess.log)
      ensures forall d | d in w.cli.sess.log && d.PassiveOpen? && d.id == e.id :: Opposite(d.peer, e.peer)
    {
      AnswerIsLater(w, e.id);
      PassiveOpened(w.cli.sess.log, CW.Later(Count(w), w.cli.link.sent), w.cli.link.recv, e.id);
      var d := CM.PassiveOpen(e.id, ClientPeer(e.peer.rx, e.peer.tx));
      PassiveOnce(w.cli.sess.log, d);
    }
  }

  lemma PassiveOpened(log: seq<CM.Event>, later: seq<Msg>, recv: seq<Msg>, id: nat)
    requires CW.PassiveOk(log, later, recv) && ToClientRsp(id, Accepted) in later
    ensures id < |recv| && recv[id].ToClientReq? && CM.PassiveOpen(id, ClientPeer(recv[id].c2s, recv[id].s2c)) in log
    ensures forall i, j :: 0 <= i < j < |log| && log[i].PassiveOpen? && log[j].PassiveOpen? ==> log[i].id < log[j].id
  {
  }

  lemma ClientOpens(w: World)
    requires Inv(w)
    ensures ClientOpensMatched(w)
  {
    hide CR.Inv, SR.Inv, CW.LogInOk, CW.ChainOk, SW.LogInOk, SW.Order, SW.MqsOk, SW.ActiveOk, CW.PassiveOk,
         CI.Collect, CW.Later, OnceIn;
    var log := w.cli.sess.log;
    forall e | e in log && e.ActiveOpen?
      ensures OnceIn(SM.PassiveOpen(e.id, Peer(e.peer.rx, e.peer.tx)), w.srv.sess.log)
      ensures forall d | d in w.srv.sess.log && d.PassiveOpen? && d.id == e.id :: Opposite(d.peer, e.peer)
    {
      var m := ToServerRsp(e.id, Accepted, e.peer.tx, e.peer.rx);
      assert m in w.cli.link.recv;
      assert m in w.srv.link.sent;
      SrvPassiveOnce(w.srv.sess.log, SM.PassiveOpen(e.id, ServerPeer(m.c2s, m.s2c)));
    }
  }

  // ----- Rejected opens -----

  lemma {:induction false} AnsweredOnce(sent: seq<Msg>, i: nat, j: nat)
    requires i < j < |sent| && sent[i].ToClientRsp? && sent[j].ToClientRsp? && Increasing(CW.Answered(sent))
    ensures sent[i].to < sent[j].to
  {
    var a := CW.Answered(sent[..|sent| - 1]);
    assert forall x, y :: 0 <= x < y < |a| ==> a[x] == CW.Answered(sent)[x] && a[y] == CW.Answered(sent)[y];
    if j < |sent| - 1 {
      AnsweredOnce(sent[..|sent| - 1], i, j);
    } else {
      CW.AnsweredIn(sent[..j], sent[i]);
      var k :| 0 <= k < |a| && a[k] == sent[i].to;
      assert CW.Answered(sent)[k] == sent[i].to && CW.Answered(sent)[|a|] == sent[j].to;
    }
  }

  /** An open the client rejected yields no channel on either side. */
  lemma {:induction false} RejectedYieldsNone(states: seq<World>, steps: seq<Step>, i: nat, id: nat, r: OpenResult)
    requires Run(states, steps) && i < |states| && r != Accepted
    requires ToClientRsp(id, r) in states[i].cli.link.sent
    ensures forall e | e in states[i].cli.sess.log && e.PassiveOpen? :: e.id != id
    ensures forall e | e in states[i].srv.sess.log && e.ActiveOpen? :: e.id != id
  {
    hide Run;
    InvInRuns(states, steps, i);
    Rejected(states[i], id, r);
  }

  lemma Rejected(w: World, id: nat, r: OpenResult)
    requires Inv(w) && r != Accepted && ToClientRsp(id, r) in w.cli.link.sent
    ensures forall e | e in w.cli.sess.log && e.PassiveOpen? :: e.id != id
    ensures forall e | e in w.srv.sess.log && e.ActiveOpen? :: e.id != id
  {
    hide CR.Inv, SR.Inv, CW.LogInOk, SW.LogInOk, SW.Order, SW.MqsOk, SW.PassiveOk, CI.Collect, CW.Held;
    var sent := w.cli.link.sent;
    AnswersIncrease(w.cli.link);
    if ToClientRsp(id, Accepted) in sent {
      var i :| 0 <= i < |sent| && sent[i] == ToClientRsp(id, r);
      var j :| 0 <= j < |sent| && sent[j] == ToClientRsp(id, Accepted);
      if i < j { AnsweredOnce(sent, i, j); } else { AnsweredOnce(sent, j, i); }
      assert false;
    }
    assert forall m | m in w.srv.link.recv :: m in sent;
  }

  lemma AnswersIncrease(l: CM.Link)
    requires CW.Order(l)
    ensures Increasing(CW.Answered(l.sent))
  {
    var a := CW.Answered(l.sent);
    assert forall i :: 0 <= i < |a| ==> CW.Chain(l)[i] == a[i];
  }

  lemma {:induction false} SrvAnsweredOnce(sent: seq<Msg>, i: nat, j: nat)
    requires i < j < |sent| && sent[i].ToServerRsp? && sent[j].ToServerRsp? && Increasing(SW.RspIds(sent))
    ensures sent[i].to < sent[j].to
  {
    var a := SW.RspIds(sent[..|sent| - 1]);
    assert forall x, y :: 0 <= x < y < |a| ==> a[x] == SW.RspIds(sent)[x] && a[y] == SW.RspIds(sent)[y];
    if j < |sent| - 1 {
      SrvAnsweredOnce(sent[..|sent| - 1], i, j);
    } else {
      SW.RspIn(sent[..j], sent[i]);
      var k :| 0 <= k < |a| && a[k] == sent[i].to;
      assert SW.RspIds(sent)[k] == sent[i].to && SW.RspIds(sent)[|a|] == sent[j].to;
    }
  }

  /** An open the server rejected, or had no resources for, yields no channel on either side. */
  lemma {:induction false} SrvRejectedYieldsNone(states: seq<World>, steps: seq<Step>, i: nat, m: Msg)
    requires Run(states, steps) && i < |states|
    requires m in states[i].srv.link.sent && m.ToServerRsp? && m.result != Accepted
    ensures forall e | e in states[i].srv.sess.log && e.PassiveOpen? :: e.id != m.to
    ensures forall e | e in states[i].cli.sess.log && e.ActiveOpen? :: e.id != m.to
  {
    hide Run;
    InvInRuns(states, steps, i);
    SrvRejected(states[i], m);
  }

  lemma SrvRejected(w: World, m: Msg)
    requires Inv(w) && m in w.srv.link.sent && m.ToServerRsp? && m.result != Accepted
    ensures forall e | e in w.srv.sess.log && e.PassiveOpen? :: e.id != m.to
    ensures forall e | e in w.cli.sess.log && e.ActiveOpen? :: e.id != m.to
  {
    hide CR.Inv, SR.Inv, CW.LogInOk, SW.LogInOk, CW.ChainOk, SW.MqsOk, CW.PassiveOk, CI.Collect;
    var sent := w.srv.link.sent;
    SrvAnswersIncrease(w.srv.link);
    forall d | d in sent && d.ToServerRsp? && d.to == m.to
      ensures d == m
    {
      var i :| 0 <= i < |sent| && sent[i] == m;
      var j :| 0 <= j < |sent| && sent[j] == d;
      if i < j { SrvAnsweredOnce(sent, i, j); } else if j < i { SrvAnsweredOnce(sent, j, i); }
    }
    assert forall d | d in w.cli.link.recv :: d in sent;
  }

  lemma SrvAnswersIncrease(l: SM.Link)
    requires SW.Order(l)
    ensures Increasing(SW.RspIds(l.sent))
  {
    var a := SW.RspIds(l.sent);
    assert forall i :: 0 <= i < |a| ==> SW.Chain(l)[i] == a[i];
  }

  // ----- Pipes -----

  /** No pipe belongs to two channels of a server session: neither two opened later, nor one opened later and an
      init-channel. */
  lemma {:induction false} NoPipeShared(states: seq<SM.Server>, steps: seq<SR.Step>, i: nat, d: SM.Event, e: SM.Event)
    requires SR.Run(states, steps) && i < |states|
    requires d in states[i].sess.log && e in states[i].sess.log && !d.OnError? && !e.OnError? && d != e
    ensures d.peer.tx.id != e.peer.tx.id
    ensures d.peer == ServerPeer(Mq(d.peer.tx.id, true), Mq(d.peer.tx.id, false))
    ensures d.peer.tx.id > Agreed(states[i].link.recv, states[i].link.sent)
  {
    hide SR.Run;
    SW.WireInRuns(states, steps, i);
    PipesDistinct(states[i], d, e);
  }

  /** The message that handed over the pipes of an opened channel. */
  lemma Handed(s: SM.Server, e: SM.Event) returns (k: nat)
    requires SW.Wire(s) && e in s.sess.log && !e.OnError?
    ensures k < |s.link.sent| && SW.Carries(s.link.sent[k])
    ensures s.link.sent[k].c2s == e.peer.rx && s.link.sent[k].s2c == e.peer.tx
    ensures e.ActiveOpen? ==> k == e.id && s.link.sent[k].ToClientReq?
    ensures e.PassiveOpen? ==> s.link.sent[k] == ToServerRsp(e.id, Accepted, e.peer.rx, e.peer.tx)
  {
    hide SW.LogInOk, SW.Order, SW.MqsOk;
    if e.ActiveOpen? {
      k := e.id;
    } else {
      var j :| 0 <= j < |s.link.sent| && s.link.sent[j] == ToServerRsp(e.id, Accepted, e.peer.rx, e.peer.tx);
      k := j;
    }
  }

  lemma PipesDistinct(s: SM.Server, d: SM.Event, e: SM.Event)
    requires SW.Wire(s) && d in s.sess.log && e in s.sess.log && !d.OnError? && !e.OnError? && d != e
    ensures d.peer.tx.id != e.peer.tx.id
    ensures d.peer == ServerPeer(Mq(d.peer.tx.id, true), Mq(d.peer.tx.id, false))
    ensures d.peer.tx.id > Agreed(s.link.recv, s.link.sent)
  {
    hide SW.Order, SW.PassiveOk, SW.After;
    var j := Handed(s, d);
    var k := Handed(s, e);
    var n := Agreed(s.link.recv, s.link.sent);
    var id := d.peer.tx.id;
    assert n < |s.link.sent|;
    assert 1 <= id <= n ==> s.link.sent[id] == SM.InitMsg(0, id - 1) && j != id;
  }
}
