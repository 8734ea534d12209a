/** The way back from a passive emission: a channel that one side emits, and whose acceptance reaches the other side while
    that still waits, is given to the user there, once, as the opposite end. */
module SessionOpens {
  import opened MasterChannel
  import opened SessionProtocol
  import CM = ClientModel
  import CR = ClientRuns
  import CC = ClientCancels
  import CO = ClientObserved
  import CW = ClientWire
  import CG = ClientGuarantees
  import SM = ServerModel
  import SR = ServerRuns
  import SW = ServerWire
  import SO = ServerObserved
  import SV = ServerGuarantees
  import SG = SessionGuarantees

  lemma GoodStep(w: World, t: Step)
    requires CO.Good(w.cli) && Enabled(w, t)
    ensures CO.Good(Next(w, t).cli)
  {
    hide CC.Any, CC.Fits, CR.Next, CR.Enabled, SR.Next, SR.Enabled;
    StepEnabled(w, t);
    if !t.ToServer? && !t.Srv? {
      CC.AnyStep(w.cli, CliStep(w, t));
      CC.FitsStep(w.cli, CliStep(w, t));
    }
  }

  lemma {:induction false} GoodInRuns(states: seq<World>, steps: seq<Step>, i: nat)
    requires Run(states, steps) && i < |states|
    ensures CO.Good(states[i].cli)
  {
    hide CC.Any, Next, Enabled;
    if i > 0 {
      GoodInRuns(states, steps, i - 1);
      GoodStep(states[i - 1], steps[i - 1]);
    } else {
      CC.AnyFresh(states[0].cli.cfg);
    }
  }

  lemma CliTold(w: World, t: Step)
    requires Enabled(w, t)
    ensures w.cli.sess.log <= Next(w, t).cli.sess.log
  {
    hide CR.Next, CR.Enabled, SR.Next, SR.Enabled;
    StepEnabled(w, t);
    if !t.ToServer? && !t.Srv? {
      CG.TokensGrow(w.cli, CliStep(w, t));
    }
  }

  lemma {:induction false} CliToldInRuns(states: seq<World>, steps: seq<Step>, i: nat, j: nat)
    requires Run(states, steps) && i <= j < |states|
    ensures states[i].cli.sess.log <= states[j].cli.sess.log
  {
    hide Next, Enabled;
    if i < j {
      CliToldInRuns(states, steps, i, j - 1);
      CliTold(states[j - 1], steps[j - 1]);
    }
  }

  lemma SrvTold(w: World, t: Step)
    requires Enabled(w, t) && !t.Connect?
    ensures w.srv.sess.log <= Next(w, t).srv.sess.log
  {
    hide CR.Next, CR.Enabled, SR.Next, SR.Enabled;
    StepEnabled(w, t);
    if t.ToServer? || t.Srv? {
      SV.ToldStep(w.srv, SrvStep(w, t));
    }
  }

  lemma {:induction false} SrvToldInRuns(states: seq<World>, steps: seq<Step>, i: nat, j: nat)
    requires Run(states, steps) && i <= j < |states| && forall k :: i <= k < j ==> !steps[k].Connect?
    ensures states[i].srv.sess.log <= states[j].srv.sess.log
  {
    hide Next, Enabled;
    if i < j {
      SrvToldInRuns(states, steps, i, j - 1);
      SrvTold(states[j - 1], steps[j - 1]);
    }
  }

  // ----- The client opens -----

  /** The server's acceptance of the request that the client waits for is the next message to the client. */
  ghost predicate AcceptanceDue(w: World, k: nat, c2s: Mq, s2c: Mq) {
    && |w.cli.link.recv| < |w.srv.link.sent| && w.srv.link.sent[|w.cli.link.recv|] == ToServerRsp(k, Accepted, c2s, s2c)
    && w.cli.sess.wait == Some(k)
  }

  lemma Delivered(w: World, k: nat, c2s: Mq, s2c: Mq)
    requires CO.Good(w.cli) && Enabled(w, ToClient) && AcceptanceDue(w, k, c2s, s2c)
    ensures Next(w, ToClient).cli.sess.log == w.cli.sess.log + [CM.ActiveOpen(k, Peer(c2s, s2c))]
    ensures Next(w, ToClient).cli.sess.wait == None
  {
    hide CC.LinkAny, CR.HandlersOnce, CC.Fits;
    NotPending(w.cli);
    CO.SeenDeliver(w.cli, w.srv.link.sent[|w.cli.link.recv|]);
  }

  lemma NotPending(c: CM.Client)
    requires CC.Any(c) && c.sess.wait.Some? && CM.Up(c.link)
    ensures !c.link.chan.value.loginPending
  {
    hide CR.HandlersOnce, CC.Formed, CC.LogInOnce, CC.InitsOk, CC.EndOk;
  }

  lemma OpenOnce(recv: seq<Msg>, sent: seq<Msg>, sess: CM.Sess, e: CM.Event)
    requires CW.ActiveOk(recv, sent, sess) && e in sess.log && e.ActiveOpen?
    ensures SG.OnceIn(e, sess.log) && forall d | d in sess.log && d.ActiveOpen? && d.id == e.id :: d == e
  {
    var i :| 0 <= i < |sess.log| && sess.log[i] == e;
    forall j | 0 <= j < |sess.log| && sess.log[j].ActiveOpen? && sess.log[j].id == e.id
      ensures j == i
    {
    }
  }

  /** The channel the server has emitted for a request of the client, whose acceptance arrives while the client waits, is
      given to the client's user: from then on it is there exactly once, for no other channel under that request, and is the
      opposite of the one emitted. */
  lemma {:induction false} AcceptedByServer(states: seq<World>, steps: seq<Step>, i: nat, j: nat, k: nat, c2s: Mq, s2c: Mq)
    requires Run(states, steps) && i < |steps| && steps[i].ToClient? && AcceptanceDue(states[i], k, c2s, s2c)
    requires i < j < |states|
    ensures SG.OnceIn(SM.PassiveOpen(k, Peer(s2c, c2s)), states[i].srv.sess.log)
    ensures SG.OnceIn(CM.ActiveOpen(k, Peer(c2s, s2c)), states[j].cli.sess.log)
    ensures forall d | d in states[j].cli.sess.log && d.ActiveOpen? && d.id == k :: d.peer == Peer(c2s, s2c)
  {
    hide CO.Good, Inv, SG.OnceIn;
    GoodInRuns(states, steps, i);
    Delivered(states[i], k, c2s, s2c);
    CliToldInRuns(states, steps, i + 1, j);
    InvInRuns(states, steps, i);
    InvInRuns(states, steps, j);
    assert CM.ActiveOpen(k, Peer(c2s, s2c)) in states[i + 1].cli.sess.log;
    CliOnce(states[j], CM.ActiveOpen(k, Peer(c2s, s2c)));
    SrvEmitted(states[i], k, c2s, s2c);
  }

  lemma CliOnce(w: World, e: CM.Event)
    requires Inv(w) && e in w.cli.sess.log && e.ActiveOpen?
    ensures SG.OnceIn(e, w.cli.sess.log) && forall d | d in w.cli.sess.log && d.ActiveOpen? && d.id == e.id :: d == e
  {
    hide CR.Inv, SR.Inv, CW.LogInOk, CW.ChainOk, CW.PassiveOk, SW.Wire, Joined, SG.OnceIn;
    OpenOnce(w.cli.link.recv, w.cli.link.sent, w.cli.sess, e);
  }

  lemma SrvEmitted(w: World, k: nat, c2s: Mq, s2c: Mq)
    requires Inv(w) && ToServerRsp(k, Accepted, c2s, s2c) in w.srv.link.sent
    ensures SG.OnceIn(SM.PassiveOpen(k, Peer(s2c, c2s)), w.srv.sess.log)
  {
    hide CR.Inv, SR.Inv, CW.Wire, SW.LogInOk, SW.Order, SW.MqsOk, SW.ActiveOk, Joined, SG.OnceIn;
    SG.SrvPassiveOnce(w.srv.sess.log, SM.PassiveOpen(k, Peer(s2c, c2s)));
  }

  // ----- The server opens -----

  /** The client's acceptance of the request that the server waits for is the next message to the server. */
  ghost predicate AcceptanceDueToServer(w: World, k: nat, c2s: Mq, s2c: Mq) {
    && |w.srv.link.recv| < |w.cli.link.sent| && w.cli.link.sent[|w.srv.link.recv|] == ToClientRsp(k, Accepted)
    && w.srv.sess.wait == SM.OpenWait(k, c2s, s2c)
  }

  lemma DeliveredToServer(w: World, k: nat, c2s: Mq, s2c: Mq)
    requires Inv(w) && Enabled(w, ToServer) && AcceptanceDueToServer(w, k, c2s, s2c)
    ensures Next(w, ToServer).srv.sess.log == w.srv.sess.log + [SM.ActiveOpen(k, Peer(s2c, c2s))]
    ensures Next(w, ToServer).srv.sess.wait == SM.NoWait
  {
    hide CR.Inv, CW.Wire, SW.Wire, Joined;
    SrvNotPending(w.srv);
    hide SR.Inv;
    SO.SeenDeliver(w.srv, w.cli.link.sent[|w.srv.link.recv|]);
  }

  lemma SrvNotPending(s: SM.Server)
    requires SR.Inv(s) && s.sess.wait.OpenWait? && SM.Up(s.link) && !s.dead
    ensures !s.link.chan.value.loginPending
  {
  }

  lemma SrvOpenOnce(recv: seq<Msg>, sent: seq<Msg>, sess: SM.Sess, e: SM.Event)
    requires SW.ActiveOk(recv, sent, sess) && e in sess.log && e.ActiveOpen?
    ensures SG.OnceIn(e, sess.log) && forall d | d in sess.log && d.ActiveOpen? && d.id == e.id :: d == e
  {
    var i :| 0 <= i < |sess.log| && sess.log[i] == e;
    forall j | 0 <= j < |sess.log| && sess.log[j].ActiveOpen? && sess.log[j].id == e.id
      ensures j == i
    {
    }
  }

  lemma SrvOnce(w: World, e: SM.Event)
    requires Inv(w) && e in w.srv.sess.log && e.ActiveOpen?
    ensures SG.OnceIn(e, w.srv.sess.log) && forall d | d in w.srv.sess.log && d.ActiveOpen? && d.id == e.id :: d == e
  {
    hide CR.Inv, SR.Inv, CW.Wire, SW.LogInOk, SW.Order, SW.MqsOk, SW.PassiveOk, Joined, SG.OnceIn;
    SrvOpenOnce(w.srv.link.recv, w.srv.link.sent, w.srv.sess, e);
  }

  /** The other way about, as long as the server session is the client's. */
  lemma {:induction false} AcceptedByClient(states: seq<World>, steps: seq<Step>, i: nat, j: nat, k: nat, c2s: Mq, s2c: Mq)
    requires Run(states, steps) && i < |steps| && steps[i].ToServer? && AcceptanceDueToServer(states[i], k, c2s, s2c)
    requires i < j < |states| && forall l :: i < l < j ==> !steps[l].Connect?
    ensures SG.OnceIn(CM.PassiveOpen(k, Peer(c2s, s2c)), states[i + 1].cli.sess.log)
    ensures SG.OnceIn(SM.ActiveOpen(k, Peer(s2c, c2s)), states[j].srv.sess.log)
    ensures forall d | d in states[j].srv.sess.log && d.ActiveOpen? && d.id == k :: d.peer == Peer(s2c, c2s)
  {
    hide Inv, SG.OnceIn;
    InvInRuns(states, steps, i);
    DeliveredToServer(states[i], k, c2s, s2c);
    SrvToldInRuns(states, steps, i + 1, j);
    InvInRuns(states, steps, j);
    assert SM.ActiveOpen(k, Peer(s2c, c2s)) in states[i + 1].srv.sess.log;
    SrvOnce(states[j], SM.ActiveOpen(k, Peer(s2c, c2s)));
    SG.OpensMatched(states, steps, i + 1);
  }
}
