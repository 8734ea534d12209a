/** The client object and the server sessions it talks to, joined by a reliable channel in each direction: what one side
    receives is what the other side sent, in order.  Each connect attempt that reaches a server meets a new server
    session; there is no bound on the number of attempts. */
module SessionProtocol {
  import opened MasterChannel
  import CM = ClientModel
  import CR = ClientRuns
  import CW = ClientWire
  import CI = ClientInits
  import SM = ServerModel
  import SR = ServerRuns
  import SW = ServerWire

  datatype World = World(cli: CM.Client, srv: SM.Server)

  datatype Step =
    | Connect(args: CM.Args, run: CM.ConnectRun, accepting: SM.Server)
    | ToClient
    | ToServer
    | Cli(c: CR.Step)
    | Srv(s: SR.Step)

  ghost predicate Enabled(w: World, t: Step) {
    match t
    case Connect(args, run, accepting) => CR.Enabled(w.cli, CR.DoConnect(args, run)) && SR.Initial(accepting)
    case ToClient => CM.Up(w.cli.link) && |w.cli.link.recv| < |w.srv.link.sent|
    case ToServer => SM.Up(w.srv.link) && !w.srv.dead && |w.srv.link.recv| < |w.cli.link.sent|
    case Cli(c) => CR.Enabled(w.cli, c) && CR.Vanilla(c) && !c.DoConnect? && !c.DoDeliver?
    case Srv(s) => SR.Enabled(w.srv, s) && !s.DoDeliver?
  }

  ghost function CliStep(w: World, t: Step): CR.Step
    requires Enabled(w, t) && !t.ToServer? && !t.Srv?
  {
    match t
    case Connect(args, run, _) => CR.DoConnect(args, run)
    case ToClient => CR.DoDeliver(w.srv.link.sent[|w.cli.link.recv|])
    case Cli(c) => c
  }

  ghost function SrvStep(w: World, t: Step): SR.Step
    requires Enabled(w, t) && (t.ToServer? || t.Srv?)
  {
    match t
    case ToServer => SR.DoDeliver(w.cli.link.sent[|w.srv.link.recv|])
    case Srv(s) => s
  }

  ghost function Next(w: World, t: Step): World
    requires Enabled(w, t)
  {
    if t.ToServer? || t.Srv? then w.(srv := SR.Next(w.srv, SrvStep(w, t)))
    else
      var w1 := w.(cli := CR.Next(w.cli, CliStep(w, t)));
      if t.Connect? && t.run.Requested? && w.cli.conn.state == CM.Null then w1.(srv := t.accepting) else w1
  }

  ghost predicate Run(states: seq<World>, steps: seq<Step>) {
    && |states| == |steps| + 1
    && states[0].cli == CM.Fresh(states[0].cli.cfg)
    && SR.Initial(states[0].srv)
    && forall i :: 0 <= i < |steps| ==> Enabled(states[i], steps[i]) && states[i + 1] == Next(states[i], steps[i])
  }

  // ----- The invariant -----

  ghost predicate Joined(w: World) {
    w.cli.link.recv <= w.srv.link.sent && w.srv.link.recv <= w.cli.link.sent
  }

  ghost predicate Sides(w: World) {
    CR.Inv(w.cli) && CW.Wire(w.cli) && SR.Inv(w.srv) && SW.Wire(w.srv)
  }

  ghost predicate Inv(w: World) {
    Sides(w) && Joined(w) && CI.Collect(w.cli)
  }

  /** Both sides mean the same by the number of init-channels. */
  lemma SameCount(w: World)
    requires CW.LogInOk(w.cli) && SW.LogInOk(w.srv) && Joined(w) && w.cli.link.recv != []
    ensures CW.LogInOk(w.cli) && SW.SentOk(w.srv.link.recv, w.srv.link.sent)
    ensures Agreed(w.cli.link.sent, w.cli.link.recv) == Agreed(w.srv.link.recv, w.srv.link.sent)
    ensures w.cli.link.recv[0] == w.srv.link.sent[0] && w.srv.link.recv[0] == w.cli.link.sent[0]
  {
  }

  /** A client that has not acknowledged has been sent nothing but the init-channels. */
  lemma PromiseHolds(w: World)
    requires CW.LogInOk(w.cli) && SW.LogInOk(w.srv) && Joined(w)
    ensures CI.Promise(w.cli.link)
  {
    if w.cli.link.recv != [] {
      SameCount(w);
    }
  }

  // ----- What a step does to the messages -----

  lemma CliMessages(c: CM.Client, s: CR.Step)
    requires CR.Enabled(c, s) && !s.DoConnect?
    ensures var l' := CR.Next(c, s).link;
            && c.link.sent <= l'.sent
            && l'.recv == (if s.DoDeliver? then c.link.recv + [s.m] else c.link.recv)
  {
    hide CM.OnLogInRsp, CM.OnInitOpen, CM.OnOpenReq, CM.OnChannelError;
    if s.DoTask? {
      CliTaskMessages(c, s.ops);
    }
  }

  lemma CliTaskMessages(c: CM.Client, ops: CM.Ops)
    requires CR.Enabled(c, CR.DoTask(ops))
    ensures c.link.sent <= CM.RunTask(c, ops).link.sent && CM.RunTask(c, ops).link.recv == c.link.recv
  {
    hide CM.OnLogInRsp, CM.OnInitOpen;
    match c.link.queue[0]
    case LogInRspTask(x) => LogInRspMessages(CR.Popped(c), x.msg, ops.late1, ops.wrapper);
    case InitTask(ch, n, x) => InitOpenMessages(CR.Popped(c), ch, n, x, ops);
    case OpenTask(_) =>
    case ErrorTask(_, _) =>
    case EndTask =>
  }

  lemma LogInRspMessages(c: CM.Client, m: Msg, late: Option<Error>, w: CM.Wrapper)
    ensures var l' := CM.OnLogInRsp(c, m, late, w).link; l'.sent == c.link.sent && l'.recv == c.link.recv
  {
    hide CM.LoggedIn, CM.LogInRspError, CM.Finish;
    if m.LogInRsp? {
      var c1 := CM.Check(CM.Check(c, c.conn.state == CM.Connecting && c.conn.onDone.Some?, CM.LogInOutOfState),
                         c.cliNs.None?, CM.SetTwice).(cliNs := Some(m.ns));
      LoggedInMessages(c1, m.nSrv + CM.NCli(c.args), late, w);
    }
  }

  lemma LoggedInMessages(c: CM.Client, n: nat, late: Option<Error>, w: CM.Wrapper)
    ensures var l' := CM.LoggedIn(c, n, late, w).link; l'.sent == c.link.sent && l'.recv == c.link.recv
  {
    hide CM.Expect, CM.Finish;
    if c.link.chan.Some? {
      CW.ExpectMessages(c.link, if n == 0 then CM.OpenHandler else CM.InitHandler(n), late);
    }
  }

  lemma InitOpenMessages(c: CM.Client, ch: nat, n: nat, x: Inbound, ops: CM.Ops)
    requires x.msg.ToClientReq?
    ensures var l' := CM.OnInitOpen(c, ch, n, x, ops).link; c.link.sent <= l'.sent && l'.recv == c.link.recv
  {
    hide CM.SwitchAndAck, CM.Finish, CM.ByCli, CM.BySrv;
    if c.link.chan.Some? {
      CW.SwitchMessages(c.link, x.id, ops);
    }
  }

  lemma ConnectMessages(c: CM.Client, args: CM.Args, run: CM.ConnectRun)
    ensures var c' := CM.Connect(c, args, run).0;
            if c.conn.state == CM.Null && run.Requested? then c'.link.recv == [] else c'.link == c.link
  {
  }

  lemma JoinedStep(w: World, t: Step)
    requires Joined(w) && Enabled(w, t)
    ensures Joined(Next(w, t))
  {
    hide CR.Next, SR.Next, CR.Enabled, SR.Enabled;
    StepEnabled(w, t);
    if t.ToServer? || t.Srv? {
      SW.MessagesStep(w.srv, SrvStep(w, t));
    } else if t.Connect? {
      ConnectStep(w, t);
    } else {
      CliMessages(w.cli, CliStep(w, t));
    }
  }

  lemma ConnectStep(w: World, t: Step)
    requires Joined(w) && Enabled(w, t) && t.Connect?
    ensures Joined(Next(w, t))
  {
    hide CM.Connect;
    ConnectMessages(w.cli, t.args, t.run);
  }

  lemma SidesStep(w: World, t: Step)
    requires Sides(w) && Enabled(w, t)
    ensures Sides(Next(w, t))
  {
    hide CR.Inv, CW.Wire, SR.Inv, SW.Wire, CR.Next, SR.Next, CR.Enabled, SR.Enabled, SR.Initial;
    if t.ToServer? || t.Srv? {
      assert SR.Enabled(w.srv, SrvStep(w, t)) by { StepEnabled(w, t); }
      SR.InvStep(w.srv, SrvStep(w, t));
      SW.WireStep(w.srv, SrvStep(w, t));
    } else {
      StepEnabled(w, t);
      CR.InvStep(w.cli, CliStep(w, t));
      CW.WireStep(w.cli, CliStep(w, t));
      if t.Connect? {
        ServerStart(t.accepting);
      }
    }
  }

  lemma ServerStart(s: SM.Server)
    requires SR.Initial(s)
    ensures SR.Inv(s) && SW.Wire(s)
  {
    SW.WireInitial(s);
  }

  lemma StepEnabled(w: World, t: Step)
    requires Enabled(w, t)
    ensures if t.ToServer? || t.Srv? then SR.Enabled(w.srv, SrvStep(w, t))
            else CR.Enabled(w.cli, CliStep(w, t)) && CR.Vanilla(CliStep(w, t))
  {
  }

  lemma InvStep(w: World, t: Step)
    requires Inv(w) && Enabled(w, t)
    ensures Inv(Next(w, t))
  {
    hide CR.Inv, CW.LogInOk, CW.OpensOk, SR.Inv, SW.LogInOk, SW.OpensOk, CR.Next, SR.Next, CR.Enabled, SR.Enabled,
         SR.Initial, CI.Collect, Joined, CI.Promise;
    SidesStep(w, t);
    JoinedStep(w, t);
    PromiseHolds(w);
    if !(t.ToServer? || t.Srv?) {
      StepEnabled(w, t);
      NextJoined(w, t);
      CI.CollectStep(w.cli, CliStep(w, t));
    }
  }

  lemma NextJoined(w: World, t: Step)
    requires Inv(w) && Enabled(w, t) && !t.ToServer? && !t.Srv?
    ensures CI.Promise(CR.Next(w.cli, CliStep(w, t)).link)
  {
    hide CR.Inv, CW.LogInOk, CW.OpensOk, SR.Inv, SW.LogInOk, SW.OpensOk, CR.Next, SR.Next, CR.Enabled, SR.Enabled,
         SR.Initial, CI.Collect, Joined, CI.Promise;
    SidesStep(w, t);
    JoinedStep(w, t);
    PromiseHolds(Next(w, t));
  }

  lemma {:induction false} InvInRuns(states: seq<World>, steps: seq<Step>, i: nat)
    requires Run(states, steps) && i < |states|
    ensures Inv(states[i])
  {
    hide Inv, Next, Enabled;
    if i > 0 {
      InvInRuns(states, steps, i - 1);
      InvStep(states[i - 1], steps[i - 1]);
    } else {
      InvInitial(states[0]);
    }
  }

  lemma InvInitial(w: World)
    requires w.cli == CM.Fresh(w.cli.cfg) && SR.Initial(w.srv)
    ensures Inv(w)
  {
    hide CR.Inv, CW.Wire, SR.Inv, SW.Wire;
    CR.InvFresh(w.cli.cfg);
    CW.FreshOk(w.cli.cfg);
    ServerStart(w.srv);
  }
}
