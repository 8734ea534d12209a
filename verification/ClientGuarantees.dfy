/** What a user of one client object can count on in every run, whatever the server does; and, where the source falls
    short of what it says of itself, exactly when. */
module ClientGuarantees {
  import opened MasterChannel
  import opened ClientModel
  import opened ClientRuns
  import opened ClientCancels

  // ----- Completion handlers -----

  lemma TokensConnect(c: Client, args: Args, run: ConnectRun)
    ensures var (c', started) := Connect(c, args, run);
            && c.sess.log == c'.sess.log
            && c'.conn.nextToken == c.conn.nextToken + if started then 1 else 0
  {
    hide Send;
  }

  lemma TokensSucceed(c: Client, byCli: seq<Peer>, bySrv: seq<Peer>, w: Wrapper)
    ensures c.conn.nextToken <= Succeed(c, byCli, bySrv, w).conn.nextToken && c.sess == Succeed(c, byCli, bySrv, w).sess
  {
  }

  lemma TokensTask(c: Client, ops: Ops)
    requires Enabled(c, DoTask(ops))
    ensures c.conn.nextToken <= RunTask(c, ops).conn.nextToken
    ensures c.sess.log <= RunTask(c, ops).sess.log
  {
    hide Succeed, OnInitOpen, OnLogInRsp;
    match c.link.queue[0]
    case LogInRspTask(x) => TokensLogInRsp(Popped(c), x.msg, ops.late1, ops.wrapper);
    case InitTask(ch, n, x) => TokensInit(Popped(c), ch, n, x, ops);
    case OpenTask(_) =>
    case ErrorTask(_, _) =>
    case EndTask =>
  }

  lemma TokensLogInRsp(c: Client, m: Msg, late: Option<Error>, w: Wrapper)
    ensures c.conn.nextToken <= OnLogInRsp(c, m, late, w).conn.nextToken && c.sess == OnLogInRsp(c, m, late, w).sess
  {
    hide LogInRspError, LoggedIn;
    if m.LogInRsp? {
      var c1 := Check(Check(c, c.conn.state == Connecting && c.conn.onDone.Some?, LogInOutOfState),
                      c.cliNs.None?, SetTwice).(cliNs := Some(m.ns));
      TokensLoggedIn(c1, m.nSrv + NCli(c.args), late, w);
    }
  }

  lemma TokensLoggedIn(c: Client, n: nat, late: Option<Error>, w: Wrapper)
    ensures c.conn.nextToken <= LoggedIn(c, n, late, w).conn.nextToken && c.sess == LoggedIn(c, n, late, w).sess
  {
    hide Expect, Succeed;
    if c.link.chan.Some? {
      TokensSucceed(c.(link := Expect(c.link, OpenHandler, late).0), [], [], w);
    }
  }

  lemma TokensInit(c: Client, ch: nat, n: nat, x: Inbound, ops: Ops)
    requires x.msg.ToClientReq?
    ensures c.conn.nextToken <= OnInitOpen(c, ch, n, x, ops).conn.nextToken && c.sess == OnInitOpen(c, ch, n, x, ops).sess
  {
    hide SwitchAndAck, Succeed, ByCli, BySrv;
    if c.link.chan.Some? {
      var c1 := Check(c, c.conn.state == Connecting && c.conn.onDone.Some?, InitOutOfState);
      var c2 := Check(c1, |c.init| < n, InitOverflow).(init := c.init + [ClientPeer(x.msg.c2s, x.msg.s2c)]);
      TokensSucceed(c2.(link := SwitchAndAck(c.link, x.id, ops).0), ByCli(c2), BySrv(c2), ops.wrapper);
    }
  }

  lemma TokensGrow(c: Client, s: Step)
    requires Enabled(c, s)
    ensures c.conn.nextToken <= Next(c, s).conn.nextToken
    ensures s.DoConnect? && Connect(c, s.args, s.run).1 ==> c.conn.nextToken < Next(c, s).conn.nextToken
    ensures c.sess.log <= Next(c, s).sess.log
  {
    hide Connect, RunTask, Receive, Send;
    match s
    case DoConnect(args, run) => TokensConnect(c, args, run);
    case DoTask(ops) => TokensTask(c, ops);
    case _ =>
  }

  lemma {:induction false} TokensGrowInRuns(states: seq<Client>, steps: seq<Step>, i: nat, j: nat)
    requires Run(states, steps) && i <= j < |states|
    ensures states[i].conn.nextToken <= states[j].conn.nextToken
  {
    hide Enabled, Next;
    if i < j {
      TokensGrowInRuns(states, steps, i, j - 1);
      TokensGrow(states[j - 1], steps[j - 1]);
    }
  }

  /** An attempt that `async_connect()` starts is, at any later moment, either over, its handler run exactly once, or
      under way, its handler stored and not yet run.  This holds with sub-classes that cancel the PEER state, too. */
  lemma {:induction false} AttemptFiresOnce(states: seq<Client>, steps: seq<Step>, t: nat, i: nat)
    requires Run(states, steps) && t < i < |states|
    requires steps[t].DoConnect? && Connect(states[t], steps[t].args, steps[t].run).1
    ensures var k := states[i].conn;
            var token := states[t].conn.nextToken;
            || (token < |k.dones| && forall j :: 0 <= j < |k.dones| ==> (k.dones[j].token == token <==> j == token))
            || (k.state == Connecting && k.onDone == Some(token)
                && forall j :: 0 <= j < |k.dones| ==> k.dones[j].token != token)
  {
    TokensGrow(states[t], steps[t]);
    TokensGrowInRuns(states, steps, t + 1, i);
    HandlersOnceInRuns(states, steps, i);
  }

  /** An attempt under way cannot be forgotten: its channel is healthy, or the report of its failure is queued. */
  lemma {:induction false} AttemptNotForgotten(states: seq<Client>, steps: seq<Step>, i: nat)
    requires Run(states, steps) && i < |states| && forall j :: 0 <= j < |steps| ==> Vanilla(steps[j])
    requires states[i].conn.state == Connecting
    ensures Up(states[i].link) || ErrorQueued(states[i].link)
  {
    InvInRuns(states, steps, i);
  }

  /** While the current channel is healthy, an error task can only be one of a destroyed channel, and does nothing. */
  lemma {:induction false} StaleErrorHarmless(states: seq<Client>, steps: seq<Step>, i: nat, ops: Ops)
    requires Run(states, steps) && i < |states|
    requires Up(states[i].link) && Enabled(states[i], DoTask(ops)) && states[i].link.queue[0].ErrorTask?
    ensures RunTask(states[i], ops) == Popped(states[i])
  {
    AnyInRuns(states, steps, i);
    NotAboutIt(states[i].link, |states[i].init|, states[i].conn.state, states[i].conn.cancelled, states[i].sess.finisher);
  }

  lemma NotAboutIt(l: Link, k: nat, state: State, x: bool, fin: bool)
    requires LinkAny(state, x, l, k, fin) && Up(l) && l.queue != []
    ensures !About(l.queue[0], l.chan.value.id) || !l.queue[0].ErrorTask?
  {
    hide LogInOnce, StateOk, InitsOk, EndOk;
  }

  // ----- The on-error handler -----

  lemma {:induction false} LogGrowsInRuns(states: seq<Client>, steps: seq<Step>, i: nat, j: nat)
    requires Run(states, steps) && i <= j < |states|
    ensures states[i].sess.log <= states[j].sess.log
  {
    hide Enabled, Next;
    if i < j {
      LogGrowsInRuns(states, steps, i, j - 1);
      TokensGrow(states[j - 1], steps[j - 1]);
    }
  }

  /** Once the on-error handler has run, nothing is ever told to the user again: no other error, no channel.  This holds
      in every run, sub-classes included, and whichever comes first of the end message, the channel's failure and a
      failing use of the channel. */
  lemma {:induction false} ErrorIsFinal(states: seq<Client>, steps: seq<Step>, i: nat, j: nat, e: Error)
    requires Run(states, steps) && i <= j < |states| && OnError(e) in states[i].sess.log
    ensures states[j].sess.log == states[i].sess.log && states[j].sess.hosed == Some(e)
    ensures forall k :: 0 <= k < |states[i].sess.log| - 1 ==> !states[i].sess.log[k].OnError?
  {
    AnyInRuns(states, steps, i);
    AnyInRuns(states, steps, j);
    LogGrowsInRuns(states, steps, i, j);
    var a := states[i].sess.log;
    var b := states[j].sess.log;
    var k :| 0 <= k < |a| && a[k] == OnError(e);
    assert b[k] == OnError(e);
  }

  /** Without a sub-class the on-error handler runs in PEER state only, which is never left. */
  lemma {:induction false} ErrorOnlyInPeer(states: seq<Client>, steps: seq<Step>, i: nat, j: nat, e: Error)
    requires Run(states, steps) && i <= j < |states| && forall k :: 0 <= k < |steps| ==> Vanilla(steps[k])
    requires OnError(e) in states[i].sess.log
    ensures states[i].conn.state == InPeer && states[j].conn.state == InPeer
  {
    LogGrowsInRuns(states, steps, i, j);
    InvInRuns(states, steps, i);
    InvInRuns(states, steps, j);
    var k :| 0 <= k < |states[i].sess.log| && states[i].sess.log[k] == OnError(e);
    assert states[j].sess.log[k] == OnError(e);
  }

  ghost predicate Tells(c: Client, s: Step)
    requires Enabled(c, s)
  {
    var log := Next(c, s).sess.log;
    |log| > |c.sess.log| && log[|log| - 1].OnError?
  }

  /** An open request is at the head of the queue, and the response to it cannot be sent. */
  ghost predicate RequestFails(c: Client, s: Step) {
    s.DoTask? && c.link.queue != [] && c.link.queue[0].OpenTask? && c.sess.hosed.None? && Up(c.link) && s.ops.op.SendFails?
  }

  /** With a sub-class that cancels the PEER state the on-error handler may run outside it, in one way only: an open
      request is handled there, and the response fails. */
  lemma {:induction false} ErrorOutsidePeerExactly(states: seq<Client>, steps: seq<Step>, i: nat)
    requires Run(states, steps) && i < |steps| && states[i].conn.state != InPeer
    ensures Tells(states[i], steps[i]) <==> RequestFails(states[i], steps[i])
  {
    hide Any;
    AnyInRuns(states, steps, i);
    TellsOutside(states[i], steps[i]);
  }

  lemma TellsOutside(c: Client, s: Step)
    requires Any(c) && Enabled(c, s) && c.conn.state != InPeer
    ensures Tells(c, s) <==> RequestFails(c, s)
  {
    hide Connect, RunTask, Receive, Send, HandlersOnce;
    match s
    case DoConnect(args, run) => TokensConnect(c, args, run);
    case DoTask(ops) => TaskTellsOutside(c, ops);
    case _ =>
  }

  lemma TaskTellsOutside(c: Client, ops: Ops)
    requires Any(c) && Enabled(c, DoTask(ops)) && c.conn.state != InPeer
    ensures Tells(c, DoTask(ops)) <==> RequestFails(c, DoTask(ops))
  {
    hide HandlersOnce, OnLogInRsp, OnInitOpen, OnOpenReq, OnChannelError, LinkAny;
    match c.link.queue[0]
    case LogInRspTask(x) => TokensLogInRsp(Popped(c), x.msg, ops.late1, ops.wrapper);
    case InitTask(ch, n, x) => TokensInit(Popped(c), ch, n, x, ops);
    case OpenTask(x) => RequestTells(Popped(c), x, ops.op);
    case ErrorTask(ch, e) => ErrorTells(c, ch, e);
    case EndTask => EndTells(c);
  }

  lemma RequestTells(c: Client, x: Inbound, op: SendOp)
    requires x.msg.ToClientReq?
    ensures var log := OnOpenReq(c, x, op).sess.log;
            |log| > |c.sess.log| && log[|log| - 1].OnError? <==> c.sess.hosed.None? && Up(c.link) && op.SendFails?
  {
  }

  lemma ErrorTells(c: Client, ch: nat, e: Error)
    requires Any(c) && c.conn.state != InPeer && c.link.queue != [] && c.link.queue[0] == ErrorTask(ch, e)
    ensures OnChannelError(Popped(c), ch, e).sess == c.sess
  {
    hide HandlersOnce;
  }

  lemma EndTells(c: Client)
    requires Any(c) && c.conn.state != InPeer && c.link.queue != []
    ensures !c.link.queue[0].EndTask?
  {
    hide HandlersOnce;
  }

  /** The assertions of `NEVER` hold in every run. */
  lemma {:induction false} AssertionsHold(states: seq<Client>, steps: seq<Step>, i: nat)
    requires Run(states, steps) && i < |states| && forall j :: 0 <= j < |steps| ==> Vanilla(steps[j])
    ensures states[i].faults !! NEVER
  {
    InvInRuns(states, steps, i);
  }

  // ----- The finisher -----

  /** A sub-class whose sessions finish gracefully, and that cancels every PEER state it does not complete itself, has a
      finisher in PEER. */
  ghost predicate FinisherOk(c: Client) {
    PeerNotCancelled !in c.faults ==>
      (c.cfg.graceful && c.conn.state == InPeer ==> c.sess.finisher) && NoFinisher !in c.faults
  }

  lemma FinisherSucceed(c: Client, byCli: seq<Peer>, bySrv: seq<Peer>, w: Wrapper)
    requires FinisherOk(c)
    ensures FinisherOk(Succeed(c, byCli, bySrv, w))
  {
  }

  lemma FinisherLogInRsp(c: Client, m: Msg, late: Option<Error>, w: Wrapper)
    requires FinisherOk(c)
    ensures FinisherOk(OnLogInRsp(c, m, late, w))
  {
    hide Finish, Expect, LogInRspError, Succeed, LoggedIn;
    if LogInRspError(c.args, m).None? {
      var c1 := Check(c, c.conn.state == Connecting && c.conn.onDone.Some?, LogInOutOfState);
      FinisherLoggedIn(Check(c1, c.cliNs.None?, SetTwice).(cliNs := Some(m.ns)), m.nSrv + NCli(c.args), late, w);
    } else {
      FinisherFails(Check(c, c.conn.state == Connecting && c.conn.onDone.Some?, LogInOutOfState),
                    LogInRspError(c.args, m).value);
    }
  }

  lemma FinisherFails(c: Client, e: Error)
    requires FinisherOk(c)
    ensures FinisherOk(FailConnect(c, e)) && FinisherOk(Fire(c, Null, Some(e), [], []))
  {
  }

  lemma FinisherLoggedIn(c: Client, n: nat, late: Option<Error>, w: Wrapper)
    requires FinisherOk(c)
    ensures FinisherOk(LoggedIn(c, n, late, w))
  {
    hide Expect, Succeed;
    if c.link.chan.Some? {
      FinisherSucceed(c.(link := Expect(c.link, OpenHandler, late).0), [], [], w);
    }
  }

  lemma FinisherInitOpen(c: Client, ch: nat, n: nat, x: Inbound, ops: Ops)
    requires FinisherOk(c) && x.msg.ToClientReq?
    ensures FinisherOk(OnInitOpen(c, ch, n, x, ops))
  {
    hide SwitchAndAck, Succeed, ByCli, BySrv, Fire;
    var c1 := Check(c, c.conn.state == Connecting && c.conn.onDone.Some?, InitOutOfState);
    if c.link.chan.Some? && c.link.chan.value.id == ch {
      var c2 := Check(c1, |c.init| < n, InitOverflow).(init := c.init + [ClientPeer(x.msg.c2s, x.msg.s2c)]);
      var (l, r) := SwitchAndAck(c2.link, x.id, ops);
      FinisherSucceed(c2.(link := l), ByCli(c2), BySrv(c2), ops.wrapper);
      if r.Failed? {
        FinisherFails(c2.(link := l), r.e);
      }
    }
  }

  lemma FinisherTask(c: Client, ops: Ops)
    requires Any(c) && FinisherOk(c) && Enabled(c, DoTask(ops))
    ensures FinisherOk(RunTask(c, ops))
  {
    hide OnLogInRsp, OnInitOpen, OnChannelError, HandlersOnce, LinkAny, Finish, Send;
    match c.link.queue[0]
    case LogInRspTask(x) => FinisherLogInRsp(Popped(c), x.msg, ops.late1, ops.wrapper);
    case InitTask(ch, n, x) => FinisherInitOpen(Popped(c), ch, n, x, ops);
    case ErrorTask(ch, e) => FinisherError(c, ch, e);
    case _ =>
  }

  lemma FinisherError(c: Client, ch: nat, e: Error)
    requires Any(c) && FinisherOk(c) && c.link.queue != [] && c.link.queue[0] == ErrorTask(ch, e)
    ensures FinisherOk(OnChannelError(Popped(c), ch, e))
  {
    hide HandlersOnce, Formed, LogInOnce, InitsOk, EndOk;
    if c.link.chan.Some? && c.link.chan.value.id == ch {
      assert ErrorQueued(c.link);
    }
  }

  lemma FinisherStep(c: Client, s: Step)
    requires Any(c) && FinisherOk(c) && Enabled(c, s)
    ensures FinisherOk(Next(c, s))
  {
    hide RunTask, HandlersOnce, Finish, Send, Receive, LinkAny;
    match s
    case DoTask(ops) => FinisherTask(c, ops);
    case DoComplete(err) => AnyComplete(c, err); FinisherComplete(c, err);
    case DoConnect(args, run) => FinisherConnect(c, args, run);
    case _ =>
  }

  lemma FinisherComplete(c: Client, err: Option<Error>)
    requires FinisherOk(c) && c.link.chan.Some?
    ensures FinisherOk(Complete(c, err))
  {
    hide ExpectEnd;
  }

  lemma FinisherConnect(c: Client, args: Args, run: ConnectRun)
    requires FinisherOk(c)
    ensures FinisherOk(Connect(c, args, run).0)
  {
    hide Send;
  }

  /** In every run in which the sub-class does so, a channel error in PEER finds the finisher that it is passed on to. */
  lemma {:induction false} FinisherThere(states: seq<Client>, steps: seq<Step>, i: nat)
    requires Run(states, steps) && i < |states|
    ensures FinisherOk(states[i])
  {
    hide Enabled, Next, Any;
    if i > 0 {
      FinisherThere(states, steps, i - 1);
      AnyInRuns(states, steps, i - 1);
      FinisherStep(states[i - 1], steps[i - 1]);
    }
  }

  // ----- Retried attempts and the set-once values -----

  ghost predicate SetsSrvNs(c: Client, s: Step) {
    s.DoConnect? && c.conn.state == Null && !s.run.NoNamespace?
  }

  ghost predicate SetsCliNs(c: Client, s: Step) {
    s.DoTask? && c.link.queue != [] && c.link.queue[0].LogInRspTask?
    && LogInRspError(c.args, c.link.queue[0].rsp.msg).None?
  }

  /** How many of the first `i` steps satisfied `p`. */
  ghost function Times(states: seq<Client>, steps: seq<Step>, i: nat, p: (Client, Step) -> bool): nat
    requires i <= |steps| && i <= |states|
  {
    if i == 0 then 0 else Times(states, steps, i - 1, p) + (if p(states[i - 1], steps[i - 1]) then 1 else 0)
  }

  /** How the set-once values and the fault change. */
  ghost predicate SetStep(c: Client, s: Step, c': Client) {
    && (c'.srvNs.Some? <==> c.srvNs.Some? || SetsSrvNs(c, s))
    && (c'.cliNs.Some? <==> c.cliNs.Some? || SetsCliNs(c, s))
    && (SetTwice in c'.faults <==>
          SetTwice in c.faults || (SetsSrvNs(c, s) && c.srvNs.Some?) || (SetsCliNs(c, s) && c.cliNs.Some?))
  }

  lemma SetConnect(c: Client, args: Args, run: ConnectRun)
    ensures SetStep(c, DoConnect(args, run), Connect(c, args, run).0)
  {
    hide Send, Finish;
  }

  lemma SetTask(c: Client, ops: Ops)
    requires Enabled(c, DoTask(ops))
    ensures SetStep(c, DoTask(ops), RunTask(c, ops))
  {
    hide Send, Finish, Expect, SwitchAndAck, LogInRspError, ByCli, BySrv, OnLogInRsp, OnInitOpen;
    match c.link.queue[0]
    case LogInRspTask(x) => SetLogInRsp(c, x.msg, ops);
    case InitTask(ch, n, x) => SetInit(Popped(c), ch, n, x, ops);
    case OpenTask(_) =>
    case ErrorTask(_, _) =>
    case EndTask =>
  }

  lemma SetLogInRsp(c: Client, m: Msg, ops: Ops)
    requires Enabled(c, DoTask(ops)) && c.link.queue[0].LogInRspTask? && c.link.queue[0].rsp.msg == m
    ensures SetStep(c, DoTask(ops), OnLogInRsp(Popped(c), m, ops.late1, ops.wrapper))
  {
    hide Finish, LoggedIn, LogInRspError;
    if m.LogInRsp? {
      var c1 := Check(Check(Popped(c), c.conn.state == Connecting && c.conn.onDone.Some?, LogInOutOfState),
                      c.cliNs.None?, SetTwice).(cliNs := Some(m.ns));
      SetLoggedIn(c1, m.nSrv + NCli(c.args), ops.late1, ops.wrapper);
    }
  }

  lemma SetLoggedIn(c: Client, n: nat, late: Option<Error>, w: Wrapper)
    ensures var c' := LoggedIn(c, n, late, w);
            c'.srvNs == c.srvNs && c'.cliNs == c.cliNs && (SetTwice in c'.faults <==> SetTwice in c.faults)
  {
    hide Finish, Expect;
  }

  lemma SetInit(c: Client, ch: nat, n: nat, x: Inbound, ops: Ops)
    requires x.msg.ToClientReq?
    ensures var c' := OnInitOpen(c, ch, n, x, ops);
            c'.srvNs == c.srvNs && c'.cliNs == c.cliNs && (SetTwice in c'.faults <==> SetTwice in c.faults)
  {
    hide AckInit;
    if c.link.chan.Some? {
      var c1 := Check(c, c.conn.state == Connecting && c.conn.onDone.Some?, InitOutOfState);
      SetAck(Check(c1, |c.init| < n, InitOverflow).(init := c.init + [ClientPeer(x.msg.c2s, x.msg.s2c)]), x.id, ops);
    }
  }

  lemma SetAck(c: Client, id: nat, ops: Ops)
    requires c.link.chan.Some?
    ensures var c' := AckInit(c, id, ops);
            c'.srvNs == c.srvNs && c'.cliNs == c.cliNs && (SetTwice in c'.faults <==> SetTwice in c.faults)
  {
    hide Finish, SwitchAndAck, ByCli, BySrv;
  }

  lemma SetsStep(c: Client, s: Step)
    requires Enabled(c, s)
    ensures SetStep(c, s, Next(c, s))
  {
    hide Connect, RunTask, Deliver, OpenStart, OpenUnanswered, Complete, Send;
    match s
    case DoConnect(args, run) => SetConnect(c, args, run);
    case DoTask(ops) => SetTask(c, ops);
    case DoDeliver(m) => SetDeliver(c, m);
    case DoOpen(op) => SetOpen(c, op);
    case DoEndWait(end) => SetEndWait(c, end);
    case DoComplete(err) => SetComplete(c, err);
    case _ =>
  }

  ghost predicate SetSame(c: Client, c': Client) {
    c'.srvNs == c.srvNs && c'.cliNs == c.cliNs && (SetTwice in c'.faults <==> SetTwice in c.faults)
  }

  lemma SetDeliver(c: Client, m: Msg)
    requires Up(c.link)
    ensures SetSame(c, Deliver(c, m))
  {
    hide Receive;
  }

  lemma SetOpen(c: Client, op: SendOp)
    requires c.conn.state == InPeer
    ensures SetSame(c, OpenStart(c, op).0)
  {
    hide Send;
  }

  lemma SetEndWait(c: Client, end: WaitEnd)
    ensures SetSame(c, OpenUnanswered(c, end))
  {
  }

  lemma SetComplete(c: Client, err: Option<Error>)
    ensures SetSame(c, Complete(c, err))
  {
    hide Finish, ExpectEnd;
  }

  /** What a caller can check before the call: an attempt is made in NULL state and gets a server namespace, while one is
      stored; or a good log-in response is handled while a client namespace is stored. */
  ghost predicate SetAgain(c: Client, s: Step) {
    || (s.DoConnect? && c.conn.state == Null && !s.run.NoNamespace? && c.srvNs.Some?)
    || (s.DoTask? && c.link.queue != [] && c.link.queue[0].LogInRspTask? && c.cliNs.Some?
        && LogInRspError(c.args, c.link.queue[0].rsp.msg).None?)
  }

  /** A step sets a set-once value again if and only if it meets that guard. */
  lemma {:induction false} SetTwiceAtStep(states: seq<Client>, steps: seq<Step>, i: nat)
    requires Run(states, steps) && i < |steps| && SetTwice !in states[i].faults
    ensures SetTwice in states[i + 1].faults <==> SetAgain(states[i], steps[i])
  {
    hide Enabled, Next, LogInRspError;
    SetsStep(states[i], steps[i]);
  }

  /** A set-once value is set twice exactly if two attempts got as far as reading the server namespace, or two got as far
      as a good log-in response. */
  lemma {:induction false} SetTwiceExactly(states: seq<Client>, steps: seq<Step>, i: nat)
    requires Run(states, steps) && i < |states|
    ensures states[i].srvNs.Some? <==> Times(states, steps, i, SetsSrvNs) > 0
    ensures states[i].cliNs.Some? <==> Times(states, steps, i, SetsCliNs) > 0
    ensures SetTwice in states[i].faults <==>
              Times(states, steps, i, SetsSrvNs) > 1 || Times(states, steps, i, SetsCliNs) > 1
  {
    hide Enabled, Next, SetsSrvNs, SetsCliNs;
    if i > 0 {
      SetTwiceExactly(states, steps, i - 1);
      SetsStep(states[i - 1], steps[i - 1]);
    }
  }

  // ----- NULL state with a channel -----

  /** The last init-channel is in, the handlers are switched, and the acknowledgement's `send()` reports an error. */
  ghost predicate AckFails(c: Client, s: Step) {
    && s.DoTask? && c.link.queue != [] && c.link.queue[0].InitTask?
    && Up(c.link) && c.link.queue[0].chan == c.link.chan.value.id && |c.init| + 1 == c.link.queue[0].n
    && s.ops.late1.None? && s.ops.late2.None? && s.ops.op.SendFails?
  }

  /** "NULL means no master channel" breaks in one way only: the acknowledgement fails. */
  lemma KeptExactly(c: Client, s: Step)
    requires Inv(c) && Enabled(c, s) && Vanilla(s) && c.conn.state != Null
    ensures Next(c, s).conn.state == Null && Next(c, s).link.chan.Some? <==> AckFails(c, s)
  {
    hide Connect, Deliver, RunTask, OpenStart, OpenUnanswered, Inv;
    match s
    case DoTask(ops) => KeptTask(c, ops);
    case DoConnect(_, _) => assert Next(c, s) == c by { KeptConnect(c, s); }
    case DoDeliver(m) => KeptDeliver(c, m);
    case DoFail(e) =>
    case DoOpen(op) => KeptOpen(c, op);
    case DoEndWait(end) => KeptEndWait(c, end);
    case DoEnd(op) =>
  }

  lemma KeptConnect(c: Client, s: Step)
    requires c.conn.state != Null && s.DoConnect? && Enabled(c, s)
    ensures Next(c, s) == c
  {
  }

  lemma KeptDeliver(c: Client, m: Msg)
    requires Up(c.link)
    ensures Deliver(c, m).conn == c.conn
  {
  }

  lemma KeptOpen(c: Client, op: SendOp)
    requires c.conn.state == InPeer
    ensures OpenStart(c, op).0.conn == c.conn
  {
  }

  lemma KeptEndWait(c: Client, end: WaitEnd)
    ensures OpenUnanswered(c, end).conn == c.conn
  {
  }

  lemma KeptTask(c: Client, ops: Ops)
    requires Inv(c) && Enabled(c, DoTask(ops)) && ops.wrapper == Keep && c.conn.state != Null
    ensures RunTask(c, ops).conn.state == Null && RunTask(c, ops).link.chan.Some? <==> AckFails(c, DoTask(ops))
  {
    hide OnLogInRsp, OnInitOpen, OnOpenReq, OnChannelError, Inv;
    match c.link.queue[0]
    case LogInRspTask(x) => KeptLogInRsp(Popped(c), x.msg, ops);
    case InitTask(ch, n, x) => KeptInit(c, ch, n, x, ops);
    case OpenTask(x) => KeptOpenReq(Popped(c), x, ops.op);
    case ErrorTask(ch, e) => KeptError(Popped(c), ch, e);
    case EndTask =>
  }

  lemma KeptLogInRsp(c: Client, m: Msg, ops: Ops)
    requires c.conn.state != Null && ops.wrapper == Keep
    ensures var c' := OnLogInRsp(c, m, ops.late1, Keep); c'.conn.state != Null || c'.link.chan.None?
  {
    hide Expect, LogInRspError;
  }

  lemma KeptOpenReq(c: Client, x: Inbound, op: SendOp)
    requires x.msg.ToClientReq?
    ensures OnOpenReq(c, x, op).conn == c.conn
  {
  }

  lemma KeptError(c: Client, ch: nat, e: Error)
    requires c.conn.state != Null
    ensures var c' := OnChannelError(c, ch, e); c'.conn.state != Null || c'.link.chan.None?
  {
  }

  lemma KeptInit(c: Client, ch: nat, n: nat, x: Inbound, ops: Ops)
    requires Inv(c) && c.link.queue != [] && c.link.queue[0] == InitTask(ch, n, x) && x.msg.ToClientReq?
    requires c.conn.state != Null && ops.wrapper == Keep
    ensures var c' := OnInitOpen(Popped(c), ch, n, x, ops);
            c'.conn.state == Null && c'.link.chan.Some? <==> AckFails(c, DoTask(ops))
  {
    hide HandlersOnce, LinkOk, ByCli, BySrv;
    if c.link.chan.Some? && !Up(c.link) {
      SwitchRefused(Pop(c.link), x.id, ops);
    }
  }

  /** And once in that state, it stays until the next attempt that gets a socket, which then breaks
      `assert(!m_master_channel)`: a new attempt breaks it exactly if the old channel is kept. */
  lemma ChannelKeptExactly(c: Client, args: Args, run: ConnectRun)
    requires ChannelKept !in c.faults
    ensures ChannelKept in Connect(c, args, run).0.faults <==>
              c.conn.state == Null && c.link.chan.Some? && run.Requested?
  {
    hide Finish, Send;
  }

  /** From NULL state, a channel still held goes away only with the next attempt that gets a socket. */
  lemma KeptFromNull(c: Client, s: Step)
    requires Inv(c) && Enabled(c, s) && Vanilla(s) && c.conn.state == Null
    ensures Next(c, s).conn.state == Null && Next(c, s).link.chan.Some? <==>
              c.link.chan.Some? && !(s.DoConnect? && s.run.Requested?)
  {
    hide RunTask, HandlersOnce;
    match s
    case DoTask(ops) => NullTask(c, ops);
    case _ =>
  }

  lemma NullTask(c: Client, ops: Ops)
    requires Inv(c) && Enabled(c, DoTask(ops)) && ops.wrapper == Keep && c.conn.state == Null
    ensures RunTask(c, ops).conn.state == Null
    ensures RunTask(c, ops).link.chan.Some? <==> c.link.chan.Some?
  {
    hide HandlersOnce, SwitchAndAck, ByCli, BySrv;
    Facts(c.conn.state, c.link);
    if c.link.chan.Some? && c.link.queue[0].InitTask? {
      SwitchRefused(Pop(c.link), c.link.queue[0].req.id, ops);
    }
  }

  // ----- A null master channel -----

  /** An open request is at the head of the queue, with no channel to answer it on, in a session not hosed. */
  ghost predicate RequestMeetsNull(c: Client, s: Step) {
    s.DoTask? && c.link.queue != [] && c.link.queue[0].OpenTask? && c.link.chan.None? && c.sess.hosed.None?
  }

  /** In every run, sub-classes included, a null master channel is used in one way only. */
  lemma {:induction false} NullChannelExactly(states: seq<Client>, steps: seq<Step>, i: nat)
    requires Run(states, steps) && i < |steps| && NullChannel !in states[i].faults
    ensures NullChannel in states[i + 1].faults <==> RequestMeetsNull(states[i], steps[i])
  {
    hide Any;
    AnyInRuns(states, steps, i);
    NullStep(states[i], steps[i]);
  }

  lemma NullStep(c: Client, s: Step)
    requires Any(c) && Enabled(c, s)
    ensures NullChannel in Next(c, s).faults <==> NullChannel in c.faults || RequestMeetsNull(c, s)
  {
    hide Connect, Receive, Send, RunTask, Any, Finish, Complete;
    match s
    case DoConnect(args, run) => NullConnect(c, args, run);
    case DoTask(ops) => NullUse(c, ops);
    case DoOpen(op) => AnyOpen(c, op);
    case DoEnd(op) => AnySendEnd(c, op);
    case DoComplete(err) => AnyComplete(c, err); NullComplete(c, err);
    case _ =>
  }

  lemma NullConnect(c: Client, args: Args, run: ConnectRun)
    ensures NullChannel in Connect(c, args, run).0.faults <==> NullChannel in c.faults
  {
    hide Finish, Send;
  }

  lemma NullComplete(c: Client, err: Option<Error>)
    requires c.link.chan.Some?
    ensures NullChannel in Complete(c, err).faults <==> NullChannel in c.faults
  {
    hide Finish, ExpectEnd;
  }

  lemma NullUse(c: Client, ops: Ops)
    requires Any(c) && Enabled(c, DoTask(ops))
    ensures NullChannel in RunTask(c, ops).faults <==> NullChannel in c.faults || RequestMeetsNull(c, DoTask(ops))
  {
    hide HandlersOnce, LinkAny, OnLogInRsp, OnInitOpen;
    match c.link.queue[0]
    case LogInRspTask(x) =>
      AnyTakeLogIn(c.conn.state, c.conn.cancelled, c.link, |c.init|, c.sess.finisher);
      NullLogInRsp(Popped(c), x.msg, ops.late1, ops.wrapper);
    case InitTask(ch, n, x) => NullInit(Popped(c), ch, n, x, ops);
    case OpenTask(_) =>
    case ErrorTask(_, _) =>
    case EndTask =>
  }

  lemma NullLogInRsp(c: Client, m: Msg, late: Option<Error>, w: Wrapper)
    requires c.link.chan.Some?
    ensures NullChannel in OnLogInRsp(c, m, late, w).faults <==> NullChannel in c.faults
  {
    hide LogInRspError, LoggedIn, Finish;
    if m.LogInRsp? {
      var c1 := Check(Check(c, c.conn.state == Connecting && c.conn.onDone.Some?, LogInOutOfState),
                      c.cliNs.None?, SetTwice).(cliNs := Some(m.ns));
      NullLoggedIn(c1, m.nSrv + NCli(c.args), late, w);
    }
  }

  lemma NullLoggedIn(c: Client, n: nat, late: Option<Error>, w: Wrapper)
    requires c.link.chan.Some?
    ensures NullChannel in LoggedIn(c, n, late, w).faults <==> NullChannel in c.faults
  {
    hide Finish, Expect;
  }

  lemma NullInit(c: Client, ch: nat, n: nat, x: Inbound, ops: Ops)
    requires x.msg.ToClientReq?
    ensures NullChannel in OnInitOpen(c, ch, n, x, ops).faults <==> NullChannel in c.faults
  {
    hide AckInit;
    if c.link.chan.Some? {
      var c1 := Check(c, c.conn.state == Connecting && c.conn.onDone.Some?, InitOutOfState);
      NullAck(Check(c1, |c.init| < n, InitOverflow).(init := c.init + [ClientPeer(x.msg.c2s, x.msg.s2c)]), x.id, ops);
    }
  }

  lemma NullAck(c: Client, id: nat, ops: Ops)
    requires c.link.chan.Some?
    ensures NullChannel in AckInit(c, id, ops).faults <==> NullChannel in c.faults
  {
    hide Finish, SwitchAndAck, ByCli, BySrv;
  }

  ghost predicate HasRequest(q: seq<Task>) {
    exists i :: 0 <= i < |q| && q[i].OpenTask?
  }

  /** The task at the head completes the log-in, and the sub-class cancels to NULL inside the completion. */
  ghost predicate CancelsToNull(c: Client, s: Step)
    requires Enabled(c, s)
  {
    var dones := Next(c, s).conn.dones;
    && s.DoTask? && s.ops.wrapper == ToNull && (c.link.queue[0].LogInRspTask? || c.link.queue[0].InitTask?)
    && |dones| > |c.conn.dones| && dones[|dones| - 1].result.None?
  }

  /** Such a step leaves an open request behind, which the channel is then missing for, if and only if one was queued
      already, or one was cached that the installing of the handler handed over. */
  lemma {:induction false} LeftBehindExactly(states: seq<Client>, steps: seq<Step>, i: nat)
    requires Run(states, steps) && i < |steps| && CancelsToNull(states[i], steps[i])
    ensures states[i + 1].link.chan.None? && states[i + 1].conn.state == Null
    ensures HasRequest(states[i + 1].link.queue) <==>
              HasRequest(states[i].link.queue)
              || (states[i].link.chan.Some? && states[i].link.chan.value.cache != [])
  {
    hide Any;
    AnyInRuns(states, steps, i);
    LeftBehind(states[i], steps[i].ops);
  }

  lemma LeftBehind(c: Client, ops: Ops)
    requires Any(c) && Enabled(c, DoTask(ops)) && CancelsToNull(c, DoTask(ops))
    ensures var c' := RunTask(c, ops);
            && c'.link.chan.None? && c'.conn.state == Null
            && (HasRequest(c'.link.queue) <==>
                  HasRequest(c.link.queue) || (c.link.chan.Some? && c.link.chan.value.cache != []))
  {
    hide HandlersOnce, LinkAny, OnLogInRsp, OnInitOpen;
    var q := Pop(c.link).queue;
    assert HasRequest(q) <==> HasRequest(c.link.queue) by { RequestTail(c.link.queue); }
    match c.link.queue[0]
    case LogInRspTask(x) =>
      AnyTakeLogIn(c.conn.state, c.conn.cancelled, c.link, |c.init|, c.sess.finisher);
      LogInLeaves(c, x.msg, ops.late1);
    case InitTask(ch, n, x) => InitLeaves(c, ch, n, x, ops);
    case _ =>
  }

  lemma RequestTail(q: seq<Task>)
    requires q != [] && !q[0].OpenTask?
    ensures HasRequest(q[1..]) <==> HasRequest(q)
  {
    if HasRequest(q) {
      var i :| 0 <= i < |q| && q[i].OpenTask?;
      assert q[1..][i - 1] == q[i];
    }
  }

  lemma RequestsAfter(q: seq<Task>, ch: nat, cache: seq<Inbound>)
    ensures HasRequest(q + HandlerTasks(ch, OpenHandler, cache)) <==> HasRequest(q) || cache != []
  {
    var all := q + HandlerTasks(ch, OpenHandler, cache);
    assert cache != [] ==> all[|q|].OpenTask?;
    assert forall i :: 0 <= i < |q| ==> all[i] == q[i];
  }

  lemma LogInLeaves(c: Client, m: Msg, late: Option<Error>)
    requires Any(c) && c.link.queue != [] && c.link.queue[0].LogInRspTask? && c.link.chan.Some?
    ensures var c' := OnLogInRsp(Popped(c), m, late, ToNull);
            |c'.conn.dones| > |c.conn.dones| && c'.conn.dones[|c'.conn.dones| - 1].result.None? ==>
              && c'.link.chan.None? && c'.conn.state == Null
              && (HasRequest(c'.link.queue) <==> HasRequest(Pop(c.link).queue) || c.link.chan.value.cache != [])
  {
    hide Any, LogInRspError;
    RequestsAfter(Pop(c.link).queue, c.link.chan.value.id, c.link.chan.value.cache);
  }

  lemma InitLeaves(c: Client, ch: nat, n: nat, x: Inbound, ops: Ops)
    requires Any(c) && c.link.queue != [] && c.link.queue[0] == InitTask(ch, n, x) && x.msg.ToClientReq?
    requires ops.wrapper == ToNull
    ensures var c' := OnInitOpen(Popped(c), ch, n, x, ops);
            |c'.conn.dones| > |c.conn.dones| && c'.conn.dones[|c'.conn.dones| - 1].result.None? ==>
              && c'.link.chan.None? && c'.conn.state == Null && c.link.chan.Some? && c.link.chan.value.cache == []
              && (HasRequest(c'.link.queue) <==> HasRequest(Pop(c.link).queue))
  {
    hide HandlersOnce, ByCli, BySrv;
    if c.link.chan.Some? && c.link.chan.value.id == ch && !Up(c.link) {
      SwitchRefused(Pop(c.link), x.id, ops);
    }
    RequestsAfter(Pop(c.link).queue, ch, []);
    assert HandlerTasks(ch, OpenHandler, []) == [] && Pop(c.link).queue + [] == Pop(c.link).queue;
  }

  // ----- Witnesses -----

  const PLAIN := Config(true, false)
  const NO_OPS := Ops(None, None, SendOk, Keep)

  lemma ExtendRun(states: seq<Client>, steps: seq<Step>, s: Step) returns (states': seq<Client>, steps': seq<Step>)
    requires Run(states, steps) && Enabled(states[|steps|], s)
    ensures steps' == steps + [s] && states' == states + [Next(states[|steps|], s)] && Run(states', steps')
  {
    hide Next, Enabled;
    states', steps' := states + [Next(states[|steps|], s)], steps + [s];
  }

  const OPEN := ToClientReq(Mq(1, true), Mq(1, false))

  /** After the log-in response arrived that announces `nSrv` init-channels. */
  ghost function Answered(nSrv: nat, cfg: Config): Client {
    var c := Fresh(cfg);
    c.(conn := Conn(Connecting, Some(0), [], 1, false), args := Args(None, true), srvNs := Some("1"),
       link := Link(Some(Chan(0, true, false, NoHandler, [], EndUnexpected)),
                    [LogInRspTask(Inbound(0, LogInRsp(1, 1, "7", nSrv)))],
                    [LogInReq(1, 1, 0)], [LogInRsp(1, 1, "7", nSrv)], 1))
  }

  lemma RunToAnswered(nSrv: nat, cfg: Config) returns (states: seq<Client>, steps: seq<Step>)
    ensures Run(states, steps) && |steps| == 2 && |states| == 3 && states[2] == Answered(nSrv, cfg)
    ensures forall i :: 0 <= i < |steps| ==> Vanilla(steps[i])
  {
    states, steps := ExtendRun([Fresh(cfg)], [], DoConnect(Args(None, true), Requested("1", SendOk)));
    states, steps := ExtendRun(states, steps, DoDeliver(LogInRsp(1, 1, "7", nSrv)));
  }

  /** With the only init-channel received, its task queued. */
  ghost function Collected(): Client {
    var c := Answered(1, PLAIN);
    c.(cliNs := Some("7"),
       link := Link(Some(Chan(0, true, false, InitHandler(1), [], EndUnexpected)), [InitTask(0, 1, Inbound(1, OPEN))],
                    [LogInReq(1, 1, 0)], [LogInRsp(1, 1, "7", 1), OPEN], 1))
  }

  /** The init-channel handler is installed. */
  ghost function Awaiting(): Client {
    var c := Answered(1, PLAIN);
    c.(cliNs := Some("7"),
       link := c.link.(chan := Some(Chan(0, true, false, InitHandler(1), [], EndUnexpected)), queue := []))
  }

  lemma ToCollected()
    ensures Enabled(Answered(1, PLAIN), DoTask(NO_OPS))
    ensures Enabled(Next(Answered(1, PLAIN), DoTask(NO_OPS)), DoDeliver(OPEN))
    ensures Next(Next(Answered(1, PLAIN), DoTask(NO_OPS)), DoDeliver(OPEN)) == Collected()
  {
    assert Enabled(Answered(1, PLAIN), DoTask(NO_OPS)) && Next(Answered(1, PLAIN), DoTask(NO_OPS)) == Awaiting() by {
      ToAwaiting();
    }
    hide Answered;
    assert Next(Awaiting(), DoDeliver(OPEN)) == Collected() by { FromAwaiting(); }
  }

  lemma ToAwaiting()
    ensures Enabled(Answered(1, PLAIN), DoTask(NO_OPS)) && Next(Answered(1, PLAIN), DoTask(NO_OPS)) == Awaiting()
  {
    assert HandlerTasks(0, InitHandler(1), []) == [];
  }

  lemma FromAwaiting()
    ensures Enabled(Awaiting(), DoDeliver(OPEN)) && Next(Awaiting(), DoDeliver(OPEN)) == Collected()
  {
  }

  /** A failed acknowledgement, then a retry: `assert(!m_master_channel)` fails. */
  lemma RetryMeetsOldChannel() returns (states: seq<Client>, steps: seq<Step>)
    ensures Run(states, steps) && forall i :: 0 <= i < |steps| ==> Vanilla(steps[i])
    ensures |states| == 7 && states[5].conn.state == Null && states[5].link.chan.Some?
    ensures ChannelKept in states[6].faults
  {
    var fail := DoTask(NO_OPS.(op := SendFails(SystemError(32))));
    var retry := DoConnect(Args(None, true), Requested("1", SendOk));
    hide Next, Enabled, Run, Collected;
    RetryFails(fail, retry);
    states, steps := RunToCollected();
    states, steps := ExtendRun(states, steps, fail);
    states, steps := ExtendRun(states, steps, retry);
  }

  lemma RunToCollected() returns (states: seq<Client>, steps: seq<Step>)
    ensures Run(states, steps) && |states| == 5 && |steps| == 4 && states[4] == Collected()
    ensures forall i :: 0 <= i < |steps| ==> Vanilla(steps[i])
  {
    hide Next, Enabled, Run, Collected, Answered;
    states, steps := RunToAnswered(1, PLAIN);
    ToCollected();
    states, steps := ExtendRun(states, steps, DoTask(NO_OPS));
    states, steps := ExtendRun(states, steps, DoDeliver(OPEN));
  }

  lemma RetryFails(fail: Step, retry: Step)
    requires fail == DoTask(NO_OPS.(op := SendFails(SystemError(32))))
    requires retry == DoConnect(Args(None, true), Requested("1", SendOk))
    ensures Enabled(Collected(), fail) && Enabled(Next(Collected(), fail), retry)
    ensures Next(Collected(), fail).conn.state == Null && Next(Collected(), fail).link.chan.Some?
    ensures ChannelKept in Next(Next(Collected(), fail), retry).faults
  {
    assert Collected().link.queue[0] == InitTask(0, 1, Inbound(1, OPEN));
  }

  /** A sub-class that cancels to NULL inside the completion, with an open request already flushed from the cache: the
      queued request meets a null master channel. */
  lemma CancelMeetsQueuedRequest() returns (states: seq<Client>, steps: seq<Step>)
    ensures Run(states, steps) && |states| == 6 && NullChannel in states[5].faults
    ensures forall i :: 0 <= i < |steps| ==> Vanilla(steps[i]) || (steps[i].DoTask? && steps[i].ops.wrapper == ToNull)
  {
    hide Next, Enabled, Run, Answered;
    CancelFails();
    states, steps := RunToAnswered(0, PLAIN);
    states, steps := ExtendRun(states, steps, DoDeliver(OPEN));
    states, steps := ExtendRun(states, steps, CANCEL);
    states, steps := ExtendRun(states, steps, DoTask(NO_OPS));
  }

  /** The open request is cached. */
  ghost function Cached(): Client {
    var c := Answered(0, PLAIN);
    c.(link := c.link.(chan := Some(Chan(0, true, false, NoHandler, [Inbound(1, OPEN)], EndUnexpected)),
                       recv := [LogInRsp(1, 1, "7", 0), OPEN]))
  }

  lemma ToCached()
    ensures Enabled(Answered(0, PLAIN), DoDeliver(OPEN)) && Next(Answered(0, PLAIN), DoDeliver(OPEN)) == Cached()
  {
    var c := Next(Answered(0, PLAIN), DoDeliver(OPEN));
    assert c.link.chan.value.cache == [Inbound(1, OPEN)] && c.link.recv == [LogInRsp(1, 1, "7", 0), OPEN];
  }

  const CANCEL := DoTask(NO_OPS.(wrapper := ToNull))

  lemma CancelFails()
    ensures Enabled(Answered(0, PLAIN), DoDeliver(OPEN))
    ensures var c := Next(Answered(0, PLAIN), DoDeliver(OPEN));
            && Enabled(c, CANCEL)
            && var d := Next(c, CANCEL);
               Enabled(d, DoTask(NO_OPS)) && NullChannel in Next(d, DoTask(NO_OPS)).faults
  {
    ToCached();
    hide Answered, Next, Enabled, Cached;
    assert Enabled(Cached(), CANCEL) && var d := Next(Cached(), CANCEL);
           d.link.queue == [OpenTask(Inbound(1, OPEN))] && d.link.chan.None? && d.sess == Sess(None, None, [], false)
    by { CachedCancelled(); }
    RequestUsesNull(Next(Cached(), CANCEL));
  }

  lemma RequestUsesNull(c: Client)
    requires c.link.queue == [OpenTask(Inbound(1, OPEN))] && c.link.chan.None? && c.sess == Sess(None, None, [], false)
    ensures Enabled(c, DoTask(NO_OPS)) && NullChannel in Next(c, DoTask(NO_OPS)).faults
  {
  }

  lemma CachedCancelled()
    ensures Enabled(Cached(), CANCEL)
    ensures var d := Next(Cached(), CANCEL);
            d.link.queue == [OpenTask(Inbound(1, OPEN))] && d.link.chan.None? && d.sess == Sess(None, None, [], false)
  {
    assert HandlerTasks(0, OpenHandler, [Inbound(1, OPEN)]) == [OpenTask(Inbound(1, OPEN))];
    assert Next(Cached(), CANCEL).link.queue == [OpenTask(Inbound(1, OPEN))];
  }

  /** Two attempts that each read the server namespace. */
  lemma SecondAttemptSetsAgain() returns (states: seq<Client>, steps: seq<Step>)
    ensures Run(states, steps) && |states| == 3 && forall i :: 0 <= i < |steps| ==> Vanilla(steps[i])
    ensures SetTwice !in states[1].faults && SetTwice in states[2].faults
  {
    var attempt := DoConnect(Args(None, false), NoSocket("1", SystemError(111)));
    states, steps := ExtendRun([Fresh(PLAIN)], [], attempt);
    states, steps := ExtendRun(states, steps, attempt);
  }

  /** Back in CONNECTING, with the open request flushed from the cache still queued. */
  ghost function Resumed(cfg: Config, queue: seq<Task>, recv: seq<Msg>): Client {
    var c := Answered(0, cfg);
    c.(cliNs := Some("7"), conn := Conn(Connecting, Some(1), [Done(0, None, [], [])], 2, true),
       link := Link(Some(Chan(0, true, false, OpenHandler, [], EndUnexpected)), queue, [LogInReq(1, 1, 0)], recv, 1))
  }

  const RESUME := DoTask(NO_OPS.(wrapper := ToConnecting))

  lemma ToResumed()
    ensures Enabled(Answered(0, PLAIN), DoDeliver(OPEN)) && Enabled(Next(Answered(0, PLAIN), DoDeliver(OPEN)), RESUME)
    ensures Next(Next(Answered(0, PLAIN), DoDeliver(OPEN)), RESUME)
            == Resumed(PLAIN, [OpenTask(Inbound(1, OPEN))], [LogInRsp(1, 1, "7", 0), OPEN])
  {
    ToCached();
    hide Answered, Next, Enabled;
    CachedResumed();
  }

  lemma CachedResumed()
    ensures Enabled(Cached(), RESUME)
    ensures Next(Cached(), RESUME) == Resumed(PLAIN, [OpenTask(Inbound(1, OPEN))], [LogInRsp(1, 1, "7", 0), OPEN])
  {
    assert HandlerTasks(0, OpenHandler, [Inbound(1, OPEN)]) == [OpenTask(Inbound(1, OPEN))];
    assert Next(Cached(), RESUME).link.queue == [OpenTask(Inbound(1, OPEN))];
    assert Next(Cached(), RESUME).conn.dones == [Done(0, None, [], [])];
  }

  /** The PEER state is cancelled to CONNECTING, and then the response to an open request fails: the on-error handler runs
      before the user has been told of success. */
  lemma ErrorWhileCancelled() returns (states: seq<Client>, steps: seq<Step>)
    ensures Run(states, steps) && |states| == 6 && states[4].conn.state == Connecting && states[4].sess.log == []
    ensures states[5].conn.state == Connecting && states[5].sess.log == [OnError(SystemError(32))]
  {
    hide Next, Enabled, Run, Answered, Resumed;
    var fail := DoTask(NO_OPS.(op := SendFails(SystemError(32))));
    states, steps := RunToAnswered(0, PLAIN);
    ToResumed();
    ResumedFails(fail);
    states, steps := ExtendRun(states, steps, DoDeliver(OPEN));
    states, steps := ExtendRun(states, steps, RESUME);
    states, steps := ExtendRun(states, steps, fail);
  }

  lemma ResumedFails(fail: Step)
    requires fail == DoTask(NO_OPS.(op := SendFails(SystemError(32))))
    ensures var c := Resumed(PLAIN, [OpenTask(Inbound(1, OPEN))], [LogInRsp(1, 1, "7", 0), OPEN]);
            && c.conn.state == Connecting && c.sess.log == [] && Enabled(c, fail)
            && Next(c, fail).conn == c.conn && Next(c, fail).sess.log == [OnError(SystemError(32))]
  {
  }

  const GRACEFUL := Config(true, true)

  lemma ToResumedGraceful()
    ensures Enabled(Answered(0, GRACEFUL), RESUME)
    ensures Next(Answered(0, GRACEFUL), RESUME) == Resumed(GRACEFUL, [], [LogInRsp(1, 1, "7", 0)])
  {
    assert HandlerTasks(0, OpenHandler, []) == [];
    assert Next(Answered(0, GRACEFUL), RESUME).link.queue == [];
    assert Next(Answered(0, GRACEFUL), RESUME).conn.dones == [Done(0, None, [], [])];
  }

  /** The end message and a channel failure compete in a session that finishes gracefully; the first one is told. */
  lemma EndComesFirst() returns (states: seq<Client>, steps: seq<Step>)
    ensures Run(states, steps) && |states| == 9 && states[6].link.queue == [EndTask, ErrorTask(0, SystemError(104))]
    ensures states[8].conn.state == InPeer && states[8].sess.log == [OnError(SessionFinished)]
  {
    hide Next, Enabled, Run, Answered, Resumed;
    states, steps := RunToAnswered(0, GRACEFUL);
    ToResumedGraceful();
    var c := Resumed(GRACEFUL, [], [LogInRsp(1, 1, "7", 0)]);
    EndCompetes(c);
    states, steps := ExtendRun(states, steps, RESUME);
    states, steps := ExtendRun(states, steps, DoComplete(None));
    states, steps := ExtendRun(states, steps, DoDeliver(GracefulSessionEnd));
    states, steps := ExtendRun(states, steps, DoFail(SystemError(104)));
    states, steps := ExtendRun(states, steps, DoTask(NO_OPS));
    states, steps := ExtendRun(states, steps, DoTask(NO_OPS));
  }

  lemma EndCompetes(c: Client)
    requires c == Resumed(GRACEFUL, [], [LogInRsp(1, 1, "7", 0)])
    ensures Enabled(c, DoComplete(None))
    ensures var c1 := Next(c, DoComplete(None));
            && Enabled(c1, DoDeliver(GracefulSessionEnd))
            && var c2 := Next(c1, DoDeliver(GracefulSessionEnd));
               && Enabled(c2, DoFail(SystemError(104)))
               && var c3 := Next(c2, DoFail(SystemError(104)));
                  && c3.link.queue == [EndTask, ErrorTask(0, SystemError(104))] && Enabled(c3, DoTask(NO_OPS))
                  && var c4 := Next(c3, DoTask(NO_OPS));
                     && Enabled(c4, DoTask(NO_OPS))
                     && Next(c4, DoTask(NO_OPS)).sess.log == [OnError(SessionFinished)]
                     && Next(c4, DoTask(NO_OPS)).conn.state == InPeer
  {
    var c1 := Next(c, DoComplete(None));
    assert Enabled(c, DoComplete(None)) && JustCompleted(c1) by { Completed(c); }
    hide Resumed, Complete;
    var c2 := Next(c1, DoDeliver(GracefulSessionEnd));
    assert c2.link.queue == [EndTask] && Up(c2.link) && c2.link.chan.value.id == 0;
    assert c2.conn == c1.conn && c2.sess == c1.sess;
    var c3 := Next(c2, DoFail(SystemError(104)));
    assert c3.link.queue == [EndTask, ErrorTask(0, SystemError(104))] && c3.conn == c1.conn && c3.sess == c1.sess;
    EndThenError(c3);
  }

  lemma Completed(c: Client)
    requires c == Resumed(GRACEFUL, [], [LogInRsp(1, 1, "7", 0)])
    ensures Enabled(c, DoComplete(None)) && JustCompleted(Next(c, DoComplete(None)))
  {
  }

  ghost predicate JustCompleted(c: Client) {
    && Up(c.link) && c.link.chan.value == Chan(0, true, false, OpenHandler, [], EndExpected) && c.link.queue == []
    && c.conn.state == InPeer && c.sess == Sess(None, None, [], true) && c.cfg == GRACEFUL
  }

  lemma EndThenError(c: Client)
    requires c.link.queue == [EndTask, ErrorTask(0, SystemError(104))]
    requires c.conn.state == InPeer && c.sess == Sess(None, None, [], true)
    ensures Enabled(c, DoTask(NO_OPS))
    ensures var c' := Next(c, DoTask(NO_OPS));
            && Enabled(c', DoTask(NO_OPS))
            && Next(c', DoTask(NO_OPS)).sess.log == [OnError(SessionFinished)]
            && Next(c', DoTask(NO_OPS)).conn.state == InPeer
  {
    assert Next(c, DoTask(NO_OPS)).link.queue == [ErrorTask(0, SystemError(104))];
  }
}
