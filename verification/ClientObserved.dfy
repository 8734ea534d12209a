/** What is seen of a client object from outside, step by step: the executions of its completion handlers, the events told
    to its user, the messages it sends and the tasks it posts.  Each is said here in one place for all kinds of steps, on
    the fields of the state before the step and what the step was given; the model says it function by function. */
module ClientObserved {
  import opened MasterChannel
  import opened ClientModel
  import opened ClientRuns
  import opened ClientCancels

  function Opt<T>(o: Option<T>): seq<T> {
    if o.Some? then [o.value] else []
  }

  /** An attempt is started. */
  predicate Starts(c: Client, s: Step) {
    s.DoConnect? && c.conn.state == Null
  }

  /** And gets as far as a new channel. */
  predicate Requests(c: Client, s: Step) {
    Starts(c, s) && s.run.Requested?
  }

  /** The task about the last init-channel of the current channel, which is up. */
  predicate LastInit(c: Client, s: Step) {
    && s.DoTask? && c.link.queue != [] && c.link.queue[0].InitTask? && c.link.queue[0].req.msg.ToClientReq?
    && Up(c.link) && c.link.queue[0].chan == c.link.chan.value.id && |c.init| + 1 == c.link.queue[0].n
  }

  /** And the handlers are switched. */
  predicate Acks(c: Client, s: Step) {
    LastInit(c, s) && s.ops.late1.None? && s.ops.late2.None?
  }

  /** An open request is handled on a channel that is up, in a session not hosed. */
  predicate Answers(c: Client, s: Step) {
    && s.DoTask? && c.link.queue != [] && c.link.queue[0].OpenTask? && c.link.queue[0].req.msg.ToClientReq?
    && c.sess.hosed.None? && Up(c.link)
  }

  /** The log-in response is handled, and is good. */
  predicate Welcomes(c: Client, s: Step) {
    && s.DoTask? && c.link.queue != [] && c.link.queue[0].LogInRspTask?
    && LogInRspError(c.args, c.link.queue[0].rsp.msg).None?
  }

  /** How many init-channels a good log-in response leads to. */
  function Expected(c: Client, m: Msg): nat
    requires m.LogInRsp?
  {
    m.nSrv + match c.args.nCli case Some(k) => k case None => 0
  }

  /** The response to the request that W waits for. */
  predicate Responds(c: Client, s: Step) {
    s.DoDeliver? && Up(c.link) && !c.link.chan.value.loginPending && s.m.ToServerRsp? && c.sess.wait == Some(s.m.to)
  }

  /** What a `send()` of the step is to come to, if it has one and the channel is up. */
  function Sends(c: Client, s: Step): Option<SendOp> {
    if Requests(c, s) then Some(s.run.op)
    else if Acks(c, s) || Answers(c, s) then Some(s.ops.op)
    else if s.DoOpen? && c.sess.hosed.None? && Up(c.link) then Some(s.op)
    else if s.DoEnd? && Up(c.link) then Some(s.op)
    else None
  }

  /** The channel fails in the background. */
  function FailsLate(c: Client, s: Step): Option<Error> {
    if Sends(c, s).Some? && Sends(c, s).value.SendLate? then Some(Sends(c, s).value.e)
    else if s.DoFail? then Some(s.e)
    else if s.DoEndWait? && s.end.WaitLate? && Up(c.link) then Some(s.end.e)
    else if Welcomes(c, s) && Up(c.link) then s.ops.late1
    else if LastInit(c, s) then (if s.ops.late1.Some? then s.ops.late1 else s.ops.late2)
    else None
  }

  /** The channel fails in a call that says so. */
  function FailsNow(c: Client, s: Step): Option<Error> {
    if Sends(c, s).Some? && Sends(c, s).value.SendFails? then Some(Sends(c, s).value.e)
    else if s.DoEndWait? && s.end.WaitFails? && Up(c.link) then Some(s.end.e)
    else None
  }

  predicate Sent(c: Client, s: Step) {
    Sends(c, s) == Some(SendOk)
  }

  // ----- What is seen -----

  /** The execution of a completion handler: always of the oldest that has not run. */
  function DoneOf(c: Client, s: Step): Option<Done> {
    var t := |c.conn.dones|;
    if Starts(c, s) then
      match s.run
      case NoNamespace(e) => Some(Done(t, Some(e), [], []))
      case NoSocket(_, e) => Some(Done(t, Some(e), [], []))
      case Requested(_, op) => if op.SendFails? then Some(Done(t, Some(op.e), [], [])) else None
    else if s.DoComplete? then Some(Done(t, s.err, [], []))
    else if !s.DoTask? || c.link.queue == [] then None
    else match c.link.queue[0]
      case LogInRspTask(x) =>
        if !Welcomes(c, s) then Some(Done(t, LogInRspError(c.args, x.msg), [], []))
        else if Expected(c, x.msg) == 0 && Up(c.link) && s.ops.late1.None? then Some(Done(t, None, [], []))
        else None
      case InitTask(_, n, x) =>
        if !Acks(c, s) || s.ops.op.SendLate? then None
        else if s.ops.op.SendFails? then Some(Done(t, Some(s.ops.op.e), [], []))
        else
          var all := c.init + [Peer(x.msg.c2s, x.msg.s2c)];
          var k := match c.args.nCli case Some(k) => k case None => 0;
          if k > |all| then None
          else Some(Done(t, None, all[..k], if c.args.wantsSrv then all[k..] else []))
      case ErrorTask(ch, e) =>
        if c.conn.state == Connecting && c.link.chan.Some? && c.link.chan.value.id == ch then Some(Done(t, Some(e), [], []))
        else None
      case _ => None
  }

  function StateAfter(c: Client, s: Step): State {
    var d := DoneOf(c, s);
    if d.None? then if Starts(c, s) then Connecting else c.conn.state
    else if d.value.result.Some? then Null
    else if !s.DoTask? then InPeer
    else match s.ops.wrapper
      case Keep => InPeer
      case ToNull => Null
      case ToConnecting => Connecting
  }

  /** What the user is told. */
  function EventOf(c: Client, s: Step): Option<Event> {
    if FailsNow(c, s).Some? && !Requests(c, s) && !Acks(c, s) && !s.DoEnd? then Some(OnError(FailsNow(c, s).value))
    else if Responds(c, s) && s.m.result == Accepted then Some(ActiveOpen(s.m.to, Peer(s.m.c2s, s.m.s2c)))
    else if !s.DoTask? || c.link.queue == [] then None
    else match c.link.queue[0]
      case OpenTask(x) =>
        if Answers(c, s) && s.ops.op == SendOk && c.cfg.passiveEnabled
        then Some(PassiveOpen(x.id, Peer(x.msg.c2s, x.msg.s2c))) else None
      case ErrorTask(ch, e) =>
        if c.conn.state == InPeer && c.link.chan.Some? && c.link.chan.value.id == ch && c.sess.hosed.None?
        then Some(OnError(e)) else None
      case EndTask => if c.sess.hosed.None? then Some(OnError(SessionFinished)) else None
      case _ => None
  }

  function HosedAfter(c: Client, s: Step): Option<Error> {
    var e := EventOf(c, s);
    if e.Some? && e.value.OnError? then Some(e.value.e) else c.sess.hosed
  }

  function WaitAfter(c: Client, s: Step): Option<nat> {
    if s.DoOpen? && Sent(c, s) then Some(|c.link.sent|)
    else if s.DoEndWait? || Responds(c, s) then None
    else c.sess.wait
  }

  /** The messages sent on the current channel. */
  function SentAfter(c: Client, s: Step): seq<Msg> {
    if Requests(c, s) then
      (if Sent(c, s) then [LogInReq(1, 1, match s.args.nCli case Some(k) => k case None => 0)] else [])
    else if !Sent(c, s) then c.link.sent
    else if Acks(c, s) then c.link.sent + [ToClientRsp(c.link.queue[0].req.id, Accepted)]
    else if Answers(c, s) then
      c.link.sent + [ToClientRsp(c.link.queue[0].req.id, if c.cfg.passiveEnabled then Accepted else RejectedPassiveOpen)]
    else if s.DoOpen? then c.link.sent + [ToServerReq]
    else c.link.sent + [GracefulSessionEnd]
  }

  function RecvAfter(c: Client, s: Step): seq<Msg> {
    if Requests(c, s) then [] else if s.DoDeliver? then c.link.recv + [s.m] else c.link.recv
  }

  /** The tasks posted onto W. */
  function Posted(c: Client, s: Step): seq<Task> {
    if FailsLate(c, s).Some? then
      if Requests(c, s) then [ErrorTask(c.link.nextChan, FailsLate(c, s).value)]
      else if c.link.chan.Some? then [ErrorTask(c.link.chan.value.id, FailsLate(c, s).value)] else []
    else if !Up(c.link) then []
    else
      var ch := c.link.chan.value;
      match s
      case DoDeliver(m) =>
        var x := Inbound(|c.link.recv|, m);
        if ch.loginPending then [LogInRspTask(x)]
        else if m.ToClientReq? then
          (match ch.handler case NoHandler => [] case InitHandler(n) => [InitTask(ch.id, n, x)] case OpenHandler => [OpenTask(x)])
        else if m.GracefulSessionEnd? && ch.end == EndExpected then [EndTask]
        else []
      case DoTask(_) =>
        if !Welcomes(c, s) then []
        else
          var n := Expected(c, c.link.queue[0].rsp.msg);
          seq(|ch.cache|, i requires 0 <= i < |ch.cache| =>
                if n == 0 then OpenTask(ch.cache[i]) else InitTask(ch.id, n, ch.cache[i]))
      case DoComplete(None) => if c.cfg.graceful && ch.end == EndCached then [EndTask] else []
      case _ => []
  }

  /** Is there a channel that is up. */
  predicate UpAfter(c: Client, s: Step) {
    if Requests(c, s) then Sent(c, s)
    else
      && Up(c.link) && FailsLate(c, s).None? && FailsNow(c, s).None?
      && (DoneOf(c, s).Some? ==> StateAfter(c, s) != Null)
  }

  /** The namespaces, and what the attempt was given. */
  function SrvNsAfter(c: Client, s: Step): Option<string> {
    if !Starts(c, s) then c.srvNs
    else match s.run
      case NoNamespace(_) => c.srvNs
      case NoSocket(ns, _) => Some(ns)
      case Requested(ns, _) => Some(ns)
  }

  function CliNsAfter(c: Client, s: Step): Option<string> {
    if Welcomes(c, s) then Some(c.link.queue[0].rsp.msg.ns) else c.cliNs
  }

  ghost predicate ConnSeen(c: Client, s: Step, c': Client) {
    && c'.conn.dones == c.conn.dones + Opt(DoneOf(c, s)) && c'.conn.state == StateAfter(c, s)
    && c'.srvNs == SrvNsAfter(c, s) && c'.cliNs == CliNsAfter(c, s)
    && c'.args == (if Starts(c, s) then s.args else c.args)
  }

  ghost predicate SessSeen(c: Client, s: Step, c': Client) {
    && c'.sess.log == c.sess.log + Opt(EventOf(c, s)) && c'.sess.hosed == HosedAfter(c, s)
    && c'.sess.wait == WaitAfter(c, s)
    && c'.sess.finisher == (c.sess.finisher || (s == DoComplete(None) && c.cfg.graceful))
  }

  ghost predicate MsgsSeen(c: Client, s: Step, c': Client) {
    && c'.link.sent == SentAfter(c, s) && c'.link.recv == RecvAfter(c, s)
    && c'.link.queue == (if s.DoTask? && c.link.queue != [] then c.link.queue[1..] else c.link.queue) + Posted(c, s)
  }

  ghost predicate LinkSeen(c: Client, s: Step, c': Client) {
    MsgsSeen(c, s, c') && (Up(c'.link) <==> UpAfter(c, s))
  }

  // ----- The checks of the log-in response -----

  /** A log-in response is good if and only if both versions are at least 1, there is a container for the channels it
      announces, and the namespace is one; otherwise the code is that of the first of these that fails. */
  lemma LogInCodes(args: Args, m: Msg)
    ensures !m.LogInRsp? ==> LogInRspError(args, m) == Some(LogInResponseBad)
    ensures m.LogInRsp? && (m.ver < 1 || m.verAux < 1) ==> LogInRspError(args, m) == Some(ProtocolVersionUnsupported)
    ensures m.LogInRsp? && m.ver >= 1 && m.verAux >= 1 ==>
              && (m.nSrv > 0 && !args.wantsSrv ==> LogInRspError(args, m) == Some(InvalidArgument))
              && (m.nSrv == 0 || args.wantsSrv ==>
                    LogInRspError(args, m) == if m.ns == "" || m.ns == "0" then Some(LogInResponseBad) else None)
  {
  }

  // ----- The model does what is seen -----

  ghost predicate Seen(c: Client, s: Step, c': Client) {
    ConnSeen(c, s, c') && SessSeen(c, s, c') && LinkSeen(c, s, c')
  }

  ghost predicate Good(c: Client) {
    Any(c) && Fits(c.args, c.link)
  }

  /** The stored handler is the oldest that has not run. */
  lemma Oldest(k: Conn)
    requires HandlersOnce(k)
    ensures k.state == Connecting <==> k.onDone.Some?
    ensures k.onDone.Some? ==> k.onDone.value == |k.dones|
    ensures k.onDone.None? ==> k.nextToken == |k.dones|
    ensures k.cancelled ==> k.state == Connecting
  {
  }

  lemma SeenConnect(c: Client, args: Args, run: ConnectRun)
    requires Any(c) && c.sess.wait.None?
    ensures Seen(c, DoConnect(args, run), Connect(c, args, run).0)
  {
    hide Any, Good, ConnSeen, SessSeen, LinkSeen;
    SeenConnectConn(c, args, run);
    SeenConnectSess(c, args, run);
    SeenConnectLink(c, args, run);
  }

  lemma SeenConnectConn(c: Client, args: Args, run: ConnectRun)
    requires Any(c) && c.sess.wait.None?
    ensures ConnSeen(c, DoConnect(args, run), Connect(c, args, run).0)
  {
    hide HandlersOnce, LinkAny, Attempt, ConnSeen;
    Oldest(c.conn);
    if c.conn.state == Null {
      NullFacts(c.conn.cancelled, c.link, |c.init|, c.sess.finisher);
      NotUp(c.conn.cancelled, c.link, |c.init|, c.sess.finisher);
      AttemptConn(c, args, run);
    } else {
      RefusedConn(c, args, run);
    }
  }

  lemma RefusedConn(c: Client, args: Args, run: ConnectRun)
    requires c.conn.state != Null
    ensures ConnSeen(c, DoConnect(args, run), c)
  {
  }

  lemma AttemptConn(c: Client, args: Args, run: ConnectRun)
    requires c.conn.state == Null && c.conn.nextToken == |c.conn.dones| && !Up(c.link)
    ensures ConnSeen(c, DoConnect(args, run), Attempt(c.(conn := Begin(c.conn, false), args := args), run))
  {
  }

  lemma SeenConnectSess(c: Client, args: Args, run: ConnectRun)
    requires Any(c) && c.sess.wait.None?
    ensures SessSeen(c, DoConnect(args, run), Connect(c, args, run).0)
  {
    hide HandlersOnce, LinkAny, Attempt, SessSeen;
    Oldest(c.conn);
    if c.conn.state == Null {
      NullFacts(c.conn.cancelled, c.link, |c.init|, c.sess.finisher);
      NotUp(c.conn.cancelled, c.link, |c.init|, c.sess.finisher);
      AttemptSess(c, args, run);
    } else {
      RefusedSess(c, args, run);
    }
  }

  lemma RefusedSess(c: Client, args: Args, run: ConnectRun)
    requires c.conn.state != Null
    ensures SessSeen(c, DoConnect(args, run), c)
  {
  }

  lemma AttemptSess(c: Client, args: Args, run: ConnectRun)
    requires c.conn.state == Null && c.conn.nextToken == |c.conn.dones| && !Up(c.link)
    ensures SessSeen(c, DoConnect(args, run), Attempt(c.(conn := Begin(c.conn, false), args := args), run))
  {
    hide Send, Finish;
  }

  lemma SeenConnectLink(c: Client, args: Args, run: ConnectRun)
    requires Any(c) && c.sess.wait.None?
    ensures LinkSeen(c, DoConnect(args, run), Connect(c, args, run).0)
  {
    hide HandlersOnce, LinkAny, Attempt, LinkSeen;
    Oldest(c.conn);
    if c.conn.state == Null {
      NullFacts(c.conn.cancelled, c.link, |c.init|, c.sess.finisher);
      NotUp(c.conn.cancelled, c.link, |c.init|, c.sess.finisher);
      AttemptLink(c, args, run);
    } else {
      RefusedLink(c, args, run);
    }
  }

  lemma RefusedLink(c: Client, args: Args, run: ConnectRun)
    requires c.conn.state != Null
    ensures LinkSeen(c, DoConnect(args, run), c)
  {
  }

  lemma AttemptLink(c: Client, args: Args, run: ConnectRun)
    requires c.conn.state == Null && c.conn.nextToken == |c.conn.dones| && !Up(c.link)
    ensures LinkSeen(c, DoConnect(args, run), Attempt(c.(conn := Begin(c.conn, false), args := args), run))
  {
    hide MsgsSeen, UpAfter, Attempt;
    AttemptMsgs(c, args, run);
    AttemptUp(c, args, run);
  }

  lemma AttemptMsgs(c: Client, args: Args, run: ConnectRun)
    requires c.conn.state == Null && c.conn.nextToken == |c.conn.dones| && !Up(c.link)
    ensures MsgsSeen(c, DoConnect(args, run), Attempt(c.(conn := Begin(c.conn, false), args := args), run))
  {
    hide MsgsSeen, Attempt;
    if run.Requested? {
      RequestMsgs(c, args, run);
    } else {
      NoSocketMsgs(c, args, run);
    }
  }

  lemma NoSocketMsgs(c: Client, args: Args, run: ConnectRun)
    requires c.conn.state == Null && !Up(c.link) && !run.Requested?
    ensures MsgsSeen(c, DoConnect(args, run), Attempt(c.(conn := Begin(c.conn, false), args := args), run))
  {
    hide Finish, Send;
  }

  lemma RequestMsgs(c: Client, args: Args, run: ConnectRun)
    requires c.conn.state == Null && run.Requested?
    ensures MsgsSeen(c, DoConnect(args, run), Attempt(c.(conn := Begin(c.conn, false), args := args), run))
  {
    hide Finish, DoneOf, StateAfter;
  }

  lemma AttemptUp(c: Client, args: Args, run: ConnectRun)
    requires c.conn.state == Null && c.conn.nextToken == |c.conn.dones| && !Up(c.link)
    ensures Up(Attempt(c.(conn := Begin(c.conn, false), args := args), run).link) <==> UpAfter(c, DoConnect(args, run))
  {
    hide Finish;
  }

  lemma NotUp(x: bool, l: Link, k: nat, fin: bool)
    requires LinkAny(Null, x, l, k, fin)
    ensures !Up(l)
  {
  }

  lemma SeenDeliver(c: Client, m: Msg)
    requires Any(c) && Up(c.link)
    ensures Seen(c, DoDeliver(m), Deliver(c, m))
  {
    hide Any, ConnSeen, SessSeen, LinkSeen;
    SeenDeliverConn(c, m);
    SeenDeliverSess(c, m);
    SeenDeliverLink(c, m);
  }

  lemma SeenDeliverConn(c: Client, m: Msg)
    requires Any(c) && Up(c.link)
    ensures ConnSeen(c, DoDeliver(m), Deliver(c, m))
  {
    hide HandlersOnce, LinkAny, Receive;
  }

  lemma SeenDeliverSess(c: Client, m: Msg)
    requires Any(c) && Up(c.link)
    ensures SessSeen(c, DoDeliver(m), Deliver(c, m))
  {
    hide HandlersOnce, LinkAny, Receive;
  }

  lemma SeenDeliverLink(c: Client, m: Msg)
    requires Any(c) && Up(c.link)
    ensures LinkSeen(c, DoDeliver(m), Deliver(c, m))
  {
    hide HandlersOnce, LinkAny;
  }

  lemma SeenRsp(c: Client, x: Inbound, ops: Ops)
    requires Good(c) && Enabled(c, DoTask(ops)) && c.link.queue[0] == LogInRspTask(x)
    ensures Seen(c, DoTask(ops), RunTask(c, ops))
  {
    hide HandlersOnce, LinkAny, LogInRspError, LoggedIn, ConnSeen, SessSeen, LinkSeen;
    Oldest(c.conn);
    AnyTakeLogIn(c.conn.state, c.conn.cancelled, c.link, |c.init|, c.sess.finisher);
    if LogInRspError(c.args, x.msg).Some? {
      SeenBadRsp(c, x, ops);
    } else {
      SeenGoodRsp(c, x, ops);
    }
  }

  lemma SeenBadRsp(c: Client, x: Inbound, ops: Ops)
    requires c.conn.state == Connecting && c.conn.onDone == Some(|c.conn.dones|)
    requires Enabled(c, DoTask(ops)) && c.link.queue[0] == LogInRspTask(x) && LogInRspError(c.args, x.msg).Some?
    ensures Seen(c, DoTask(ops), OnLogInRsp(Popped(c), x.msg, ops.late1, ops.wrapper))
  {
    hide LogInRspError;
  }

  lemma SeenGoodRsp(c: Client, x: Inbound, ops: Ops)
    requires c.conn.state == Connecting && c.conn.onDone == Some(|c.conn.dones|) && c.link.chan.Some?
    requires Enabled(c, DoTask(ops)) && c.link.queue[0] == LogInRspTask(x) && LogInRspError(c.args, x.msg).None?
    ensures Seen(c, DoTask(ops), OnLogInRsp(Popped(c), x.msg, ops.late1, ops.wrapper))
  {
    hide LogInRspError;
    hide ConnSeen, SessSeen, LinkSeen;
    RspConn(c, x, ops);
    RspSess(c, x, ops);
    RspLink(c, x, ops);
  }

  lemma RspConn(c: Client, x: Inbound, ops: Ops)
    requires c.conn.state == Connecting && c.conn.onDone == Some(|c.conn.dones|) && c.link.chan.Some?
    requires Enabled(c, DoTask(ops)) && c.link.queue[0] == LogInRspTask(x) && LogInRspError(c.args, x.msg).None?
    ensures ConnSeen(c, DoTask(ops), OnLogInRsp(Popped(c), x.msg, ops.late1, ops.wrapper))
  {
    hide LogInRspError, LoggedIn;
    var c1 := Check(Check(Popped(c), c.conn.state == Connecting && c.conn.onDone.Some?, LogInOutOfState),
                    c.cliNs.None?, SetTwice).(cliNs := Some(x.msg.ns));
    LoggedInConn(c1, Expected(c, x.msg), ops.late1, ops.wrapper);
  }

  lemma LoggedInConn(c: Client, n: nat, late: Option<Error>, w: Wrapper)
    requires c.link.chan.Some?
    ensures var c' := LoggedIn(c, n, late, w);
            && c'.srvNs == c.srvNs && c'.cliNs == c.cliNs && c'.args == c.args
            && (!(Up(c.link) && late.None? && n == 0) ==> c'.conn == c.conn)
            && (Up(c.link) && late.None? && n == 0 ==>
                  var k := Finish(c.conn, InPeer, None, [], []);
                  c'.conn == match w case Keep => k case ToNull => k.(state := Null) case ToConnecting => Begin(k, true))
  {
    hide Finish, HandlerTasks;
  }

  lemma RspSess(c: Client, x: Inbound, ops: Ops)
    requires c.conn.state == Connecting && c.link.chan.Some?
    requires Enabled(c, DoTask(ops)) && c.link.queue[0] == LogInRspTask(x) && LogInRspError(c.args, x.msg).None?
    ensures SessSeen(c, DoTask(ops), OnLogInRsp(Popped(c), x.msg, ops.late1, ops.wrapper))
  {
    hide LogInRspError, Expect, Finish;
  }

  lemma RspLink(c: Client, x: Inbound, ops: Ops)
    requires c.conn.state == Connecting && c.link.chan.Some?
    requires Enabled(c, DoTask(ops)) && c.link.queue[0] == LogInRspTask(x) && LogInRspError(c.args, x.msg).None?
    ensures LinkSeen(c, DoTask(ops), OnLogInRsp(Popped(c), x.msg, ops.late1, ops.wrapper))
  {
    hide LogInRspError, LinkSeen, LoggedIn;
    var c1 := Check(Check(Popped(c), c.conn.state == Connecting && c.conn.onDone.Some?, LogInOutOfState),
                    c.cliNs.None?, SetTwice).(cliNs := Some(x.msg.ns));
    LoggedInLink(c1, Expected(c, x.msg), ops.late1, ops.wrapper);
    RspLinkIs(c, x, ops, LoggedIn(c1, Expected(c, x.msg), ops.late1, ops.wrapper));
  }

  /** What becomes of the channel and the queue once the response is good. */
  ghost predicate LinkLoggedIn(l: Link, n: nat, late: Option<Error>, w: Wrapper, l': Link)
    requires l.chan.Some?
  {
    var ch := l.chan.value;
    && l'.sent == l.sent && l'.recv == l.recv
    && (!Up(l) ==> l' == l)
    && (Up(l) && late.Some? ==> l'.queue == l.queue + [ErrorTask(ch.id, late.value)] && !Up(l'))
    && (Up(l) && late.None? ==>
          && l'.queue == l.queue + HandlerTasks(ch.id, if n == 0 then OpenHandler else InitHandler(n), ch.cache)
          && (Up(l') <==> !(n == 0 && w == ToNull)))
  }

  lemma LoggedInLink(c: Client, n: nat, late: Option<Error>, w: Wrapper)
    requires c.link.chan.Some?
    ensures LinkLoggedIn(c.link, n, late, w, LoggedIn(c, n, late, w).link)
  {
    hide Finish, HandlerTasks;
  }

  lemma RspLinkIs(c: Client, x: Inbound, ops: Ops, c': Client)
    requires c.conn.state == Connecting && c.link.chan.Some?
    requires Enabled(c, DoTask(ops)) && c.link.queue[0] == LogInRspTask(x) && LogInRspError(c.args, x.msg).None?
    requires LinkLoggedIn(Pop(c.link), Expected(c, x.msg), ops.late1, ops.wrapper, c'.link)
    ensures LinkSeen(c, DoTask(ops), c')
  {
    hide LogInRspError;
  }

  lemma SeenInit(c: Client, ch: nat, n: nat, x: Inbound, ops: Ops)
    requires Good(c) && Enabled(c, DoTask(ops)) && c.link.queue[0] == InitTask(ch, n, x)
    ensures Seen(c, DoTask(ops), RunTask(c, ops))
  {
    hide HandlersOnce, LinkAny, AckInit, Seen;
    Oldest(c.conn);
    if LastInit(c, DoTask(ops)) {
      AtInit(c.conn.state, c.conn.cancelled, c.link, |c.init|, c.sess.finisher);
      assert c.link.chan.value.cache == [] by { NoneCachedAny(c); }
      SizedAtLast(c);
      SeenLastInit(c, x, ops);
    } else {
      SeenOtherInit(c, ch, n, x, ops);
    }
  }

  lemma SeenOtherInit(c: Client, ch: nat, n: nat, x: Inbound, ops: Ops)
    requires Enabled(c, DoTask(ops)) && c.link.queue[0] == InitTask(ch, n, x) && !LastInit(c, DoTask(ops))
    ensures Seen(c, DoTask(ops), RunTask(c, ops))
  {
    hide Any, ConnSeen, SessSeen, LinkSeen;
    SeenOtherInitConn(c, ch, n, x, ops);
    SeenOtherInitSess(c, ch, n, x, ops);
    SeenOtherInitLink(c, ch, n, x, ops);
  }

  lemma SeenOtherInitConn(c: Client, ch: nat, n: nat, x: Inbound, ops: Ops)
    requires Enabled(c, DoTask(ops)) && c.link.queue[0] == InitTask(ch, n, x) && !LastInit(c, DoTask(ops))
    ensures ConnSeen(c, DoTask(ops), RunTask(c, ops))
  {
    hide AckInit;
    if c.link.chan.Some? && c.link.chan.value.id == ch && |c.init| + 1 == n {
      var c1 := Check(Popped(c), c.conn.state == Connecting && c.conn.onDone.Some?, InitOutOfState);
      AckRefused(Check(c1, |c.init| < n, InitOverflow).(init := c.init + [ClientPeer(x.msg.c2s, x.msg.s2c)]), x.id, ops);
    }
  }

  lemma SeenOtherInitSess(c: Client, ch: nat, n: nat, x: Inbound, ops: Ops)
    requires Enabled(c, DoTask(ops)) && c.link.queue[0] == InitTask(ch, n, x) && !LastInit(c, DoTask(ops))
    ensures SessSeen(c, DoTask(ops), RunTask(c, ops))
  {
    hide AckInit;
    if c.link.chan.Some? && c.link.chan.value.id == ch && |c.init| + 1 == n {
      var c1 := Check(Popped(c), c.conn.state == Connecting && c.conn.onDone.Some?, InitOutOfState);
      AckRefused(Check(c1, |c.init| < n, InitOverflow).(init := c.init + [ClientPeer(x.msg.c2s, x.msg.s2c)]), x.id, ops);
    }
  }

  lemma SeenOtherInitLink(c: Client, ch: nat, n: nat, x: Inbound, ops: Ops)
    requires Enabled(c, DoTask(ops)) && c.link.queue[0] == InitTask(ch, n, x) && !LastInit(c, DoTask(ops))
    ensures LinkSeen(c, DoTask(ops), RunTask(c, ops))
  {
    hide AckInit;
    if c.link.chan.Some? && c.link.chan.value.id == ch && |c.init| + 1 == n {
      var c1 := Check(Popped(c), c.conn.state == Connecting && c.conn.onDone.Some?, InitOutOfState);
      AckRefused(Check(c1, |c.init| < n, InitOverflow).(init := c.init + [ClientPeer(x.msg.c2s, x.msg.s2c)]), x.id, ops);
    }
  }

  lemma NoneCachedAny(c: Client)
    requires Any(c) && c.link.chan.Some? && c.link.chan.value.handler != NoHandler
    ensures c.link.chan.value.cache == []
  {
    hide HandlersOnce, LogInOnce, InitsOk, StateOk, EndOk;
  }

  lemma SeenLastInit(c: Client, x: Inbound, ops: Ops)
    requires c.conn.state == Connecting && c.conn.onDone == Some(|c.conn.dones|)
    requires Enabled(c, DoTask(ops)) && LastInit(c, DoTask(ops)) && c.link.queue[0].req == x
    requires c.link.chan.value.cache == [] && Sized(c.args, |c.init| + 1)
    ensures Seen(c, DoTask(ops), RunTask(c, ops))
  {
    hide SwitchAndAck, AckInit, ConnSeen, SessSeen, LinkSeen;
    SwitchForms(Pop(c.link), x.id, ops);
    LastConn(c, x, ops);
    LastSess(c, x, ops);
    LastLink(c, x, ops);
  }

  /** The state in which the last init-channel is acknowledged. */
  ghost function Collected(c: Client, x: Inbound): Client
    requires c.link.queue != [] && x.msg.ToClientReq?
  {
    var c1 := Check(Popped(c), c.conn.state == Connecting && c.conn.onDone.Some?, InitOutOfState);
    Check(c1, true, InitOverflow).(init := c.init + [Peer(x.msg.c2s, x.msg.s2c)])
  }

  lemma LastIsAck(c: Client, x: Inbound, ops: Ops)
    requires Enabled(c, DoTask(ops)) && LastInit(c, DoTask(ops)) && c.link.queue[0].req == x
    ensures RunTask(c, ops) == AckInit(Collected(c, x), x.id, ops)
  {
    hide AckInit;
  }

  lemma AckShape(c: Client, id: nat, ops: Ops)
    requires c.link.chan.Some?
    ensures var (l, r), c' := SwitchAndAck(c.link, id, ops), AckInit(c, id, ops);
            && c'.link == (if r.Sent? && ops.wrapper == ToNull then l.(chan := None) else l)
            && (r.Refused? ==> c'.conn == c.conn)
            && (r.Failed? ==> c'.conn == Finish(c.conn, Null, Some(r.e), [], []))
            && (r.Sent? ==>
                  var k := Finish(c.conn, InPeer, None, ByCli(c), BySrv(c));
                  c'.conn == match ops.wrapper case Keep => k case ToNull => k.(state := Null) case ToConnecting => Begin(k, true))
            && c'.srvNs == c.srvNs && c'.cliNs == c.cliNs && c'.args == c.args
  {
    hide SwitchAndAck, Finish, ByCli, BySrv;
  }

  lemma LastConn(c: Client, x: Inbound, ops: Ops)
    requires c.conn.state == Connecting && c.conn.onDone == Some(|c.conn.dones|)
    requires Enabled(c, DoTask(ops)) && LastInit(c, DoTask(ops)) && c.link.queue[0].req == x
    requires c.link.chan.value.cache == [] && Sized(c.args, |c.init| + 1)
    ensures ConnSeen(c, DoTask(ops), RunTask(c, ops))
  {
    hide SwitchAndAck, HoseAsync, Down, AckInit, RunTask;
    LastIsAck(c, x, ops);
    AckShape(Collected(c, x), x.id, ops);
    SwitchForms(Pop(c.link), x.id, ops);
  }

  lemma LastSess(c: Client, x: Inbound, ops: Ops)
    requires c.conn.state == Connecting
    requires Enabled(c, DoTask(ops)) && LastInit(c, DoTask(ops)) && c.link.queue[0].req == x
    ensures SessSeen(c, DoTask(ops), RunTask(c, ops))
  {
    hide SwitchAndAck, Finish, ByCli, BySrv;
  }

  lemma LastLink(c: Client, x: Inbound, ops: Ops)
    requires c.conn.state == Connecting
    requires Enabled(c, DoTask(ops)) && LastInit(c, DoTask(ops)) && c.link.queue[0].req == x
    requires c.link.chan.value.cache == [] && Sized(c.args, |c.init| + 1)
    ensures LinkSeen(c, DoTask(ops), RunTask(c, ops))
  {
    hide RunTask, MsgsSeen, UpAfter;
    LastMsgs(c, x, ops);
    LastUp(c, x, ops);
  }

  lemma LastMsgs(c: Client, x: Inbound, ops: Ops)
    requires c.conn.state == Connecting
    requires Enabled(c, DoTask(ops)) && LastInit(c, DoTask(ops)) && c.link.queue[0].req == x
    requires c.link.chan.value.cache == []
    ensures MsgsSeen(c, DoTask(ops), RunTask(c, ops))
  {
    hide SwitchAndAck, AckInit, RunTask, Finish, ByCli, BySrv, Begin;
    LastIsAck(c, x, ops);
    AckShape(Collected(c, x), x.id, ops);
    SwitchForms(Pop(c.link), x.id, ops);
  }

  lemma LastUp(c: Client, x: Inbound, ops: Ops)
    requires c.conn.state == Connecting
    requires Enabled(c, DoTask(ops)) && LastInit(c, DoTask(ops)) && c.link.queue[0].req == x
    requires c.link.chan.value.cache == [] && Sized(c.args, |c.init| + 1)
    ensures Up(RunTask(c, ops).link) <==> UpAfter(c, DoTask(ops))
  {
    hide SwitchAndAck, AckInit, RunTask, Finish, ByCli, BySrv, Begin;
    LastIsAck(c, x, ops);
    AckShape(Collected(c, x), x.id, ops);
    SwitchForms(Pop(c.link), x.id, ops);
  }

  lemma SeenOpenReq(c: Client, x: Inbound, ops: Ops)
    requires Good(c) && Enabled(c, DoTask(ops)) && c.link.queue[0] == OpenTask(x)
    ensures Seen(c, DoTask(ops), RunTask(c, ops))
  {
    hide Any, Good, ConnSeen, SessSeen, LinkSeen;
    SeenOpenReqConn(c, x, ops);
    SeenOpenReqSess(c, x, ops);
    SeenOpenReqLink(c, x, ops);
  }

  lemma SeenOpenReqConn(c: Client, x: Inbound, ops: Ops)
    requires Good(c) && Enabled(c, DoTask(ops)) && c.link.queue[0] == OpenTask(x)
    ensures ConnSeen(c, DoTask(ops), RunTask(c, ops))
  {
    hide HandlersOnce, LinkAny, Send;
  }

  lemma SeenOpenReqSess(c: Client, x: Inbound, ops: Ops)
    requires Good(c) && Enabled(c, DoTask(ops)) && c.link.queue[0] == OpenTask(x)
    ensures SessSeen(c, DoTask(ops), RunTask(c, ops))
  {
    hide HandlersOnce, LinkAny;
  }

  lemma SeenOpenReqLink(c: Client, x: Inbound, ops: Ops)
    requires Good(c) && Enabled(c, DoTask(ops)) && c.link.queue[0] == OpenTask(x)
    ensures LinkSeen(c, DoTask(ops), RunTask(c, ops))
  {
    hide HandlersOnce, LinkAny;
  }

  lemma SeenError(c: Client, ch: nat, e: Error, ops: Ops)
    requires Good(c) && Enabled(c, DoTask(ops)) && c.link.queue[0] == ErrorTask(ch, e)
    ensures Seen(c, DoTask(ops), RunTask(c, ops))
  {
    hide Any, Good, ConnSeen, SessSeen, LinkSeen;
    SeenErrorConn(c, ch, e, ops);
    SeenErrorSess(c, ch, e, ops);
    SeenErrorLink(c, ch, e, ops);
  }

  lemma SeenErrorConn(c: Client, ch: nat, e: Error, ops: Ops)
    requires Good(c) && Enabled(c, DoTask(ops)) && c.link.queue[0] == ErrorTask(ch, e)
    ensures ConnSeen(c, DoTask(ops), RunTask(c, ops))
  {
    hide HandlersOnce, LinkAny;
    Oldest(c.conn);
    if c.link.chan.Some? {
      ErrorNotInNull(c.conn.state, c.conn.cancelled, c.link, |c.init|, c.sess.finisher);
    }
  }

  lemma SeenErrorSess(c: Client, ch: nat, e: Error, ops: Ops)
    requires Good(c) && Enabled(c, DoTask(ops)) && c.link.queue[0] == ErrorTask(ch, e)
    ensures SessSeen(c, DoTask(ops), RunTask(c, ops))
  {
    hide HandlersOnce, LinkAny, Finish;
    Oldest(c.conn);
    if c.link.chan.Some? {
      ErrorNotInNull(c.conn.state, c.conn.cancelled, c.link, |c.init|, c.sess.finisher);
    }
  }

  lemma SeenErrorLink(c: Client, ch: nat, e: Error, ops: Ops)
    requires Good(c) && Enabled(c, DoTask(ops)) && c.link.queue[0] == ErrorTask(ch, e)
    ensures LinkSeen(c, DoTask(ops), RunTask(c, ops))
  {
    hide HandlersOnce, LinkAny, Finish;
    Oldest(c.conn);
    if c.link.chan.Some? {
      ErrorNotInNull(c.conn.state, c.conn.cancelled, c.link, |c.init|, c.sess.finisher);
    }
  }

  lemma ErrorNotInNull(state: State, x: bool, l: Link, k: nat, fin: bool)
    requires LinkAny(state, x, l, k, fin) && l.queue != [] && l.queue[0].ErrorTask? && l.chan.Some?
    ensures l.queue[0].chan == l.chan.value.id ==> state != Null && !Up(l)
  {
    assert l.queue[0].chan == l.chan.value.id ==> ErrorQueued(l);
  }

  lemma SeenEnd(c: Client, ops: Ops)
    requires Good(c) && Enabled(c, DoTask(ops)) && c.link.queue[0].EndTask?
    ensures Seen(c, DoTask(ops), RunTask(c, ops))
  {
    hide HandlersOnce, LinkAny;
  }

  lemma SeenOpen(c: Client, op: SendOp)
    requires Good(c) && Enabled(c, DoOpen(op))
    ensures Seen(c, DoOpen(op), OpenStart(c, op).0)
  {
    hide Any, Good, ConnSeen, SessSeen, LinkSeen;
    SeenOpenConn(c, op);
    SeenOpenSess(c, op);
    SeenOpenLink(c, op);
  }

  lemma SeenOpenConn(c: Client, op: SendOp)
    requires Good(c) && Enabled(c, DoOpen(op))
    ensures ConnSeen(c, DoOpen(op), OpenStart(c, op).0)
  {
    hide HandlersOnce, LinkAny, Send;
  }

  lemma SeenOpenSess(c: Client, op: SendOp)
    requires Good(c) && Enabled(c, DoOpen(op))
    ensures SessSeen(c, DoOpen(op), OpenStart(c, op).0)
  {
    hide HandlersOnce, LinkAny;
  }

  lemma SeenOpenLink(c: Client, op: SendOp)
    requires Good(c) && Enabled(c, DoOpen(op))
    ensures LinkSeen(c, DoOpen(op), OpenStart(c, op).0)
  {
    hide HandlersOnce, LinkAny;
  }

  lemma SeenEndWait(c: Client, end: WaitEnd)
    requires Good(c) && Enabled(c, DoEndWait(end))
    ensures Seen(c, DoEndWait(end), OpenUnanswered(c, end))
  {
    hide HandlersOnce, LinkAny;
  }

  lemma SeenComplete(c: Client, err: Option<Error>)
    requires Good(c) && Enabled(c, DoComplete(err))
    ensures Seen(c, DoComplete(err), Complete(c, err))
  {
    hide Any, ConnSeen, SessSeen, LinkSeen;
    SeenCompleteConn(c, err);
    SeenCompleteSess(c, err);
    SeenCompleteLink(c, err);
  }

  lemma SeenCompleteConn(c: Client, err: Option<Error>)
    requires Good(c) && Enabled(c, DoComplete(err))
    ensures ConnSeen(c, DoComplete(err), Complete(c, err))
  {
    hide HandlersOnce, LinkAny, ExpectEnd;
    AnyComplete(c, err);
    Oldest(c.conn);
  }

  lemma SeenCompleteSess(c: Client, err: Option<Error>)
    requires Good(c) && Enabled(c, DoComplete(err))
    ensures SessSeen(c, DoComplete(err), Complete(c, err))
  {
    hide HandlersOnce, LinkAny, Finish, ExpectEnd;
    AnyComplete(c, err);
    Oldest(c.conn);
  }

  lemma SeenCompleteLink(c: Client, err: Option<Error>)
    requires Good(c) && Enabled(c, DoComplete(err))
    ensures LinkSeen(c, DoComplete(err), Complete(c, err))
  {
    hide HandlersOnce, LinkAny, Finish;
    AnyComplete(c, err);
    Oldest(c.conn);
  }

  lemma SeenSendEnd(c: Client, op: SendOp)
    requires Good(c) && Enabled(c, DoEnd(op))
    ensures Seen(c, DoEnd(op), SendEnd(c, op))
  {
    hide HandlersOnce, LinkAny;
  }

  lemma SeenFail(c: Client, e: Error)
    requires Good(c) && Up(c.link)
    ensures Seen(c, DoFail(e), c.(link := HoseAsync(c.link, e)))
  {
    hide HandlersOnce, LinkAny;
  }

  lemma SeenTask(c: Client, ops: Ops)
    requires Good(c) && Enabled(c, DoTask(ops))
    ensures Seen(c, DoTask(ops), RunTask(c, ops))
  {
    hide Good, Seen, RunTask;
    match c.link.queue[0]
    case LogInRspTask(x) => SeenRsp(c, x, ops);
    case InitTask(ch, n, x) => SeenInit(c, ch, n, x, ops);
    case OpenTask(x) => SeenOpenReq(c, x, ops);
    case ErrorTask(ch, e) => SeenError(c, ch, e, ops);
    case EndTask => SeenEnd(c, ops);
  }

  lemma SeenStep(c: Client, s: Step)
    requires Good(c) && Enabled(c, s)
    ensures Seen(c, s, Next(c, s))
  {
    hide Any, Seen, Connect, Deliver, RunTask, OpenStart, OpenUnanswered, Complete, SendEnd, HoseAsync;
    match s
    case DoConnect(args, run) => SeenConnect(c, args, run);
    case DoDeliver(m) => SeenDeliver(c, m);
    case DoFail(e) => SeenFail(c, e);
    case DoTask(ops) => SeenTask(c, ops);
    case DoOpen(op) => SeenOpen(c, op);
    case DoEndWait(end) => SeenEndWait(c, end);
    case DoComplete(err) => SeenComplete(c, err);
    case DoEnd(op) => SeenSendEnd(c, op);
  }

  /** In every run, sub-classes that cancel the PEER state included, each step does what is seen above and nothing else. */
  lemma {:induction false} SeenInRuns(states: seq<Client>, steps: seq<Step>, i: nat)
    requires Run(states, steps) && i < |steps|
    ensures Seen(states[i], steps[i], states[i + 1])
  {
    hide Any, Enabled, Next, Seen;
    AnyInRuns(states, steps, i);
    FitsInRuns(states, steps, i);
    SeenStep(states[i], steps[i]);
  }

  // ----- What is kept for later steps -----

  /** The end message, when it is expected. */
  function Awaited(e: End): End {
    match e case EndUnexpected => EndExpected case EndCached => EndTaken case _ => e
  }

  /** And when it arrives. */
  function Arrived(e: End): End {
    match e case EndUnexpected => EndCached case EndExpected => EndTaken case _ => e
  }

  /** A channel that is up after the step: to what the requests of the server go, which of them are kept, and what is known of
      the end message. */
  function ChanAfter(c: Client, s: Step): Chan
    requires Requests(c, s) || Up(c.link)
  {
    if Requests(c, s) then Chan(c.link.nextChan, true, true, NoHandler, [], EndUnexpected)
    else
      var ch := c.link.chan.value;
      if s.DoDeliver? then
        if ch.loginPending then ch.(loginPending := false)
        else if s.m.ToClientReq? && ch.handler == NoHandler then ch.(cache := ch.cache + [Inbound(|c.link.recv|, s.m)])
        else if s.m.GracefulSessionEnd? then ch.(end := Arrived(ch.end))
        else ch
      else if s.DoComplete? && c.cfg.graceful then ch.(end := Awaited(ch.end))
      else if Welcomes(c, s) then
        var n := Expected(c, c.link.queue[0].rsp.msg);
        ch.(handler := if n == 0 then OpenHandler else InitHandler(n), cache := [])
      else if Acks(c, s) then ch.(handler := OpenHandler)
      else ch
  }

  /** The channel that is held, up or not, by its number. */
  function HeldAfter(c: Client, s: Step): Option<nat> {
    var held := if c.link.chan.Some? then Some(c.link.chan.value.id) else None;
    if Requests(c, s) then (if s.run.op.SendFails? then None else Some(c.link.nextChan))
    else if DoneOf(c, s).None? || Starts(c, s) || (Acks(c, s) && DoneOf(c, s).value.result.Some?) then held
    else if StateAfter(c, s) == Null then None
    else held
  }

  /** The init-channels collected. */
  function InitAfter(c: Client, s: Step): seq<Peer> {
    if Requests(c, s) then []
    else if s.DoTask? && c.link.queue != [] && c.link.queue[0].InitTask? && c.link.queue[0].req.msg.ToClientReq?
            && c.link.chan.Some? && c.link.queue[0].chan == c.link.chan.value.id
    then c.init + [Peer(c.link.queue[0].req.msg.c2s, c.link.queue[0].req.msg.s2c)]
    else c.init
  }

  ghost predicate Kept(c: Client, s: Step, c': Client) {
    && (Up(c'.link) ==> (Requests(c, s) || Up(c.link)) && c'.link.chan.value == ChanAfter(c, s))
    && HeldAfter(c, s) == (if c'.link.chan.Some? then Some(c'.link.chan.value.id) else None)
    && c'.init == InitAfter(c, s)
    && c'.link.nextChan == c.link.nextChan + if Requests(c, s) then 1 else 0
  }

  lemma KeptConnect(c: Client, args: Args, run: ConnectRun)
    requires Any(c) && c.sess.wait.None?
    ensures Kept(c, DoConnect(args, run), Connect(c, args, run).0)
  {
    hide HandlersOnce, LinkAny, Attempt, Kept;
    Oldest(c.conn);
    if c.conn.state == Null {
      NullFacts(c.conn.cancelled, c.link, |c.init|, c.sess.finisher);
      NotUp(c.conn.cancelled, c.link, |c.init|, c.sess.finisher);
      AttemptKept(c, args, run);
    } else {
      RefusedKept(c, args, run);
    }
  }

  lemma RefusedKept(c: Client, args: Args, run: ConnectRun)
    requires c.conn.state != Null
    ensures Kept(c, DoConnect(args, run), c)
  {
  }

  lemma AttemptKept(c: Client, args: Args, run: ConnectRun)
    requires c.conn.state == Null && c.conn.nextToken == |c.conn.dones| && !Up(c.link)
    ensures Kept(c, DoConnect(args, run), Attempt(c.(conn := Begin(c.conn, false), args := args), run))
  {
    hide Finish;
  }

  lemma KeptDeliver(c: Client, m: Msg)
    requires Up(c.link)
    ensures Kept(c, DoDeliver(m), Deliver(c, m))
  {
  }

  lemma KeptRsp(c: Client, x: Inbound, ops: Ops)
    requires Good(c) && Enabled(c, DoTask(ops)) && c.link.queue[0] == LogInRspTask(x)
    ensures Kept(c, DoTask(ops), RunTask(c, ops))
  {
    hide HandlersOnce, LinkAny, LogInRspError, LoggedIn, Kept;
    Oldest(c.conn);
    AnyTakeLogIn(c.conn.state, c.conn.cancelled, c.link, |c.init|, c.sess.finisher);
    if LogInRspError(c.args, x.msg).Some? {
      KeptBadRsp(c, x, ops);
    } else {
      KeptGoodRsp(c, x, ops);
    }
  }

  lemma KeptBadRsp(c: Client, x: Inbound, ops: Ops)
    requires c.conn.state == Connecting && c.conn.onDone == Some(|c.conn.dones|)
    requires Enabled(c, DoTask(ops)) && c.link.queue[0] == LogInRspTask(x) && LogInRspError(c.args, x.msg).Some?
    ensures Kept(c, DoTask(ops), OnLogInRsp(Popped(c), x.msg, ops.late1, ops.wrapper))
  {
    hide LogInRspError, LoggedIn;
  }

  lemma KeptGoodRsp(c: Client, x: Inbound, ops: Ops)
    requires c.conn.state == Connecting && c.conn.onDone == Some(|c.conn.dones|) && c.link.chan.Some?
    requires Enabled(c, DoTask(ops)) && c.link.queue[0] == LogInRspTask(x) && LogInRspError(c.args, x.msg).None?
    ensures Kept(c, DoTask(ops), OnLogInRsp(Popped(c), x.msg, ops.late1, ops.wrapper))
  {
    hide LogInRspError, LoggedIn;
    var c1 := Check(Check(Popped(c), c.conn.state == Connecting && c.conn.onDone.Some?, LogInOutOfState),
                    c.cliNs.None?, SetTwice).(cliNs := Some(x.msg.ns));
    LoggedInKept(c1, Expected(c, x.msg), ops.late1, ops.wrapper);
  }

  lemma LoggedInKept(c: Client, n: nat, late: Option<Error>, w: Wrapper)
    requires c.link.chan.Some?
    ensures var l, l' := c.link, LoggedIn(c, n, late, w).link;
            && (Up(l') ==> Up(l) && l'.chan == Some(l.chan.value.(handler := if n == 0 then OpenHandler else InitHandler(n),
                                                                 cache := [])))
            && (l'.chan.None? <==> Up(l) && late.None? && n == 0 && w == ToNull)
            && (l'.chan.Some? ==> l'.chan.value.id == l.chan.value.id)
            && l'.nextChan == l.nextChan && LoggedIn(c, n, late, w).init == c.init
  {
    hide Finish, HandlerTasks;
  }

  lemma KeptInit(c: Client, ch: nat, n: nat, x: Inbound, ops: Ops)
    requires Good(c) && Enabled(c, DoTask(ops)) && c.link.queue[0] == InitTask(ch, n, x)
    ensures Kept(c, DoTask(ops), RunTask(c, ops))
  {
    hide HandlersOnce, LinkAny, AckInit, Kept;
    Oldest(c.conn);
    if LastInit(c, DoTask(ops)) {
      AtInit(c.conn.state, c.conn.cancelled, c.link, |c.init|, c.sess.finisher);
      assert c.link.chan.value.cache == [] by { NoneCachedAny(c); }
      SizedAtLast(c);
      KeptLastInit(c, x, ops);
    } else {
      KeptOtherInit(c, ch, n, x, ops);
    }
  }

  lemma KeptOtherInit(c: Client, ch: nat, n: nat, x: Inbound, ops: Ops)
    requires Enabled(c, DoTask(ops)) && c.link.queue[0] == InitTask(ch, n, x) && !LastInit(c, DoTask(ops))
    ensures Kept(c, DoTask(ops), RunTask(c, ops))
  {
    hide AckInit;
    if c.link.chan.Some? && c.link.chan.value.id == ch && |c.init| + 1 == n {
      var c1 := Check(Popped(c), c.conn.state == Connecting && c.conn.onDone.Some?, InitOutOfState);
      AckRefused(Check(c1, |c.init| < n, InitOverflow).(init := c.init + [ClientPeer(x.msg.c2s, x.msg.s2c)]), x.id, ops);
    }
  }

  lemma AckKeeps(c: Client, id: nat, ops: Ops)
    requires c.link.chan.Some?
    ensures AckInit(c, id, ops).init == c.init
  {
    hide SwitchAndAck, Finish, ByCli, BySrv;
  }

  lemma KeptLastInit(c: Client, x: Inbound, ops: Ops)
    requires c.conn.state == Connecting && c.conn.onDone == Some(|c.conn.dones|)
    requires Enabled(c, DoTask(ops)) && LastInit(c, DoTask(ops)) && c.link.queue[0].req == x
    requires c.link.chan.value.cache == [] && Sized(c.args, |c.init| + 1)
    ensures Kept(c, DoTask(ops), RunTask(c, ops))
  {
    hide SwitchAndAck, AckInit, RunTask, Finish, ByCli, BySrv, Begin;
    LastIsAck(c, x, ops);
    AckShape(Collected(c, x), x.id, ops);
    AckKeeps(Collected(c, x), x.id, ops);
    SwitchForms(Pop(c.link), x.id, ops);
  }

  lemma KeptOpenReq(c: Client, x: Inbound, ops: Ops)
    requires Good(c) && Enabled(c, DoTask(ops)) && c.link.queue[0] == OpenTask(x)
    ensures Kept(c, DoTask(ops), RunTask(c, ops))
  {
    hide HandlersOnce, LinkAny;
  }

  lemma KeptError(c: Client, ch: nat, e: Error, ops: Ops)
    requires Good(c) && Enabled(c, DoTask(ops)) && c.link.queue[0] == ErrorTask(ch, e)
    ensures Kept(c, DoTask(ops), RunTask(c, ops))
  {
    hide HandlersOnce, LinkAny, Finish;
    Oldest(c.conn);
    if c.link.chan.Some? {
      ErrorNotInNull(c.conn.state, c.conn.cancelled, c.link, |c.init|, c.sess.finisher);
    }
  }

  lemma KeptComplete(c: Client, err: Option<Error>)
    requires Good(c) && Enabled(c, DoComplete(err))
    ensures Kept(c, DoComplete(err), Complete(c, err))
  {
    hide HandlersOnce, LinkAny, Finish;
    AnyComplete(c, err);
    Oldest(c.conn);
  }

  lemma KeptTask(c: Client, ops: Ops)
    requires Good(c) && Enabled(c, DoTask(ops))
    ensures Kept(c, DoTask(ops), RunTask(c, ops))
  {
    hide Good, Kept, RunTask;
    match c.link.queue[0]
    case LogInRspTask(x) => KeptRsp(c, x, ops);
    case InitTask(ch, n, x) => KeptInit(c, ch, n, x, ops);
    case OpenTask(x) => KeptOpenReq(c, x, ops);
    case ErrorTask(ch, e) => KeptError(c, ch, e, ops);
    case EndTask => KeptEnd(c, ops);
  }

  lemma KeptEnd(c: Client, ops: Ops)
    requires Enabled(c, DoTask(ops)) && c.link.queue[0].EndTask?
    ensures Kept(c, DoTask(ops), RunTask(c, ops))
  {
  }

  /** `open_channel()`, the end of its wait, the destructor's message, and a failure in the background. */
  lemma KeptOther(c: Client, s: Step)
    requires Enabled(c, s) && (s.DoOpen? || s.DoEndWait? || s.DoEnd? || s.DoFail?)
    ensures Kept(c, s, Next(c, s))
  {
    hide Kept;
    assert SameChan(c.link, Next(c, s).link) by { SameOther(c, s); }
    assert Next(c, s).init == c.init;
    KeptSame(c, s, Next(c, s));
  }

  ghost predicate SameChan(l: Link, l': Link) {
    && (Up(l') ==> l'.chan == l.chan) && (l'.chan.Some? <==> l.chan.Some?)
    && (l.chan.Some? ==> l'.chan.value.id == l.chan.value.id) && l'.nextChan == l.nextChan
  }

  lemma SameOther(c: Client, s: Step)
    requires Enabled(c, s) && (s.DoOpen? || s.DoEndWait? || s.DoEnd? || s.DoFail?)
    ensures SameChan(c.link, Next(c, s).link)
  {
  }

  lemma KeptSame(c: Client, s: Step, c': Client)
    requires s.DoOpen? || s.DoEndWait? || s.DoEnd? || s.DoFail?
    requires SameChan(c.link, c'.link) && c'.init == c.init
    ensures Kept(c, s, c')
  {
  }

  lemma KeptStep(c: Client, s: Step)
    requires Good(c) && Enabled(c, s)
    ensures Kept(c, s, Next(c, s))
  {
    hide Any, Kept, Connect, Deliver, RunTask, OpenStart, OpenUnanswered, Complete, SendEnd, HoseAsync;
    match s
    case DoConnect(args, run) => KeptConnect(c, args, run);
    case DoDeliver(m) => KeptDeliver(c, m);
    case DoTask(ops) => KeptTask(c, ops);
    case DoComplete(err) => KeptComplete(c, err);
    case _ => KeptOther(c, s);
  }

  /** In every run each step keeps what is said above for the later ones: a request of the server, or the end message, that
      nobody expects yet is kept, in order, until it is expected, and then no longer. */
  lemma {:induction false} KeptInRuns(states: seq<Client>, steps: seq<Step>, i: nat)
    requires Run(states, steps) && i < |steps|
    ensures Kept(states[i], steps[i], states[i + 1])
  {
    hide Any, Enabled, Next, Kept;
    AnyInRuns(states, steps, i);
    FitsInRuns(states, steps, i);
    KeptStep(states[i], steps[i]);
  }

  // ----- Attempts and their handlers -----

  /** An attempt that does not get a socket, or whose request fails to be sent, ends in NULL at once, its handler run with
      that code; any other is under way, and has sent the request with the size of the container that was passed. */
  lemma {:induction false} AttemptTold(states: seq<Client>, steps: seq<Step>, i: nat)
    requires Run(states, steps) && i < |steps| && steps[i].DoConnect?
    ensures states[i].conn.state != Null ==> states[i + 1].conn.dones == states[i].conn.dones
    ensures states[i].conn.state == Null ==>
              var c, c', run := states[i], states[i + 1], steps[i].run;
              var failed := (e: Error) => [Done(c.conn.nextToken, Some(e), [], [])];
              && (!run.Requested? ==> c'.conn.state == Null && c'.conn.dones == c.conn.dones + failed(run.e))
              && (run.Requested? && run.op.SendFails? ==>
                    c'.conn.state == Null && c'.conn.dones == c.conn.dones + failed(run.op.e))
              && (run.Requested? && !run.op.SendFails? ==> c'.conn.state == Connecting && c'.conn.dones == c.conn.dones)
              && (run.Requested? && run.op == SendOk ==>
                    exists k: nat :: c'.link.sent == [LogInReq(1, 1, k)]
                      && (steps[i].args.nCli.Some? ==> k == steps[i].args.nCli.value) && (steps[i].args.nCli.None? ==> k == 0))
  {
    hide Enabled, Next, SessSeen;
    HandlersOnceInRuns(states, steps, i);
    Oldest(states[i].conn);
    SeenInRuns(states, steps, i);
    if states[i].conn.state == Null && steps[i].run.Requested? && steps[i].run.op == SendOk {
      var k := match steps[i].args.nCli case Some(k) => k case None => 0;
      assert states[i + 1].link.sent == [LogInReq(1, 1, k)];
    }
  }

  /** A good log-in response without init-channels to come is handled on a channel that is up; or the last init-channel is
      acknowledged; or a cancelled PEER state is completed without error. */
  ghost predicate Succeeds(c: Client, s: Step) {
    || (s.DoTask? && c.link.queue != [] && c.link.queue[0].LogInRspTask? && Up(c.link) && s.ops.late1.None?
        && var m := c.link.queue[0].rsp.msg;
           m.LogInRsp? && m.ver >= 1 && m.verAux >= 1 && m.ns != "" && m.ns != "0" && m.nSrv == 0
           && (c.args.nCli.None? || c.args.nCli.value == 0))
    || (LastInit(c, s) && s.ops.late1.None? && s.ops.late2.None? && s.ops.op == SendOk)
    || s == DoComplete(None)
  }

  /** A step runs a handler with success if and only if it is one of these. */
  lemma {:induction false} SuccessExactly(states: seq<Client>, steps: seq<Step>, i: nat)
    requires Run(states, steps) && i < |steps|
    ensures var d, d' := states[i].conn.dones, states[i + 1].conn.dones;
            Succeeds(states[i], steps[i]) <==> |d'| == |d| + 1 && d <= d' && d'[|d|].result.None?
  {
    hide Enabled, Next, SessSeen, LinkSeen, LogInRspError, LinkAny;
    SeenInRuns(states, steps, i);
    AnyInRuns(states, steps, i);
    FitsInRuns(states, steps, i);
    if LastInit(states[i], steps[i]) {
      SizedAtLast(states[i]);
    }
    if steps[i].DoTask? && states[i].link.queue != [] && states[i].link.queue[0].LogInRspTask? {
      LogInCodes(states[i].args, states[i].link.queue[0].rsp.msg);
    }
  }

  /** Every execution of a handler with success goes back to such a step. */
  lemma {:induction false} SuccessHasCause(states: seq<Client>, steps: seq<Step>, i: nat, k: nat) returns (j: nat)
    requires Run(states, steps) && i < |states| && k < |states[i].conn.dones|
    ensures j < i && |states[j].conn.dones| == k && Opt(DoneOf(states[j], steps[j])) == [states[i].conn.dones[k]]
    ensures states[i].conn.dones[k].result.None? ==> Succeeds(states[j], steps[j])
  {
    hide Enabled, Next, Seen, DoneOf, Succeeds;
    SeenInRuns(states, steps, i - 1);
    assert ConnSeen(states[i - 1], steps[i - 1], states[i]) by { SeenConn(states[i - 1], steps[i - 1], states[i]); }
    if k < |states[i - 1].conn.dones| {
      j := SuccessHasCause(states, steps, i - 1, k);
    } else {
      j := i - 1;
      SuccessExactly(states, steps, j);
    }
  }

  lemma SeenConn(c: Client, s: Step, c': Client)
    requires Seen(c, s, c')
    ensures ConnSeen(c, s, c') && SessSeen(c, s, c') && LinkSeen(c, s, c')
  {
  }

  // ----- Assertions -----

  /** The task about an init-channel. */
  predicate TakesInit(c: Client, s: Step) {
    s.DoTask? && c.link.queue != [] && c.link.queue[0].InitTask?
  }

  /** The channel error that is about the channel that is held. */
  predicate TakesError(c: Client, s: Step) {
    && s.DoTask? && c.link.queue != [] && c.link.queue[0].ErrorTask?
    && c.link.chan.Some? && c.link.chan.value.id == c.link.queue[0].chan
  }

  /** Of the assertions that some runs violate, those about init-channels and finishers: is it violated by the step. */
  predicate Broken(c: Client, s: Step, f: Fault) {
    match f
    case InitOutOfState => TakesInit(c, s) && c.conn.state != Connecting
    case InitOverflow =>
      TakesInit(c, s) && (c.link.chan.None? || c.link.chan.value.id != c.link.queue[0].chan || |c.init| >= c.link.queue[0].n)
    case NoFinisher => TakesError(c, s) && c.conn.state == InPeer && c.cfg.graceful && !c.sess.finisher
    case PeerNotCancelled =>
      DoneOf(c, s).Some? && DoneOf(c, s).value.result.None? && s.DoTask? && s.ops.wrapper == Keep && c.cfg.graceful
    case _ => false
  }

  const SOME := {InitOutOfState, InitOverflow, NoFinisher, PeerNotCancelled}

  ghost predicate FaultsSeen(c: Client, s: Step, c': Client) {
    forall f | f in SOME :: f in c'.faults <==> f in c.faults || Broken(c, s, f)
  }

  lemma FaultsConnect(c: Client, args: Args, run: ConnectRun)
    ensures FaultsSeen(c, DoConnect(args, run), Connect(c, args, run).0)
  {
    hide Send, Finish;
  }

  lemma FaultsRsp(c: Client, x: Inbound, ops: Ops)
    requires Good(c) && Enabled(c, DoTask(ops)) && c.link.queue[0] == LogInRspTask(x)
    ensures FaultsSeen(c, DoTask(ops), RunTask(c, ops))
  {
    hide HandlersOnce, LinkAny, LogInRspError, LoggedIn, FaultsSeen;
    Oldest(c.conn);
    AnyTakeLogIn(c.conn.state, c.conn.cancelled, c.link, |c.init|, c.sess.finisher);
    if LogInRspError(c.args, x.msg).Some? {
      FaultsBadRsp(c, x, ops);
    } else {
      FaultsGoodRsp(c, x, ops);
    }
  }

  lemma FaultsBadRsp(c: Client, x: Inbound, ops: Ops)
    requires Enabled(c, DoTask(ops)) && c.link.queue[0] == LogInRspTask(x) && LogInRspError(c.args, x.msg).Some?
    ensures FaultsSeen(c, DoTask(ops), OnLogInRsp(Popped(c), x.msg, ops.late1, ops.wrapper))
  {
    hide LogInRspError, LoggedIn, Finish;
  }

  lemma FaultsGoodRsp(c: Client, x: Inbound, ops: Ops)
    requires c.conn.state == Connecting && c.conn.onDone.Some? && c.link.chan.Some?
    requires Enabled(c, DoTask(ops)) && c.link.queue[0] == LogInRspTask(x) && LogInRspError(c.args, x.msg).None?
    ensures FaultsSeen(c, DoTask(ops), OnLogInRsp(Popped(c), x.msg, ops.late1, ops.wrapper))
  {
    hide LogInRspError, LoggedIn;
    var c1 := Check(Check(Popped(c), c.conn.state == Connecting && c.conn.onDone.Some?, LogInOutOfState),
                    c.cliNs.None?, SetTwice).(cliNs := Some(x.msg.ns));
    LoggedInFaults(c1, Expected(c, x.msg), ops.late1, ops.wrapper);
  }

  lemma LoggedInFaults(c: Client, n: nat, late: Option<Error>, w: Wrapper)
    requires c.link.chan.Some?
    ensures forall f | f in SOME :: f in LoggedIn(c, n, late, w).faults <==>
              f in c.faults
              || (f == PeerNotCancelled && Up(c.link) && late.None? && n == 0 && w == Keep && c.cfg.graceful)
  {
    hide Finish, HandlerTasks;
  }

  lemma FaultsInit(c: Client, ch: nat, n: nat, x: Inbound, ops: Ops)
    requires Good(c) && Enabled(c, DoTask(ops)) && c.link.queue[0] == InitTask(ch, n, x)
    ensures FaultsSeen(c, DoTask(ops), RunTask(c, ops))
  {
    hide HandlersOnce, LinkAny, AckInit, FaultsSeen;
    Oldest(c.conn);
    if LastInit(c, DoTask(ops)) {
      AtInit(c.conn.state, c.conn.cancelled, c.link, |c.init|, c.sess.finisher);
      assert c.link.chan.value.cache == [] by { NoneCachedAny(c); }
      SizedAtLast(c);
      FaultsLastInit(c, x, ops);
    } else {
      FaultsOtherInit(c, ch, n, x, ops);
    }
  }

  lemma FaultsOtherInit(c: Client, ch: nat, n: nat, x: Inbound, ops: Ops)
    requires Enabled(c, DoTask(ops)) && c.link.queue[0] == InitTask(ch, n, x) && !LastInit(c, DoTask(ops))
    requires c.conn.state == Connecting <==> c.conn.onDone.Some?
    ensures FaultsSeen(c, DoTask(ops), RunTask(c, ops))
  {
    hide AckInit;
    if c.link.chan.Some? && c.link.chan.value.id == ch && |c.init| + 1 == n {
      var c1 := Check(Popped(c), c.conn.state == Connecting && c.conn.onDone.Some?, InitOutOfState);
      AckRefused(Check(c1, |c.init| < n, InitOverflow).(init := c.init + [ClientPeer(x.msg.c2s, x.msg.s2c)]), x.id, ops);
    }
  }

  lemma AckFaults(c: Client, id: nat, ops: Ops)
    requires c.link.chan.Some?
    ensures forall f | f in SOME :: f in AckInit(c, id, ops).faults <==>
              f in c.faults
              || (f == PeerNotCancelled && SwitchAndAck(c.link, id, ops).1.Sent? && ops.wrapper == Keep && c.cfg.graceful)
  {
    hide SwitchAndAck, Finish, ByCli, BySrv;
  }

  lemma FaultsLastInit(c: Client, x: Inbound, ops: Ops)
    requires c.conn.state == Connecting && c.conn.onDone == Some(|c.conn.dones|)
    requires Enabled(c, DoTask(ops)) && LastInit(c, DoTask(ops)) && c.link.queue[0].req == x
    requires c.link.chan.value.cache == [] && Sized(c.args, |c.init| + 1)
    ensures FaultsSeen(c, DoTask(ops), RunTask(c, ops))
  {
    hide SwitchAndAck, AckInit, RunTask;
    LastIsAck(c, x, ops);
    AckFaults(Collected(c, x), x.id, ops);
    SwitchForms(Pop(c.link), x.id, ops);
  }

  lemma FaultsError(c: Client, ch: nat, e: Error, ops: Ops)
    requires Good(c) && Enabled(c, DoTask(ops)) && c.link.queue[0] == ErrorTask(ch, e)
    ensures FaultsSeen(c, DoTask(ops), RunTask(c, ops))
  {
    hide HandlersOnce, LinkAny, Finish;
    Oldest(c.conn);
    if c.link.chan.Some? {
      ErrorNotInNull(c.conn.state, c.conn.cancelled, c.link, |c.init|, c.sess.finisher);
    }
  }

  lemma FaultsPlain(c: Client, ops: Ops)
    requires Enabled(c, DoTask(ops)) && (c.link.queue[0].OpenTask? || c.link.queue[0].EndTask?)
    ensures FaultsSeen(c, DoTask(ops), RunTask(c, ops))
  {
    hide Send;
  }

  lemma FaultsOther(c: Client, s: Step)
    requires Enabled(c, s) && !s.DoConnect? && !s.DoTask?
    ensures FaultsSeen(c, s, Next(c, s))
  {
    hide FaultsSeen;
    FaultsNone(c, s);
    FaultsSame(c, s, Next(c, s));
  }

  lemma FaultsNone(c: Client, s: Step)
    requires Enabled(c, s) && !s.DoConnect? && !s.DoTask?
    ensures forall f | f in SOME :: f in Next(c, s).faults <==> f in c.faults
  {
    hide Send, Finish, Receive, HoseAsync, ExpectEnd;
  }

  lemma FaultsSame(c: Client, s: Step, c': Client)
    requires !s.DoConnect? && !s.DoTask? && forall f | f in SOME :: f in c'.faults <==> f in c.faults
    ensures FaultsSeen(c, s, c')
  {
  }

  lemma FaultsStep(c: Client, s: Step)
    requires Good(c) && Enabled(c, s)
    ensures FaultsSeen(c, s, Next(c, s))
  {
    hide Good, FaultsSeen, RunTask, Connect;
    match s
    case DoConnect(args, run) => FaultsConnect(c, args, run);
    case DoTask(ops) => FaultsTask(c, ops);
    case _ => FaultsOther(c, s);
  }

  lemma FaultsTask(c: Client, ops: Ops)
    requires Good(c) && Enabled(c, DoTask(ops))
    ensures FaultsSeen(c, DoTask(ops), RunTask(c, ops))
  {
    hide Good, FaultsSeen, RunTask;
    match c.link.queue[0]
    case LogInRspTask(x) => FaultsRsp(c, x, ops);
    case InitTask(ch, n, x) => FaultsInit(c, ch, n, x, ops);
    case ErrorTask(ch, e) => FaultsError(c, ch, e, ops);
    case _ => FaultsPlain(c, ops);
  }

  /** In every run a step violates an assertion about init-channels or finishers if and only if the state and the task it
      takes say so. */
  lemma {:induction false} BrokenExactly(states: seq<Client>, steps: seq<Step>, i: nat, f: Fault)
    requires Run(states, steps) && i < |steps| && f in SOME
    ensures f in states[i + 1].faults <==> f in states[i].faults || Broken(states[i], steps[i], f)
  {
    hide Any, Enabled, Next;
    AnyInRuns(states, steps, i);
    FitsInRuns(states, steps, i);
    FaultsStep(states[i], steps[i]);
  }

  /** The assertions that hold in every run, sub-classes included, on the state itself: a log-in response is handled in
      CONNECTING; a handler is there when it is run; a channel error is not handled in NULL; and the on-error handler has
      not run when it is run. */
  lemma {:induction false} AssertedThen(states: seq<Client>, steps: seq<Step>, i: nat)
    requires Run(states, steps) && i < |steps|
    ensures steps[i].DoTask? && states[i].link.queue != [] && states[i].link.queue[0].LogInRspTask? ==>
              states[i].conn.state == Connecting && states[i].conn.onDone.Some? && states[i].link.chan.Some?
    ensures DoneOf(states[i], steps[i]).Some? && !Starts(states[i], steps[i]) ==> states[i].conn.onDone.Some?
    ensures TakesError(states[i], steps[i]) ==> states[i].conn.state != Null
    ensures EventOf(states[i], steps[i]).Some? ==> states[i].sess.hosed.None?
  {
    hide Any, Enabled, Next, DoneOf, EventOf;
    AnyInRuns(states, steps, i);
    FitsInRuns(states, steps, i);
    AssertedTask(states[i], steps[i]);
    AssertedDone(states[i], steps[i]);
    AssertedEvent(states[i], steps[i]);
  }

  lemma AssertedTask(c: Client, s: Step)
    requires Good(c) && Enabled(c, s)
    ensures s.DoTask? && c.link.queue != [] && c.link.queue[0].LogInRspTask? ==>
              c.conn.state == Connecting && c.conn.onDone.Some? && c.link.chan.Some?
    ensures TakesError(c, s) ==> c.conn.state != Null
  {
    hide HandlersOnce, LinkAny;
    Oldest(c.conn);
    if s.DoTask? && c.link.queue[0].LogInRspTask? {
      AnyTakeLogIn(c.conn.state, c.conn.cancelled, c.link, |c.init|, c.sess.finisher);
    }
    if TakesError(c, s) {
      ErrorNotInNull(c.conn.state, c.conn.cancelled, c.link, |c.init|, c.sess.finisher);
    }
  }

  lemma AssertedDone(c: Client, s: Step)
    requires Good(c) && Enabled(c, s)
    ensures DoneOf(c, s).Some? && !Starts(c, s) ==> c.conn.onDone.Some?
  {
    hide HandlersOnce, LinkAny;
    AssertedTask(c, s);
    Oldest(c.conn);
    if LastInit(c, s) {
      AtInit(c.conn.state, c.conn.cancelled, c.link, |c.init|, c.sess.finisher);
    }
  }

  lemma AssertedEvent(c: Client, s: Step)
    requires Good(c) && Enabled(c, s)
    ensures EventOf(c, s).Some? ==> c.sess.hosed.None?
  {
    hide HandlersOnce, LinkAny;
    AssertedTask(c, s);
  }

  // ----- What the user is told -----

  /** The user has been told of an event if and only if a step of the run tells it. */
  lemma {:induction false} EventsExactly(states: seq<Client>, steps: seq<Step>, i: nat, e: Event)
    requires Run(states, steps) && i < |states|
    ensures e in states[i].sess.log <==> exists j :: 0 <= j < i && EventOf(states[j], steps[j]) == Some(e)
  {
    hide Enabled, Next, Seen, EventOf;
    if i > 0 {
      EventsExactly(states, steps, i - 1, e);
      SeenInRuns(states, steps, i - 1);
      SeenConn(states[i - 1], steps[i - 1], states[i]);
    }
  }

  /** The response that accepts the request `k`, which W waits for, arrives, with these two names. */
  ghost predicate Opened(c: Client, s: Step, k: nat, p: Peer) {
    && s.DoDeliver? && Up(c.link) && !c.link.chan.value.loginPending && c.sess.wait == Some(k)
    && s.m == ToServerRsp(k, Accepted, p.tx, p.rx)
  }

  /** `open_channel()` has given the user a channel if and only if the accepting response to its request arrived while it
      waited: none is made up, and none is lost. */
  lemma {:induction false} ActiveOpenExactly(states: seq<Client>, steps: seq<Step>, i: nat, k: nat, p: Peer)
    requires Run(states, steps) && i < |states|
    ensures ActiveOpen(k, p) in states[i].sess.log <==> exists j :: 0 <= j < i && Opened(states[j], steps[j], k, p)
  {
    hide Enabled, Next;
    EventsExactly(states, steps, i, ActiveOpen(k, p));
    forall j | 0 <= j < i
      ensures EventOf(states[j], steps[j]) == Some(ActiveOpen(k, p)) <==> Opened(states[j], steps[j], k, p)
    {
    }
  }

  /** A response ends the wait for it; only an accepting one adds to what the user was told. */
  lemma {:induction false} ResponseTold(states: seq<Client>, steps: seq<Step>, i: nat, k: nat, r: OpenResult, c2s: Mq, s2c: Mq)
    requires Run(states, steps) && i < |steps| && steps[i] == DoDeliver(ToServerRsp(k, r, c2s, s2c))
    requires !states[i].link.chan.value.loginPending && states[i].sess.wait == Some(k)
    ensures states[i + 1].sess.wait == None
    ensures states[i + 1].sess.log == states[i].sess.log + if r == Accepted then [ActiveOpen(k, Peer(c2s, s2c))] else []
  {
    hide Next;
    SeenInRuns(states, steps, i);
  }

  /** An open request of the server is handled: with the handler for passive opens the answer is to accept, and once that is
      sent the channel is emitted; without it the answer is to reject, and nothing is emitted. */
  lemma {:induction false} RequestAnswered(states: seq<Client>, steps: seq<Step>, i: nat)
    requires Run(states, steps) && i < |steps| && steps[i].DoTask? && states[i].link.queue[0].OpenTask?
    requires states[i].sess.hosed.None? && Up(states[i].link)
    ensures var x, c, c' := states[i].link.queue[0].req, states[i], states[i + 1];
            && x.msg.ToClientReq?
            && match steps[i].ops.op
               case SendOk =>
                 && c'.link.sent == c.link.sent
                      + [ToClientRsp(x.id, if c.cfg.passiveEnabled then Accepted else RejectedPassiveOpen)]
                 && c'.sess.log == c.sess.log
                      + if c.cfg.passiveEnabled then [PassiveOpen(x.id, Peer(x.msg.c2s, x.msg.s2c))] else []
               case SendFails(e) =>
                 c'.link.sent == c.link.sent && c'.sess.log == c.sess.log + [OnError(e)] && !Up(c'.link)
               case SendLate(_) => c'.link.sent == c.link.sent && c'.sess.log == c.sess.log && !Up(c'.link)
  {
    hide Next;
    SeenInRuns(states, steps, i);
  }

  /** Without the handler for passive opens no channel is ever emitted. */
  lemma {:induction false} NoneWithoutHandler(states: seq<Client>, steps: seq<Step>, i: nat)
    requires Run(states, steps) && i < |states| && !states[0].cfg.passiveEnabled
    ensures forall e | e in states[i].sess.log :: !e.PassiveOpen?
  {
    hide Enabled, Next;
    forall e | e in states[i].sess.log ensures !e.PassiveOpen? {
      EventsExactly(states, steps, i, e);
      var j :| 0 <= j < i && EventOf(states[j], steps[j]) == Some(e);
      CfgInRuns(states, steps, j);
    }
  }

  lemma CfgStep(c: Client, s: Step)
    requires Enabled(c, s)
    ensures Next(c, s).cfg == c.cfg
  {
    hide Connect, RunTask, Send, Receive;
    match s
    case DoConnect(args, run) => CfgConnect(c, args, run);
    case DoTask(ops) => CfgTask(c, ops);
    case _ =>
  }

  lemma CfgConnect(c: Client, args: Args, run: ConnectRun)
    ensures Connect(c, args, run).0.cfg == c.cfg
  {
    hide Send, Finish;
  }

  lemma CfgTask(c: Client, ops: Ops)
    requires c.link.queue != [] && WellFormedTask(c.link.queue[0])
    ensures RunTask(c, ops).cfg == c.cfg
  {
    hide Send, Finish, Expect, SwitchAndAck, LogInRspError, ByCli, BySrv;
  }

  lemma {:induction false} CfgInRuns(states: seq<Client>, steps: seq<Step>, i: nat)
    requires Run(states, steps) && i < |states|
    ensures states[i].cfg == states[0].cfg
  {
    hide Enabled, Next;
    if i > 0 {
      CfgInRuns(states, steps, i - 1);
      CfgStep(states[i - 1], steps[i - 1]);
    }
  }
}
