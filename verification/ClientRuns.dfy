/** Runs of one client object: any number of connect attempts, any server, any failures. */
module ClientRuns {
  import opened MasterChannel
  import opened ClientModel

  datatype Step =
    | DoConnect(args: Args, run: ConnectRun)
    | DoDeliver(m: Msg)
    | DoFail(e: Error)
    | DoTask(ops: Ops)
    | DoOpen(op: SendOp)
    | DoEndWait(end: WaitEnd)
    | DoComplete(err: Option<Error>)
    | DoEnd(op: SendOp)

  /** W runs nothing while a synchronous request blocks it.  The server may send anything at any time. */
  ghost predicate Enabled(c: Client, s: Step) {
    match s
    case DoConnect(_, _) => c.sess.wait.None?
    case DoDeliver(_) => Up(c.link)
    case DoFail(_) => Up(c.link)
    case DoTask(_) => c.sess.wait.None? && c.link.queue != [] && WellFormedTask(c.link.queue[0])
    case DoOpen(_) => c.sess.wait.None? && c.conn.state == InPeer
    case DoEndWait(_) => c.sess.wait.Some?
    case DoComplete(_) => c.sess.wait.None? && c.conn.cancelled && c.sess.hosed.None?
    case DoEnd(_) => c.sess.wait.None? && c.sess.finisher && c.conn.state == InPeer
  }

  ghost function Next(c: Client, s: Step): Client
    requires Enabled(c, s)
  {
    match s
    case DoConnect(args, run) => Connect(c, args, run).0
    case DoDeliver(m) => Deliver(c, m)
    case DoFail(e) => c.(link := HoseAsync(c.link, e))
    case DoTask(ops) => RunTask(c, ops)
    case DoOpen(op) => OpenStart(c, op).0
    case DoEndWait(end) => OpenUnanswered(c, end)
    case DoComplete(err) => Complete(c, err)
    case DoEnd(op) => SendEnd(c, op)
  }

  ghost predicate Run(states: seq<Client>, steps: seq<Step>) {
    && |states| == |steps| + 1
    && states[0] == Fresh(states[0].cfg)
    && forall i :: 0 <= i < |steps| ==> Enabled(states[i], steps[i]) && states[i + 1] == Next(states[i], steps[i])
  }

  /** The session classes without a sub-class: nothing cancels the PEER state. */
  predicate Vanilla(s: Step) {
    !s.DoComplete? && (s.DoTask? ==> s.ops.wrapper == Keep)
  }

  ghost function Popped(c: Client): Client
    requires c.link.queue != []
  {
    c.(link := c.link.(queue := c.link.queue[1..]))
  }

  // ----- Handlers: each exactly once -----

  /** Handlers are numbered in the order they are given.  All but a pending one have run, each once, in that order. */
  ghost predicate HandlersOnce(k: Conn) {
    && (k.state == Connecting <==> k.onDone.Some?) && (k.cancelled ==> k.state == Connecting)
    && (forall i :: 0 <= i < |k.dones| ==> k.dones[i].token == i)
    && k.nextToken == |k.dones| + (if k.onDone.Some? then 1 else 0)
    && (k.onDone.Some? ==> k.onDone.value == |k.dones|)
  }

  lemma HandlersConnect(c: Client, args: Args, run: ConnectRun)
    requires HandlersOnce(c.conn)
    ensures HandlersOnce(Connect(c, args, run).0.conn) && c.conn.dones <= Connect(c, args, run).0.conn.dones
  {
    hide Send, Finish, HandlersOnce;
    if c.conn.state == Null {
      BeginOk(c.conn, false);
      if !run.Requested? {
        HandlersFinish(Begin(c.conn, false), Some(run.e), [], []);
      } else if run.op.SendFails? {
        HandlersFinish(Begin(c.conn, false), Some(run.op.e), [], []);
      }
      SendReports(NewChannel(c.link), LogInReq(1, 1, NCli(args)), if run.Requested? then run.op else SendOk);
    }
  }

  lemma BeginOk(k: Conn, cancelled: bool)
    requires HandlersOnce(k) && k.state == Null
    ensures HandlersOnce(Begin(k, cancelled)) && Begin(k, cancelled).dones == k.dones
  {
  }

  lemma SendReports(l: Link, m: Msg, op: SendOp)
    requires Up(l)
    ensures Send(l, m, op).1 == match op case SendOk => Sent case SendFails(e) => Failed(e) case SendLate(_) => Refused
  {
  }

  lemma HandlersFinish(k: Conn, result: Option<Error>, byCli: seq<Peer>, bySrv: seq<Peer>)
    requires HandlersOnce(k)
    ensures forall state :: state != Connecting ==>
              var k' := Finish(k, state, result, byCli, bySrv); HandlersOnce(k') && k.dones <= k'.dones && k'.state == state
  {
  }

  lemma HandlersSucceed(c: Client, byCli: seq<Peer>, bySrv: seq<Peer>, w: Wrapper)
    requires HandlersOnce(c.conn)
    ensures var c' := Succeed(c, byCli, bySrv, w); HandlersOnce(c'.conn) && c.conn.dones <= c'.conn.dones
  {
  }

  lemma HandlersLoggedIn(c: Client, n: nat, late: Option<Error>, w: Wrapper)
    requires HandlersOnce(c.conn)
    ensures HandlersOnce(LoggedIn(c, n, late, w).conn) && c.conn.dones <= LoggedIn(c, n, late, w).conn.dones
  {
    hide Expect, Succeed, HandlersOnce;
    if c.link.chan.Some? {
      HandlersSucceed(c.(link := Expect(c.link, OpenHandler, late).0), [], [], w);
    }
  }

  lemma HandlersLogInRsp(c: Client, m: Msg, late: Option<Error>, w: Wrapper)
    requires HandlersOnce(c.conn)
    ensures HandlersOnce(OnLogInRsp(c, m, late, w).conn) && c.conn.dones <= OnLogInRsp(c, m, late, w).conn.dones
  {
    hide LogInRspError, Finish, HandlersOnce, LoggedIn;
    var err := LogInRspError(c.args, m);
    if err.Some? {
      HandlersFinish(c.conn, err, [], []);
    } else {
      var c1 := Check(Check(c, c.conn.state == Connecting && c.conn.onDone.Some?, LogInOutOfState),
                      c.cliNs.None?, SetTwice).(cliNs := Some(m.ns));
      HandlersLoggedIn(c1, m.nSrv + NCli(c.args), late, w);
    }
  }

  lemma HandlersInitOpen(c: Client, ch: nat, n: nat, x: Inbound, ops: Ops)
    requires HandlersOnce(c.conn) && x.msg.ToClientReq?
    ensures HandlersOnce(OnInitOpen(c, ch, n, x, ops).conn) && c.conn.dones <= OnInitOpen(c, ch, n, x, ops).conn.dones
  {
    hide HandlersOnce, AckInit;
    if c.link.chan.Some? {
      var c1 := Check(c, c.conn.state == Connecting && c.conn.onDone.Some?, InitOutOfState);
      HandlersAck(Check(c1, |c.init| < n, InitOverflow).(init := c.init + [ClientPeer(x.msg.c2s, x.msg.s2c)]), x.id, ops);
    }
  }

  lemma HandlersAck(c: Client, id: nat, ops: Ops)
    requires HandlersOnce(c.conn) && c.link.chan.Some?
    ensures HandlersOnce(AckInit(c, id, ops).conn) && c.conn.dones <= AckInit(c, id, ops).conn.dones
  {
    hide HandlersOnce, SwitchAndAck, Succeed, Finish, ByCli, BySrv;
    var (l, r) := SwitchAndAck(c.link, id, ops);
    match r
    case Refused =>
    case Failed(e) => HandlersFinish(c.conn, Some(e), [], []);
    case Sent => HandlersSucceed(c.(link := l), ByCli(c), BySrv(c), ops.wrapper);
  }

  lemma HandlersError(c: Client, ch: nat, e: Error)
    requires HandlersOnce(c.conn)
    ensures HandlersOnce(OnChannelError(c, ch, e).conn) && c.conn.dones <= OnChannelError(c, ch, e).conn.dones
  {
    hide HandlersOnce, Finish;
    HandlersFinish(c.conn, Some(e), [], []);
  }

  lemma HandlersTask(c: Client, ops: Ops)
    requires HandlersOnce(c.conn) && c.link.queue != [] && WellFormedTask(c.link.queue[0])
    ensures HandlersOnce(RunTask(c, ops).conn) && c.conn.dones <= RunTask(c, ops).conn.dones
  {
    hide OnLogInRsp, OnInitOpen, OnChannelError, HandlersOnce;
    match c.link.queue[0]
    case LogInRspTask(x) => HandlersLogInRsp(Popped(c), x.msg, ops.late1, ops.wrapper);
    case InitTask(ch, n, x) => HandlersInitOpen(Popped(c), ch, n, x, ops);
    case OpenTask(x) =>
    case ErrorTask(ch, e) => HandlersError(Popped(c), ch, e);
    case EndTask =>
  }

  lemma HandlersOnceStep(c: Client, s: Step)
    requires HandlersOnce(c.conn) && Enabled(c, s)
    ensures HandlersOnce(Next(c, s).conn)
    ensures c.conn.dones <= Next(c, s).conn.dones
  {
    hide Connect, RunTask;
    match s
    case DoConnect(args, run) => HandlersConnect(c, args, run);
    case DoTask(ops) => HandlersTask(c, ops);
    case _ =>
  }

  lemma {:induction false} HandlersOnceInRuns(states: seq<Client>, steps: seq<Step>, i: nat)
    requires Run(states, steps) && i < |states|
    ensures HandlersOnce(states[i].conn)
  {
    if i > 0 {
      HandlersOnceInRuns(states, steps, i - 1);
      HandlersOnceStep(states[i - 1], steps[i - 1]);
    }
  }

  // ----- The master channel and the queue of W -----

  /** A task about a channel other than `id`, with no effect on the state machine. */
  ghost predicate Stale(t: Task, id: nat) {
    (t.ErrorTask? || t.InitTask?) && t.chan != id
  }

  ghost predicate ErrorQueued(l: Link) {
    l.chan.Some? && exists i :: 0 <= i < |l.queue| && l.queue[i].ErrorTask? && l.queue[i].chan == l.chan.value.id
  }

  ghost predicate TaskOk(t: Task, l: Link) {
    && WellFormedTask(t)
    && (t.ErrorTask? || t.InitTask? ==> t.chan < l.nextChan)
    && (t.InitTask? && Up(l) && t.chan == l.chan.value.id
        ==> l.chan.value.handler == InitHandler(t.n) || l.chan.value.handler == OpenHandler)
  }

  ghost predicate LinkOk(l: Link) {
    && (forall i :: 0 <= i < |l.queue| ==> TaskOk(l.queue[i], l))
    && (l.chan.Some? ==>
          && l.chan.value.id < l.nextChan
          && (forall i :: 0 <= i < |l.chan.value.cache| ==> l.chan.value.cache[i].msg.ToClientReq?)
          && (l.chan.value.handler != NoHandler ==> l.chan.value.cache == []))
    && (Up(l) ==> !ErrorQueued(l))
    && (Up(l) && l.chan.value.loginPending ==>
          && l.chan.value.handler == NoHandler
          && l.chan.value.cache == []
          && forall i :: 0 <= i < |l.queue| ==> Stale(l.queue[i], l.chan.value.id))
  }

  /** The log-in response waits in the queue: everything before it is stale, only errors come after it. */
  ghost predicate LogInQueued(l: Link, i: int) {
    && 0 <= i < |l.queue| && l.queue[i].LogInRspTask?
    && l.chan.Some? && l.chan.value.handler == NoHandler && !l.chan.value.loginPending
    && (forall j :: 0 <= j < i ==> Stale(l.queue[j], l.chan.value.id))
    && (forall j :: i < j < |l.queue| ==> l.queue[j].ErrorTask?)
  }

  ghost predicate PhaseOk(state: State, l: Link) {
    && (state == Connecting ==> l.chan.Some? && (Up(l) || ErrorQueued(l)))
    && (state == Null && l.chan.Some? ==> !Up(l) && !ErrorQueued(l))
    && (state == InPeer ==> l.chan.Some?)
    && (Up(l) ==> (l.chan.value.handler.OpenHandler? <==> state == InPeer))
    && (Up(l) && l.chan.value.loginPending ==> state == Connecting)
    && (Up(l) && (l.chan.value.end == EndExpected || l.chan.value.end == EndTaken) ==> state == InPeer)
    && (forall i :: 0 <= i < |l.queue| ==>
          && (l.queue[i].OpenTask? || l.queue[i].EndTask? ==> state == InPeer)
          && (l.queue[i].LogInRspTask? ==> state == Connecting && LogInQueued(l, i)))
  }

  ghost predicate ChannelOk(state: State, l: Link) {
    LinkOk(l) && PhaseOk(state, l)
  }

  /** Leftover init-channel tasks of a session in PEER state never complete the list, of `k` already, again. */
  ghost predicate InitOk(state: State, l: Link, k: nat) {
    state == InPeer && Up(l) ==>
      forall i :: 0 <= i < |l.queue| ==>
        l.queue[i].InitTask? && l.queue[i].chan == l.chan.value.id ==> k >= l.queue[i].n
  }

  lemma ReceiveOk(state: State, l: Link, m: Msg)
    requires ChannelOk(state, l) && Up(l)
    ensures ChannelOk(state, Receive(l, m))
  {
    var l' := Receive(l, m);
    forall i | 0 <= i < |l.queue| && l.queue[i].LogInRspTask?
      ensures LogInQueued(l', i)
    {
      assert LogInQueued(l, i);
    }
  }

  lemma HoseAsyncOk(state: State, l: Link, e: Error)
    requires ChannelOk(state, l) && Up(l)
    ensures ChannelOk(state, HoseAsync(l, e))
  {
    assert HoseAsync(l, e).queue[|l.queue|] == ErrorTask(l.chan.value.id, e);
  }

  lemma DownOk(l: Link)
    requires ChannelOk(InPeer, l) && Up(l)
    ensures ChannelOk(InPeer, Down(l))
  {
  }

  lemma SendKeeps(state: State, l: Link, m: Msg, op: SendOp)
    requires ChannelOk(state, l) && l.chan.Some?
    ensures !Send(l, m, op).1.Failed? ==> ChannelOk(state, Send(l, m, op).0)
    ensures state == InPeer ==> ChannelOk(state, Send(l, m, op).0)
  {
    hide ChannelOk, HoseAsync, Down;
    if Up(l) {
      match op
      case SendOk => SentOk(state, l, m);
      case SendFails(e) => if state == InPeer { DownOk(l); }
      case SendLate(e) => HoseAsyncOk(state, l, e);
    }
  }

  lemma SentOk(state: State, l: Link, m: Msg)
    requires ChannelOk(state, l) && l.chan.Some?
    ensures ChannelOk(state, l.(sent := l.sent + [m]))
  {
  }

  /** The channel is destroyed with nothing but errors and leftovers queued. */
  lemma DropOk(l: Link)
    requires forall i :: 0 <= i < |l.queue| ==> TaskOk(l.queue[i], l) && (l.queue[i].ErrorTask? || l.queue[i].InitTask?)
    ensures ChannelOk(Null, l.(chan := None))
  {
  }

  lemma NewChannelOk(l: Link)
    requires ChannelOk(Null, l)
    ensures ChannelOk(Connecting, NewChannel(l))
  {
  }

  ghost function Pop(l: Link): Link
    requires l.queue != []
  {
    l.(queue := l.queue[1..])
  }

  ghost predicate AboutCurrent(t: Task, l: Link) {
    t.ErrorTask? && l.chan.Some? && t.chan == l.chan.value.id
  }

  lemma PopOk(state: State, l: Link)
    requires ChannelOk(state, l) && l.queue != []
    requires !l.queue[0].LogInRspTask?
    requires AboutCurrent(l.queue[0], l) ==> state == InPeer
    ensures ChannelOk(state, Pop(l))
  {
    var l' := Pop(l);
    forall i | 0 <= i < |l'.queue| && l'.queue[i].LogInRspTask?
      ensures LogInQueued(l', i)
    {
      assert LogInQueued(l, i + 1);
    }
    if ErrorQueued(l) && state == Connecting && !Up(l) {
      var i :| 0 <= i < |l.queue| && AboutCurrent(l.queue[i], l);
      assert l'.queue[i - 1] == l.queue[i];
    }
  }

  lemma PopErrorOk(state: State, l: Link)
    requires ChannelOk(state, l) && l.queue != [] && state == Connecting
    requires AboutCurrent(l.queue[0], l)
    ensures ChannelOk(Null, Pop(l).(chan := None))
  {
    assert Pop(l).queue == l.queue[1..];
    DropOk(Pop(l));
  }

  lemma PopLogInOk(state: State, l: Link)
    requires ChannelOk(state, l) && l.queue != [] && l.queue[0].LogInRspTask?
    ensures state == Connecting && l.chan.Some? && LinkOk(Pop(l)) && PhaseOk(state, Pop(l))
    ensures l.chan.value.handler == NoHandler && !l.chan.value.loginPending
    ensures forall i :: 0 <= i < |Pop(l).queue| ==> Pop(l).queue[i].ErrorTask?
  {
    assert LogInQueued(l, 0);
    if ErrorQueued(l) {
      var i :| 0 <= i < |l.queue| && AboutCurrent(l.queue[i], l) && l.queue[i] != l.queue[0];
      assert Pop(l).queue[i - 1] == l.queue[i];
    }
  }

  lemma ExpectOk(l: Link, h: Handler, late: Option<Error>)
    requires ChannelOk(Connecting, l) && l.chan.Some? && h != NoHandler
    requires l.chan.value.handler == NoHandler && !l.chan.value.loginPending
    requires forall i :: 0 <= i < |l.queue| ==> l.queue[i].ErrorTask?
    ensures !Expect(l, h, late).1 || h.InitHandler? ==> ChannelOk(Connecting, Expect(l, h, late).0)
    ensures Expect(l, h, late).1 && h == OpenHandler ==>
              ChannelOk(InPeer, Expect(l, h, late).0) && InitOk(InPeer, Expect(l, h, late).0, 0)
  {
    if Up(l) && late.Some? {
      HoseAsyncOk(Connecting, l, late.value);
    }
  }

  ghost function WithHandler(l: Link, h: Handler): Link
    requires l.chan.Some?
  {
    l.(chan := Some(l.chan.value.(handler := h)))
  }

  /** The ways the switch of handlers and the acknowledgement go, with nothing cached. */
  lemma SwitchForms(l: Link, id: nat, ops: Ops)
    requires Up(l) && l.chan.value.cache == []
    ensures SwitchAndAck(l, id, ops) ==
              if ops.late1.Some? then (HoseAsync(l, ops.late1.value), Refused)
              else if ops.late2.Some? then (HoseAsync(WithHandler(l, NoHandler), ops.late2.value), Refused)
              else Send(WithHandler(l, OpenHandler), ToClientRsp(id, Accepted), ops.op)
  {
    assert l.queue + HandlerTasks(l.chan.value.id, OpenHandler, []) == l.queue;
  }

  lemma SwitchOk(l: Link, n: nat, id: nat, ops: Ops)
    requires ChannelOk(Connecting, l) && l.chan.Some?
    requires Up(l) ==> l.chan.value.handler == InitHandler(n)
    ensures SwitchAndAck(l, id, ops).1.Refused? ==> ChannelOk(Connecting, SwitchAndAck(l, id, ops).0)
    ensures SwitchAndAck(l, id, ops).1.Failed? ==> ChannelOk(Null, SwitchAndAck(l, id, ops).0)
    ensures SwitchAndAck(l, id, ops).1.Sent? ==>
              ChannelOk(InPeer, SwitchAndAck(l, id, ops).0) && InitOk(InPeer, SwitchAndAck(l, id, ops).0, n)
  {
    hide ChannelOk, SwitchAndAck, HoseAsync, Down, InitOk;
    if !Up(l) {
      SwitchRefused(l, id, ops);
    } else {
      UpFacts(l, n);
      SwitchForms(l, id, ops);
      var late := if ops.late1.Some? then ops.late1.value else if ops.late2.Some? then ops.late2.value
                  else if ops.op.SendLate? then ops.op.e else ChannelError(0);
      HoseAsyncOk(Connecting, l, late);
      HosedSwitchOk(l, NoHandler, late);
      HosedSwitchOk(l, OpenHandler, late);
      OpenedOk(l, n, ToClientRsp(id, Accepted));
    }
  }

  lemma UpFacts(l: Link, n: nat)
    requires ChannelOk(Connecting, l) && Up(l) && l.chan.value.handler == InitHandler(n)
    ensures l.chan.value.cache == []
  {
  }

  /** The handler was taken away or replaced, and then the channel fails in the background. */
  lemma HosedSwitchOk(l: Link, h: Handler, e: Error)
    requires ChannelOk(Connecting, l) && Up(l) && l.chan.value.handler.InitHandler?
    ensures ChannelOk(Connecting, HoseAsync(WithHandler(l, h), e))
  {
    var l' := HoseAsync(WithHandler(l, h), e);
    assert l'.queue[|l.queue|] == ErrorTask(l.chan.value.id, e);
  }

  lemma OpenedOk(l: Link, n: nat, m: Msg)
    requires ChannelOk(Connecting, l) && Up(l) && l.chan.value.handler == InitHandler(n)
    ensures var l' := WithHandler(l, OpenHandler);
            && ChannelOk(Null, Down(l'))
            && ChannelOk(InPeer, l'.(sent := l.sent + [m])) && InitOk(InPeer, l'.(sent := l.sent + [m]), n)
  {
  }

  // ----- Vanilla runs -----

  /** The on-error handler runs at most once, last of all events, and only after PEER was reached. */
  ghost predicate SessOk(state: State, s: Sess) {
    && (forall i :: 0 <= i < |s.log| && s.log[i].OnError? ==> i == |s.log| - 1 && s.hosed == Some(s.log[i].e))
    && (s.hosed.Some? ==> s.log != [] && s.log[|s.log| - 1] == OnError(s.hosed.value) && s.wait.None?)
    && (state != InPeer ==> s == Sess(None, None, [], false))
  }

  /** Asserts of the source that no run violates, whatever the server sends. */
  const NEVER := {LogInOutOfState, ErrorInNull, EmptyHandler, NullChannel, HosedTwice}

  lemma SwitchRefused(l: Link, id: nat, ops: Ops)
    requires l.chan.Some? && !Up(l)
    ensures SwitchAndAck(l, id, ops) == (l, Refused)
  {
  }

  lemma AckRefused(c: Client, id: nat, ops: Ops)
    requires c.link.chan.Some? && !Up(c.link)
    ensures AckInit(c, id, ops) == c
  {
    SwitchRefused(c.link, id, ops);
  }

  ghost predicate Inv(c: Client) {
    && HandlersOnce(c.conn)
    && ChannelOk(c.conn.state, c.link)
    && InitOk(c.conn.state, c.link, |c.init|)
    && SessOk(c.conn.state, c.sess)
    && c.faults !! NEVER
  }

  lemma Facts(state: State, l: Link)
    requires ChannelOk(state, l)
    ensures state != Null ==> l.chan.Some?
    ensures l.queue != [] && (l.queue[0].OpenTask? || l.queue[0].EndTask?) ==> state == InPeer
  {
  }

  /** An init-channel task at the head: of a channel that is up, the list is being collected, or complete. */
  lemma InitFacts(state: State, l: Link, k: nat)
    requires ChannelOk(state, l) && InitOk(state, l, k) && l.queue != [] && l.queue[0].InitTask?
    ensures l.chan.Some? && l.chan.value.id == l.queue[0].chan && Up(l) ==>
              || (state == Connecting && l.chan.value.handler == InitHandler(l.queue[0].n))
              || (state == InPeer && k >= l.queue[0].n)
    ensures forall k' :: k' >= k ==> InitOk(state, Pop(l), k')
    ensures forall l', k' :: !Up(l') || state != InPeer ==> InitOk(state, l', k')
  {
    assert forall i :: 0 <= i < |l.queue| - 1 ==> l.queue[1..][i] == l.queue[i + 1];
  }

  lemma Pending(k: Conn)
    requires HandlersOnce(k)
    ensures k.state == Connecting <==> k.onDone.Some?
  {
  }

  lemma RequestOk(l: Link, m: Msg, op: SendOp)
    requires ChannelOk(Null, l)
    ensures var (l', r) := Send(NewChannel(l), m, op);
            if r.Failed? then ChannelOk(Null, l'.(chan := None)) else ChannelOk(Connecting, l')
  {
    NewChannelOk(l);
    SendKeeps(Connecting, NewChannel(l), m, op);
    DropOk(l);
  }

  lemma InvConnect(c: Client, args: Args, run: ConnectRun)
    requires Inv(c) && c.sess.wait.None?
    ensures Inv(Connect(c, args, run).0)
  {
    hide HandlersOnce, ChannelOk, Send;
    HandlersConnect(c, args, run);
    if c.conn.state == Null && run.Requested? {
      RequestOk(c.link, LogInReq(1, 1, NCli(args)), run.op);
    }
  }

  lemma InvLogInRsp(c: Client, m: Msg, late: Option<Error>)
    requires Inv(c) && c.link.queue != [] && c.link.queue[0].LogInRspTask?
    ensures Inv(OnLogInRsp(Popped(c), m, late, Keep))
  {
    hide HandlersOnce, ChannelOk, InitOk, FailConnect, LoggedIn, LogInRspError;
    Pending(c.conn);
    PopLogInOk(c.conn.state, c.link);
    assert ChannelOk(Connecting, Pop(c.link)) by { PoppedOk(c.link); }
    var c1 := Check(Popped(c), c.conn.state == Connecting && c.conn.onDone.Some?, LogInOutOfState);
    if LogInRspError(c.args, m).Some? {
      InvFails(c1, LogInRspError(c.args, m).value);
    } else {
      InvLoggedIn(Check(c1, c.cliNs.None?, SetTwice).(cliNs := Some(m.ns)), m.nSrv + NCli(c.args), late);
    }
  }

  lemma PoppedOk(l: Link)
    requires l.queue != [] && LinkOk(Pop(l)) && PhaseOk(Connecting, Pop(l))
    ensures ChannelOk(Connecting, Pop(l))
  {
  }

  /** The attempt fails, with nothing but errors queued. */
  lemma InvFails(c: Client, e: Error)
    requires HandlersOnce(c.conn) && c.conn.onDone.Some? && SessOk(Null, c.sess) && c.faults !! NEVER
    requires LinkOk(c.link) && forall i :: 0 <= i < |c.link.queue| ==> c.link.queue[i].ErrorTask?
    ensures Inv(FailConnect(c, e))
  {
    hide HandlersOnce, ChannelOk, Finish;
    HandlersFinish(c.conn, Some(e), [], []);
    DropOk(c.link);
  }

  lemma InvLoggedIn(c: Client, n: nat, late: Option<Error>)
    requires HandlersOnce(c.conn) && c.conn.state == Connecting && c.conn.onDone.Some?
    requires SessOk(Null, c.sess) && c.faults !! NEVER && ChannelOk(Connecting, c.link) && c.link.chan.Some?
    requires c.link.chan.value.handler == NoHandler && !c.link.chan.value.loginPending
    requires forall i :: 0 <= i < |c.link.queue| ==> c.link.queue[i].ErrorTask?
    ensures Inv(LoggedIn(c, n, late, Keep))
  {
    hide HandlersOnce, ChannelOk, Expect, Finish;
    ExpectOk(c.link, if n == 0 then OpenHandler else InitHandler(n), late);
    HandlersFinish(c.conn, None, [], []);
    if n == 0 && Expect(c.link, OpenHandler, late).1 {
      MoreCollected(Expect(c.link, OpenHandler, late).0, 0, |c.init|);
    }
  }

  lemma MoreCollected(l: Link, k: nat, k': nat)
    requires InitOk(InPeer, l, k) && k <= k'
    ensures InitOk(InPeer, l, k')
  {
  }

  lemma InvInitOpen(c: Client, ch: nat, n: nat, x: Inbound, ops: Ops)
    requires Inv(c) && c.link.queue != [] && c.link.queue[0] == InitTask(ch, n, x) && x.msg.ToClientReq?
    requires ops.wrapper == Keep
    ensures Inv(OnInitOpen(Popped(c), ch, n, x, ops))
  {
    hide HandlersOnce, AckInit, ChannelOk, InitOk;
    Pending(c.conn);
    Facts(c.conn.state, c.link);
    InitFacts(c.conn.state, c.link, |c.init|);
    PopOk(c.conn.state, c.link);
    if c.link.chan.Some? && c.link.chan.value.id == ch && |c.init| + 1 == n {
      var c1 := Check(Popped(c), c.conn.state == Connecting && c.conn.onDone.Some?, InitOutOfState);
      InvAck(Check(c1, |c.init| < n, InitOverflow).(init := c.init + [ClientPeer(x.msg.c2s, x.msg.s2c)]), n, x.id, ops);
    }
  }

  /** The list is complete. */
  lemma InvAck(c: Client, n: nat, id: nat, ops: Ops)
    requires Inv(c) && c.link.chan.Some? && ops.wrapper == Keep && |c.init| == n
    requires Up(c.link) ==> c.conn.state == Connecting && c.link.chan.value.handler == InitHandler(n)
    ensures Inv(AckInit(c, id, ops))
  {
    hide HandlersOnce, SwitchAndAck, ChannelOk, InitOk, Finish, ByCli, BySrv;
    Pending(c.conn);
    if !Up(c.link) {
      SwitchRefused(c.link, id, ops);
    } else {
      SwitchOk(c.link, n, id, ops);
      var (l, r) := SwitchAndAck(c.link, id, ops);
      if r.Failed? {
        HandlersFinish(c.conn, Some(r.e), [], []);
      }
      HandlersFinish(c.conn, None, ByCli(c), BySrv(c));
      NotInPeer(l, n);
    }
  }

  lemma NotInPeer(l: Link, n: nat)
    ensures InitOk(Connecting, l, n) && InitOk(Null, l, n)
  {
  }

  lemma InvOpenReq(c: Client, x: Inbound, op: SendOp)
    requires Inv(c) && c.link.queue != [] && c.link.queue[0] == OpenTask(x) && x.msg.ToClientReq?
    requires c.sess.wait.None?
    ensures Inv(OnOpenReq(Popped(c), x, op))
  {
    hide HandlersOnce, ChannelOk;
    Facts(c.conn.state, c.link);
    PopOk(c.conn.state, c.link);
    SendKeeps(InPeer, Pop(c.link), ToClientRsp(x.id, if c.cfg.passiveEnabled then Accepted else RejectedPassiveOpen), op);
  }

  lemma InvError(c: Client, ch: nat, e: Error)
    requires Inv(c) && c.link.queue != [] && c.link.queue[0] == ErrorTask(ch, e) && c.sess.wait.None?
    ensures Inv(OnChannelError(Popped(c), ch, e))
  {
    hide HandlersOnce;
    Pending(c.conn);
    HandlersError(Popped(c), ch, e);
    if c.conn.state == Connecting && AboutCurrent(c.link.queue[0], c.link) {
      PopErrorOk(c.conn.state, c.link);
    } else {
      PopOk(c.conn.state, c.link);
    }
  }

  lemma InvEnd(c: Client)
    requires Inv(c) && c.link.queue != [] && c.link.queue[0].EndTask? && c.sess.wait.None?
    ensures Inv(OnEnd(Popped(c)))
  {
    hide HandlersOnce, ChannelOk;
    Facts(c.conn.state, c.link);
    PopOk(c.conn.state, c.link);
  }

  lemma InvSendEnd(c: Client, op: SendOp)
    requires Inv(c) && Enabled(c, DoEnd(op))
    ensures Inv(SendEnd(c, op))
  {
    hide HandlersOnce, ChannelOk;
    Facts(c.conn.state, c.link);
    SendKeeps(InPeer, c.link, GracefulSessionEnd, op);
  }

  lemma InvTask(c: Client, ops: Ops)
    requires Inv(c) && Enabled(c, DoTask(ops)) && ops.wrapper == Keep
    ensures Inv(RunTask(c, ops))
  {
    hide Inv, OnLogInRsp, OnInitOpen, OnOpenReq, OnChannelError, OnEnd;
    match c.link.queue[0]
    case LogInRspTask(x) => InvLogInRsp(c, x.msg, ops.late1);
    case InitTask(ch, n, x) => InvInitOpen(c, ch, n, x, ops);
    case OpenTask(x) => InvOpenReq(c, x, ops.op);
    case ErrorTask(ch, e) => InvError(c, ch, e);
    case EndTask => InvEnd(c);
  }

  lemma InvOpenStart(c: Client, op: SendOp)
    requires Inv(c) && Enabled(c, DoOpen(op))
    ensures Inv(OpenStart(c, op).0)
  {
    hide HandlersOnce, ChannelOk;
    Facts(c.conn.state, c.link);
    SendKeeps(InPeer, c.link, ToServerReq, op);
  }

  lemma InvEndWait(c: Client, end: WaitEnd)
    requires Inv(c) && c.sess.wait.Some?
    ensures Inv(OpenUnanswered(c, end))
  {
    hide HandlersOnce, ChannelOk;
    if Up(c.link) {
      DownOk(c.link);
      HoseAsyncOk(InPeer, c.link, if end.TimedOut? then OpenTimeout else end.e);
    }
  }

  lemma InvDeliver(c: Client, m: Msg)
    requires Inv(c) && Up(c.link)
    ensures Inv(Deliver(c, m))
  {
    hide HandlersOnce;
    ReceiveOk(c.conn.state, c.link, m);
  }

  lemma InvStep(c: Client, s: Step)
    requires Inv(c) && Enabled(c, s) && Vanilla(s)
    ensures Inv(Next(c, s))
  {
    hide Inv, Connect, Deliver, RunTask, OpenStart, OpenUnanswered, SendEnd;
    match s
    case DoConnect(args, run) => InvConnect(c, args, run);
    case DoDeliver(m) => InvDeliver(c, m);
    case DoFail(e) => InvFail(c, e);
    case DoTask(ops) => InvTask(c, ops);
    case DoOpen(op) => InvOpenStart(c, op);
    case DoEndWait(end) => InvEndWait(c, end);
    case DoEnd(op) => InvSendEnd(c, op);
  }

  lemma InvFail(c: Client, e: Error)
    requires Inv(c) && Up(c.link)
    ensures Inv(c.(link := HoseAsync(c.link, e)))
  {
    hide HandlersOnce, ChannelOk;
    HoseAsyncOk(c.conn.state, c.link, e);
  }

  lemma {:induction false} InvInRuns(states: seq<Client>, steps: seq<Step>, i: nat)
    requires Run(states, steps) && i < |states|
    requires forall j :: 0 <= j < |steps| ==> Vanilla(steps[j])
    ensures Inv(states[i])
  {
    if i > 0 {
      InvInRuns(states, steps, i - 1);
      InvStep(states[i - 1], steps[i - 1]);
    } else {
      InvFresh(states[0].cfg);
    }
  }

  lemma InvFresh(cfg: Config)
    ensures Inv(Fresh(cfg))
  {
  }
}
