/** `Client_session_impl` as a function of its state: one function for each task its worker thread W runs, and one for
    each thing the master channel does to it.  `ClientSession.dfy` has the object itself.

    The state goes through any number of connect attempts; each attempt that gets a socket has a master channel of its
    own.  `faults` collects violated `assert()`s of the source, and uses of a null master channel; execution then goes
    on as in a build without assertions. */
module ClientModel {
  import opened MasterChannel

  datatype State = Null | Connecting | InPeer

  /** What `OpenChannelToClientReq` messages are currently handed to. */
  datatype Handler = NoHandler | InitHandler(n: nat) | OpenHandler

  datatype Chan = Chan(id: nat, up: bool, loginPending: bool, handler: Handler, cache: seq<Inbound>, end: End)

  /** Tasks waiting in the queue of thread W.  `chan` is the master channel whose callback posted the task. */
  datatype Task =
    | LogInRspTask(rsp: Inbound)
    | InitTask(chan: nat, n: nat, req: Inbound)
    | OpenTask(req: Inbound)
    | ErrorTask(chan: nat, e: Error)
    | EndTask

  /** `nCli`: size of the pre-sized container of client-requested init-channels, if one was passed;
      `wantsSrv`: was a container for server-requested ones passed. */
  datatype Args = Args(nCli: Option<nat>, wantsSrv: bool)

  /** One execution of an on-connect-done handler, with the out-arguments as they are at that moment. */
  datatype Done = Done(token: nat, result: Option<Error>, byCli: seq<Peer>, bySrv: seq<Peer>)

  datatype Event =
    | OnError(e: Error)
    | ActiveOpen(id: nat, peer: Peer)
    | PassiveOpen(id: nat, peer: Peer)

  datatype Fault =
    | SetTwice              // a set-once value of Session_base is set again
    | ChannelKept           // a new master channel is made while the old one is still held
    | LogInOutOfState       // log-in response handled while not CONNECTING
    | InitOutOfState        // init-channel message handled while not CONNECTING
    | InitOverflow          // more init-channel messages than agreed
    | ErrorInNull           // channel error handled while NULL
    | EmptyHandler          // empty on-connect-done handler invoked
    | NullChannel           // null master channel used
    | HosedTwice            // on-error handler invoked again
    | PeerNotCancelled      // PEER state not cancelled by a sub-class that finishes gracefully
    | NoFinisher            // `Graceful_finisher` used though there is none

  /** The connect state machine: `m_state`, `m_conn_on_done_func_or_empty` (handlers are numbered in the order they
      are given), and the handler executions so far.  `cancelled`: CONNECTING once more, by a sub-class that cancelled the
      PEER state. */
  datatype Conn = Conn(state: State, onDone: Option<nat>, dones: seq<Done>, nextToken: nat, cancelled: bool)

  /** `m_master_channel`, the task queue of W, and the messages sent and received on the current master
      channel. */
  datatype Link = Link(chan: Option<Chan>, queue: seq<Task>, sent: seq<Msg>, recv: seq<Msg>, nextChan: nat)

  /** The PEER state: the error it ended with if any, the message a blocked W awaits the response to, what the user was
      told, and is there a `Graceful_finisher`. */
  datatype Sess = Sess(hosed: Option<Error>, wait: Option<nat>, log: seq<Event>, finisher: bool)

  /** `graceful`: is this the session of a sub-class whose sessions finish gracefully. */
  datatype Config = Config(passiveEnabled: bool, graceful: bool)

  datatype Client = Client(
    conn: Conn,
    link: Link,
    sess: Sess,
    args: Args,
    init: seq<Peer>,
    srvNs: Option<string>,
    cliNs: Option<string>,
    cfg: Config,
    faults: set<Fault>)

  function Fresh(cfg: Config): Client {
    Client(Conn(Null, None, [], 0, false), Link(None, [], [], [], 0), Sess(None, None, [], false), Args(None, false), [],
           None, None, cfg, {})
  }

  function Check(c: Client, cond: bool, f: Fault): Client {
    if cond then c else c.(faults := c.faults + {f})
  }

  // ----- What the master channel does -----

  predicate Up(l: Link) {
    l.chan.Some? && l.chan.value.up
  }

  function Down(l: Link): Link
    requires l.chan.Some?
  {
    l.(chan := Some(l.chan.value.(up := false)))
  }

  /** The channel fails in the background; its on-error handler posts a task onto W. */
  function HoseAsync(l: Link, e: Error): Link
    requires l.chan.Some?
  {
    Down(l).(queue := l.queue + [ErrorTask(l.chan.value.id, e)])
  }

  function Send(l: Link, m: Msg, op: SendOp): (Link, SendResult)
    requires l.chan.Some?
  {
    if !l.chan.value.up then (l, Refused)
    else match op
      case SendOk => (l.(sent := l.sent + [m]), Sent)
      case SendFails(e) => (Down(l), Failed(e))
      case SendLate(e) => (HoseAsync(l, e), Refused)
  }

  function HandlerTask(ch: nat, h: Handler, x: Inbound): Task
    requires h != NoHandler
  {
    if h.InitHandler? then InitTask(ch, h.n, x) else OpenTask(x)
  }

  function HandlerTasks(ch: nat, h: Handler, xs: seq<Inbound>): seq<Task>
    requires h != NoHandler
  {
    seq(|xs|, i requires 0 <= i < |xs| => HandlerTask(ch, h, xs[i]))
  }

  /** `expect_msgs()`: cached messages go to the new handler at once.  `late`: the channel fails just before. */
  function Expect(l: Link, h: Handler, late: Option<Error>): (Link, bool)
    requires l.chan.Some? && h != NoHandler
  {
    var ch := l.chan.value;
    if !ch.up then (l, false)
    else if late.Some? then (HoseAsync(l, late.value), false)
    else (l.(chan := Some(ch.(handler := h, cache := [])),
             queue := l.queue + HandlerTasks(ch.id, h, ch.cache)), true)
  }

  function UndoExpect(l: Link, late: Option<Error>): (Link, bool)
    requires l.chan.Some?
  {
    if !l.chan.value.up then (l, false)
    else if late.Some? then (HoseAsync(l, late.value), false)
    else (l.(chan := Some(l.chan.value.(handler := NoHandler))), true)
  }

  /** The next message arrives on a healthy channel; what becomes of it short of answering a blocked request. */
  function Receive(l: Link, m: Msg): Link
    requires Up(l)
  {
    var ch := l.chan.value;
    var x := Inbound(|l.recv|, m);
    var l1 := l.(recv := l.recv + [m]);
    if ch.loginPending then
      l1.(chan := Some(ch.(loginPending := false)), queue := l.queue + [LogInRspTask(x)])
    else if m.ToClientReq? && ch.handler == NoHandler then
      l1.(chan := Some(ch.(cache := ch.cache + [x])))
    else if m.ToClientReq? then
      l1.(queue := l.queue + [HandlerTask(ch.id, ch.handler, x)])
    else if m.GracefulSessionEnd? then ReceiveEnd(l1)
    else l1
  }

  /** The one end message goes to its handler if that is there, and is cached otherwise. */
  function ReceiveEnd(l: Link): Link
    requires l.chan.Some?
  {
    match l.chan.value.end
    case EndUnexpected => l.(chan := Some(l.chan.value.(end := EndCached)))
    case EndExpected => l.(chan := Some(l.chan.value.(end := EndTaken)), queue := l.queue + [EndTask])
    case _ => l
  }

  /** `expect_msg(GRACEFUL_SESSION_END)` */
  function ExpectEnd(l: Link): Link
    requires l.chan.Some?
  {
    if !l.chan.value.up then l
    else match l.chan.value.end
      case EndUnexpected => l.(chan := Some(l.chan.value.(end := EndExpected)))
      case EndCached => l.(chan := Some(l.chan.value.(end := EndTaken)), queue := l.queue + [EndTask])
      case _ => l
  }

  function Deliver(c: Client, m: Msg): Client
    requires Up(c.link)
  {
    var c1 := c.(link := Receive(c.link, m));
    if !c.link.chan.value.loginPending && m.ToServerRsp? && c.sess.wait == Some(m.to)
    then c1.(sess := OpenAnswered(c.sess, m)) else c1
  }

  // ----- Completion and failure -----

  /** `invoke_conn_on_done_func()`: the stored handler is emptied, then run, in the state already changed to. */
  function Fire(c: Client, state: State, result: Option<Error>, byCli: seq<Peer>, bySrv: seq<Peer>): Client {
    Check(c, c.conn.onDone.Some?, EmptyHandler).(conn := Finish(c.conn, state, result, byCli, bySrv))
  }

  function Finish(k: Conn, state: State, result: Option<Error>, byCli: seq<Peer>, bySrv: seq<Peer>): Conn {
    if k.onDone.None? then k.(state := state, cancelled := false)
    else Conn(state, None, k.dones + [Done(k.onDone.value, result, byCli, bySrv)], k.nextToken, false)
  }

  /** Back to NULL with the channel destroyed, reporting the reason. */
  function FailConnect(c: Client, e: Error): Client {
    Fire(c.(link := c.link.(chan := None)), Null, Some(e), [], [])
  }

  /** What a sub-class's own on-done wrapper may do inside the successful completion. */
  datatype Wrapper = Keep | ToNull | ToConnecting

  function Succeed(c: Client, byCli: seq<Peer>, bySrv: seq<Peer>, w: Wrapper): Client {
    var c1 := Fire(c, InPeer, None, byCli, bySrv);
    match w
    case Keep => Check(c1, !c.cfg.graceful, PeerNotCancelled)
    case ToNull => CancelToNull(c1)
    case ToConnecting => c1.(conn := Begin(c1.conn, true))
  }

  /** A new handler is stored on entry to CONNECTING, which may be by `cancel_peer_state_to_connecting()`. */
  function Begin(k: Conn, cancelled: bool): Conn {
    k.(state := Connecting, onDone := Some(k.nextToken), nextToken := k.nextToken + 1, cancelled := cancelled)
  }

  /** `cancel_peer_state_to_null()` */
  function CancelToNull(c: Client): Client {
    c.(link := c.link.(chan := None), conn := c.conn.(state := Null))
  }

  /** `complete_async_connect_after_canceling_peer_state()` */
  function Complete(c: Client, err: Option<Error>): Client {
    if err.Some? then FailConnect(c, err.value) else Fire(MakeFinisher(c), InPeer, None, [], [])
  }

  /** A `Graceful_finisher` is made, if one is required, and expects the end message. */
  function MakeFinisher(c: Client): Client {
    if !c.cfg.graceful then c
    else if c.link.chan.None? then Check(c, false, NullChannel)
    else c.(link := ExpectEnd(c.link), sess := c.sess.(finisher := true))
  }

  function Hose(c: Client, e: Error): Client {
    Check(c, c.sess.hosed.None?, HosedTwice).(sess := HosedSess(c.sess, e))
  }

  function HosedSess(s: Sess, e: Error): Sess {
    s.(hosed := Some(e), log := s.log + [OnError(e)])
  }

  // ----- Tasks -----

  /** How far a connect attempt gets inside `async_connect()` itself. */
  datatype ConnectRun =
    | NoNamespace(e: Error)                  // mutex, CNS file or its contents
    | NoSocket(srvNs: string, e: Error)      // the socket stream does not connect
    | Requested(srvNs: string, op: SendOp)   // the log-in request is issued

  function NCli(args: Args): nat {
    if args.nCli.Some? then args.nCli.value else 0
  }

  function NewChannel(l: Link): Link {
    Link(Some(Chan(l.nextChan, true, true, NoHandler, [], EndUnexpected)), l.queue, [], [], l.nextChan + 1)
  }

  /** `async_connect()`; the result says whether the attempt was started. */
  function Connect(c: Client, args: Args, run: ConnectRun): (Client, bool) {
    if c.conn.state != Null then (c, false)
    else (Attempt(c.(conn := Begin(c.conn, false), args := args), run), true)
  }

  function Attempt(c: Client, run: ConnectRun): Client {
    match run
    case NoNamespace(e) => Fire(c, Null, Some(e), [], [])
    case NoSocket(ns, e) => Fire(SetSrvNs(c, ns), Null, Some(e), [], [])
    case Requested(ns, op) => RequestLogIn(SetSrvNs(c, ns), op)
  }

  function SetSrvNs(c: Client, ns: string): Client {
    Check(c, c.srvNs.None?, SetTwice).(srvNs := Some(ns))
  }

  function RequestLogIn(c: Client, op: SendOp): Client {
    var (l, r) := Send(NewChannel(c.link), LogInReq(1, 1, NCli(c.args)), op);
    var c1 := Check(c, c.link.chan.None?, ChannelKept).(link := l, init := []);
    if r.Failed? then FailConnect(c1, r.e) else c1
  }

  /** What is wrong with the log-in response, if anything. */
  function LogInRspError(args: Args, m: Msg): (r: Option<Error>)
    ensures r.None? ==> m.LogInRsp? && (m.nSrv == 0 || args.wantsSrv) && m.ns != "" && m.ns != SENTINEL
  {
    if !m.LogInRsp? then Some(LogInResponseBad)
    else if !Negotiable(m.ver) || !Negotiable(m.verAux) then Some(ProtocolVersionUnsupported)
    else if m.nSrv != 0 && !args.wantsSrv then Some(InvalidArgument)
    else if m.ns == "" || m.ns == SENTINEL then Some(LogInResponseBad)
    else None
  }

  /** `on_master_channel_log_in_rsp()` */
  function OnLogInRsp(c: Client, m: Msg, late: Option<Error>, w: Wrapper): Client {
    var err := LogInRspError(c.args, m);
    var c1 := Check(c, c.conn.state == Connecting && c.conn.onDone.Some?, LogInOutOfState);
    if err.Some? then FailConnect(c1, err.value)
    else LoggedIn(Check(c1, c.cliNs.None?, SetTwice).(cliNs := Some(m.ns)), m.nSrv + NCli(c.args), late, w)
  }

  /** The log-in response is good, and `n` init-channels are to come. */
  function LoggedIn(c: Client, n: nat, late: Option<Error>, w: Wrapper): Client {
    if c.link.chan.None? then Check(c, false, NullChannel)
    else
      var (l, ok) := Expect(c.link, if n == 0 then OpenHandler else InitHandler(n), late);
      if n == 0 && ok then Succeed(c.(link := l), [], [], w) else c.(link := l)
  }

  /** `on_master_channel_init_open_channel()`.  The list of init-channels so far belongs to the handler that the
      channel `ch` was given; a task left over from an earlier channel finds its own list full. */
  function OnInitOpen(c: Client, ch: nat, n: nat, x: Inbound, ops: Ops): Client
    requires x.msg.ToClientReq?
  {
    var c1 := Check(c, c.conn.state == Connecting && c.conn.onDone.Some?, InitOutOfState);
    if c.link.chan.None? || c.link.chan.value.id != ch then Check(c1, false, InitOverflow)
    else
      var c2 := Check(c1, |c.init| < n, InitOverflow).(init := c.init + [ClientPeer(x.msg.c2s, x.msg.s2c)]);
      if |c2.init| != n then c2 else AckInit(c2, x.id, ops)
  }

  /** All init-channels are in: switch handlers, acknowledge, and only then finish. */
  function AckInit(c: Client, id: nat, ops: Ops): Client
    requires c.link.chan.Some?
  {
    var (l, r) := SwitchAndAck(c.link, id, ops);
    match r
    case Refused => c.(link := l)
    case Failed(e) => Fire(c.(link := l), Null, Some(e), [], [])
    case Sent => Succeed(c.(link := l), ByCli(c), BySrv(c), ops.wrapper)
  }

  function SwitchAndAck(l: Link, id: nat, ops: Ops): (Link, SendResult)
    requires l.chan.Some?
  {
    var (l1, ok1) := UndoExpect(l, ops.late1);
    if !ok1 then (l1, Refused)
    else
      var (l2, ok2) := Expect(l1, OpenHandler, ops.late2);
      if !ok2 then (l2, Refused) else Send(l2, ToClientRsp(id, Accepted), ops.op)
  }

  function ByCli(c: Client): seq<Peer> {
    if NCli(c.args) <= |c.init| then c.init[..NCli(c.args)] else c.init
  }

  function BySrv(c: Client): seq<Peer> {
    if c.args.wantsSrv && NCli(c.args) <= |c.init| then c.init[NCli(c.args)..] else []
  }

  /** `on_master_channel_error()`; `ch` identifies the channel the error is about. */
  function OnChannelError(c: Client, ch: nat, e: Error): Client {
    if c.link.chan.None? || c.link.chan.value.id != ch then c
    else if c.conn.state == Connecting then FailConnect(c, e)
    else
      var c1 := Check(Check(c, c.conn.state != Null, ErrorInNull), c.cfg.graceful ==> c.sess.finisher, NoFinisher);
      if c.sess.hosed.None? then Hose(c1, e) else c1
  }

  /** `on_master_channel_open_channel_req()` */
  function OnOpenReq(c: Client, x: Inbound, op: SendOp): Client
    requires x.msg.ToClientReq?
  {
    if c.sess.hosed.Some? then c
    else if c.link.chan.None? then Check(c, false, NullChannel)
    else
      var result := if c.cfg.passiveEnabled then Accepted else RejectedPassiveOpen;
      var (l, r) := Send(c.link, ToClientRsp(x.id, result), op);
      var c1 := c.(link := l);
      match r
      case Refused => c1
      case Failed(e) => Hose(c1, e)
      case Sent =>
        if result == Accepted
        then c1.(sess := Emit(c.sess, PassiveOpen(x.id, ClientPeer(x.msg.c2s, x.msg.s2c)))) else c1
  }

  /** The task of the end message. */
  function OnEnd(c: Client): Client {
    if c.sess.hosed.None? then Hose(c, SessionFinished) else c
  }

  /** The destructor's end message; the result of `send()` is ignored. */
  function SendEnd(c: Client, op: SendOp): Client {
    if c.link.chan.None? then Check(c, false, NullChannel)
    else c.(link := Send(c.link, GracefulSessionEnd, op).0)
  }

  function Emit(s: Sess, e: Event): Sess {
    s.(log := s.log + [e])
  }

  /** Outcomes a task run may need: up to two background failures of the channel, one `send()`, and what the on-done
      wrapper does. */
  datatype Ops = Ops(late1: Option<Error>, late2: Option<Error>, op: SendOp, wrapper: Wrapper)

  predicate WellFormedTask(t: Task) {
    (t.InitTask? || t.OpenTask?) ==> t.req.msg.ToClientReq?
  }

  function RunTask(c: Client, ops: Ops): Client
    requires c.link.queue != [] && WellFormedTask(c.link.queue[0])
  {
    var c1 := c.(link := c.link.(queue := c.link.queue[1..]));
    match c.link.queue[0]
    case LogInRspTask(x) => OnLogInRsp(c1, x.msg, ops.late1, ops.wrapper)
    case InitTask(ch, n, x) => OnInitOpen(c1, ch, n, x, ops)
    case OpenTask(x) => OnOpenReq(c1, x, ops.op)
    case ErrorTask(ch, e) => OnChannelError(c1, ch, e)
    case EndTask => OnEnd(c1)
  }

  // ----- open_channel(): W sends the request, is blocked, and goes on when the wait ends -----

  /** The result says whether W is now waiting for a response. */
  function OpenStart(c: Client, op: SendOp): (Client, bool)
    requires c.conn.state == InPeer
  {
    if c.sess.hosed.Some? then (c, false)
    else if c.link.chan.None? then (Check(c, false, NullChannel), false)
    else
      var (l, r) := Send(c.link, ToServerReq, op);
      var c1 := c.(link := l);
      match r
      case Refused => (c1, false)
      case Failed(e) => (Hose(c1, e), false)
      case Sent => (c1.(sess := c.sess.(wait := Some(|c.link.sent|))), true)
  }

  function OpenAnswered(s: Sess, m: Msg): Sess
    requires m.ToServerRsp?
  {
    var s1 := s.(wait := None);
    if m.result == Accepted then Emit(s1, ActiveOpen(m.to, ClientPeer(m.c2s, m.s2c))) else s1
  }

  function OpenUnanswered(c: Client, end: WaitEnd): Client {
    var c1 := c.(sess := c.sess.(wait := None));
    if !Up(c.link) then c1
    else match end
      case TimedOut => c1
      case WaitFails(e) => Hose(c1.(link := Down(c.link)), e)
      case WaitLate(e) => c1.(link := HoseAsync(c.link, e))
  }
}
