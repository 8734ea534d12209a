/** `Server_session_impl` as a function of its state, task by task; `ServerSession.dfy` has the object itself.

    The object logs in one client, once.  `m_log_in_on_done_func` non-empty is the logging-in phase; after success the
    session is in almost-PEER state until the user sets the handlers, then in PEER state. */
module ServerModel {
  import opened MasterChannel

  datatype Chan = Chan(up: bool, loginPending: bool, opens: bool, cache: seq<nat>, end: End)

  datatype Task =
    | StartTask
    | LogInTask(id: nat, req: Msg)
    | OpenTask(id: nat)
    | ErrorTask(e: Error)
    | PreInitTask
    | EndTask

  /** One execution of the on-log-in-done handler, with what the two user's containers hold at that moment. */
  datatype Done = Done(result: Option<Error>, byCli: seq<Peer>, bySrv: seq<Peer>)

  datatype Event =
    | OnError(e: Error)
    | ActiveOpen(id: nat, peer: Peer)
    | PassiveOpen(id: nat, peer: Peer)

  datatype Fault =
    | NullChannel           // log-in request handled without a master channel
    | EmptyHandler          // empty on-log-in-done handler invoked
    | PreInitTwice          // a second error in almost-PEER state
    | HosedTwice            // on-error handler invoked again
    | NoFinisher            // `Graceful_finisher` used though there is none

  /** The log-in: is the handler stored, its executions, and the user's two containers. */
  datatype LogIn = LogIn(onDone: bool, dones: seq<Done>, outCli: seq<Peer>, outSrv: seq<Peer>, ns: Option<string>)

  /** `m_master_channel`, the task queue of W, and the messages sent and received so far. */
  datatype Link = Link(chan: Option<Chan>, queue: seq<Task>, sent: seq<Msg>, recv: seq<Msg>)

  /** What W is blocked on. */
  datatype Wait =
    | NoWait
    | AckWait(id: nat, nCli: nat, ends: seq<Peer>)
    | OpenWait(id: nat, c2s: Mq, s2c: Mq)

  /** `finisher`: is there a `Graceful_finisher`. */
  datatype Sess = Sess(handlersSet: bool, passiveEnabled: bool, preInit: Option<Error>, hosed: Option<Error>,
                       wait: Wait, log: seq<Event>, finisher: bool)

  /** A metadata builder handed to the user: the server makes the resources of the channel at that moment. */
  datatype Mdt = Unavailable | Ready(c2s: Mq, s2c: Mq) | Used

  /** Was a container passed for client-requested, and for server-requested, init-channels; and is this the session of a
      sub-class whose sessions finish gracefully. */
  datatype Config = Config(wantsCli: bool, wantsSrv: bool, graceful: bool)

  datatype Server = Server(
    login: LogIn,
    link: Link,
    sess: Sess,
    lastMq: nat,
    mdts: seq<Mdt>,
    cfg: Config,
    dead: bool,
    faults: set<Fault>)

  /** `async_accept_log_in()` has just been called, with containers of any contents, or none. */
  function Accepting(cfg: Config, outCli: seq<Peer>, outSrv: seq<Peer>): Server {
    Server(LogIn(true, [], outCli, outSrv, None), Link(None, [StartTask], [], []),
           Sess(false, false, None, None, NoWait, [], false), 0, [], cfg, false, {})
  }

  function Check(s: Server, cond: bool, f: Fault): Server {
    if cond then s else s.(faults := s.faults + {f})
  }

  // ----- What the master channel does -----

  predicate Up(l: Link) {
    l.chan.Some? && l.chan.value.up
  }

  function Down(l: Link): Link
    requires l.chan.Some?
  {
    l.(chan := Some(l.chan.value.(up := false)))
  }

  function HoseAsync(l: Link, e: Error): Link
    requires l.chan.Some?
  {
    Down(l).(queue := l.queue + [ErrorTask(e)])
  }

  function Send(l: Link, m: Msg, op: SendOp): (Link, SendResult)
    requires l.chan.Some?
  {
    if !l.chan.value.up then (l, Refused)
    else match op
      case SendOk => (l.(sent := l.sent + [m]), Sent)
      case SendFails(e) => (Down(l), Failed(e))
      case SendLate(e) => (HoseAsync(l, e), Refused)
  }

  function OpenTasks(ids: seq<nat>): seq<Task> {
    seq(|ids|, i requires 0 <= i < |ids| => OpenTask(ids[i]))
  }

  /** `expect_msgs(OPEN_CHANNEL_TO_SERVER_REQ)`, whose result the source ignores. */
  function ExpectOpens(l: Link, late: Option<Error>): Link
    requires l.chan.Some?
  {
    if !Up(l) then l
    else if late.Some? then HoseAsync(l, late.value)
    else l.(chan := Some(l.chan.value.(opens := true, cache := [])),
            queue := l.queue + OpenTasks(l.chan.value.cache))
  }

  /** `graceful`: the finisher expects the end message. */
  function ExpectAll(l: Link, graceful: bool, late: Option<Error>): Link
    requires l.chan.Some?
  {
    if graceful then ExpectEnd(ExpectOpens(l, late)) else ExpectOpens(l, late)
  }

  /** In the log-in phase anything but the log-in request makes `struc::Channel` fail. */
  const UNEXPECTED := ChannelError(0)

  function Receive(l: Link, m: Msg): Link
    requires Up(l)
  {
    var ch := l.chan.value;
    var l1 := l.(recv := l.recv + [m]);
    if ch.loginPending then
      if m.LogInReq?
      then l1.(chan := Some(ch.(loginPending := false)), queue := l.queue + [LogInTask(|l.recv|, m)])
      else HoseAsync(l1, UNEXPECTED)
    else if m.ToServerReq? && !ch.opens then l1.(chan := Some(ch.(cache := ch.cache + [|l.recv|])))
    else if m.ToServerReq? then l1.(queue := l.queue + [OpenTask(|l.recv|)])
    else if m.GracefulSessionEnd? then ReceiveEnd(l1)
    else l1
  }

  /** The one end message goes to its handler if that is there, and is cached otherwise. */
  function ReceiveEnd(l: Link): Link
    requires l.chan.Some?
  {
    match l.chan.value.end
    case EndUnexpected => l.(chan := Some(l.chan.value.(end := EndCached)))
    case EndExpected => l.(chan := Some(l.chan.value.(end := EndTaken)), queue := l.queue + [EndTask])
    case _ => l
  }

  /** `expect_msg(GRACEFUL_SESSION_END)` */
  function ExpectEnd(l: Link): Link
    requires l.chan.Some?
  {
    if !l.chan.value.up then l
    else match l.chan.value.end
      case EndUnexpected => l.(chan := Some(l.chan.value.(end := EndExpected)))
      case EndCached => l.(chan := Some(l.chan.value.(end := EndTaken)), queue := l.queue + [EndTask])
      case _ => l
  }

  function Deliver(s: Server, m: Msg): Server
    requires Up(s.link)
  {
    var s1 := s.(link := Receive(s.link, m));
    if s.link.chan.value.loginPending || !m.ToClientRsp? then s1
    else match s.sess.wait
      case NoWait => s1
      case AckWait(id, nCli, ends) => if m.to == id then AckAnswered(s1, nCli, ends) else s1
      case OpenWait(id, c2s, s2c) => if m.to == id then s1.(sess := OpenAnswered(s.sess, m)) else s1
  }

  // ----- Log-in -----

  /** The stored handler is run, and only then cleared. */
  function Fire(s: Server, result: Option<Error>): Server {
    Check(s, s.login.onDone, EmptyHandler).(login := Finish(s.login, result))
  }

  function Finish(k: LogIn, result: Option<Error>): LogIn {
    if !k.onDone then k else k.(onDone := false, dones := k.dones + [Done(result, k.outCli, k.outSrv)])
  }

  function FailLogIn(s: Server, e: Error): Server {
    Fire(s.(link := s.link.(chan := None)), Some(e))
  }

  /** The body posted by `async_accept_log_in()`.  `creds`: OS credentials of the peer are unavailable;
      `late`: the channel fails before the log-in request is expected. */
  function Start(s: Server, creds: Option<Error>, late: Option<Error>): Server {
    if creds.Some? then Fire(s, creds)
    else
      var l := s.link.(chan := Some(Chan(true, true, false, [], EndUnexpected)));
      s.(link := if late.Some? then HoseAsync(l, late.value) else l)
  }

  /** What the log-in request is checked against, in the order it is. */
  datatype LogInEnv = LogInEnv(configOk: bool, appKnown: bool, credsOk: bool, setup: Option<Error>, ns: string,
                               nSrv: nat)

  function LogInReqError(s: Server, m: Msg, env: LogInEnv): (r: Option<Error>)
    requires m.LogInReq?
    ensures r.None? ==> m.nCli == 0 || s.cfg.wantsCli
  {
    if !Negotiable(m.ver) || !Negotiable(m.verAux) then Some(ProtocolVersionUnsupported)
    else if !env.configOk then Some(ConfigMismatch)
    else if m.nCli != 0 && !s.cfg.wantsCli then Some(InvalidArgument)
    else if !env.appKnown then Some(ClientAppUnknown)
    else if !env.credsOk then Some(ClientAppBadCreds)
    else env.setup
  }

  /** The namespace is made for a request that reaches the set-up hook, even if that hook then fails. */
  function NsMade(s: Server, m: Msg, env: LogInEnv): bool
    requires m.LogInReq?
  {
    LogInReqError(s, m, env.(setup := None)).None?
  }

  /** How the loop over the init-channels goes: all requests are sent and W waits for the acknowledgement of the last;
      or the `k`-th channel's resources cannot be made; or its message cannot be sent. */
  datatype InitRun = AllSent | NoResource(k: nat) | SendStops(k: nat, op: SendOp)

  datatype LogInOps = LogInOps(op: SendOp, run: InitRun)

  function OnLogInReq(s: Server, m: Msg, env: LogInEnv, ops: LogInOps): Server
    requires m.LogInReq?
  {
    var s1 := Check(s, s.link.chan.Some?, NullChannel)
              .(login := if NsMade(s, m, env) then s.login.(ns := Some(env.ns)) else s.login);
    var err := LogInReqError(s, m, env);
    if err.Some? || s.link.chan.None? then FailLogIn(s1, if err.Some? then err.value else UNEXPECTED)
    else Respond(s1, m.nCli, if s.cfg.wantsSrv then env.nSrv else 0, env.ns, ops)
  }

  /** The request is good: respond, and go on to the init-channels if any. */
  function Respond(s: Server, nCli: nat, nSrv: nat, ns: string, ops: LogInOps): Server
    requires s.link.chan.Some?
  {
    var (l, r) := Send(s.link, LogInRsp(1, 1, ns, nSrv), ops.op);
    var s1 := s.(link := l);
    match r
    case Refused => s1
    case Failed(e) => FailLogIn(s1, e)
    case Sent => if nCli + nSrv == 0 then Fire(s1, None) else OpenInits(s1, nCli, nCli + nSrv, ops.run)
  }

  function InitMsg(base: nat, i: nat): Msg {
    ToClientReq(Mq(base + i + 1, true), Mq(base + i + 1, false))
  }

  function InitEnd(base: nat, i: nat): Peer {
    ServerPeer(Mq(base + i + 1, true), Mq(base + i + 1, false))
  }

  function InitMsgs(base: nat, k: nat): seq<Msg> {
    seq(k, i requires 0 <= i => InitMsg(base, i))
  }

  function InitEnds(base: nat, k: nat): seq<Peer> {
    seq(k, i requires 0 <= i => InitEnd(base, i))
  }

  /** The loop over the `n` init-channels. */
  function OpenInits(s: Server, nCli: nat, n: nat, run: InitRun): Server
    requires s.link.chan.Some? && n > 0
  {
    match run
    case NoResource(k) =>
      if k < n then FailLogIn(InitsSent(s, k), ResourceUnavailable) else AwaitAck(s, nCli, n)
    case SendStops(k, op) =>
      if k < n && op != SendOk then
        var s1 := InitsSent(s, k);
        var (l, r) := Send(s1.link, InitMsg(s.lastMq, k), op);
        var s2 := s1.(link := l, lastMq := s.lastMq + k + 1);
        if r.Failed? then FailLogIn(s2, r.e) else s2
      else AwaitAck(s, nCli, n)
    case AllSent => AwaitAck(s, nCli, n)
  }

  /** `k` init-channels are made and told. */
  function InitsSent(s: Server, k: nat): Server {
    s.(link := s.link.(sent := s.link.sent + InitMsgs(s.lastMq, k)), lastMq := s.lastMq + k)
  }

  function AwaitAck(s: Server, nCli: nat, n: nat): Server
    requires n > 0
  {
    InitsSent(s, n).(sess := s.sess.(wait := AckWait(|s.link.sent| + n - 1, nCli, InitEnds(s.lastMq, n))))
  }

  /** The acknowledgement is in: fill the user's containers, and finish. */
  function AckAnswered(s: Server, nCli: nat, ends: seq<Peer>): Server {
    Fire(Filled(s.(sess := s.sess.(wait := NoWait)), nCli, ends), None)
  }

  function Filled(s: Server, nCli: nat, ends: seq<Peer>): Server {
    var k := if nCli <= |ends| then nCli else |ends|;
    var outCli := if s.cfg.wantsCli then ends[..k] else s.login.outCli;
    var outSrv := if s.cfg.wantsSrv then ends[if s.cfg.wantsCli then k else 0..] else s.login.outSrv;
    s.(login := s.login.(outCli := outCli, outSrv := outSrv))
  }

  /** There is no timeout on this wait. */
  function AckUnanswered(s: Server, end: WaitEnd): Server {
    var s1 := s.(sess := s.sess.(wait := NoWait));
    if !Up(s.link) then s1
    else match end
      case WaitFails(e) => FailLogIn(s1, e)
      case WaitLate(e) => s1.(link := HoseAsync(s.link, e))
      case TimedOut => s
  }

  // ----- Errors and handlers -----

  function Hose(s: Server, e: Error): Server {
    Check(s, s.sess.hosed.None?, HosedTwice).(sess := s.sess.(hosed := Some(e), log := s.sess.log + [OnError(e)]))
  }

  /** `on_master_channel_error()` */
  function OnChannelError(s: Server, e: Error): Server {
    if s.link.chan.None? then s
    else if s.login.onDone then FailLogIn(s, e)
    else if !s.sess.handlersSet then
      Check(s, s.sess.preInit.None?, PreInitTwice).(sess := s.sess.(preInit := Some(e)))
    else
      var s1 := Check(s, s.cfg.graceful ==> s.sess.finisher, NoFinisher);
      if s.sess.hosed.None? then Hose(s1, e) else s1
  }

  /** The task of the end message. */
  function OnEnd(s: Server): Server {
    if s.sess.hosed.None? then Hose(s, SessionFinished) else s
  }

  /** The destructor's end message; the result of `send()` is ignored. */
  function SendEnd(s: Server, op: SendOp): Server
    requires s.link.chan.Some?
  {
    s.(link := Send(s.link, GracefulSessionEnd, op).0)
  }

  predicate LoggedIn(s: Server) {
    !s.login.onDone && s.link.chan.Some? && !s.dead
  }

  /** `init_handlers_impl()` */
  function InitHandlers(s: Server, passiveEnabled: bool, late: Option<Error>): (Server, bool)
    requires s.link.chan.Some?
  {
    if s.sess.handlersSet then (s, false)
    else (SetHandlers(s.(sess := s.sess.(handlersSet := true, passiveEnabled := passiveEnabled)), late), true)
  }

  function SetHandlers(s: Server, late: Option<Error>): Server
    requires s.link.chan.Some?
  {
    if s.sess.preInit.Some? then s.(link := s.link.(queue := s.link.queue + [PreInitTask]))
    else
      s.(link := ExpectAll(s.link, s.cfg.graceful, late), sess := s.sess.(finisher := s.sess.finisher || s.cfg.graceful))
  }

  function OnPreInit(s: Server): Server {
    if s.sess.hosed.Some? || s.sess.preInit.None? then s else Hose(s, s.sess.preInit.value)
  }

  // ----- Channel opening -----

  /** `on_master_channel_open_channel_req()`.  `made`: could the resources be made. */
  function OnOpenReq(s: Server, id: nat, made: bool, op: SendOp): Server {
    if s.sess.hosed.Some? || s.link.chan.None? then s
    else
      var result := if !s.sess.passiveEnabled then RejectedPassiveOpen
                    else if made then Accepted else RejectedResourceUnavailable;
      Answer(if result == Accepted then s.(lastMq := s.lastMq + 1) else s, id, result, op)
  }

  /** The response, with the newest pair of pipes; only once it is sent the channel is emitted. */
  function Answer(s: Server, id: nat, result: OpenResult, op: SendOp): Server
    requires s.link.chan.Some?
  {
    var c2s, s2c := Mq(s.lastMq, true), Mq(s.lastMq, false);
    var (l, r) := Send(s.link, ToServerRsp(id, result, c2s, s2c), op);
    var s1 := s.(link := l);
    match r
    case Refused => s1
    case Failed(e) => Hose(s1, e)
    case Sent => if result == Accepted then s1.(sess := Emit(s.sess, PassiveOpen(id, ServerPeer(c2s, s2c)))) else s1
  }

  function Emit(s: Sess, e: Event): Sess {
    s.(log := s.log + [e])
  }

  /** `mdt_builder()`; no builder before PEER. */
  function MdtBuilder(s: Server, made: bool): Server {
    if !s.sess.handlersSet then s
    else if s.sess.hosed.None? && made then
      s.(mdts := s.mdts + [Ready(Mq(s.lastMq + 1, true), Mq(s.lastMq + 1, false))], lastMq := s.lastMq + 1)
    else s.(mdts := s.mdts + [Unavailable])
  }

  datatype OpenReturn = OpenFalse | OpenError(e: Error) | OpenWaits

  /** `open_channel()` with the `b`-th metadata builder, up to the point where W waits for the response. */
  function OpenStart(s: Server, b: nat, op: SendOp): (Server, OpenReturn)
    requires b < |s.mdts| && s.link.chan.Some?
  {
    if !s.mdts[b].Ready? then (s, OpenError(ResourceUnavailable))
    else
      var s0 := s.(mdts := s.mdts[b := Used]);
      if s.sess.hosed.Some? then (s0, OpenFalse)
      else
        var (l, r) := Send(s.link, ToClientReq(s.mdts[b].c2s, s.mdts[b].s2c), op);
        var s1 := s0.(link := l);
        match r
        case Refused => (s1, OpenFalse)
        case Failed(e) => (Hose(s1, e), OpenFalse)
        case Sent => (s1.(sess := s.sess.(wait := OpenWait(|s.link.sent|, s.mdts[b].c2s, s.mdts[b].s2c))), OpenWaits)
  }

  function OpenAnswered(s: Sess, m: Msg): Sess
    requires m.ToClientRsp? && s.wait.OpenWait?
  {
    var s1 := s.(wait := NoWait);
    if m.result == Accepted then Emit(s1, ActiveOpen(m.to, ServerPeer(s.wait.c2s, s.wait.s2c))) else s1
  }

  function OpenUnanswered(s: Server, end: WaitEnd): Server {
    var s1 := s.(sess := s.sess.(wait := NoWait));
    if !Up(s.link) then s1
    else match end
      case TimedOut => s1
      case WaitFails(e) => Hose(s1.(link := Down(s.link)), e)
      case WaitLate(e) => s1.(link := HoseAsync(s.link, e))
  }

  /** The destructor: W is stopped, its queue dropped, and a handler still stored is run. */
  function Destroy(s: Server): Server {
    if s.login.onDone then Fire(s, Some(ShutdownAborted)).(dead := true) else s.(dead := true)
  }

  /** Outcomes a task run may need. */
  datatype Ops = Ops(creds: Option<Error>, late: Option<Error>, env: LogInEnv, login: LogInOps, made: bool, op: SendOp)

  predicate WellFormedTask(t: Task) {
    t.LogInTask? ==> t.req.LogInReq?
  }

  function RunTask(s: Server, ops: Ops): Server
    requires s.link.queue != [] && WellFormedTask(s.link.queue[0])
  {
    var s1 := s.(link := s.link.(queue := s.link.queue[1..]));
    match s.link.queue[0]
    case StartTask => Start(s1, ops.creds, ops.late)
    case LogInTask(_, req) => OnLogInReq(s1, req, ops.env, ops.login)
    case OpenTask(id) => OnOpenReq(s1, id, ops.made, ops.op)
    case ErrorTask(e) => OnChannelError(s1, e)
    case PreInitTask => OnPreInit(s1)
    case EndTask => OnEnd(s1)
  }
}
