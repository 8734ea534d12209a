/** What is seen of a server session from outside, step by step: the execution of its log-in handler, the events told to its
    user, the messages it sends, the pipes it makes and the tasks it posts.  Each is said here in one place for all kinds of
    steps, on the fields of the state before the step and what the step was given; the model says it function by
    function. */
module ServerObserved {
  import opened MasterChannel
  import opened ServerModel
  import opened ServerRuns
  import opened ServerWire

  function Opt<T>(o: Option<T>): seq<T> {
    if o.Some? then [o.value] else []
  }

  // ----- The log-in request -----

  /** The log-in request is handled. */
  predicate Decides(s: Server, t: Step) {
    t.DoTask? && s.link.queue != [] && s.link.queue[0].LogInTask? && s.link.queue[0].req.LogInReq?
  }

  /** The checks the request passes before its namespace is made. */
  predicate Known(cfg: Config, m: Msg, env: LogInEnv)
    requires m.LogInReq?
  {
    m.ver >= 1 && m.verAux >= 1 && env.configOk && (m.nCli == 0 || cfg.wantsCli) && env.appKnown && env.credsOk
  }

  /** The request is responded to. */
  predicate Passes(cfg: Config, m: Msg, env: LogInEnv)
    requires m.LogInReq?
  {
    Known(cfg, m, env) && env.setup.None?
  }

  predicate Accepts(s: Server, t: Step) {
    Decides(s, t) && Passes(s.cfg, s.link.queue[0].req, t.ops.env) && Up(s.link)
  }

  /** The code of the first check that fails, in the order of the checks. */
  lemma LogInCodes(s: Server, m: Msg, env: LogInEnv)
    requires m.LogInReq?
    ensures LogInReqError(s, m, env).None? <==> Passes(s.cfg, m, env)
    ensures NsMade(s, m, env) <==> Known(s.cfg, m, env)
    ensures m.ver < 1 || m.verAux < 1 ==> LogInReqError(s, m, env) == Some(ProtocolVersionUnsupported)
    ensures m.ver >= 1 && m.verAux >= 1 ==>
              && (!env.configOk ==> LogInReqError(s, m, env) == Some(ConfigMismatch))
              && (env.configOk && m.nCli > 0 && !s.cfg.wantsCli ==> LogInReqError(s, m, env) == Some(InvalidArgument))
              && (env.configOk && (m.nCli == 0 || s.cfg.wantsCli) ==>
                    && (!env.appKnown ==> LogInReqError(s, m, env) == Some(ClientAppUnknown))
                    && (env.appKnown && !env.credsOk ==> LogInReqError(s, m, env) == Some(ClientAppBadCreds))
                    && (env.appKnown && env.credsOk ==> LogInReqError(s, m, env) == env.setup))
  {
  }

  /** How many init-channels the server asks for, and all. */
  function NSrv(s: Server, t: Step): nat
    requires Decides(s, t)
  {
    if s.cfg.wantsSrv then t.ops.env.nSrv else 0
  }

  function Total(s: Server, t: Step): nat
    requires Decides(s, t)
  {
    s.link.queue[0].req.nCli + NSrv(s, t)
  }

  /** The response is sent. */
  predicate Welcomes(s: Server, t: Step) {
    Accepts(s, t) && t.ops.login.op == SendOk
  }

  /** The init-channel at which the loop ends early: its resources cannot be made, or its message cannot be sent. */
  function StopsAt(s: Server, t: Step): Option<nat> {
    if !Welcomes(s, t) then None
    else match t.ops.login.run
      case AllSent => None
      case NoResource(k) => if k < Total(s, t) then Some(k) else None
      case SendStops(k, op) => if k < Total(s, t) && op != SendOk then Some(k) else None
  }

  /** How many init-channels the client is told of. */
  function Told(s: Server, t: Step): nat
    requires Welcomes(s, t)
  {
    if StopsAt(s, t).Some? then StopsAt(s, t).value else Total(s, t)
  }

  // ----- Other steps -----

  /** An open request is handled in a session not hosed. */
  predicate Handles(s: Server, t: Step) {
    t.DoTask? && s.link.queue != [] && s.link.queue[0].OpenTask? && s.sess.hosed.None? && s.link.chan.Some?
  }

  /** What it is answered. */
  function Verdict(s: Server, t: Step): OpenResult
    requires Handles(s, t)
  {
    if !s.sess.passiveEnabled then RejectedPassiveOpen
    else if t.ops.made then Accepted
    else RejectedResourceUnavailable
  }

  /** `open_channel()` gets as far as its request. */
  predicate Asks(s: Server, t: Step) {
    t.DoOpen? && t.b < |s.mdts| && s.mdts[t.b].Ready? && s.sess.hosed.None? && Up(s.link)
  }

  /** The response to what W waits for. */
  predicate Responds(s: Server, t: Step) {
    && t.DoDeliver? && Up(s.link) && !s.link.chan.value.loginPending && t.m.ToClientRsp?
    && !s.sess.wait.NoWait? && s.sess.wait.id == t.m.to
  }

  predicate SetsHandlers(s: Server, t: Step) {
    t.DoInitHandlers? && !s.sess.handlersSet
  }

  /** The `send()` of the step that decides, if it has one and the channel is up. */
  function Sends(s: Server, t: Step): Option<SendOp> {
    if Accepts(s, t) then
      if t.ops.login.op == SendOk && StopsAt(s, t).Some? && t.ops.login.run.SendStops? then Some(t.ops.login.run.op)
      else Some(t.ops.login.op)
    else if Handles(s, t) && Up(s.link) then Some(t.ops.op)
    else if Asks(s, t) then Some(t.op)
    else if t.DoEnd? && Up(s.link) then Some(t.op)
    else None
  }

  function FailsLate(s: Server, t: Step): Option<Error> {
    if Sends(s, t).Some? && Sends(s, t).value.SendLate? then Some(Sends(s, t).value.e)
    else if t.DoFail? then Some(t.e)
    else if t.DoEndWait? && t.end.WaitLate? && Up(s.link) then Some(t.end.e)
    else if t.DoTask? && s.link.queue != [] && s.link.queue[0].StartTask? && t.ops.creds.None? then t.ops.late
    else if t.DoDeliver? && Up(s.link) && s.link.chan.value.loginPending && !t.m.LogInReq? then Some(UNEXPECTED)
    else if SetsHandlers(s, t) && s.sess.preInit.None? && Up(s.link) then t.late
    else None
  }

  function FailsNow(s: Server, t: Step): Option<Error> {
    if Sends(s, t).Some? && Sends(s, t).value.SendFails? then Some(Sends(s, t).value.e)
    else if t.DoEndWait? && t.end.WaitFails? && Up(s.link) then Some(t.end.e)
    else None
  }

  // ----- What is seen -----

  /** The execution of the log-in handler, with what the containers hold then. */
  function DoneOf(s: Server, t: Step): Option<Done> {
    var fails := (e: Error) => Some(Done(Some(e), s.login.outCli, s.login.outSrv));
    match t
    case DoDestroy => if s.login.onDone then fails(ShutdownAborted) else None
    case DoEndWait(_) => if s.sess.wait.AckWait? && FailsNow(s, t).Some? then fails(FailsNow(s, t).value) else None
    case DoDeliver(_) =>
      if Responds(s, t) && s.sess.wait.AckWait? && s.sess.wait.nCli <= |s.sess.wait.ends| then
        var ends, nCli := s.sess.wait.ends, s.sess.wait.nCli;
        Some(Done(None, if s.cfg.wantsCli then ends[..nCli] else s.login.outCli,
                  if !s.cfg.wantsSrv then s.login.outSrv else if s.cfg.wantsCli then ends[nCli..] else ends))
      else None
    case DoTask(ops) =>
      if s.link.queue == [] then None
      else (match s.link.queue[0]
        case StartTask => if ops.creds.Some? then fails(ops.creds.value) else None
        case LogInTask(_, m) =>
          if !Decides(s, t) then None
          else if !Passes(s.cfg, m, ops.env) then
            var e := LogInReqError(s, m, ops.env);
            if e.Some? then fails(e.value) else None
          else if FailsNow(s, t).Some? then fails(FailsNow(s, t).value)
          else if StopsAt(s, t).Some? && ops.login.run.NoResource? then fails(ResourceUnavailable)
          else if Welcomes(s, t) && Total(s, t) == 0 then Some(Done(None, s.login.outCli, s.login.outSrv))
          else None
        case ErrorTask(e) => if s.login.onDone && s.link.chan.Some? then fails(e) else None
        case _ => None)
    case _ => None
  }

  /** What the user is told. */
  function EventOf(s: Server, t: Step): Option<Event> {
    if FailsNow(s, t).Some? && !Accepts(s, t) && !t.DoEnd? && !s.sess.wait.AckWait? then Some(OnError(FailsNow(s, t).value))
    else if Responds(s, t) && s.sess.wait.OpenWait? && t.m.result == Accepted
    then Some(ActiveOpen(t.m.to, Peer(s.sess.wait.s2c, s.sess.wait.c2s)))
    else if !t.DoTask? || s.link.queue == [] then None
    else match s.link.queue[0]
      case OpenTask(id) =>
        if Handles(s, t) && Sends(s, t) == Some(SendOk) && s.sess.passiveEnabled && t.ops.made
        then Some(PassiveOpen(id, Peer(Mq(s.lastMq + 1, false), Mq(s.lastMq + 1, true)))) else None
      case ErrorTask(e) =>
        if s.link.chan.Some? && !s.login.onDone && s.sess.handlersSet && s.sess.hosed.None? then Some(OnError(e)) else None
      case PreInitTask => if s.sess.hosed.None? && s.sess.preInit.Some? then Some(OnError(s.sess.preInit.value)) else None
      case EndTask => if s.sess.hosed.None? then Some(OnError(SessionFinished)) else None
      case _ => None
  }

  function HosedAfter(s: Server, t: Step): Option<Error> {
    var e := EventOf(s, t);
    if e.Some? && e.value.OnError? then Some(e.value.e) else s.sess.hosed
  }

  /** The next `k` pairs of pipes, as the client is told of them, and as the server holds them. */
  function Pairs(last: nat, k: nat): seq<Msg> {
    seq(k, i requires 0 <= i < k => ToClientReq(Mq(last + i + 1, true), Mq(last + i + 1, false)))
  }

  function Ends(last: nat, k: nat): seq<Peer> {
    seq(k, i requires 0 <= i < k => Peer(Mq(last + i + 1, false), Mq(last + i + 1, true)))
  }

  function SentAfter(s: Server, t: Step): seq<Msg> {
    if Welcomes(s, t) then
      s.link.sent + [LogInRsp(1, 1, t.ops.env.ns, NSrv(s, t))]
      + Pairs(s.lastMq, Told(s, t))
    else if Sends(s, t) != Some(SendOk) then s.link.sent
    else if Handles(s, t) then
      var k := if Verdict(s, t) == Accepted then s.lastMq + 1 else s.lastMq;
      s.link.sent + [ToServerRsp(s.link.queue[0].id, Verdict(s, t), Mq(k, true), Mq(k, false))]
    else if Asks(s, t) then s.link.sent + [ToClientReq(s.mdts[t.b].c2s, s.mdts[t.b].s2c)]
    else s.link.sent + [GracefulSessionEnd]
  }

  /** How many pairs of pipes have been made. */
  function LastMqAfter(s: Server, t: Step): nat {
    if Welcomes(s, t) then
      s.lastMq + Told(s, t) + (if StopsAt(s, t).Some? && t.ops.login.run.SendStops? then 1 else 0)
    else if Handles(s, t) && Verdict(s, t) == Accepted then s.lastMq + 1
    else if t.DoMdt? && s.sess.handlersSet && s.sess.hosed.None? && t.made then s.lastMq + 1
    else s.lastMq
  }

  function MdtsAfter(s: Server, t: Step): seq<Mdt> {
    if t.DoMdt? && s.sess.handlersSet then
      s.mdts + [if s.sess.hosed.None? && t.made then Ready(Mq(s.lastMq + 1, true), Mq(s.lastMq + 1, false)) else Unavailable]
    else if t.DoOpen? && t.b < |s.mdts| && s.mdts[t.b].Ready? then s.mdts[t.b := Used]
    else s.mdts
  }

  function WaitAfter(s: Server, t: Step): Wait {
    if Welcomes(s, t) && StopsAt(s, t).None? && Total(s, t) > 0 then
      AckWait(|s.link.sent| + Total(s, t), s.link.queue[0].req.nCli,
              Ends(s.lastMq, Total(s, t)))
    else if Asks(s, t) && t.op == SendOk then OpenWait(|s.link.sent|, s.mdts[t.b].c2s, s.mdts[t.b].s2c)
    else if t.DoEndWait? || Responds(s, t) then NoWait
    else s.sess.wait
  }

  function PreInitAfter(s: Server, t: Step): Option<Error> {
    if t.DoTask? && s.link.queue != [] && s.link.queue[0].ErrorTask? && s.link.chan.Some? && !s.login.onDone
       && !s.sess.handlersSet
    then Some(s.link.queue[0].e) else s.sess.preInit
  }

  /** The tasks posted onto W. */
  function Posted(s: Server, t: Step): seq<Task> {
    if FailsLate(s, t).Some? then [ErrorTask(FailsLate(s, t).value)]
    else match t
      case DoDeliver(m) =>
        if !Up(s.link) then []
        else if s.link.chan.value.loginPending then [LogInTask(|s.link.recv|, m)]
        else if m.ToServerReq? && s.link.chan.value.opens then [OpenTask(|s.link.recv|)]
        else if m.GracefulSessionEnd? && s.link.chan.value.end == EndExpected then [EndTask]
        else []
      case DoInitHandlers(_, _) =>
        if s.sess.handlersSet then []
        else if s.sess.preInit.Some? then [PreInitTask]
        else if !Up(s.link) then []
        else
          var ids := s.link.chan.value.cache;
          seq(|ids|, i requires 0 <= i < |ids| => OpenTask(ids[i]))
          + if s.cfg.graceful && s.link.chan.value.end == EndCached then [EndTask] else []
      case _ => []
  }

  predicate UpAfter(s: Server, t: Step) {
    if t.DoTask? && s.link.queue != [] && s.link.queue[0].StartTask? then t.ops.creds.None? && t.ops.late.None?
    else
      && Up(s.link) && FailsLate(s, t).None? && FailsNow(s, t).None?
      && (DoneOf(s, t).Some? && !t.DoDestroy? ==> DoneOf(s, t).value.result.None?)
  }

  ghost predicate LogInSeen(s: Server, t: Step, s': Server) {
    && s'.login.dones == s.login.dones + Opt(DoneOf(s, t))
    && s'.login.onDone == (s.login.onDone && DoneOf(s, t).None?)
    && s'.login.ns == (if Decides(s, t) && Known(s.cfg, s.link.queue[0].req, t.ops.env) then Some(t.ops.env.ns) else s.login.ns)
    && (DoneOf(s, t).Some? ==>
          s'.login.outCli == DoneOf(s, t).value.byCli && s'.login.outSrv == DoneOf(s, t).value.bySrv)
    && s'.dead == t.DoDestroy?
  }

  ghost predicate SessSeen(s: Server, t: Step, s': Server) {
    && s'.sess.log == s.sess.log + Opt(EventOf(s, t)) && s'.sess.hosed == HosedAfter(s, t)
    && s'.sess.wait == WaitAfter(s, t) && s'.sess.preInit == PreInitAfter(s, t)
    && s'.sess.handlersSet == (s.sess.handlersSet || t.DoInitHandlers?)
    && s'.sess.passiveEnabled == (if SetsHandlers(s, t) then t.passiveEnabled else s.sess.passiveEnabled)
    && s'.sess.finisher == (s.sess.finisher || (SetsHandlers(s, t) && s.cfg.graceful && s.sess.preInit.None?))
  }

  ghost predicate MsgsSeen(s: Server, t: Step, s': Server) {
    && s'.link.sent == SentAfter(s, t)
    && s'.link.recv == (if t.DoDeliver? then s.link.recv + [t.m] else s.link.recv)
    && s'.link.queue == (if t.DoTask? && s.link.queue != [] then s.link.queue[1..] else s.link.queue) + Posted(s, t)
    && s'.lastMq == LastMqAfter(s, t) && s'.mdts == MdtsAfter(s, t)
  }

  ghost predicate LinkSeen(s: Server, t: Step, s': Server) {
    MsgsSeen(s, t, s') && (Up(s'.link) <==> UpAfter(s, t))
  }

  ghost predicate Seen(s: Server, t: Step, s': Server) {
    LogInSeen(s, t, s') && SessSeen(s, t, s') && LinkSeen(s, t, s')
  }

  // ----- The model does what is seen -----

  /** A log-in task finds the channel and the handler. */
  lemma AtLogIn(s: Server)
    requires Inv(s) && !s.dead && s.sess.wait.NoWait? && s.link.queue != [] && s.link.queue[0].LogInTask?
    ensures s.link.chan.Some? && s.login.onDone
  {
  }

  lemma AtStart(s: Server)
    requires Inv(s) && !s.dead && s.link.queue != [] && s.link.queue[0].StartTask?
    ensures s.link.chan.None? && s.login.onDone
  {
  }

  lemma AtAck(s: Server)
    requires Inv(s) && Wire(s) && !s.dead && s.sess.wait.AckWait?
    ensures s.login.onDone && s.sess.wait.nCli <= |s.sess.wait.ends|
  {
  }

  lemma SeenStart(s: Server, ops: Ops)
    requires Inv(s) && Wire(s) && Enabled(s, DoTask(ops)) && s.link.queue[0].StartTask?
    ensures Seen(s, DoTask(ops), RunTask(s, ops))
  {
    hide Inv, Wire;
    AtStart(s);
  }

  lemma SeenLogIn(s: Server, id: nat, m: Msg, ops: Ops)
    requires Inv(s) && Wire(s) && Enabled(s, DoTask(ops)) && s.link.queue[0] == LogInTask(id, m)
    ensures Seen(s, DoTask(ops), RunTask(s, ops))
  {
    hide Inv, Wire, LogInReqError, NsMade, Passes, Known, Respond, Seen;
    AtLogIn(s);
    LogInCodes(s, m, ops.env);
    LogInCodes(Popped(s), m, ops.env);
    if LogInReqError(s, m, ops.env).Some? {
      SeenRefused(s, m, ops);
    } else {
      SeenResponded(s, m, ops);
    }
  }

  lemma SeenRefused(s: Server, m: Msg, ops: Ops)
    requires Enabled(s, DoTask(ops)) && s.link.queue[0].LogInTask? && s.link.queue[0].req == m
    requires s.link.chan.Some? && s.login.onDone && LogInReqError(s, m, ops.env).Some?
    ensures Seen(s, DoTask(ops), RunTask(s, ops))
  {
    hide LogInReqError, NsMade, Passes, Known;
    LogInCodes(s, m, ops.env);
    LogInCodes(Popped(s), m, ops.env);
    SameCode(s, m, ops.env);
  }

  lemma SameCode(s: Server, m: Msg, env: LogInEnv)
    requires m.LogInReq? && s.link.queue != []
    ensures LogInReqError(Popped(s), m, env) == LogInReqError(s, m, env)
  {
  }

  /** The namespace is made. */
  ghost function Numbered(s: Server, env: LogInEnv): Server
    requires s.link.queue != []
  {
    Popped(s).(login := s.login.(ns := Some(env.ns)))
  }

  lemma SeenResponded(s: Server, m: Msg, ops: Ops)
    requires Enabled(s, DoTask(ops)) && s.link.queue[0].LogInTask? && s.link.queue[0].req == m
    requires s.link.chan.Some? && s.login.onDone && LogInReqError(s, m, ops.env).None?
    ensures Seen(s, DoTask(ops), RunTask(s, ops))
  {
    hide LogInReqError, NsMade, Passes, Known, Respond, OpenInits, Seen;
    LogInCodes(s, m, ops.env);
    LogInCodes(Popped(s), m, ops.env);
    assert Known(s.cfg, m, ops.env) by { KnownFirst(s.cfg, m, ops.env); }
    var nSrv := if s.cfg.wantsSrv then ops.env.nSrv else 0;
    assert RunTask(s, ops) == Respond(Numbered(s, ops.env), m.nCli, nSrv, ops.env.ns, ops.login);
    if Up(s.link) && ops.login.op == SendOk && m.nCli + nSrv > 0 {
      SeenInits(s, m, ops);
    } else {
      SeenPlain(s, m, ops);
    }
  }

  lemma KnownFirst(cfg: Config, m: Msg, env: LogInEnv)
    requires m.LogInReq? && Passes(cfg, m, env)
    ensures Known(cfg, m, env)
  {
  }

  /** The response, and no init-channels. */
  lemma SeenPlain(s: Server, m: Msg, ops: Ops)
    requires Enabled(s, DoTask(ops)) && s.link.queue[0].LogInTask? && s.link.queue[0].req == m
    requires s.link.chan.Some? && s.login.onDone && Passes(s.cfg, m, ops.env) && Known(s.cfg, m, ops.env)
    requires !(Up(s.link) && ops.login.op == SendOk && m.nCli + (if s.cfg.wantsSrv then ops.env.nSrv else 0) > 0)
    ensures var nSrv := if s.cfg.wantsSrv then ops.env.nSrv else 0;
            Seen(s, DoTask(ops), Respond(Numbered(s, ops.env), m.nCli, nSrv, ops.env.ns, ops.login))
  {
    hide LogInSeen, SessSeen, LinkSeen, Respond;
    SeenPlainLogIn(s, m, ops);
    SeenPlainSess(s, m, ops);
    SeenPlainLink(s, m, ops);
  }

  lemma SeenPlainLogIn(s: Server, m: Msg, ops: Ops)
    requires Enabled(s, DoTask(ops)) && s.link.queue[0].LogInTask? && s.link.queue[0].req == m
    requires s.link.chan.Some? && s.login.onDone && Passes(s.cfg, m, ops.env) && Known(s.cfg, m, ops.env)
    requires !(Up(s.link) && ops.login.op == SendOk && m.nCli + (if s.cfg.wantsSrv then ops.env.nSrv else 0) > 0)
    ensures var nSrv := if s.cfg.wantsSrv then ops.env.nSrv else 0;
            LogInSeen(s, DoTask(ops), Respond(Numbered(s, ops.env), m.nCli, nSrv, ops.env.ns, ops.login))
  {
    hide Passes, Known, OpenInits;
  }

  lemma SeenPlainSess(s: Server, m: Msg, ops: Ops)
    requires Enabled(s, DoTask(ops)) && s.link.queue[0].LogInTask? && s.link.queue[0].req == m
    requires s.link.chan.Some? && s.login.onDone && Passes(s.cfg, m, ops.env) && Known(s.cfg, m, ops.env)
    requires !(Up(s.link) && ops.login.op == SendOk && m.nCli + (if s.cfg.wantsSrv then ops.env.nSrv else 0) > 0)
    ensures var nSrv := if s.cfg.wantsSrv then ops.env.nSrv else 0;
            SessSeen(s, DoTask(ops), Respond(Numbered(s, ops.env), m.nCli, nSrv, ops.env.ns, ops.login))
  {
    hide Passes, Known, OpenInits, Finish;
  }

  lemma SeenPlainLink(s: Server, m: Msg, ops: Ops)
    requires Enabled(s, DoTask(ops)) && s.link.queue[0].LogInTask? && s.link.queue[0].req == m
    requires s.link.chan.Some? && s.login.onDone && Passes(s.cfg, m, ops.env) && Known(s.cfg, m, ops.env)
    requires !(Up(s.link) && ops.login.op == SendOk && m.nCli + (if s.cfg.wantsSrv then ops.env.nSrv else 0) > 0)
    ensures var nSrv := if s.cfg.wantsSrv then ops.env.nSrv else 0;
            LinkSeen(s, DoTask(ops), Respond(Numbered(s, ops.env), m.nCli, nSrv, ops.env.ns, ops.login))
  {
    hide Passes, Known, OpenInits, Finish;
  }

  /** After the response. */
  ghost function RspSent(s: Server, m: Msg, ops: Ops): Server
    requires s.link.queue != []
  {
    var s1 := Numbered(s, ops.env);
    var nSrv := if s.cfg.wantsSrv then ops.env.nSrv else 0;
    s1.(link := s1.link.(sent := s.link.sent + [LogInRsp(1, 1, ops.env.ns, nSrv)]))
  }

  lemma SeenInits(s: Server, m: Msg, ops: Ops)
    requires Enabled(s, DoTask(ops)) && s.link.queue[0].LogInTask? && s.link.queue[0].req == m
    requires s.login.onDone && Passes(s.cfg, m, ops.env) && Known(s.cfg, m, ops.env)
    requires Up(s.link) && ops.login.op == SendOk && m.nCli + (if s.cfg.wantsSrv then ops.env.nSrv else 0) > 0
    ensures var nSrv := if s.cfg.wantsSrv then ops.env.nSrv else 0;
            Seen(s, DoTask(ops), Respond(Numbered(s, ops.env), m.nCli, nSrv, ops.env.ns, ops.login))
  {
    hide Passes, Known, Seen, AwaitAck, InitsSent;
    var nSrv := if s.cfg.wantsSrv then ops.env.nSrv else 0;
    var n := m.nCli + nSrv;
    var s0 := RspSent(s, m, ops);
    assert Respond(Numbered(s, ops.env), m.nCli, nSrv, ops.env.ns, ops.login) == OpenInits(s0, m.nCli, n, ops.login.run);
    match ops.login.run
    case AllSent => SeenAll(s, m, ops);
    case NoResource(k) => if k < n { SeenNoResource(s, m, ops); } else { SeenAll(s, m, ops); }
    case SendStops(k, op) => if k < n && op != SendOk { SeenStops(s, m, ops); } else { SeenAll(s, m, ops); }
  }

  lemma PairsAre(base: nat, k: nat)
    ensures InitMsgs(base, k) == Pairs(base, k) && InitEnds(base, k) == Ends(base, k)
  {
    forall i | 0 <= i < k ensures InitMsgs(base, k)[i] == Pairs(base, k)[i] && InitEnds(base, k)[i] == Ends(base, k)[i] {
    }
  }

  /** The response is sent, and `n` init-channels are to be. */
  ghost predicate InitsDue(s: Server, m: Msg, ops: Ops, n: nat)
    requires m.LogInReq?
  {
    && Enabled(s, DoTask(ops)) && s.link.queue[0].LogInTask? && s.link.queue[0].req == m
    && s.login.onDone && Passes(s.cfg, m, ops.env) && Known(s.cfg, m, ops.env)
    && Up(s.link) && ops.login.op == SendOk && n > 0 && n == m.nCli + (if s.cfg.wantsSrv then ops.env.nSrv else 0)
  }

  lemma SeenAll(s: Server, m: Msg, ops: Ops)
    requires m.LogInReq? && InitsDue(s, m, ops, m.nCli + (if s.cfg.wantsSrv then ops.env.nSrv else 0))
    requires var n := m.nCli + (if s.cfg.wantsSrv then ops.env.nSrv else 0);
             match ops.login.run
             case AllSent => true
             case NoResource(k) => k >= n
             case SendStops(k, op) => k >= n || op == SendOk
    ensures var n := m.nCli + (if s.cfg.wantsSrv then ops.env.nSrv else 0);
            Seen(s, DoTask(ops), AwaitAck(RspSent(s, m, ops), m.nCli, n))
  {
    hide Passes, Known, InitMsgs, InitEnds;
    PairsAre(s.lastMq, m.nCli + (if s.cfg.wantsSrv then ops.env.nSrv else 0));
  }

  lemma SeenNoResource(s: Server, m: Msg, ops: Ops)
    requires m.LogInReq? && InitsDue(s, m, ops, m.nCli + (if s.cfg.wantsSrv then ops.env.nSrv else 0))
    requires ops.login.run.NoResource? && ops.login.run.k < m.nCli + (if s.cfg.wantsSrv then ops.env.nSrv else 0)
    ensures Seen(s, DoTask(ops), FailLogIn(InitsSent(RspSent(s, m, ops), ops.login.run.k), ResourceUnavailable))
  {
    hide Passes, Known, InitMsgs;
    PairsAre(s.lastMq, ops.login.run.k);
  }

  lemma SeenStops(s: Server, m: Msg, ops: Ops)
    requires m.LogInReq? && InitsDue(s, m, ops, m.nCli + (if s.cfg.wantsSrv then ops.env.nSrv else 0))
    requires ops.login.run.SendStops? && ops.login.run.k < m.nCli + (if s.cfg.wantsSrv then ops.env.nSrv else 0)
    requires ops.login.run.op != SendOk
    ensures var s0, k := RspSent(s, m, ops), ops.login.run.k;
            var s1 := InitsSent(s0, k);
            var (l, r) := Send(s1.link, InitMsg(s.lastMq, k), ops.login.run.op);
            var s2 := s1.(link := l, lastMq := s.lastMq + k + 1);
            Seen(s, DoTask(ops), if r.Failed? then FailLogIn(s2, r.e) else s2)
  {
    hide Passes, Known, InitMsgs;
    PairsAre(s.lastMq, ops.login.run.k);
  }

  lemma SeenOpenReq(s: Server, id: nat, ops: Ops)
    requires Inv(s) && Wire(s) && Enabled(s, DoTask(ops)) && s.link.queue[0] == OpenTask(id)
    ensures Seen(s, DoTask(ops), RunTask(s, ops))
  {
    hide Inv, Wire, LogInSeen, SessSeen, LinkSeen;
    SeenOpenReqLogIn(s, id, ops);
    SeenOpenReqSess(s, id, ops);
    SeenOpenReqLink(s, id, ops);
  }

  lemma SeenOpenReqLogIn(s: Server, id: nat, ops: Ops)
    requires Inv(s) && Wire(s) && Enabled(s, DoTask(ops)) && s.link.queue[0] == OpenTask(id)
    ensures LogInSeen(s, DoTask(ops), RunTask(s, ops))
  {
    hide Inv, Wire, Send;
  }

  /** The session, once the answer is given. */
  ghost function SessAnswered(s: Server, id: nat, result: OpenResult, op: SendOp): Sess {
    if !Up(s.link) then s.sess
    else match op
      case SendOk =>
        if result != Accepted then s.sess
        else s.sess.(log := s.sess.log + [PassiveOpen(id, Peer(Mq(s.lastMq, false), Mq(s.lastMq, true)))])
      case SendFails(e) => s.sess.(hosed := Some(e), log := s.sess.log + [OnError(e)])
      case SendLate(_) => s.sess
  }

  lemma AnswerSess(s: Server, id: nat, result: OpenResult, op: SendOp)
    requires s.link.chan.Some?
    ensures Answer(s, id, result, op).sess == SessAnswered(s, id, result, op)
  {
    hide HoseAsync;
  }

  lemma SeenOpenReqSess(s: Server, id: nat, ops: Ops)
    requires Inv(s) && Wire(s) && Enabled(s, DoTask(ops)) && s.link.queue[0] == OpenTask(id)
    ensures SessSeen(s, DoTask(ops), RunTask(s, ops))
  {
    hide Inv, Wire, Answer;
    if Handles(s, DoTask(ops)) {
      var s1, result := Popped(s), Verdict(s, DoTask(ops));
      AnswerSess(if result == Accepted then s1.(lastMq := s.lastMq + 1) else s1, id, result, ops.op);
    }
  }

  /** The channel, once the answer is given. */
  lemma AnswerLink(s: Server, id: nat, result: OpenResult, op: SendOp)
    requires s.link.chan.Some?
    ensures var s' := Answer(s, id, result, op);
            && s'.link == Send(s.link, ToServerRsp(id, result, Mq(s.lastMq, true), Mq(s.lastMq, false)), op).0
            && s'.lastMq == s.lastMq && s'.mdts == s.mdts
  {
    hide Send;
  }

  lemma SeenOpenReqLink(s: Server, id: nat, ops: Ops)
    requires Inv(s) && Wire(s) && Enabled(s, DoTask(ops)) && s.link.queue[0] == OpenTask(id)
    ensures LinkSeen(s, DoTask(ops), RunTask(s, ops))
  {
    hide Inv, Wire, Answer;
    if Handles(s, DoTask(ops)) {
      var s1, result := Popped(s), Verdict(s, DoTask(ops));
      AnswerLink(if result == Accepted then s1.(lastMq := s.lastMq + 1) else s1, id, result, ops.op);
    }
  }

  lemma SeenError(s: Server, e: Error, ops: Ops)
    requires Inv(s) && Wire(s) && Enabled(s, DoTask(ops)) && s.link.queue[0] == ErrorTask(e)
    ensures Seen(s, DoTask(ops), RunTask(s, ops))
  {
    hide Inv, Wire, LogInSeen, SessSeen, LinkSeen;
    SeenErrorLogIn(s, e, ops);
    SeenErrorSess(s, e, ops);
    SeenErrorLink(s, e, ops);
  }

  lemma SeenErrorLogIn(s: Server, e: Error, ops: Ops)
    requires Inv(s) && Wire(s) && Enabled(s, DoTask(ops)) && s.link.queue[0] == ErrorTask(e)
    ensures LogInSeen(s, DoTask(ops), RunTask(s, ops))
  {
    hide Inv, Wire;
  }

  lemma SeenErrorSess(s: Server, e: Error, ops: Ops)
    requires Inv(s) && Wire(s) && Enabled(s, DoTask(ops)) && s.link.queue[0] == ErrorTask(e)
    ensures SessSeen(s, DoTask(ops), RunTask(s, ops))
  {
    hide Inv, Wire, Finish;
  }

  lemma SeenErrorLink(s: Server, e: Error, ops: Ops)
    requires Inv(s) && Wire(s) && Enabled(s, DoTask(ops)) && s.link.queue[0] == ErrorTask(e)
    ensures LinkSeen(s, DoTask(ops), RunTask(s, ops))
  {
    hide Inv, Wire, Finish;
  }

  lemma SeenPreInit(s: Server, ops: Ops)
    requires Inv(s) && Wire(s) && Enabled(s, DoTask(ops)) && s.link.queue[0].PreInitTask?
    ensures Seen(s, DoTask(ops), RunTask(s, ops))
  {
    hide Inv, Wire;
  }

  lemma SeenEnd(s: Server, ops: Ops)
    requires Inv(s) && Wire(s) && Enabled(s, DoTask(ops)) && s.link.queue[0].EndTask?
    ensures Seen(s, DoTask(ops), RunTask(s, ops))
  {
    hide Inv, Wire;
  }

  lemma SeenDeliver(s: Server, m: Msg)
    requires Inv(s) && Wire(s) && Enabled(s, DoDeliver(m))
    ensures Seen(s, DoDeliver(m), Deliver(s, m))
  {
    hide Inv, Wire, LogInSeen, SessSeen, LinkSeen;
    SeenDeliverLogIn(s, m);
    SeenDeliverSess(s, m);
    SeenDeliverLink(s, m);
  }

  lemma SeenDeliverLogIn(s: Server, m: Msg)
    requires Inv(s) && Wire(s) && Enabled(s, DoDeliver(m))
    ensures LogInSeen(s, DoDeliver(m), Deliver(s, m))
  {
    hide Inv, Wire, Receive;
    if s.sess.wait.AckWait? {
      AtAck(s);
    }
  }

  lemma SeenDeliverSess(s: Server, m: Msg)
    requires Inv(s) && Wire(s) && Enabled(s, DoDeliver(m))
    ensures SessSeen(s, DoDeliver(m), Deliver(s, m))
  {
    hide Inv, Wire, Receive, SessSeen, Deliver;
    if s.sess.wait.AckWait? {
      AtAck(s);
      AckSess(s, m);
    } else {
      OtherSess(s, m);
    }
  }

  lemma AckSess(s: Server, m: Msg)
    requires s.sess.wait.AckWait? && s.login.onDone && Up(s.link)
    ensures SessSeen(s, DoDeliver(m), Deliver(s, m))
  {
    hide Receive, Finish, Filled;
    FilledSess(s.(link := Receive(s.link, m), sess := s.sess.(wait := NoWait)), s.sess.wait.nCli, s.sess.wait.ends);
  }

  lemma FilledSess(s: Server, nCli: nat, ends: seq<Peer>)
    ensures Filled(s, nCli, ends).sess == s.sess
  {
  }

  lemma OtherSess(s: Server, m: Msg)
    requires !s.sess.wait.AckWait? && Up(s.link)
    ensures SessSeen(s, DoDeliver(m), Deliver(s, m))
  {
    hide Receive, OpenAnswered;
    if Responds(s, DoDeliver(m)) {
      AnsweredSess(s.sess, m);
    }
  }

  lemma AnsweredSess(s: Sess, m: Msg)
    requires m.ToClientRsp? && s.wait.OpenWait?
    ensures OpenAnswered(s, m) ==
              s.(wait := NoWait,
                 log := s.log + if m.result == Accepted then [ActiveOpen(m.to, Peer(s.wait.s2c, s.wait.c2s))] else [])
  {
  }

  lemma SeenDeliverLink(s: Server, m: Msg)
    requires Inv(s) && Wire(s) && Enabled(s, DoDeliver(m))
    ensures LinkSeen(s, DoDeliver(m), Deliver(s, m))
  {
    hide Inv, Wire, MsgsSeen, UpAfter;
    SeenDeliverLinkMsgs(s, m);
    SeenDeliverLinkUp(s, m);
  }

  lemma SeenDeliverLinkMsgs(s: Server, m: Msg)
    requires Inv(s) && Wire(s) && Enabled(s, DoDeliver(m))
    ensures MsgsSeen(s, DoDeliver(m), Deliver(s, m))
  {
    hide Inv, Wire, Finish;
    if s.sess.wait.AckWait? {
      AtAck(s);
    }
  }

  lemma SeenDeliverLinkUp(s: Server, m: Msg)
    requires Inv(s) && Wire(s) && Enabled(s, DoDeliver(m))
    ensures Up(Deliver(s, m).link) <==> UpAfter(s, DoDeliver(m))
  {
    hide Inv, Wire, Finish;
    if s.sess.wait.AckWait? {
      AtAck(s);
    }
  }

  lemma SeenFail(s: Server, e: Error)
    requires Inv(s) && Enabled(s, DoFail(e))
    ensures Seen(s, DoFail(e), s.(link := HoseAsync(s.link, e)))
  {
    hide Inv;
  }

  lemma SeenEndWait(s: Server, end: WaitEnd)
    requires Inv(s) && Wire(s) && Enabled(s, DoEndWait(end))
    ensures Seen(s, DoEndWait(end), Next(s, DoEndWait(end)))
  {
    hide Inv, Wire, LogInSeen, SessSeen, LinkSeen;
    SeenEndWaitLogIn(s, end);
    SeenEndWaitSess(s, end);
    SeenEndWaitLink(s, end);
  }

  lemma SeenEndWaitLogIn(s: Server, end: WaitEnd)
    requires Inv(s) && Wire(s) && Enabled(s, DoEndWait(end))
    ensures LogInSeen(s, DoEndWait(end), Next(s, DoEndWait(end)))
  {
    hide Inv, Wire;
    if s.sess.wait.AckWait? {
      AtAck(s);
    }
  }

  lemma SeenEndWaitSess(s: Server, end: WaitEnd)
    requires Inv(s) && Wire(s) && Enabled(s, DoEndWait(end))
    ensures SessSeen(s, DoEndWait(end), Next(s, DoEndWait(end)))
  {
    hide Inv, Wire, SessSeen, AckUnanswered, OpenUnanswered;
    if s.sess.wait.AckWait? {
      AtAck(s);
      AckUnansweredSess(s, end);
    } else {
      OpenUnansweredSess(s, end);
    }
  }

  lemma AckUnansweredSess(s: Server, end: WaitEnd)
    requires s.sess.wait.AckWait? && s.login.onDone && Enabled(s, DoEndWait(end))
    ensures SessSeen(s, DoEndWait(end), AckUnanswered(s, end))
  {
    hide Finish;
  }

  lemma OpenUnansweredSess(s: Server, end: WaitEnd)
    requires s.sess.wait.OpenWait? && Enabled(s, DoEndWait(end))
    ensures SessSeen(s, DoEndWait(end), OpenUnanswered(s, end))
  {
    hide Down, HoseAsync;
  }

  lemma SeenEndWaitLink(s: Server, end: WaitEnd)
    requires Inv(s) && Wire(s) && Enabled(s, DoEndWait(end))
    ensures LinkSeen(s, DoEndWait(end), Next(s, DoEndWait(end)))
  {
    hide Inv, Wire, LinkSeen, AckUnanswered, OpenUnanswered;
    if s.sess.wait.AckWait? {
      AtAck(s);
      AckUnansweredLink(s, end);
    } else {
      OpenUnansweredLink(s, end);
    }
  }

  lemma AckUnansweredLink(s: Server, end: WaitEnd)
    requires s.sess.wait.AckWait? && s.login.onDone && Enabled(s, DoEndWait(end))
    ensures LinkSeen(s, DoEndWait(end), AckUnanswered(s, end))
  {
    hide Finish;
  }

  lemma OpenUnansweredLink(s: Server, end: WaitEnd)
    requires s.sess.wait.OpenWait? && Enabled(s, DoEndWait(end))
    ensures LinkSeen(s, DoEndWait(end), OpenUnanswered(s, end))
  {
    hide Inv, Wire, MsgsSeen, UpAfter;
    OpenUnansweredLinkMsgs(s, end);
    OpenUnansweredLinkUp(s, end);
  }

  lemma OpenUnansweredLinkMsgs(s: Server, end: WaitEnd)
    requires s.sess.wait.OpenWait? && Enabled(s, DoEndWait(end))
    ensures MsgsSeen(s, DoEndWait(end), OpenUnanswered(s, end))
  {
  }

  lemma OpenUnansweredLinkUp(s: Server, end: WaitEnd)
    requires s.sess.wait.OpenWait? && Enabled(s, DoEndWait(end))
    ensures Up(OpenUnanswered(s, end).link) <==> UpAfter(s, DoEndWait(end))
  {
  }

  lemma SeenInitHandlers(s: Server, pe: bool, late: Option<Error>)
    requires Inv(s) && Enabled(s, DoInitHandlers(pe, late))
    ensures Seen(s, DoInitHandlers(pe, late), InitHandlers(s, pe, late).0)
  {
    hide Inv, Wire, LogInSeen, SessSeen, LinkSeen;
    SeenInitHandlersLogIn(s, pe, late);
    SeenInitHandlersSess(s, pe, late);
    SeenInitHandlersLink(s, pe, late);
  }

  lemma SeenInitHandlersLogIn(s: Server, pe: bool, late: Option<Error>)
    requires Inv(s) && Enabled(s, DoInitHandlers(pe, late))
    ensures LogInSeen(s, DoInitHandlers(pe, late), InitHandlers(s, pe, late).0)
  {
    hide Inv, Wire, ExpectAll;
  }

  lemma SeenInitHandlersSess(s: Server, pe: bool, late: Option<Error>)
    requires Inv(s) && Enabled(s, DoInitHandlers(pe, late))
    ensures SessSeen(s, DoInitHandlers(pe, late), InitHandlers(s, pe, late).0)
  {
    hide Inv, Wire, ExpectAll;
  }

  /** Open requests, and the end message, are expected. */
  lemma ExpectAllLink(l: Link, graceful: bool, late: Option<Error>)
    requires l.chan.Some?
    ensures var l', ch := ExpectAll(l, graceful, late), l.chan.value;
            && l'.sent == l.sent && l'.recv == l.recv
            && (!Up(l) ==> l' == l)
            && (Up(l) && late.Some? ==> l'.queue == l.queue + [ErrorTask(late.value)] && !Up(l'))
            && (Up(l) && late.None? ==>
                  Up(l') && l'.queue == l.queue + OpenTasks(ch.cache) + if graceful && ch.end == EndCached then [EndTask] else [])
  {
    hide OpenTasks;
  }

  lemma SeenInitHandlersLink(s: Server, pe: bool, late: Option<Error>)
    requires Inv(s) && Enabled(s, DoInitHandlers(pe, late))
    ensures LinkSeen(s, DoInitHandlers(pe, late), InitHandlers(s, pe, late).0)
  {
    hide Inv, Wire, MsgsSeen, UpAfter;
    SeenInitHandlersLinkMsgs(s, pe, late);
    SeenInitHandlersLinkUp(s, pe, late);
  }

  lemma SeenInitHandlersLinkMsgs(s: Server, pe: bool, late: Option<Error>)
    requires Inv(s) && Enabled(s, DoInitHandlers(pe, late))
    ensures MsgsSeen(s, DoInitHandlers(pe, late), InitHandlers(s, pe, late).0)
  {
    hide Inv, ExpectAll, OpenTasks;
    if s.link.chan.Some? {
      TasksAre(s.link.chan.value.cache);
    }
    ExpectAllLink(s.link, s.cfg.graceful, late);
  }

  lemma TasksAre(ids: seq<nat>)
    ensures OpenTasks(ids) == seq(|ids|, i requires 0 <= i < |ids| => OpenTask(ids[i]))
  {
  }

  lemma SeenInitHandlersLinkUp(s: Server, pe: bool, late: Option<Error>)
    requires Inv(s) && Enabled(s, DoInitHandlers(pe, late))
    ensures Up(InitHandlers(s, pe, late).0.link) <==> UpAfter(s, DoInitHandlers(pe, late))
  {
    hide Inv, ExpectAll;
    ExpectAllLink(s.link, s.cfg.graceful, late);
  }

  lemma SeenMdt(s: Server, made: bool)
    requires Inv(s) && Enabled(s, DoMdt(made))
    ensures Seen(s, DoMdt(made), MdtBuilder(s, made))
  {
    hide Inv;
  }

  lemma SeenOpen(s: Server, b: nat, op: SendOp)
    requires Inv(s) && Enabled(s, DoOpen(b, op))
    ensures Seen(s, DoOpen(b, op), OpenStart(s, b, op).0)
  {
    hide Inv, Wire, LogInSeen, SessSeen, LinkSeen;
    SeenOpenLogIn(s, b, op);
    SeenOpenSess(s, b, op);
    SeenOpenLink(s, b, op);
  }

  lemma SeenOpenLogIn(s: Server, b: nat, op: SendOp)
    requires Inv(s) && Enabled(s, DoOpen(b, op))
    ensures LogInSeen(s, DoOpen(b, op), OpenStart(s, b, op).0)
  {
    hide Inv, Wire, Send;
  }

  lemma SeenOpenSess(s: Server, b: nat, op: SendOp)
    requires Inv(s) && Enabled(s, DoOpen(b, op))
    ensures SessSeen(s, DoOpen(b, op), OpenStart(s, b, op).0)
  {
    hide Inv, Wire, Send;
    if s.mdts[b].Ready? {
      SendReports(s.link, ToClientReq(s.mdts[b].c2s, s.mdts[b].s2c), op);
    }
  }

  lemma SendReports(l: Link, m: Msg, op: SendOp)
    requires l.chan.Some?
    ensures Send(l, m, op).1 ==
              if !Up(l) then Refused else match op case SendOk => Sent case SendFails(e) => Failed(e) case SendLate(_) => Refused
  {
  }

  lemma SeenOpenLink(s: Server, b: nat, op: SendOp)
    requires Inv(s) && Enabled(s, DoOpen(b, op))
    ensures LinkSeen(s, DoOpen(b, op), OpenStart(s, b, op).0)
  {
    hide Inv, Wire;
  }

  lemma SeenSendEnd(s: Server, op: SendOp)
    requires Inv(s) && Enabled(s, DoEnd(op))
    ensures Seen(s, DoEnd(op), SendEnd(s, op))
  {
    hide Inv;
  }

  lemma SeenDestroy(s: Server)
    requires Inv(s) && Enabled(s, DoDestroy)
    ensures Seen(s, DoDestroy, Destroy(s))
  {
    hide Inv;
  }

  lemma SeenTask(s: Server, ops: Ops)
    requires Inv(s) && Wire(s) && Enabled(s, DoTask(ops))
    ensures Seen(s, DoTask(ops), RunTask(s, ops))
  {
    hide Inv, Wire, Seen, RunTask;
    match s.link.queue[0]
    case StartTask => SeenStart(s, ops);
    case LogInTask(id, m) => SeenLogIn(s, id, m, ops);
    case OpenTask(id) => SeenOpenReq(s, id, ops);
    case ErrorTask(e) => SeenError(s, e, ops);
    case PreInitTask => SeenPreInit(s, ops);
    case EndTask => SeenEnd(s, ops);
  }

  lemma SeenStep(s: Server, t: Step)
    requires Inv(s) && Wire(s) && Enabled(s, t)
    ensures Seen(s, t, Next(s, t))
  {
    hide Inv, Wire, Seen, Deliver, RunTask, AckUnanswered, OpenUnanswered, InitHandlers, MdtBuilder, OpenStart, SendEnd,
         Destroy;
    match t
    case DoDeliver(m) => SeenDeliver(s, m);
    case DoFail(e) => SeenFail(s, e);
    case DoTask(ops) => SeenTask(s, ops);
    case DoEndWait(end) => SeenEndWait(s, end);
    case DoInitHandlers(pe, late) => SeenInitHandlers(s, pe, late);
    case DoMdt(made) => SeenMdt(s, made);
    case DoOpen(b, op) => SeenOpen(s, b, op);
    case DoEnd(op) => SeenSendEnd(s, op);
    case DoDestroy => SeenDestroy(s);
  }

  /** In every run each step does what is seen above and nothing else. */
  lemma {:induction false} SeenInRuns(states: seq<Server>, steps: seq<Step>, i: nat)
    requires Run(states, steps) && i < |steps|
    ensures Seen(states[i], steps[i], states[i + 1])
  {
    hide Inv, Wire, Enabled, Next, Seen;
    InvInRuns(states, steps, i);
    WireInRuns(states, steps, i);
    SeenStep(states[i], steps[i]);
  }

  lemma SeenParts(s: Server, t: Step, s': Server)
    requires Seen(s, t, s')
    ensures LogInSeen(s, t, s') && SessSeen(s, t, s') && LinkSeen(s, t, s')
  {
  }

  // ----- What is kept for later steps -----

  /** The end message, when it is expected. */
  function Awaited(e: End): End {
    match e case EndUnexpected => EndExpected case EndCached => EndTaken case _ => e
  }

  /** And when it arrives. */
  function Arrived(e: End): End {
    match e case EndUnexpected => EndCached case EndExpected => EndTaken case _ => e
  }

  /** The channel is made. */
  predicate Makes(s: Server, t: Step) {
    t.DoTask? && s.link.queue != [] && s.link.queue[0].StartTask?
  }

  /** A channel that is up after the step: is the log-in request awaited, are open requests handed on, which of them are
      kept, and what is known of the end message. */
  function ChanAfter(s: Server, t: Step): Chan
    requires Makes(s, t) || Up(s.link)
  {
    if Makes(s, t) then Chan(true, true, false, [], EndUnexpected)
    else
      var ch := s.link.chan.value;
      if t.DoDeliver? then
        if ch.loginPending then ch.(loginPending := false)
        else if t.m.ToServerReq? && !ch.opens then ch.(cache := ch.cache + [|s.link.recv|])
        else if t.m.GracefulSessionEnd? then ch.(end := Arrived(ch.end))
        else ch
      else if SetsHandlers(s, t) && s.sess.preInit.None? then
        ch.(opens := true, cache := [], end := if s.cfg.graceful then Awaited(ch.end) else ch.end)
      else ch
  }

  /** Is a channel held, up or not. */
  predicate HeldAfter(s: Server, t: Step) {
    if Makes(s, t) then t.ops.creds.None?
    else s.link.chan.Some? && (t.DoDestroy? || DoneOf(s, t).None? || DoneOf(s, t).value.result.None?)
  }

  ghost predicate Kept(s: Server, t: Step, s': Server) {
    && (Up(s'.link) ==> (Makes(s, t) || Up(s.link)) && s'.link.chan.value == ChanAfter(s, t))
    && (s'.link.chan.Some? <==> HeldAfter(s, t))
  }

  lemma KeptStart(s: Server, ops: Ops)
    requires Inv(s) && Enabled(s, DoTask(ops)) && s.link.queue[0].StartTask?
    ensures Kept(s, DoTask(ops), RunTask(s, ops))
  {
    hide Inv;
    AtStart(s);
  }

  /** A channel stays as it is, or goes down, or is destroyed. */
  ghost predicate SameChan(l: Link, l': Link) {
    l'.chan == l.chan || l'.chan.None? || (l.chan.Some? && l'.chan == Down(l).chan)
  }

  lemma SameLogIn(s: Server, m: Msg, env: LogInEnv, ops: LogInOps)
    requires m.LogInReq?
    ensures SameChan(s.link, OnLogInReq(s, m, env, ops).link)
  {
    hide LogInReqError, NsMade, Respond, Finish;
    if s.link.chan.Some? {
      var s1 := s.(login := if NsMade(s, m, env) then s.login.(ns := Some(env.ns)) else s.login);
      SameRespond(s1, m.nCli, if s.cfg.wantsSrv then env.nSrv else 0, env.ns, ops);
    }
  }

  lemma SameRespond(s: Server, nCli: nat, nSrv: nat, ns: string, ops: LogInOps)
    requires s.link.chan.Some?
    ensures SameChan(s.link, Respond(s, nCli, nSrv, ns, ops).link)
  {
    hide Finish, InitMsgs, InitEnds, InitMsg;
  }

  /** The log-in fails together with the channel. */
  ghost predicate GoneIfFailed(s: Server, s': Server) {
    s'.link.chan.None? <==> |s'.login.dones| > |s.login.dones| && s'.login.dones[|s.login.dones|].result.Some?
  }

  lemma GoneLogIn(s: Server, m: Msg, env: LogInEnv, ops: LogInOps)
    requires m.LogInReq? && s.link.chan.Some? && s.login.onDone
    ensures GoneIfFailed(s, OnLogInReq(s, m, env, ops))
  {
    hide LogInReqError, NsMade, Respond;
    var s1 := s.(login := if NsMade(s, m, env) then s.login.(ns := Some(env.ns)) else s.login);
    GoneRespond(s1, m.nCli, if s.cfg.wantsSrv then env.nSrv else 0, env.ns, ops);
  }

  lemma GoneRespond(s: Server, nCli: nat, nSrv: nat, ns: string, ops: LogInOps)
    requires s.link.chan.Some? && s.login.onDone
    ensures GoneIfFailed(s, Respond(s, nCli, nSrv, ns, ops))
  {
    hide InitMsgs, InitEnds, InitMsg;
  }

  lemma KeptLogIn(s: Server, id: nat, m: Msg, ops: Ops)
    requires Inv(s) && Wire(s) && Enabled(s, DoTask(ops)) && s.link.queue[0] == LogInTask(id, m)
    ensures Kept(s, DoTask(ops), RunTask(s, ops))
  {
    hide Inv, Wire, SessSeen, LinkSeen, OnLogInReq, DoneOf, UpAfter;
    AtLogIn(s);
    SeenLogIn(s, id, m, ops);
    SameLogIn(Popped(s), m, ops.env, ops.login);
    GoneLogIn(Popped(s), m, ops.env, ops.login);
  }

  lemma KeptOpenReq(s: Server, id: nat, ops: Ops)
    requires Inv(s) && Wire(s) && Enabled(s, DoTask(ops)) && s.link.queue[0] == OpenTask(id)
    ensures Kept(s, DoTask(ops), RunTask(s, ops))
  {
    hide Inv, Wire, Answer;
    if Handles(s, DoTask(ops)) {
      var s1, result := Popped(s), Verdict(s, DoTask(ops));
      AnswerLink(if result == Accepted then s1.(lastMq := s.lastMq + 1) else s1, id, result, ops.op);
    }
  }

  lemma KeptError(s: Server, e: Error, ops: Ops)
    requires Inv(s) && Wire(s) && Enabled(s, DoTask(ops)) && s.link.queue[0] == ErrorTask(e)
    ensures Kept(s, DoTask(ops), RunTask(s, ops))
  {
    hide Inv, Wire, Finish;
  }

  lemma KeptDeliver(s: Server, m: Msg)
    requires Inv(s) && Wire(s) && Enabled(s, DoDeliver(m))
    ensures Kept(s, DoDeliver(m), Deliver(s, m))
  {
    hide Inv, Wire, Finish;
    if s.sess.wait.AckWait? {
      AtAck(s);
    }
  }

  lemma KeptEndWait(s: Server, end: WaitEnd)
    requires Inv(s) && Wire(s) && Enabled(s, DoEndWait(end))
    ensures Kept(s, DoEndWait(end), Next(s, DoEndWait(end)))
  {
    hide Inv, Wire, Finish;
    if s.sess.wait.AckWait? {
      AtAck(s);
    }
  }

  /** The handlers are set. */
  lemma ExpectAllKept(l: Link, graceful: bool, late: Option<Error>)
    requires l.chan.Some?
    ensures var l' := ExpectAll(l, graceful, late);
            && l'.chan.Some?
            && (Up(l') ==> Up(l) && l'.chan.value == l.chan.value.(opens := true, cache := [],
                             end := if graceful then Awaited(l.chan.value.end) else l.chan.value.end))
  {
    hide OpenTasks;
  }

  lemma KeptInitHandlers(s: Server, pe: bool, late: Option<Error>)
    requires Inv(s) && Enabled(s, DoInitHandlers(pe, late))
    ensures Kept(s, DoInitHandlers(pe, late), InitHandlers(s, pe, late).0)
  {
    hide Inv, ExpectAll;
    ExpectAllKept(s.link, s.cfg.graceful, late);
  }

  lemma KeptMdt(s: Server, made: bool)
    requires Enabled(s, DoMdt(made))
    ensures Kept(s, DoMdt(made), MdtBuilder(s, made))
  {
  }

  lemma KeptOpen(s: Server, b: nat, op: SendOp)
    requires Enabled(s, DoOpen(b, op))
    ensures Kept(s, DoOpen(b, op), OpenStart(s, b, op).0)
  {
  }

  lemma KeptOther(s: Server, t: Step)
    requires Enabled(s, t) && (t.DoFail? || t.DoEnd? || t.DoDestroy?)
    ensures Kept(s, t, Next(s, t))
  {
    hide Finish;
  }

  lemma KeptPlain(s: Server, ops: Ops)
    requires Enabled(s, DoTask(ops)) && (s.link.queue[0].PreInitTask? || s.link.queue[0].EndTask?)
    ensures Kept(s, DoTask(ops), RunTask(s, ops))
  {
  }

  lemma KeptTask(s: Server, ops: Ops)
    requires Inv(s) && Wire(s) && Enabled(s, DoTask(ops))
    ensures Kept(s, DoTask(ops), RunTask(s, ops))
  {
    hide Inv, Wire, Kept, RunTask;
    match s.link.queue[0]
    case StartTask => KeptStart(s, ops);
    case LogInTask(id, m) => KeptLogIn(s, id, m, ops);
    case OpenTask(id) => KeptOpenReq(s, id, ops);
    case ErrorTask(e) => KeptError(s, e, ops);
    case _ => KeptPlain(s, ops);
  }

  lemma KeptStep(s: Server, t: Step)
    requires Inv(s) && Wire(s) && Enabled(s, t)
    ensures Kept(s, t, Next(s, t))
  {
    hide Inv, Wire, Kept, Deliver, RunTask, AckUnanswered, OpenUnanswered, InitHandlers, MdtBuilder, OpenStart, SendEnd,
         Destroy;
    match t
    case DoDeliver(m) => KeptDeliver(s, m);
    case DoTask(ops) => KeptTask(s, ops);
    case DoEndWait(end) => KeptEndWait(s, end);
    case DoInitHandlers(pe, late) => KeptInitHandlers(s, pe, late);
    case DoMdt(made) => KeptMdt(s, made);
    case DoOpen(b, op) => KeptOpen(s, b, op);
    case _ => KeptOther(s, t);
  }

  /** In every run each step keeps what is said above for the later ones: an open request, or the end message, that comes
      before the handlers are set is kept, in order, until they are, and then no longer. */
  lemma {:induction false} KeptInRuns(states: seq<Server>, steps: seq<Step>, i: nat)
    requires Run(states, steps) && i < |steps|
    ensures Kept(states[i], steps[i], states[i + 1])
  {
    hide Inv, Wire, Enabled, Next, Kept;
    InvInRuns(states, steps, i);
    WireInRuns(states, steps, i);
    KeptStep(states[i], steps[i]);
  }

  // ----- The decision on the log-in request -----

  /** The log-in request is responded to, with the number of init-channels asked for, if and only if it passes every check;
      otherwise the handler is told the code of the first check that fails, in their order, the channel is gone, and
      nothing is sent. */
  lemma {:induction false} LogInDecided(states: seq<Server>, steps: seq<Step>, i: nat)
    requires Run(states, steps) && i < |steps| && steps[i].DoTask?
    requires states[i].link.queue != [] && states[i].link.queue[0].LogInTask?
    ensures var s, s', env, m := states[i], states[i + 1], steps[i].ops.env, states[i].link.queue[0].req;
            var told := (e: Error) => s'.login.dones == s.login.dones + [Done(Some(e), s.login.outCli, s.login.outSrv)];
            m.LogInReq?
            && var versions, args := m.ver >= 1 && m.verAux >= 1, m.nCli == 0 || s.cfg.wantsCli;
            && (!(versions && env.configOk && args && env.appKnown && env.credsOk && env.setup.None?) ==>
                  s'.link.sent == s.link.sent && !Up(s'.link) && !s'.login.onDone)
            && (!versions ==> told(ProtocolVersionUnsupported))
            && (versions && !env.configOk ==> told(ConfigMismatch))
            && (versions && env.configOk && !args ==> told(InvalidArgument))
            && (versions && env.configOk && args && !env.appKnown ==> told(ClientAppUnknown))
            && (versions && env.configOk && args && env.appKnown && !env.credsOk ==> told(ClientAppBadCreds))
            && (versions && env.configOk && args && env.appKnown && env.credsOk ==>
                  s'.login.ns == Some(env.ns) && (env.setup.Some? ==> told(env.setup.value)))
            && (versions && env.configOk && args && env.appKnown && env.credsOk && env.setup.None? && Up(s.link)
                && steps[i].ops.login.op == SendOk ==>
                  && |s'.link.sent| > |s.link.sent| && s.link.sent <= s'.link.sent
                  && s'.link.sent[|s.link.sent|] == LogInRsp(1, 1, env.ns, if s.cfg.wantsSrv then env.nSrv else 0))
  {
    hide Next, LogInReqError, SessSeen, NsMade;
    SeenInRuns(states, steps, i);
    LogInCodes(states[i], states[i].link.queue[0].req, steps[i].ops.env);
  }

  /** A step handles a log-in request that passes every check. */
  ghost predicate Checked(s: Server, t: Step) {
    && t.DoTask? && s.link.queue != [] && s.link.queue[0].LogInTask? && s.link.queue[0].req.LogInReq?
    && var m, env := s.link.queue[0].req, t.ops.env;
       m.ver >= 1 && m.verAux >= 1 && env.configOk && (m.nCli == 0 || s.cfg.wantsCli) && env.appKnown && env.credsOk
       && env.setup.None?
  }

  /** Nobody is logged in, or about to be, without having passed every check. */
  lemma {:induction false} SuccessWasChecked(states: seq<Server>, steps: seq<Step>, i: nat)
    requires Run(states, steps) && i < |states|
    ensures Succeeded(states[i]) || states[i].sess.wait.AckWait? ==>
              exists j :: 0 <= j < i && Checked(states[j], steps[j])
  {
    hide Enabled, Next, Seen, LinkSeen, LogInReqError;
    if i > 0 {
      SuccessWasChecked(states, steps, i - 1);
      SeenInRuns(states, steps, i - 1);
      SeenParts(states[i - 1], steps[i - 1], states[i]);
      CheckedFirst(states[i - 1], steps[i - 1], states[i]);
    }
  }

  lemma CheckedFirst(s: Server, t: Step, s': Server)
    requires LogInSeen(s, t, s') && SessSeen(s, t, s')
    ensures (Succeeded(s') || s'.sess.wait.AckWait?) && !Succeeded(s) && !s.sess.wait.AckWait? ==> Checked(s, t)
  {
    if Decides(s, t) {
      LogInCodes(s, s.link.queue[0].req, t.ops.env);
    }
  }

  // ----- What the user is told -----

  /** The user has been told of an event if and only if a step of the run tells it. */
  lemma {:induction false} EventsExactly(states: seq<Server>, steps: seq<Step>, i: nat, e: Event)
    requires Run(states, steps) && i < |states|
    ensures e in states[i].sess.log <==> exists j :: 0 <= j < i && EventOf(states[j], steps[j]) == Some(e)
  {
    hide Enabled, Next, Seen, EventOf;
    if i > 0 {
      EventsExactly(states, steps, i - 1, e);
      SeenInRuns(states, steps, i - 1);
      SeenParts(states[i - 1], steps[i - 1], states[i]);
    }
  }

  /** The client's acceptance of the request `k`, which W waits for, arrives; `p` is the server's end of the pair made for
      it. */
  ghost predicate Opened(s: Server, t: Step, k: nat, p: Peer) {
    && t.DoDeliver? && Up(s.link) && !s.link.chan.value.loginPending && t.m == ToClientRsp(k, Accepted)
    && s.sess.wait == OpenWait(k, p.rx, p.tx)
  }

  /** `open_channel()` has given the user a channel if and only if the acceptance arrived while it waited. */
  lemma {:induction false} ActiveOpenExactly(states: seq<Server>, steps: seq<Step>, i: nat, k: nat, p: Peer)
    requires Run(states, steps) && i < |states|
    ensures ActiveOpen(k, p) in states[i].sess.log <==> exists j :: 0 <= j < i && Opened(states[j], steps[j], k, p)
  {
    hide Enabled, Next;
    EventsExactly(states, steps, i, ActiveOpen(k, p));
    forall j | 0 <= j < i
      ensures EventOf(states[j], steps[j]) == Some(ActiveOpen(k, p)) <==> Opened(states[j], steps[j], k, p)
    {
    }
  }

  /** A response ends the wait for it; only an accepting one adds to what the user was told. */
  lemma {:induction false} ResponseTold(states: seq<Server>, steps: seq<Step>, i: nat, k: nat, r: OpenResult)
    requires Run(states, steps) && i < |steps| && steps[i] == DoDeliver(ToClientRsp(k, r))
    requires !states[i].link.chan.value.loginPending && states[i].sess.wait.OpenWait? && states[i].sess.wait.id == k
    ensures states[i + 1].sess.wait == NoWait
    ensures states[i + 1].sess.log == states[i].sess.log
              + if r == Accepted then [ActiveOpen(k, Peer(states[i].sess.wait.s2c, states[i].sess.wait.c2s))] else []
  {
    hide Next;
    SeenInRuns(states, steps, i);
  }

  /** An open request of the client is handled: it is rejected without the handler for passive opens, and for want of
      resources; otherwise it is accepted, with a new pair of pipes, and once that is sent the channel is emitted. */
  lemma {:induction false} RequestAnswered(states: seq<Server>, steps: seq<Step>, i: nat)
    requires Run(states, steps) && i < |steps| && steps[i].DoTask?
    requires states[i].link.queue != [] && states[i].link.queue[0].OpenTask?
    requires states[i].sess.hosed.None? && Up(states[i].link)
    ensures var id, s, s' := states[i].link.queue[0].id, states[i], states[i + 1];
            var pe, made := s.sess.passiveEnabled, steps[i].ops.made;
            var k := s'.lastMq;
            match steps[i].ops.op
            case SendOk =>
              && s'.link.sent == s.link.sent + [s'.link.sent[|s.link.sent|]] && |s'.link.sent| == |s.link.sent| + 1
              && s'.link.sent[|s.link.sent|].ToServerRsp? && s'.link.sent[|s.link.sent|].to == id
              && (s'.link.sent[|s.link.sent|].result == RejectedPassiveOpen <==> !pe)
              && (s'.link.sent[|s.link.sent|].result == RejectedResourceUnavailable <==> pe && !made)
              && (pe && made ==>
                    k == s.lastMq + 1
                    && s'.link.sent[|s.link.sent|] == ToServerRsp(id, Accepted, Mq(k, true), Mq(k, false)))
              && s'.sess.log == s.sess.log
                   + if pe && made then [PassiveOpen(id, Peer(Mq(k, false), Mq(k, true)))] else []
            case SendFails(e) => s'.link.sent == s.link.sent && s'.sess.log == s.sess.log + [OnError(e)] && !Up(s'.link)
            case SendLate(_) => s'.link.sent == s.link.sent && s'.sess.log == s.sess.log && !Up(s'.link)
  {
    hide Next, LogInSeen;
    SeenInRuns(states, steps, i);
  }

  /** Without the handler for passive opens no channel is ever emitted. */
  lemma {:induction false} NoneWithoutHandler(states: seq<Server>, steps: seq<Step>, i: nat)
    requires Run(states, steps) && i < |states|
    ensures !states[i].sess.passiveEnabled ==> forall e | e in states[i].sess.log :: !e.PassiveOpen?
    ensures !states[i].sess.handlersSet ==> !states[i].sess.passiveEnabled
  {
    hide Enabled, Next, Seen, LogInSeen, LinkSeen;
    if i > 0 {
      NoneWithoutHandler(states, steps, i - 1);
      SeenInRuns(states, steps, i - 1);
      SeenParts(states[i - 1], steps[i - 1], states[i]);
      NothingYet(states, steps, i - 1);
    }
  }

  lemma {:induction false} NothingYet(states: seq<Server>, steps: seq<Step>, i: nat)
    requires Run(states, steps) && i < |states|
    ensures !states[i].sess.handlersSet ==> states[i].sess.log == []
  {
    InvInRuns(states, steps, i);
  }

  /** The assertions of the source that are about the moment of a step, on the state itself: the channel and the handler are
      there when the log-in request is handled; no second error is cached; the finisher is there when an error is passed
      on; and the on-error handler has not run when it is run. */
  lemma {:induction false} AssertedThen(states: seq<Server>, steps: seq<Step>, i: nat)
    requires Run(states, steps) && i < |steps|
    ensures Decides(states[i], steps[i]) ==> states[i].link.chan.Some? && states[i].login.onDone
    ensures DoneOf(states[i], steps[i]).Some? ==> states[i].login.onDone
    ensures EventOf(states[i], steps[i]).Some? ==> states[i].sess.hosed.None?
    ensures steps[i].DoTask? && states[i].link.queue != [] && states[i].link.queue[0].ErrorTask?
            && states[i].link.chan.Some? && !states[i].login.onDone ==>
              if states[i].sess.handlersSet then states[i].cfg.graceful ==> states[i].sess.finisher
              else states[i].sess.preInit.None?
  {
    hide Wire, Next;
    InvInRuns(states, steps, i);
    WireInRuns(states, steps, i);
    Asserted(states[i], steps[i]);
  }

  lemma Asserted(s: Server, t: Step)
    requires Inv(s) && Wire(s) && Enabled(s, t)
    ensures Decides(s, t) ==> s.link.chan.Some? && s.login.onDone
    ensures DoneOf(s, t).Some? ==> s.login.onDone
    ensures EventOf(s, t).Some? ==> s.sess.hosed.None?
    ensures t.DoTask? && s.link.queue != [] && s.link.queue[0].ErrorTask? && s.link.chan.Some? && !s.login.onDone ==>
              if s.sess.handlersSet then s.cfg.graceful ==> s.sess.finisher else s.sess.preInit.None?
  {
    hide Wire;
    if s.sess.wait.AckWait? {
      AtAck(s);
    }
  }
}
