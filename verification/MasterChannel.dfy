/** The session master channel: the messages of its schema, the two ends of a channel that is opened over it,
    and what one call into `struc::Channel` can come back with.

    `struc::Channel` itself is not part of this model.  What the session code relies on is: messages arrive in the
    order they were sent; a message nobody expects yet is cached; the channel fails at most once, and that failure
    is told either by the failing call itself or, later, by the on-error handler, never by both; a call made on a
    failed channel is refused; and nothing is received after the failure. */
module MasterChannel {

  datatype Option<+T> = None | Some(value: T)

  datatype Error =
    | ChannelError(code: nat)
    | SystemError(code: nat)
    | NamespaceStoreBadFormat
    | ProtocolVersionUnsupported
    | LogInResponseBad
    | InvalidArgument
    | ConfigMismatch
    | ClientAppUnknown
    | ClientAppBadCreds
    | ResourceUnavailable
    | OpenTimeout
    | ShutdownAborted
    | SessionFinished

  /** One unidirectional pipe of an opened channel: the `id`-th pair made by the server session, one direction of it. */
  datatype Mq = Mq(id: nat, toServer: bool)

  /** A channel object held by one side: the pipe it writes and the pipe it reads. */
  datatype Peer = Peer(tx: Mq, rx: Mq)

  predicate Opposite(a: Peer, b: Peer) {
    a.tx == b.rx && a.rx == b.tx
  }

  /** The channel object the client builds from the two names it is sent. */
  function ClientPeer(c2s: Mq, s2c: Mq): Peer {
    Peer(c2s, s2c)
  }

  /** The channel object the server builds from the two pipes it made. */
  function ServerPeer(c2s: Mq, s2c: Mq): Peer {
    Peer(s2c, c2s)
  }

  datatype OpenResult = Accepted | RejectedPassiveOpen | RejectedResourceUnavailable

  datatype Msg =
    | LogInReq(ver: int, verAux: int, nCli: nat)
    | LogInRsp(ver: int, verAux: int, ns: string, nSrv: nat)
    | ToClientReq(c2s: Mq, s2c: Mq)
    | ToClientRsp(to: nat, result: OpenResult)
    | ToServerReq
    | ToServerRsp(to: nat, result: OpenResult, c2s: Mq, s2c: Mq)
    | GracefulSessionEnd

  /** The number of init-channels a log-in request and its response agree on. */
  function Agreed(fromCli: seq<Msg>, fromSrv: seq<Msg>): nat {
    if fromCli != [] && fromCli[0].LogInReq? && fromSrv != [] && fromSrv[0].LogInRsp?
    then fromCli[0].nCli + fromSrv[0].nSrv else 0
  }

  /** A received message; `id` is its position among all messages its sender sent on this channel. */
  datatype Inbound = Inbound(id: nat, msg: Msg)

  /** How a `send()` on a healthy channel ends: it works; it fails and says so; or the channel fails just before it,
      in which case the on-error handler is told and the call is refused. */
  datatype SendOp = SendOk | SendFails(e: Error) | SendLate(e: Error)

  /** What is known of `GracefulSessionEnd`, which is expected once: not expected yet, perhaps received and cached;
      expected; or handed over. */
  datatype End = EndUnexpected | EndCached | EndExpected | EndTaken

  datatype SendResult = Sent | Failed(e: Error) | Refused

  /** How the wait for a response ends when no response comes. */
  datatype WaitEnd = TimedOut | WaitFails(e: Error) | WaitLate(e: Error)

  /** Both sides speak protocol version 1 and nothing else: the lower of the two maxima must be 1. */
  predicate Negotiable(remoteMax: int) {
    (if remoteMax < 1 then remoteMax else 1) >= 1
  }

  const SENTINEL := "0"

  // ----- Increasing numbers -----

  ghost predicate Increasing(xs: seq<nat>) {
    forall i, j :: 0 <= i < j < |xs| ==> xs[i] < xs[j]
  }

  lemma Regroup(a: seq<nat>, x: seq<nat>, b: seq<nat>, c: seq<nat>)
    ensures a + (x + b) + c == a + x + (b + c)
    ensures a + b + c == a + (b + c)
  {
  }

  lemma Appended(a: seq<nat>, b: seq<nat>, c: seq<nat>, x: nat)
    ensures a + b + (c + [x]) == a + b + c + [x]
    ensures a + (b + [x]) + [] == a + b + [] + [x]
  {
  }

  lemma IncreasingAppend(xs: seq<nat>, n: nat)
    requires Increasing(xs) && forall i :: 0 <= i < |xs| ==> xs[i] < n
    ensures Increasing(xs + [n])
  {
  }
}
