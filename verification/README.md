# A verified model of ipc_session

`ipc::session` lets two processes, a client and a server, establish a *session* and open channels in it.  This project
models how it does that, and proves what it promises.  Each process has one worker thread, W, that runs posted tasks in
order.  The two are connected by the *session master channel*, of which the model keeps what the code relies on: messages
arrive in the order sent, an unexpected message is cached until it is expected, the channel fails at most once and tells so
exactly once, and nothing is received after the failure (`MasterChannel.dfy`).

The modules, by subject:

- **Client and server sessions.**  `ClientModel` and `ServerModel` give every task of W, and every event of the channel, as
  a function of the state; `ClientSession` and `ServerSession` are the objects, method by method as the source has them, and
  each method is proved to do what the function says; their classes `Life` hold an object and its history, which is a run,
  so that what is proved of runs is true of the objects.  `ClientRuns`, `ClientWire` and `ClientInits` hold the invariants of
  a client object over any number of connect attempts, against any server, and `ClientCancels` those that survive a sub-class
  that cancels the PEER state at will; `ServerRuns` and `ServerWire` those of a server session against any client.
  `ClientObserved` and `ServerObserved` say, once for all kinds of steps and without the functions of the model, what a step
  tells the user, runs, sends, posts and keeps, from the state before it and what it was given; every step of every run does
  that and nothing else.
  `SessionProtocol` joins a client object with the server sessions it meets, and `SessionOpens` follows an accepted open to
  the user at the other end.  `ClientGuarantees`, `ServerGuarantees` and
  `SessionGuarantees` state what users can count on.  `ManySessions` has any number of such clients and the one session
  server that numbers their sessions.
- **Graceful finish.**  `GracefulFinisher` is the rendezvous of the two destructors.  The end message itself is also part of
  the client and server sessions, where it competes with the other errors for the on-error handler.
- **The `sync_io` adapters.**  `SessionAdapter` and `AcceptAdapter` take events from a background thread to the user's
  event loop through a queue or variable and a pipe, one thread action at a time.
- **The session server.**  `SessionServer` has concurrent two-stage accepts, the namespace counter, the graveyard thread, and
  every owner a session object has, so that the thread that releases it is a result.
- **Names.**  `SharedNames` builds and decomposes resource names, `Decimals` prints and parses numbers, `MqAllocation`
  makes the message queues of a channel, `GlobalNames` joins session server, sessions and kernel to show that all queue
  names of a server process differ, and
  `NamespaceStore` is the file through which a client finds a server.

A run is a sequence of states and steps; results about runs hold for every scheduling, every message content and every
failure that the steps allow.  `faults` collects violated assertions of the source, after which the run goes on as in a
build without assertions.  Message ids are positions in the sender's sequence of messages.

## Where the code and its documentation differ

The model follows the code.  Each departure has a theorem with the exact condition, or a run that shows it:

- A failed acknowledgement leaves the client in NULL state with its master channel
  (`src/ipc/session/detail/client_session_impl.hpp:857-863`): `ClientGuarantees.KeptExactly`, `KeptFromNull`,
  `ChannelKeptExactly`, `RetryMeetsOldChannel`.
- Retried connects set set-once values again: `ClientGuarantees.SetTwiceAtStep`, `SetTwiceExactly`, `SecondAttemptSetsAgain`.
- A sub-class that cancels to NULL can leave a queued request behind, which then uses a null channel:
  `ClientGuarantees.NullChannelExactly`, `LeftBehindExactly`, `CancelMeetsQueuedRequest`.
- A sub-class that cancels to CONNECTING can be told of an error before its user is told of success:
  `ClientGuarantees.ErrorOutsidePeerExactly`, `ErrorWhileCancelled`.
- Without init-channels the server leaves the containers as they were: `ServerGuarantees.ContainersExactly`,
  `ContainersLeft`.
- `open_channel()` on a hosed server session can return true: `ServerGuarantees.HosedOpenExactly`, `HosedOpenBothWays`.
- A destructor can wait for ever: `GracefulFinisher.StuckExactly`, `HosedOpenWaitsForEver`.
- `mdt_builder()` asserts that a failed allocation leaves no handle: `MqAllocation.HandleLeftExactly`, `HandleLeft`.
- Decomposing accepts names that no builder makes: `SharedNames.AcceptedExactly`, `TwoIsOneExactly`.
- The graveyard thread is started only if the constructor is given a place for an error code:
  `SessionServer.ReleasedExactly`, `NeverReleased`.
- An error may overtake a passively opened channel in the `sync_io` adapter: `SessionAdapter.OvertakesOnlyIf`,
  `OvertakesExactly`, `ErrorOvertakes`.

## Model

| member | source | states |
|---|---|---|
| ClientSession.Session.constructor | src/ipc/session/detail/client_session_impl.hpp:900-932 | a new object is in NULL state, with nothing stored |
| ClientSession.Session.InvokeConnOnDone | src/ipc/session/detail/client_session_impl.hpp:1945-1957 | the stored handler is emptied, and has run once, last, with the arguments given |
| ClientSession.Session.AsyncConnect | src/ipc/session/detail/client_session_impl.hpp:1176-1538 | an attempt is refused unless in NULL state; without a socket, or if the request cannot be sent, it ends in NULL with the handler run once with that code; otherwise the request is out, or the channel has failed, and the state is CONNECTING |
| ClientSession.Session.RequestLogIn | src/ipc/session/detail/client_session_impl.hpp:1384-1526 | the new channel, the log-in request, and what a failing send leaves |
| ClientSession.Session.OnMasterChannelLogInRsp | src/ipc/session/detail/client_session_impl.hpp:1541-1672 | the log-in response is checked in order; a bad one ends the attempt with its code |
| ClientSession.Session.LoggedIn | src/ipc/session/detail/client_session_impl.hpp:1674-1781 | without init-channels the regular handler and PEER, otherwise the init-channel handler |
| ClientSession.Session.OnMasterChannelInitOpenChannel | src/ipc/session/detail/client_session_impl.hpp:1784-1839 | an init-channel is collected; the last one is acknowledged |
| ClientSession.Session.AckInitChannels | src/ipc/session/detail/client_session_impl.hpp:1841-1942 | handlers are switched before the acknowledgement is sent, and PEER is entered only after it |
| ClientSession.Session.OutArgs | src/ipc/session/detail/client_session_impl.hpp:1890-1914 | the init-channels are split, in order, over the two out-containers, with none left over: the assertion at the end holds |
| ClientSession.Session.OnMasterChannelError | src/ipc/session/detail/client_session_impl.hpp:1960-2025 | a stale error changes nothing; in CONNECTING it ends the attempt, the handler run once with its code and the channel gone; in PEER it is told unless an error was told before |
| ClientSession.Session.OpenChannel | src/ipc/session/detail/client_session_impl.hpp:2119-2216 | a hosed session does nothing; a failing request hoses; otherwise W waits for the response |
| ClientSession.Session.OpenChannelAnswered | src/ipc/session/detail/client_session_impl.hpp:2217-2281 | an accepting response adds exactly the channel built from its two names to what the user has; a rejecting one adds nothing; the wait is over either way |
| ClientSession.Session.OpenChannelUnanswered | src/ipc/session/detail/client_session_impl.hpp:2180-2216 | a timeout changes nothing else; an error while waiting hoses, now or through the error task |
| ClientSession.Session.OnMasterChannelOpenChannelReq | src/ipc/session/detail/client_session_impl.hpp:2291-2407 | accepted with the handler for passive opens and rejected without it; the channel is emitted exactly if the acceptance was sent |
| ClientSession.Session.CancelPeerStateToNull | src/ipc/session/detail/client_session_impl.hpp:2524-2538 | the channel is dropped and the state is NULL |
| ClientSession.Session.CancelPeerStateToConnecting | src/ipc/session/detail/client_session_impl.hpp:2541-2559 | a new handler is stored and the state is CONNECTING |
| ClientSession.Session.CompleteAfterCancel | src/ipc/session/detail/client_session_impl.hpp:2562-2593 | the stored handler is run once, in PEER with the finisher made, or in NULL without a channel |
| ClientSession.Session.OnMasterChannelGracefulSessionEnd | src/ipc/session/detail/session_base.hpp:1080-1106 | the end message is told as session-finished unless an error was told before |
| ClientSession.Session.SendGracefulSessionEnd | src/ipc/session/detail/session_base.hpp:1132-1147 | the end message is sent if possible; a failure is ignored |
| ClientSession.Life.Perform | src/ipc/session/session.hpp:180-185 | whatever happens to the object extends a run of the model; what was told stays, and nothing follows a told error |
| ClientSession.Life.Guaranteed | src/ipc/session/detail/client_session_impl.hpp:825-838 | of the object at any time: a handler is stored exactly in CONNECTING, the earlier ones have run once in order, and a told error is the last event |
| ClientRuns.HandlersOnceInRuns | src/ipc/session/detail/client_session_impl.hpp:825-838 | in every run, sub-classes included: a handler is stored exactly in CONNECTING, and all earlier ones have run once, in order |
| ClientRuns.InvInRuns | src/ipc/session/detail/client_session_impl.hpp:852-868 | the invariant of a client object over any number of attempts, against any server |
| ClientCancels.AnyInRuns | src/ipc/session/detail/client_session_impl.hpp:2524-2593 | the invariant of a client object that holds in every run, with PEER states cancelled inside any completion and in any way |
| ClientCancels.FitsInRuns | src/ipc/session/detail/client_session_impl.hpp:1651-1680 | while init-channels are awaited, their agreed number covers the client-requested container, and is its size if there is no other |
| ClientWire.WireInRuns | src/ipc/session/detail/client_session_impl.hpp:2291-2405 | requests of the server are answered in order, each at most once, and opens emitted are exactly the accepting answers |
| ClientWire.PassiveEmitted | src/ipc/session/detail/client_session_impl.hpp:2373-2405 | the channel emitted has the pipes of the request that the response answers, and its request comes after all answered ones |
| ClientWire.HeadIsNext | src/ipc/session/detail/client_session_impl.hpp:1692-1701 | the next open request in the queue of W is later than every one answered |
| ClientInits.CollectStep | src/ipc/session/detail/client_session_impl.hpp:1745-1870 | against a server that sends only init-channels before the acknowledgement, no step runs the init-channel handler out of state or too often |
| ClientInits.CollectLast | src/ipc/session/detail/client_session_impl.hpp:1839-1930 | after the last init-channel no init-channel task is left, and the acknowledgement answers that channel |
| ClientGuarantees.AttemptFiresOnce | src/ipc/session/detail/client_session_impl.hpp:1183-1190 | an attempt that was started is over, its handler run exactly once, or under way, its handler stored and not run |
| ClientGuarantees.AttemptNotForgotten | src/ipc/session/detail/client_session_impl.hpp:1474-1483 | in CONNECTING the channel is healthy or its failure report is queued |
| ClientGuarantees.StaleErrorHarmless | src/ipc/session/detail/client_session_impl.hpp:1966-1982 | in every run, sub-classes included, while the current channel is healthy an error task changes nothing |
| ClientGuarantees.ErrorIsFinal | src/ipc/session/session.hpp:180-185 | in every run, sub-classes included, after the on-error handler nothing is emitted and its code never changes, whichever of the end message, a channel failure and a failing use comes first |
| ClientGuarantees.ErrorOnlyInPeer | src/ipc/session/detail/client_session_impl.hpp:1996-2025 | without a sub-class the on-error handler runs in PEER only, and PEER stays |
| ClientGuarantees.ErrorOutsidePeerExactly | src/ipc/session/detail/client_session_impl.hpp:2291-2372 | with one, it runs outside PEER if and only if the response to an open request handled there cannot be sent |
| ClientGuarantees.ErrorWhileCancelled | src/ipc/session/detail/client_session_impl.hpp:2541-2559 | a run in which it does |
| ClientGuarantees.EndComesFirst | src/ipc/session/detail/session_base.hpp:1101-1104 | a run in which the end message and a channel failure are both queued: one error is told |
| ClientGuarantees.FinisherThere | src/ipc/session/detail/client_session_impl.hpp:2020-2024 | a sub-class that cancels every PEER state has its finisher in PEER, and a channel error finds it |
| ClientGuarantees.AssertionsHold | src/ipc/session/detail/client_session_impl.hpp:1651-1657 | five assertions of the source hold in every run, whatever the server sends |
| ClientGuarantees.SetTwiceExactly | src/ipc/session/detail/session_base.hpp:870-887 | a set-once value is set twice if and only if two attempts got as far as setting it |
| ClientGuarantees.SetTwiceAtStep | src/ipc/session/detail/session_base.hpp:870-887 | a step sets a set-once value again if and only if it reads a server namespace in NULL state while one is stored, or handles a good log-in response while a client namespace is |
| ClientGuarantees.SecondAttemptSetsAgain | src/ipc/session/detail/client_session_impl.hpp:1318-1336 | a run in which two attempts do |
| ClientGuarantees.KeptExactly | src/ipc/session/detail/client_session_impl.hpp:1871-1883 | an attempt ends in NULL with its channel kept if and only if the acknowledgement's send reports an error |
| ClientGuarantees.KeptFromNull | src/ipc/session/detail/client_session_impl.hpp:857-863 | a kept channel stays exactly until an attempt gets a socket |
| ClientGuarantees.ChannelKeptExactly | src/ipc/session/detail/client_session_impl.hpp:1386-1390 | the assertion on a null channel fails if and only if an attempt gets a socket while a channel is kept |
| ClientGuarantees.RetryMeetsOldChannel | src/ipc/session/detail/client_session_impl.hpp:1871-1883 | a run in which it fails |
| ClientGuarantees.CancelMeetsQueuedRequest | src/ipc/session/detail/client_session_impl.hpp:2524-2538 | a run in which a cancelled session's queued request meets a null channel |
| ClientGuarantees.NullChannelExactly | src/ipc/session/detail/client_session_impl.hpp:2291-2310 | in every run, sub-classes included, a null channel is used if and only if an open request is handled with no channel in a session not hosed |
| ClientGuarantees.LeftBehindExactly | src/ipc/session/detail/client_session_impl.hpp:2524-2538 | cancelling to NULL inside a completion leaves an open request queued if and only if one was queued, or cached, before the step |
| ClientObserved.LogInCodes | src/ipc/session/detail/client_session_impl.hpp:1553-1672 | a log-in response is good if and only if both versions are at least 1, there is a container for what it announces, and it has a proper namespace; otherwise the code of the first that fails |
| ClientObserved.SeenInRuns | src/ipc/session/detail/client_session_impl.hpp:1176-2593 | in every run, sub-classes included, a step runs the handlers, tells the events, sends the messages, posts the tasks and goes to the state that are said in one place for all steps, and nothing else |
| ClientObserved.KeptInRuns | src/ipc/session/detail/client_session_impl.hpp:1692-1860 | and it leaves the channel as said there: requests nobody expects yet are kept in order until a handler is installed, and the end message until it is expected |
| ClientObserved.AttemptTold | src/ipc/session/detail/client_session_impl.hpp:1340-1538 | an attempt without a socket, or whose request cannot be sent, ends in NULL at once, its handler told that code; any other is under way and has sent the size of the container passed |
| ClientObserved.SuccessExactly | src/ipc/session/detail/client_session_impl.hpp:1674-1942 | a step runs a handler with success if and only if it handles a good log-in response without init-channels on a healthy channel, acknowledges the last init-channel, or completes a cancelled PEER state |
| ClientObserved.SuccessHasCause | src/ipc/session/detail/client_session_impl.hpp:1945-1957 | each handler execution of a run goes back to the one step that made it, and each success to such a step |
| ClientObserved.BrokenExactly | src/ipc/session/detail/client_session_impl.hpp:1784-1839 | the assertions on init-channels and on the finisher are violated exactly by the steps whose state and task say so |
| ClientObserved.AssertedThen | src/ipc/session/detail/client_session_impl.hpp:1945-2025 | in every run, sub-classes included: a log-in response finds CONNECTING and a handler, no empty handler is run, no channel error is handled in NULL, and the on-error handler has not run before |
| ClientObserved.EventsExactly | src/ipc/session/detail/client_session_impl.hpp:2119-2407 | the user has been told of an event if and only if a step of the run tells it |
| ClientObserved.ActiveOpenExactly | src/ipc/session/detail/client_session_impl.hpp:2217-2281 | `open_channel()` has given a channel if and only if the accepting response to its request arrived while it waited |
| ClientObserved.ResponseTold | src/ipc/session/detail/client_session_impl.hpp:2217-2281 | the response to the awaited request ends the wait, and adds one channel if it accepts and nothing if it rejects |
| ClientObserved.RequestAnswered | src/ipc/session/detail/client_session_impl.hpp:2291-2407 | the answer to an open request is acceptance if and only if there is a handler for passive opens; the channel is emitted if and only if that was sent |
| ClientObserved.NoneWithoutHandler | src/ipc/session/detail/client_session_impl.hpp:2304-2310 | without that handler no run ever emits a channel |
| ServerSession.Session.constructor | src/ipc/session/detail/server_session_impl.hpp:1603-1636 | the log-in handler is stored and the first task is posted |
| ServerSession.Session.InvokeLogInOnDone | src/ipc/session/detail/server_session_impl.hpp:2110-2113 | the stored handler is cleared, and has run once with what the containers hold |
| ServerSession.Session.Start | src/ipc/session/detail/server_session_impl.hpp:1638-1716 | missing credentials end the log-in; otherwise the channel waits for the log-in request |
| ServerSession.Session.LogInError | src/ipc/session/detail/server_session_impl.hpp:1758-1878 | a request passes exactly if both versions are at least 1, configurations match, a container is there for what the client asks, and the application and its credentials are right, and the hook succeeds; otherwise the code of the first that fails |
| ServerSession.Session.OnLogInReq | src/ipc/session/detail/server_session_impl.hpp:1743-1990 | a bad request ends the log-in with its code; the namespace is made before the set-up hook can fail |
| ServerSession.Session.Respond | src/ipc/session/detail/server_session_impl.hpp:1915-2011 | the response, and what a failing send leaves |
| ServerSession.Session.OpenInits | src/ipc/session/detail/server_session_impl.hpp:2013-2047 | the loop over the init-channels does what its closed form says, whichever way it ends |
| ServerSession.Session.OnAck | src/ipc/session/detail/server_session_impl.hpp:2049-2113 | the two containers are emptied and filled in order, together holding all init-channels, and the handler is told of success once |
| ServerSession.Session.MoveChannels | src/ipc/session/detail/server_session_impl.hpp:2058-2083 | channels are moved one by one, in order |
| ServerSession.Session.OnNoAck | src/ipc/session/detail/server_session_impl.hpp:2087-2113 | an error while waiting ends the log-in; a failure told by the error handler does not, yet |
| ServerSession.Session.OnMasterChannelError | src/ipc/session/detail/server_session_impl.hpp:2130-2194 | an error ends the log-in, the handler run once with its code and the channel gone; it is cached before PEER; and in PEER it is told unless an error was told before |
| ServerSession.Session.InitHandlers | src/ipc/session/detail/server_session_impl.hpp:887-954 | handlers are set once; a cached error is posted, otherwise open requests are expected and the finisher made |
| ServerSession.Session.OnPreInit | src/ipc/session/detail/server_session_impl.hpp:915-932 | the cached error is told unless an error was told before |
| ServerSession.Session.MdtBuilder | src/ipc/session/detail/server_session_impl.hpp:1013-1083 | the resources are made now; none on a hosed session |
| ServerSession.Session.OpenChannel | src/ipc/session/detail/server_session_impl.hpp:1086-1192 | missing resources are an error even if hosed; a hosed session does nothing; a failing request hoses |
| ServerSession.Session.OpenChannelAnswered | src/ipc/session/detail/server_session_impl.hpp:1194-1232 | an accepting response adds exactly the channel made before to what the user has; a rejecting one adds nothing; the wait is over either way |
| ServerSession.Session.OpenChannelUnanswered | src/ipc/session/detail/server_session_impl.hpp:1158-1192 | as on the client |
| ServerSession.Session.OnMasterChannelOpenChannelReq | src/ipc/session/detail/server_session_impl.hpp:1254-1360 | rejected exactly without the handler for passive opens, or without resources; the channel is emitted exactly if the acceptance, with fresh pipes, was sent |
| ServerSession.Session.Destroy | src/ipc/session/detail/server_session_impl.hpp:793-838 | a log-in handler still stored is run with the shutdown code |
| ServerSession.Session.OnMasterChannelGracefulSessionEnd | src/ipc/session/detail/session_base.hpp:1080-1106 | the end message is told as session-finished unless an error was told before |
| ServerSession.Session.SendGracefulSessionEnd | src/ipc/session/detail/session_base.hpp:1132-1147 | the end message is sent if possible; a failure is ignored |
| ServerSession.Life.Perform | src/ipc/session/session.hpp:180-185 | whatever happens to the object extends a run of the model; what was told stays, and nothing follows a told error |
| ServerSession.Life.Guaranteed | src/ipc/session/detail/server_session_impl.hpp:811-826 | of the object at any time: the log-in handler is stored or has run once, a told error is the last event, and no assertion has failed |
| ServerRuns.InvInRuns | src/ipc/session/detail/server_session_impl.hpp:2130-2190 | the invariant of a server session, against any client |
| ServerWire.WireInRuns | src/ipc/session/detail/server_session_impl.hpp:2013-2047 | the response, then the init-channels, then nothing until the acknowledgement; pairs of pipes go out whole and once; requests are answered in order |
| ServerWire.PassiveEmitted | src/ipc/session/detail/server_session_impl.hpp:1330-1360 | the channel emitted is the server's end of the pipes in the accepting response |
| ServerGuarantees.LogInFiresOnce | src/ipc/session/detail/server_session_impl.hpp:811-826 | the log-in handler is stored or has run, once and for all; after the destructor it has |
| ServerGuarantees.LogInNotForgotten | src/ipc/session/detail/server_session_impl.hpp:1933-1943 | while it is stored, the first task is queued, the channel is healthy, or the error task is queued |
| ServerGuarantees.ErrorCompletesLogIn | src/ipc/session/detail/server_session_impl.hpp:2152-2171 | the error task completes a log-in under way |
| ServerGuarantees.ErrorIsFinal | src/ipc/session/session.hpp:180-185 | after the on-error handler, which needs the handlers set, nothing is emitted and its code never changes, whichever of a cached error, the end message, a channel failure and a failing use comes first |
| ServerGuarantees.EndComesFirst | src/ipc/session/detail/session_base.hpp:1101-1104 | a run in which the end message and a channel failure are both queued: one error is told |
| ServerGuarantees.AssertionsHold | src/ipc/session/detail/server_session_impl.hpp:2179-2180 | the assertions on the channel, the handler and the cached error hold in every run |
| ServerGuarantees.FailureTouchesNothing | src/ipc/session/session_server.hpp:429-430 | a failed log-in leaves the two containers as they were |
| ServerGuarantees.ContainersExactly | src/ipc/session/session_server.hpp:412-422 | after success, each container that was passed has the agreed size if and only if there were init-channels or it was empty before |
| ServerGuarantees.ContainersLeft | src/ipc/session/detail/server_session_impl.hpp:1998-2011 | a run that ends well without init-channels and leaves old channels in both containers |
| ServerGuarantees.HosedOpenExactly | src/ipc/session/detail/server_session_impl.hpp:1109-1149 | in every run, on a session hosed in an earlier step, `open_channel()` fails without a code if and only if the builder had its resources when the session was hosed and was not used since |
| ServerGuarantees.HosedBuilder | src/ipc/session/detail/server_session_impl.hpp:1027-1034 | a builder made on a hosed session never has them |
| ServerGuarantees.HosedOpenBothWays | src/ipc/session/detail/server_session_impl.hpp:1109-1149 | a run that reaches both: a code-less failure, and an error |
| ServerObserved.LogInCodes | src/ipc/session/detail/server_session_impl.hpp:1758-1878 | the code of each failing check of the log-in request, in their order |
| ServerObserved.SeenInRuns | src/ipc/session/detail/server_session_impl.hpp:793-2194 | in every run a step runs the handler, tells the events, sends the messages, makes the pipes, posts the tasks and changes the session as is said in one place for all steps, and nothing else |
| ServerObserved.KeptInRuns | src/ipc/session/detail/server_session_impl.hpp:936-954 | and it leaves the channel as said there: open requests and the end message that come before the handlers are set are kept in order until then |
| ServerObserved.LogInDecided | src/ipc/session/detail/server_session_impl.hpp:1743-2047 | in every run the log-in request is responded to, with the number of init-channels asked for, if and only if every check passes; otherwise the handler is told the code of the first that fails and nothing is sent |
| ServerObserved.SuccessWasChecked | src/ipc/session/detail/server_session_impl.hpp:1838-1878 | in every run, nobody is logged in whose request did not pass every check |
| ServerObserved.EventsExactly | src/ipc/session/detail/server_session_impl.hpp:1086-1360 | the user has been told of an event if and only if a step of the run tells it |
| ServerObserved.ActiveOpenExactly | src/ipc/session/detail/server_session_impl.hpp:1194-1232 | `open_channel()` has given a channel if and only if the acceptance arrived while it waited |
| ServerObserved.ResponseTold | src/ipc/session/detail/server_session_impl.hpp:1194-1232 | the response to the awaited request ends the wait, and adds one channel if it accepts and nothing if it rejects |
| ServerObserved.RequestAnswered | src/ipc/session/detail/server_session_impl.hpp:1278-1360 | rejected if and only if there is no handler for passive opens, or no resources; the channel is emitted if and only if the acceptance was sent |
| ServerObserved.NoneWithoutHandler | src/ipc/session/detail/server_session_impl.hpp:1278-1291 | without that handler no run ever emits a channel |
| ServerObserved.AssertedThen | src/ipc/session/detail/server_session_impl.hpp:2130-2194 | the assertions of the source, said on the state in which each is met, hold in every run |
| SessionProtocol.PromiseHolds | src/ipc/session/detail/server_session_impl.hpp:83-92 | a client that has not acknowledged was sent nothing but the response and the init-channels |
| SessionProtocol.InvInRuns | src/ipc/session/detail/server_session_impl.hpp:72-92 | the joint invariant of client and server over any number of attempts |
| SessionGuarantees.InitHandlerSeesInitsOnly | src/ipc/session/detail/client_session_impl.hpp:1756-1779 | the init-channel handler is only ever given one of the agreed init-channels, and its two assertions hold |
| SessionGuarantees.NothingBeforeAck | src/ipc/session/detail/client_session_impl.hpp:1839-1870 | when the last init-channel is in, all the server sent has arrived and it sends nothing more before the acknowledgement, so the switch of handlers is in time |
| SessionGuarantees.ServerLastWithInits | src/ipc/session/detail/server_session_impl.hpp:83-92 | with init-channels the server is logged in only after the client is in PEER, its channel, while up, with the regular handler installed |
| SessionGuarantees.InitChannelsMatch | src/ipc/session/detail/client_session_impl.hpp:1888-1914 | for the container as it was passed: both pairs of lists have equal lengths, that of the client-requested list being its size, and hold opposite ends at each index |
| SessionGuarantees.SameNamespace | src/ipc/session/detail/client_session_impl.hpp:1600-1611 | a client in PEER holds the namespace its own server session made |
| ManySessions.SharedByNoOther | src/ipc/session/detail/session_server_impl.hpp:856-860 | among any number of clients of one session server, a client in PEER holds the namespace its session was numbered with, and no other session has it until the counter has gone round |
| ManySessions.InvInRuns | src/ipc/session/detail/session_server_impl.hpp:848-860 | each server session met is that of an accept of its own, and has the namespace that accept was given |
| SessionGuarantees.OpensMatched | src/ipc/session/detail/client_session_impl.hpp:2153-2269 | an active open that succeeded, on either side, was emitted passively by the other: the opposite end, exactly once |
| SessionGuarantees.RejectedYieldsNone | src/ipc/session/detail/client_session_impl.hpp:2304-2310 | an open the client rejects yields no channel on either side |
| SessionGuarantees.SrvRejectedYieldsNone | src/ipc/session/detail/server_session_impl.hpp:1278-1293 | an open the server rejects yields no channel on either side |
| SessionGuarantees.NoPipeShared | src/ipc/session/detail/server_session_impl.hpp:1554-1583 | no pipe belongs to two channels of a session, init-channels included, and each channel has both directions of one pair |
| SessionOpens.AcceptedByServer | src/ipc/session/detail/client_session_impl.hpp:2217-2281 | a channel the server emitted, whose acceptance arrives while the client waits for it, is the client user's from then on: exactly once, and the opposite end |
| SessionOpens.AcceptedByClient | src/ipc/session/detail/server_session_impl.hpp:1194-1232 | the same with the sides exchanged |
| GracefulFinisher.Finisher.RunNext | src/ipc/session/detail/session_base.hpp:1080-1123 | each kind of queued task has its effect on promise, handler and channel |
| GracefulFinisher.Finisher.SendGracefulSessionEnd | src/ipc/session/detail/session_base.hpp:1132-1147 | the message is sent if possible; a failure is ignored |
| GracefulFinisher.Finisher.UseChannel | src/ipc/session/detail/client_session_impl.hpp:2196-2216 | other uses of the channel hose the session without telling the finisher |
| GracefulFinisher.Finisher.OnMasterChannelHosed | src/ipc/session/detail/session_base.hpp:1110-1123 | the promise is set, whether or not it was |
| GracefulFinisher.Finisher.OnDtorStart | src/ipc/session/detail/session_base.hpp:1126-1148 | the sending part is posted to W |
| GracefulFinisher.InvInRuns | src/ipc/session/detail/session_base.hpp:1090-1106 | the invariant of the two finishers |
| GracefulFinisher.SeenInRuns | src/ipc/session/detail/session_base.hpp:1080-1161 | in every run each action has, on its own side, the effect that is said in one place for all actions, and none on the other; an unguarded promise is found not set |
| GracefulFinisher.ToldHasCause | src/ipc/session/detail/session_base.hpp:1101-1123 | an error told goes back to a step of that side which brought exactly it |
| GracefulFinisher.ReturnMeansStarted | src/ipc/session/detail/session_base.hpp:536-552 | if the wait ends, the opposing destructor has started or this side saw the channel fail; the unguarded promise is never set twice; one on-error call |
| GracefulFinisher.Decreases | src/ipc/session/detail/session_base.hpp:1126-1161 | every internal step decreases a measure |
| GracefulFinisher.RunsEnd | src/ipc/session/detail/session_base.hpp:1126-1161 | at most that many internal steps follow |
| GracefulFinisher.StuckExactly | src/ipc/session/detail/session_base.hpp:1142-1160 | when nothing is left to happen, a started destructor still waits if and only if its end failed silently before the message came |
| GracefulFinisher.BothReturn | src/ipc/session/detail/session_base.hpp:545-552 | if failures surface through the on-error handler, both waits end |
| GracefulFinisher.HosedOpenWaitsForEver | src/ipc/session/detail/client_session_impl.hpp:2205-2214 | a run in which a hosed session's destructor waits for ever |
| SessionAdapter.Adapter.StartOps | src/ipc/session/sync_io/detail/session_adapter.hpp:541-585 | both waits are armed, once |
| SessionAdapter.Adapter.OnChannel | src/ipc/session/sync_io/detail/session_adapter.hpp:682-695 | the channel is queued under the lock |
| SessionAdapter.Adapter.PopUnderLock | src/ipc/session/sync_io/detail/session_adapter.hpp:594-609 | the oldest channel is taken; the queue is not empty |
| SessionAdapter.Adapter.CallHandler | src/ipc/session/sync_io/detail/session_adapter.hpp:611-613 | the user is given that channel |
| SessionAdapter.Adapter.PipeConsume | src/ipc/session/sync_io/detail/session_adapter.hpp:615-619 | one byte is there, and is consumed |
| SessionAdapter.Adapter.OnEvError | src/ipc/session/sync_io/detail/session_adapter.hpp:559-573 | the stored code is told, once |
| SessionAdapter.RefinesFifo | src/ipc/session/sync_io/detail/session_adapter.hpp:587-619 | every step is one of a queue or changes nothing seen from outside; the user has a prefix of what was pushed; the assertion holds |
| SessionAdapter.RememberedInRuns | src/ipc/session/sync_io/detail/session_adapter.hpp:653-695 | what is queued and stored is what the session's steps handed over: the channels in order, and the one error |
| SessionAdapter.GivenAndTold | src/ipc/session/sync_io/detail/session_adapter.hpp:541-619 | in every interleaving the user is given the first of the channels handed over, in order, and told of no error but the one reported |
| SessionAdapter.RunsEnd | src/ipc/session/sync_io/detail/session_adapter.hpp:612-619 | without new pushes only boundedly many steps follow |
| SessionAdapter.NothingLost | src/ipc/session/sync_io/detail/session_adapter.hpp:612-619 | when nothing more can happen, everything the session handed over has been delivered, in order, and the error told is exactly the one it reported |
| SessionAdapter.OvertakesOnlyIf | src/ipc/session/sync_io/detail/session_adapter.hpp:541-619 | a channel pushed before the error is told is delivered after it only if the queue was not empty, or a channel was in hand, when the loop took the error's byte |
| SessionAdapter.OvertakesExactly | src/ipc/session/sync_io/detail/session_adapter.hpp:541-619 | and if so, in every run that goes on until nothing is left to do |
| SessionAdapter.ErrorOvertakes | src/ipc/session/sync_io/detail/session_adapter.hpp:653-672 | a run in which a channel pushed before the error is delivered after it |
| AcceptAdapter.Adapter.AsyncAccept | src/ipc/session/sync_io/session_server_adapter.hpp:341-363 | a second accept is refused while one is pending |
| AcceptAdapter.Adapter.AcceptWrite | src/ipc/session/sync_io/session_server_adapter.hpp:402-416 | the result reported is stored, and a byte is due, unless shutting down |
| AcceptAdapter.Adapter.AcceptRead | src/ipc/session/sync_io/session_server_adapter.hpp:419-426 | the byte is consumed and the handler taken, which is there |
| AcceptAdapter.Adapter.CallHandler | src/ipc/session/sync_io/session_server_adapter.hpp:428-430 | the handler gets the result of its own accept |
| AcceptAdapter.RememberedInRuns | src/ipc/session/sync_io/session_server_adapter.hpp:402-416 | an accept has a result if and only if the core reported it in a step of the run, and it is that one |
| AcceptAdapter.OneCallEach | src/ipc/session/sync_io/session_server_adapter.hpp:341-430 | one accept pending, one byte, and handlers in order, each once; the result each is given is that of the one step in which the core reported its accept |
| AcceptAdapter.RunsEnd | src/ipc/session/sync_io/session_server_adapter.hpp:402-430 | after a report only boundedly many steps follow by themselves |
| AcceptAdapter.NoneForgotten | src/ipc/session/sync_io/session_server_adapter.hpp:341-430 | then every accept has had its call with the result reported, is with the core, or was aborted by its report |
| SessionServer.Server.AsyncAccept | src/ipc/session/detail/session_server_impl.hpp:758-788 | the first stage is started |
| SessionServer.Server.OnSocket | src/ipc/session/detail/session_server_impl.hpp:796-839 | an error is reported; a socket makes a session, held by the handler |
| SessionServer.Server.InsertIncomplete | src/ipc/session/detail/session_server_impl.hpp:840-919 | the incomplete set is an owner before the log-in starts |
| SessionServer.Server.ReturnFromAccept | src/ipc/session/detail/session_server_impl.hpp:831-982 | the accept handler's variable lets go when it returns |
| SessionServer.Server.CliNamespace | src/ipc/session/detail/session_server_impl.hpp:856-860 | the next namespace, in 64 bits |
| SessionServer.Server.LockSession | src/ipc/session/detail/session_server_impl.hpp:917-918 | the handler's variable becomes an owner, if there still is one |
| SessionServer.Server.EraseIncomplete | src/ipc/session/detail/session_server_impl.hpp:918-929 | the session is found in the incomplete set and leaves it, with the handler's variable still an owner |
| SessionServer.Server.HandOverSession | src/ipc/session/detail/session_server_impl.hpp:931-977 | a failed session goes to a task of the graveyard thread, a good one into the target |
| SessionServer.Server.RunGraveyardTask | src/ipc/session/detail/session_server_impl.hpp:938-944 | the task lets go of its session |
| SessionServer.Server.FinishLogIn | src/ipc/session/detail/session_server_impl.hpp:958-981 | the user's handler gets the result |
| SessionServer.Server.Shutdown | src/ipc/session/detail/session_server_impl.hpp:727-753 | every pending handler is run with the shutdown code, and every owner but the users lets go |
| SessionServer.Server.DropGraveyard | src/ipc/session/detail/session_server_impl.hpp:369-411 | what is left in the graveyard's queue lets go of its sessions |
| SessionServer.Server.AbortListening | src/ipc/session/detail/session_server_impl.hpp:798-822 | every accept in its first stage is aborted |
| SessionServer.Server.DestroyIncomplete | src/ipc/session/detail/session_server_impl.hpp:369-411 | the incomplete set lets go of its sessions, and their accepts are aborted |
| SessionServer.InvInRuns | src/ipc/session/detail/session_server_impl.hpp:369-395 | the invariant of the session server: among others, who owns each session at each stage |
| SessionServer.HandlersOnce | src/ipc/session/detail/session_server_impl.hpp:727-980 | each handler at most once, and once after the destructor; after success the session is the user's until dropped, after failure never; the incomplete set is exact, so erasing succeeds |
| SessionServer.CallsStayInRuns | src/ipc/session/detail/session_server_impl.hpp:796-980 | what a handler was called with stays |
| SessionServer.CalledWithResult | src/ipc/session/detail/session_server_impl.hpp:796-980 | what a handler is called with goes back to a step: the error of its socket, the result of its log-in, or the shutdown code |
| SessionServer.ReleasedWithLastOwner | src/ipc/session/detail/session_server_impl.hpp:111-135 | a session is released exactly in the step that takes away its last owner, on the thread of that step, and for good |
| SessionServer.SessionFound | src/ipc/session/detail/session_server_impl.hpp:867-918 | both weak pointers find their session, in the set-up hook and in the log-in handler |
| SessionServer.HandedOver | src/ipc/session/detail/session_server_impl.hpp:931-945 | the log-in handler holds the session when it hands it over; afterwards the graveyard task does, or the user, and the handler does not |
| SessionServer.FailedNotOnOwnWorker | src/ipc/session/detail/session_server_impl.hpp:931-945 | no step of a session's worker thread takes away its last owner, and no session is ever released there |
| SessionServer.ReleasedExactly | src/ipc/session/detail/session_server_impl.hpp:716-723 | with the graveyard thread caught up, a failed session is released before shutdown if and only if the constructor was given a place for an error code |
| SessionServer.NeverReleased | src/ipc/session/detail/session_server_impl.hpp:716-723 | a run at rest with a failed session that is never released |
| SessionServer.ReleasedByAcceptor | src/ipc/session/detail/session_server_impl.hpp:831-945 | a run in which the accept handler is the last to let go |
| SessionServer.AllReleased | src/ipc/session/detail/session_server_impl.hpp:727-753 | after the destructor no failed or aborted session has an owner left, and any other is the user's |
| SessionServer.NamesDistinctExactly | src/ipc/session/detail/session_server_impl.hpp:856-860 | client namespaces differ if and only if the 64-bit counter has not gone round |
| SharedNames.Decompose1IsMatch | src/ipc/session/detail/session_shared_name.cpp:114-151 | decomposition finds exactly the captures of the regular expression, in the one way it matches |
| SharedNames.Decompose2IsMatch | src/ipc/session/detail/session_shared_name.cpp:183-211 | the same for the other overload |
| SharedNames.RoundTrip1 | src/ipc/session/detail/session_shared_name.hpp:100-115 | decomposing what the builder made, with a separator and anything on one line after it, gives the components back |
| SharedNames.RoundTrip2 | src/ipc/session/detail/session_shared_name.hpp:143-158 | the same for the other overload |
| SharedNames.Rebuild1 | src/ipc/session/detail/session_shared_name.hpp:105-109 | a decomposed name is rebuilt from its components |
| SharedNames.Rebuild2 | src/ipc/session/detail/session_shared_name.hpp:148-152 | the same for the other overload |
| SharedNames.AcceptedExactly | src/ipc/session/detail/session_shared_name.hpp:136-136 | every built name is decomposed; "decomposed if and only if built" fails exactly for names whose match has the sentinel as an application and not as server namespace |
| SharedNames.AcceptsSentinelApp | src/ipc/session/detail/session_shared_name.cpp:145-151 | a name with a sentinel client application is decomposed |
| SharedNames.OneIsNotTwo | src/ipc/session/detail/session_shared_name.cpp:194-211 | overload 2 refuses every name the other builder made |
| SharedNames.TwoIsOneExactly | src/ipc/session/detail/session_shared_name.cpp:127-151 | when overload 1 decomposes a name the other builder made |
| SharedNames.PrefixExact | src/ipc/session/detail/session_shared_name.cpp:93-112 | the prefix begins a built name if and only if resource type and server application agree |
| Decimals.ValueOf | src/ipc/session/detail/client_session_impl.hpp:1318-1335 | a printed number parses to itself |
| Decimals.Injective | src/ipc/session/detail/server_session_impl.hpp:1566-1566 | different numbers print differently |
| MqAllocation.Allocator.MakeChannelMqs | src/ipc/session/detail/server_session_impl.hpp:1506-1597 | two queues are made, or none; the id is taken back on failure |
| MqAllocation.Allocator.CreateChannelAndResources | src/ipc/session/detail/server_session_impl.hpp:1363-1503 | a channel's resources are made as configured; a later failure removes the queues |
| MqAllocation.AllOrNothing | src/ipc/session/detail/server_session_impl.hpp:1432-1478 | a failure leaves the kernel's names as they were; success adds exactly two new ones |
| MqAllocation.HandleLeftExactly | src/ipc/session/detail/server_session_impl.hpp:1027-1033 | the assertion that a failure leaves no handle fails exactly if only the channel object could not be made |
| MqAllocation.HandleLeft | src/ipc/session/detail/server_session_impl.hpp:1448-1478 | a run of one allocation that reaches the failing assertion |
| MqAllocation.IdsIncrease | src/ipc/session/detail/server_session_impl.hpp:1554-1592 | ids of a session's channels strictly increase, despite failures, below overflow |
| MqAllocation.MqNameInjective | src/ipc/session/detail/server_session_impl.hpp:1556-1568 | a queue's name determines applications, namespaces, direction and id |
| MqAllocation.CleanUpExact | src/ipc/session/detail/session_server_impl.hpp:498-507 | the start-up clean-up reaches a queue if and only if it is of that server application |
| GlobalNames.QueuesApart | src/ipc/session/detail/session_server_impl.hpp:856-860 | all queues a process has made, over all its sessions and channels, have different names, until the namespace counter or the id of a session, which failures use up too, has gone round |
| GlobalNames.QueuesExist | src/ipc/session/detail/server_session_impl.hpp:1554-1596 | a queue exists until it is itself removed: no other channel's creation, failure or removal takes it away |
| GlobalNames.OwnNotInTheWay | src/ipc/session/detail/server_session_impl.hpp:1554-1596 | a creation never meets a name of its own process; it fails if and only if a system call it needs fails, or another process has made one of its two names |
| GlobalNames.IdsAgree | src/ipc/session/detail/server_session_impl.hpp:1432-1592 | the id a session goes on from is the one its allocation leaves, also after a late failure, and other sessions keep theirs |
| GlobalNames.LateFailureKeepsId | src/ipc/session/detail/server_session_impl.hpp:1432-1478 | a failure after the queues were made leaves nothing behind but a used id |
| NamespaceStore.Store.WriteNamespace | src/ipc/session/detail/session_server_impl.hpp:638-696 | opening empties the file; the line is written character by character |
| NamespaceStore.Store.ReadNamespace | src/ipc/session/detail/client_session_impl.hpp:1274-1338 | the first full line, parsed and printed again, or an error |
| NamespaceStore.PidRoundTrip | src/ipc/session/detail/client_session_impl.hpp:1318-1335 | a printed process id parses to itself |
| NamespaceStore.ParsedExactly | src/ipc/session/detail/client_session_impl.hpp:1318-1335 | a text is a process id if and only if it is digits, perhaps after a sign, of a number in range, and it is that number |
| NamespaceStore.ReadsExactly | src/ipc/session/detail/client_session_impl.hpp:1274-1338 | whatever is in the file: a namespace is read if and only if the first line is complete and is a process id, and is it printed; otherwise the error of the file or of its format |
| NamespaceStore.ReadExactly | src/ipc/session/detail/client_session_impl.hpp:1291-1335 | a part of a line is read only if it is all of it |
| NamespaceStore.Rendezvous | src/ipc/session/detail/session_server_impl.hpp:638-714 | a client that parses a process id computes the acceptor name of the server that last opened the file, and parses one exactly if the whole line was written |
| NamespaceStore.AcceptorsApart | src/ipc/session/detail/session_base.hpp:999-1016 | equal acceptor names belong to the same process and application |

## Left out

- `struc::Channel`, sockets, message queues and file descriptors themselves; a channel end is the pair of pipes it writes
  and reads, and a queue is its name.
- Metadata payloads and serialisation.
- Wall-clock time: a timeout is a step that may happen at any time while W waits.  No progress is claimed for
  `open_channel()`, whose crossing calls block both worker threads until they time out.
- A failing `create_channel_obj()` on the client, where the source aborts.
- `session_token()`, whose server form has a path without a return statement; and the movable wrapper classes.
- `sync_connect()`, which waits for the handler that `async_connect()` runs.
- Use of a metadata builder twice, or from another session, which the documentation leaves undefined; here a used one has
  no resources.
- Protocol negotiation beyond the rule that both sides speak version 1 only.
- In `SessionProtocol` the client has no sub-class that cancels the PEER state; `ClientRuns` has it.
- The SHM sub-classes; of what they add, the finisher and the cancelling of the PEER state are here.  `GracefulFinisher`
  itself starts with both sides in PEER.
- The pieces of the session server's destruction that run side by side with a handler: it is one step, taken while no
  accept or log-in handler is half-way.  The reference that the set-up hook holds while it runs, under the incomplete set's.
- That the owners of a session are told apart by name; the source has one reference count.
- In `GlobalNames`, a process that removes the queues of another that is still running.
- Ownership checks, permissions, the named mutex itself, and a namespace file that no server of the run has opened.
- Replacing the event-wait handles of the adapters, and shutting the adapters down.
- SharedNames.PrefixExact: for components without a separator, as the naming convention of applications demands.
- SessionProtocol.InvInRuns: after a new attempt the server session of the earlier one goes on alone, as in `ServerRuns`;
  in `ManySessions` its accept and its namespace stay.
