/** `Session_base::Graceful_finisher`: the destructor of a session in PEER state waits until the opposing session's
    destructor has started too, or the master channel is known to have failed.

    Two sides, each with its thread W (a queue of tasks) and its thread U (the destructor), joined by the master channel.
    `GracefulSessionEnd` is sent and received at most once in each direction. */
module GracefulFinisher {
  import opened MasterChannel

  datatype Task =
    | EndTask               // GracefulSessionEnd was received
    | ErrorTask(e: Error)   // the channel failed
    | SendTask              // posted by `on_dtor_start()`
    | WorkTask              // any other use of the channel by W: `open_channel()`, or a response to an open request

  /** Where the destructor is. */
  datatype Dtor = NotStarted | Posted | Waiting | Returned

  /** `done`: the promise is set.  `twice`: an unguarded `set_value()` found it set.  `silent`: the channel failed in a
      `send()` or wait of W, so that no on-error report of the channel follows.  `told`: the on-error handler's runs. */
  datatype Side = Side(
    up: bool,
    sent: bool,
    recv: bool,
    queue: seq<Task>,
    done: bool,
    dtor: Dtor,
    told: seq<Error>,
    silent: bool,
    twice: bool)

  const INITIAL := Side(true, false, false, [], false, NotStarted, [], false, false)

  function Hose(s: Side, e: Error): Side {
    if s.told == [] then s.(told := [e]) else s
  }

  /** The channel fails and reports it to its on-error handler. */
  function FailAsync(s: Side, e: Error): Side {
    s.(up := false, queue := s.queue + [ErrorTask(e)])
  }

  /** The handler posted by the constructor's `expect_msg()`. */
  function OnEnd(s: Side): Side {
    Hose(s.(done := true, twice := s.twice || s.done), SessionFinished)
  }

  /** The session's channel error handler, with `on_master_channel_hosed()`. */
  function OnError(s: Side, e: Error): Side {
    Hose(s, e).(done := true)
  }

  /** The part of `on_dtor_start()` that runs on W: whatever the result of `send()`, it is ignored. */
  function SendEnd(s: Side, op: SendOp): Side {
    var s1 := s.(dtor := Waiting);
    if !s.up then s1
    else match op
      case SendOk => s1.(sent := true)
      case SendFails(_) => s1.(up := false, silent := true)
      case SendLate(e) => FailAsync(s1, e)
  }

  /** Other work on the channel: a failure is told to the user, but not to the finisher. */
  function Work(s: Side, op: SendOp): Side {
    if s.told != [] || !s.up then s
    else match op
      case SendOk => s
      case SendFails(e) => Hose(s.(up := false, silent := true), e)
      case SendLate(e) => FailAsync(s, e)
  }

  function RunTask(s: Side, op: SendOp): Side
    requires s.queue != []
  {
    var s1 := s.(queue := s.queue[1..]);
    match s.queue[0]
    case EndTask => OnEnd(s1)
    case ErrorTask(e) => OnError(s1, e)
    case SendTask => SendEnd(s1, op)
    case WorkTask => Work(s1, op)
  }

  function StartDtor(s: Side): Side {
    s.(dtor := Posted, queue := s.queue + [SendTask])
  }

  // ----- Two sides -----

  /** The two sides, as seen from one of them. */
  datatype World = World(me: Side, other: Side)

  function Swap(w: World): World {
    World(w.other, w.me)
  }

  /** `Fails`: this side's end fails in the background, by itself or because the other end is dead. */
  datatype Action = Run(op: SendOp) | Deliver | Fails(e: Error) | Return | Start | Post

  /** Each action is by one of the two sides. */
  datatype Step = Step(mine: bool, act: Action)

  predicate CanAct(w: World, a: Action) {
    match a
    case Run(_) => w.me.queue != []
    case Deliver => w.me.up && w.other.sent && !w.me.recv
    case Fails(_) => w.me.up
    case Return => w.me.dtor == Waiting && w.me.done
    case Start => w.me.dtor == NotStarted
    case Post => true
  }

  function Act(w: World, a: Action): World
    requires CanAct(w, a)
  {
    w.(me := match a
             case Run(op) => RunTask(w.me, op)
             case Deliver => w.me.(recv := true, queue := w.me.queue + [EndTask])
             case Fails(e) => FailAsync(w.me, e)
             case Return => w.me.(dtor := Returned)
             case Start => StartDtor(w.me)
             case Post => w.me.(queue := w.me.queue + [WorkTask]))
  }

  predicate Enabled(w: World, t: Step) {
    CanAct(if t.mine then w else Swap(w), t.act)
  }

  function Next(w: World, t: Step): World
    requires Enabled(w, t)
  {
    if t.mine then Act(w, t.act) else Swap(Act(Swap(w), t.act))
  }

  ghost predicate IsRun(states: seq<World>, steps: seq<Step>) {
    && |states| == |steps| + 1
    && forall i :: 0 <= i < |steps| ==> Enabled(states[i], steps[i]) && states[i + 1] == Next(states[i], steps[i])
  }

  ghost predicate FromStart(states: seq<World>, steps: seq<Step>) {
    IsRun(states, steps) && states[0] == World(INITIAL, INITIAL)
  }

  // ----- Safety -----

  ghost predicate HasError(q: seq<Task>) {
    exists i :: 0 <= i < |q| && q[i].ErrorTask?
  }

  /** The end message is handled before the channel's error, each is handled once, and the promise records that. */
  ghost predicate QueueOk(s: Side) {
    && (EndTask in s.queue ==> s.recv && !s.done)
    && (forall i, j :: 0 <= i < j < |s.queue| && s.queue[j] == EndTask ==>
          s.queue[i] != EndTask && !s.queue[i].ErrorTask?)
    && (forall i :: 0 <= i < |s.queue| && s.queue[i].ErrorTask? ==> !s.up && !s.silent)
    && (SendTask in s.queue <==> s.dtor == Posted)
    && (forall i, j :: 0 <= i < j < |s.queue| && s.queue[j] == SendTask ==> s.queue[i] != SendTask)
  }

  ghost predicate SideOk(s: Side, other: Side) {
    && QueueOk(s)
    && !s.twice
    && |s.told| <= 1
    && (s.recv ==> other.sent)
    && (s.sent ==> s.dtor == Waiting || s.dtor == Returned)
    && (s.done ==> s.recv || (!s.up && !s.silent))
    && (s.up && (s.dtor == Waiting || s.dtor == Returned) ==> s.sent)
    && (s.dtor == Returned ==> s.done)
    && (s.silent ==> !s.up)
    && (s.recv ==> s.done || EndTask in s.queue)
    && (!s.up && !s.silent ==> s.done || HasError(s.queue))
  }

  ghost predicate Inv(w: World) {
    SideOk(w.me, w.other) && SideOk(w.other, w.me)
  }

  /** The head of the queue is taken. */
  lemma Taken(s: Side)
    requires QueueOk(s) && s.queue != []
    ensures var q := s.queue[1..];
            && (EndTask in q ==> s.queue[0] != EndTask && !s.queue[0].ErrorTask? && EndTask in s.queue)
            && (s.queue[0] != EndTask && EndTask in s.queue ==> EndTask in q)
            && (forall i, j :: 0 <= i < j < |q| && q[j] == EndTask ==> q[i] != EndTask && !q[i].ErrorTask?)
            && (forall i :: 0 <= i < |q| && q[i].ErrorTask? ==> !s.up && !s.silent)
            && (SendTask in q <==> s.dtor == Posted && s.queue[0] != SendTask)
            && (forall i, j :: 0 <= i < j < |q| && q[j] == SendTask ==> q[i] != SendTask)
            && (HasError(s.queue) && !s.queue[0].ErrorTask? ==> HasError(q))
  {
    hide HasError;
    assert s.queue == [s.queue[0]] + s.queue[1..];
    ErrorLeft(s.queue);
  }

  lemma ErrorLeft(q: seq<Task>)
    requires q != []
    ensures HasError(q) && !q[0].ErrorTask? ==> HasError(q[1..])
  {
    if HasError(q) && !q[0].ErrorTask? {
      var i :| 0 <= i < |q| && q[i].ErrorTask?;
      assert q[1..][i - 1].ErrorTask?;
    }
  }

  /** A task is posted. */
  lemma PostedOk(s: Side, t: Task)
    requires QueueOk(s)
    requires t == EndTask ==> s.recv && !s.done && s.up && EndTask !in s.queue
    requires t.ErrorTask? ==> !s.up && !s.silent
    requires t == SendTask ==> s.dtor != Posted
    ensures QueueOk(s.(queue := s.queue + [t], dtor := if t == SendTask then Posted else s.dtor))
    ensures HasError(s.queue) || t.ErrorTask? ==> HasError(s.queue + [t])
  {
    var q := s.queue + [t];
    assert q[|s.queue|] == t;
    if HasError(s.queue) {
      var i :| 0 <= i < |s.queue| && s.queue[i].ErrorTask?;
      assert q[i].ErrorTask?;
    }
  }

  lemma FailAsyncOk(s: Side, other: Side, e: Error)
    requires SideOk(s, other) && s.up
    ensures SideOk(FailAsync(s, e), other)
  {
    hide QueueOk, HasError;
    PostedOk(s.(up := false), ErrorTask(e)) by { DownOk(s, false); }
    assert EndTask in s.queue + [ErrorTask(e)] <==> EndTask in s.queue;
  }

  lemma DownOk(s: Side, silent: bool)
    requires QueueOk(s) && s.up
    ensures QueueOk(s.(up := false, silent := silent)) && (s.silent == silent ==> QueueOk(s.(up := false)))
  {
  }

  lemma InvEnd(s: Side, other: Side)
    requires SideOk(s, other) && s.queue != [] && s.queue[0] == EndTask
    ensures SideOk(OnEnd(s.(queue := s.queue[1..])), other)
  {
    Taken(s);
  }

  lemma InvError(s: Side, other: Side, e: Error)
    requires SideOk(s, other) && s.queue != [] && s.queue[0] == ErrorTask(e)
    ensures SideOk(OnError(s.(queue := s.queue[1..]), e), other)
  {
    Taken(s);
  }

  /** Other than for the `send()`, which is to come. */
  lemma InvPopped(s: Side, other: Side)
    requires SideOk(s, other) && s.queue != [] && (s.queue[0] == SendTask || s.queue[0] == WorkTask)
    ensures var s1 := s.(queue := s.queue[1..]);
            if s.queue[0] == WorkTask then SideOk(s1, other)
            else if s.up then SideOk(s1.(dtor := Waiting, sent := true), other) else SideOk(s1.(dtor := Waiting), other)
  {
    hide HasError;
    Taken(s);
  }

  lemma InvSilent(s: Side, other: Side, e: Error)
    requires SideOk(s, other) && s.up
    ensures SideOk(s.(up := false, silent := true), other) && SideOk(Hose(s.(up := false, silent := true), e), other)
  {
    hide HasError;
  }

  lemma InvRun(s: Side, other: Side, op: SendOp)
    requires SideOk(s, other) && s.queue != []
    ensures SideOk(RunTask(s, op), other)
  {
    hide SideOk, SendEnd, Work;
    match s.queue[0]
    case EndTask => InvEnd(s, other);
    case ErrorTask(e) => InvError(s, other, e);
    case SendTask => InvSendTask(s, other, op);
    case WorkTask => InvWorkTask(s, other, op);
  }

  lemma InvWorkTask(s: Side, other: Side, op: SendOp)
    requires SideOk(s, other) && s.queue != [] && s.queue[0] == WorkTask
    ensures SideOk(Work(s.(queue := s.queue[1..]), op), other)
  {
    hide SideOk;
    InvPopped(s, other);
    if s.up {
      match op
      case SendOk =>
      case SendFails(e) => InvSilent(s.(queue := s.queue[1..]), other, e);
      case SendLate(e) => FailAsyncOk(s.(queue := s.queue[1..]), other, e);
    }
  }

  lemma InvSendTask(s: Side, other: Side, op: SendOp)
    requires SideOk(s, other) && s.queue != [] && s.queue[0] == SendTask
    ensures SideOk(SendEnd(s.(queue := s.queue[1..]), op), other)
  {
    hide SideOk;
    InvPopped(s, other);
    if s.up {
      var s2 := s.(queue := s.queue[1..], dtor := Waiting, sent := true);
      match op
      case SendOk =>
      case SendFails(e) =>
        InvSilent(s2, other, e);
        NotSent(s2.(up := false, silent := true), other, s.sent, true);
      case SendLate(e) =>
        FailAsyncOk(s2, other, e);
        NotSent(FailAsync(s2, e), other, s.sent, true);
    }
  }

  lemma NotSent(s: Side, other: Side, sent: bool, given: bool)
    requires (given ==> SideOk(s, other)) && !s.up && (sent ==> s.sent)
    ensures given ==> SideOk(s.(sent := sent), other)
  {
  }

  lemma InvPost(s: Side, other: Side, t: Task)
    requires SideOk(s, other)
    requires t == WorkTask || (t == SendTask && s.dtor == NotStarted)
    ensures SideOk(s.(queue := s.queue + [t], dtor := if t == SendTask then Posted else s.dtor), other)
  {
    hide QueueOk, HasError;
    PostedOk(s, t);
    assert EndTask in s.queue + [t] <==> EndTask in s.queue;
  }

  lemma InvDeliver(s: Side, other: Side)
    requires SideOk(s, other) && s.up && other.sent && !s.recv
    ensures SideOk(s.(recv := true, queue := s.queue + [EndTask]), other)
  {
    hide HasError;
    PostedOk(s.(recv := true), EndTask);
  }

  lemma InvAct(w: World, a: Action)
    requires Inv(w) && CanAct(w, a)
    ensures Inv(Act(w, a))
  {
    hide SideOk, RunTask;
    match a
    case Run(op) => InvRun(w.me, w.other, op); RunDecreases(w.me, op); OtherSees(w, RunTask(w.me, op));
    case Deliver => InvDeliver(w.me, w.other); OtherSees(w, Act(w, a).me);
    case Fails(e) => FailAsyncOk(w.me, w.other, e); OtherSees(w, Act(w, a).me);
    case Return => InvReturn(w.me, w.other); OtherSees(w, Act(w, a).me);
    case Start => InvPost(w.me, w.other, SendTask); OtherSees(w, Act(w, a).me);
    case Post => InvPost(w.me, w.other, WorkTask); OtherSees(w, Act(w, a).me);
  }

  lemma InvReturn(s: Side, other: Side)
    requires SideOk(s, other) && s.dtor == Waiting && s.done
    ensures SideOk(s.(dtor := Returned), other)
  {
  }

  /** What the other side knows of this one only grows. */
  lemma OtherSees(w: World, me: Side)
    requires SideOk(w.other, w.me)
    ensures (w.me.sent ==> me.sent) ==> SideOk(w.other, me)
  {
  }

  lemma {:induction false} InvInRuns(states: seq<World>, steps: seq<Step>, i: nat)
    requires FromStart(states, steps) && i < |states|
    ensures Inv(states[i])
  {
    hide SideOk, Act;
    if i > 0 {
      InvInRuns(states, steps, i - 1);
      var t := steps[i - 1];
      InvAct(if t.mine then states[i - 1] else Swap(states[i - 1]), t.act);
    } else {
      assert SideOk(INITIAL, INITIAL) by { InitialOk(); }
    }
  }

  lemma InitialOk()
    ensures SideOk(INITIAL, INITIAL)
  {
  }

  /** If the wait ends on one side, the opposing destructor has started or this side has seen the channel fail.  No
      promise is set twice, and the on-error handler runs at most once. */
  lemma {:induction false} ReturnMeansStarted(states: seq<World>, steps: seq<Step>, i: nat)
    requires FromStart(states, steps) && i < |states|
    ensures var w := states[i];
            && (w.me.dtor == Returned ==> w.other.dtor != NotStarted || !w.me.up)
            && (w.other.dtor == Returned ==> w.me.dtor != NotStarted || !w.other.up)
            && !w.me.twice && !w.other.twice && |w.me.told| <= 1 && |w.other.told| <= 1
  {
    InvInRuns(states, steps, i);
  }

  // ----- What a side is told, and does -----

  /** W uses the channel: for the end message, or in a session not hosed. */
  predicate Uses(s: Side) {
    s.up && s.queue != [] && (s.queue[0] == SendTask || (s.queue[0] == WorkTask && s.told == []))
  }

  /** The on-error handler's execution in an action, if it has not run before. */
  function Tells(s: Side, a: Action): seq<Error> {
    if s.told != [] || !a.Run? || s.queue == [] then []
    else match s.queue[0]
      case EndTask => [SessionFinished]
      case ErrorTask(e) => [e]
      case WorkTask => if s.up && a.op.SendFails? then [a.op.e] else []
      case SendTask => []
  }

  function Posts(s: Side, a: Action): seq<Task> {
    match a
    case Run(op) => if Uses(s) && op.SendLate? then [ErrorTask(op.e)] else []
    case Deliver => [EndTask]
    case Fails(e) => [ErrorTask(e)]
    case Start => [SendTask]
    case Post => [WorkTask]
    case Return => []
  }

  /** What an action does to the side that takes it. */
  ghost predicate SideSeen(s: Side, a: Action, s': Side) {
    && s'.told == s.told + Tells(s, a)
    && s'.queue == (if a.Run? && s.queue != [] then s.queue[1..] else s.queue) + Posts(s, a)
    && (s'.up <==> s.up && !a.Fails? && !(a.Run? && Uses(s) && !a.op.SendOk?))
    && (s'.sent <==> s.sent || (a.Run? && Uses(s) && s.queue[0] == SendTask && a.op.SendOk?))
    && (s'.recv <==> s.recv || a.Deliver?)
    && (s'.done <==> s.done || (a.Run? && s.queue != [] && (s.queue[0] == EndTask || s.queue[0].ErrorTask?)))
    && s'.dtor == (match a
                   case Start => Posted
                   case Return => Returned
                   case Run(_) => if s.queue != [] && s.queue[0] == SendTask then Waiting else s.dtor
                   case _ => s.dtor)
  }

  lemma ActSeen(w: World, a: Action)
    requires CanAct(w, a)
    ensures SideSeen(w.me, a, Act(w, a).me) && Act(w, a).other == w.other
  {
    hide RunTask;
    if a.Run? {
      TaskSeen(w.me, a.op);
    }
  }

  lemma TaskSeen(s: Side, op: SendOp)
    requires s.queue != []
    ensures SideSeen(s, Run(op), RunTask(s, op))
  {
    hide SideSeen, SendEnd, Work;
    match s.queue[0]
    case SendTask => SendSeen(s, op);
    case WorkTask => WorkSeen(s, op);
    case EndTask => EndSeen(s, op);
    case ErrorTask(e) => ErrorSeen(s, e, op);
  }

  lemma SendSeen(s: Side, op: SendOp)
    requires s.queue != [] && s.queue[0] == SendTask
    ensures SideSeen(s, Run(op), SendEnd(s.(queue := s.queue[1..]), op))
  {
  }

  lemma WorkSeen(s: Side, op: SendOp)
    requires s.queue != [] && s.queue[0] == WorkTask
    ensures SideSeen(s, Run(op), Work(s.(queue := s.queue[1..]), op))
  {
  }

  lemma EndSeen(s: Side, op: SendOp)
    requires s.queue != [] && s.queue[0] == EndTask
    ensures SideSeen(s, Run(op), OnEnd(s.(queue := s.queue[1..])))
  {
  }

  lemma ErrorSeen(s: Side, e: Error, op: SendOp)
    requires s.queue != [] && s.queue[0] == ErrorTask(e)
    ensures SideSeen(s, Run(op), OnError(s.(queue := s.queue[1..]), e))
  {
  }

  ghost function Mine(w: World, t: Step): World {
    if t.mine then w else Swap(w)
  }

  /** In every run an action does that to its side, and nothing to the other; and a promise set without a guard was not
      set before. */
  lemma {:induction false} SeenInRuns(states: seq<World>, steps: seq<Step>, i: nat)
    requires FromStart(states, steps) && i < |steps|
    ensures var w, w' := Mine(states[i], steps[i]), Mine(states[i + 1], steps[i]);
            && SideSeen(w.me, steps[i].act, w'.me) && w'.other == w.other
            && (steps[i].act.Run? && w.me.queue != [] && w.me.queue[0] == EndTask ==> !w.me.done)
  {
    hide SideSeen, SideOk;
    InvInRuns(states, steps, i);
    ActSeen(Mine(states[i], steps[i]), steps[i].act);
    UnsetAtEnd(Mine(states[i], steps[i]));
  }

  lemma UnsetAtEnd(w: World)
    requires SideOk(w.me, w.other)
    ensures w.me.queue != [] && w.me.queue[0] == EndTask ==> !w.me.done
  {
  }

  /** An error comes from an action of the side itself: the channel's end fails with it, in the background or in a use; or
      the end message is received. */
  ghost predicate Brings(t: Step, e: Error) {
    || t.act == Fails(e)
    || (t.act.Run? && (t.act.op == SendFails(e) || t.act.op == SendLate(e)))
    || (t.act.Deliver? && e == SessionFinished)
  }

  /** Whatever this side's on-error handler is called with, or is to be, one of its actions has brought. */
  ghost predicate Traced(steps: seq<Step>, i: nat, mine: bool, s: Side)
    requires i <= |steps|
  {
    && (forall e | e in s.told :: exists j :: 0 <= j < i && steps[j].mine == mine && Brings(steps[j], e))
    && (forall t | t in s.queue && t.ErrorTask? ::
          exists j :: 0 <= j < i && steps[j].mine == mine && Brings(steps[j], t.e))
    && (EndTask in s.queue ==> exists j :: 0 <= j < i && steps[j].mine == mine && steps[j].act.Deliver?)
  }

  lemma TracedStep(steps: seq<Step>, i: nat, s: Side, s': Side)
    requires i < |steps| && Traced(steps, i, steps[i].mine, s) && SideSeen(s, steps[i].act, s')
    requires steps[i].act.Run? ==> s.queue != []
    ensures Traced(steps, i + 1, steps[i].mine, s')
  {
    assert forall t | t in s'.queue :: t in s.queue || t in Posts(s, steps[i].act);
    assert forall e | e in s'.told :: e in s.told || e in Tells(s, steps[i].act);
    assert s.queue != [] ==> s.queue[0] in s.queue;
    forall e | e in s'.told
      ensures exists j :: 0 <= j < i + 1 && steps[j].mine == steps[i].mine && Brings(steps[j], e)
    {
      if e in s.told {
        var j :| 0 <= j < i && steps[j].mine == steps[i].mine && Brings(steps[j], e);
      } else if s.queue[0] == EndTask {
        var j :| 0 <= j < i && steps[j].mine == steps[i].mine && steps[j].act.Deliver?;
        assert Brings(steps[j], e);
      } else if s.queue[0].ErrorTask? {
        var j :| 0 <= j < i && steps[j].mine == steps[i].mine && Brings(steps[j], s.queue[0].e);
      } else {
        assert Brings(steps[i], e);
      }
    }
    forall t | t in s'.queue && t.ErrorTask?
      ensures exists j :: 0 <= j < i + 1 && steps[j].mine == steps[i].mine && Brings(steps[j], t.e)
    {
      if t in s.queue {
        var j :| 0 <= j < i && steps[j].mine == steps[i].mine && Brings(steps[j], t.e);
      } else {
        assert Brings(steps[i], t.e);
      }
    }
    if EndTask in s'.queue && EndTask !in s.queue {
      assert steps[i].act.Deliver?;
    }
  }

  lemma TracedStays(steps: seq<Step>, i: nat, mine: bool, s: Side)
    requires i < |steps| && Traced(steps, i, mine, s)
    ensures Traced(steps, i + 1, mine, s)
  {
  }

  lemma {:induction false} ToldHasCause(states: seq<World>, steps: seq<Step>, i: nat)
    requires FromStart(states, steps) && i < |states|
    ensures Traced(steps, i, true, states[i].me) && Traced(steps, i, false, states[i].other)
  {
    hide Traced, SideSeen, Next;
    if i == 0 {
      TracedFirst(steps);
    } else {
      ToldHasCause(states, steps, i - 1);
      SeenInRuns(states, steps, i - 1);
      var w, w' := Mine(states[i - 1], steps[i - 1]), Mine(states[i], steps[i - 1]);
      TracedStep(steps, i - 1, w.me, w'.me);
      TracedStays(steps, i - 1, !steps[i - 1].mine, w.other);
    }
  }

  lemma TracedFirst(steps: seq<Step>)
    ensures Traced(steps, 0, true, INITIAL) && Traced(steps, 0, false, INITIAL)
  {
  }

  // ----- Progress -----

  function QueueWeight(q: seq<Task>): nat {
    if q == [] then 0 else (if q[0] == SendTask then 4 else 1) + QueueWeight(q[1..])
  }

  function Weight(s: Side, other: Side): nat {
    Share(s) + (if other.sent && !s.recv then 2 else 0)
  }

  function Measure(w: World): nat {
    Weight(w.me, w.other) + Weight(w.other, w.me)
  }

  /** Everything but the user's own doing. */
  predicate Internal(a: Action) {
    !a.Start? && !a.Post?
  }

  lemma {:induction false} WeightAppend(q: seq<Task>, t: Task)
    ensures QueueWeight(q + [t]) == QueueWeight(q) + if t == SendTask then 4 else 1
  {
    if q == [] {
      assert QueueWeight([t]) == if t == SendTask then 4 else 1;
    } else {
      WeightAppend(q[1..], t);
      assert (q + [t])[1..] == q[1..] + [t];
    }
  }

  /** One side's share, with what it may still send to the other. */
  function Share(s: Side): nat {
    QueueWeight(s.queue) + (if s.up then 2 else 0) + (if s.dtor == Returned then 0 else 1)
  }

  lemma RunDecreases(s: Side, op: SendOp)
    requires s.queue != []
    ensures var s' := RunTask(s, op);
            && Share(s') + (if s'.sent && !s.sent then 2 else 0) < Share(s)
            && (s.sent ==> s'.sent) && s'.recv == s.recv
  {
    hide QueueWeight, SendEnd, Work, OnEnd, OnError;
    var s1 := s.(queue := s.queue[1..]);
    WeightTail(s.queue);
    if s.queue[0] == SendTask || s.queue[0] == WorkTask {
      UseDecreases(s1, op);
    } else {
      SetDecreases(s1, if s.queue[0] == EndTask then SessionFinished else s.queue[0].e);
    }
  }

  lemma SetDecreases(s: Side, e: Error)
    ensures Share(OnEnd(s)) == Share(OnError(s, e)) == Share(s)
    ensures OnEnd(s).sent == OnError(s, e).sent == s.sent && OnEnd(s).recv == OnError(s, e).recv == s.recv
  {
  }

  lemma UseDecreases(s: Side, op: SendOp)
    ensures var s' := Work(s, op); Share(s') <= Share(s) && s'.sent == s.sent && s'.recv == s.recv
    ensures var s' := SendEnd(s, op); Share(s') + (if s'.sent && !s.sent then 2 else 0) < Share(s) + 4
    ensures var s' := SendEnd(s, op); (s.sent ==> s'.sent) && s'.recv == s.recv
  {
    hide SendEnd, Work;
    WorkDecreases(s, op);
    SendDecreases(s, op);
  }

  lemma WorkDecreases(s: Side, op: SendOp)
    ensures var s' := Work(s, op); Share(s') <= Share(s) && s'.sent == s.sent && s'.recv == s.recv
  {
    hide QueueWeight;
    if !op.SendOk? {
      WeightAppend(s.queue, ErrorTask(op.e));
    }
  }

  lemma SendDecreases(s: Side, op: SendOp)
    ensures var s' := SendEnd(s, op); Share(s') + (if s'.sent && !s.sent then 2 else 0) < Share(s) + 4
    ensures var s' := SendEnd(s, op); (s.sent ==> s'.sent) && s'.recv == s.recv
  {
    hide QueueWeight;
    if !op.SendOk? {
      WeightAppend(s.queue, ErrorTask(op.e));
    }
  }

  lemma WeightTail(q: seq<Task>)
    requires q != []
    ensures QueueWeight(q) == (if q[0] == SendTask then 4 else 1) + QueueWeight(q[1..])
  {
  }

  lemma ActDecreases(w: World, a: Action)
    requires CanAct(w, a) && Internal(a)
    ensures Measure(Act(w, a)) < Measure(w)
  {
    hide QueueWeight, RunTask;
    match a
    case Run(op) => RunDecreases(w.me, op);
    case Deliver => WeightAppend(w.me.queue, EndTask);
    case Fails(e) => WeightAppend(w.me.queue, ErrorTask(e));
    case Return =>
  }

  lemma Decreases(w: World, t: Step)
    requires Enabled(w, t) && Internal(t.act)
    ensures Measure(Next(w, t)) < Measure(w)
  {
    hide Weight, Act;
    ActDecreases(if t.mine then w else Swap(w), t.act);
  }

  /** However the two sides are scheduled, no more than `Measure` internal steps can follow. */
  lemma {:induction false} RunsEnd(states: seq<World>, steps: seq<Step>)
    requires IsRun(states, steps) && forall i :: 0 <= i < |steps| ==> Internal(steps[i].act)
    ensures |steps| <= Measure(states[0])
  {
    hide Measure, Next;
    if steps != [] {
      Decreases(states[0], steps[0]);
      assert IsRun(states[1..], steps[1..]);
      RunsEnd(states[1..], steps[1..]);
    }
  }

  /** Nothing is left to happen: no task, no message, no return; and a dead end has surfaced on the other side. */
  ghost predicate Quiescent(w: World) {
    && (forall op :: !CanAct(w, Run(op)) && !CanAct(Swap(w), Run(op)))
    && !CanAct(w, Deliver) && !CanAct(Swap(w), Deliver) && !CanAct(w, Return) && !CanAct(Swap(w), Return)
    && w.me.up == w.other.up
  }

  /** When both destructors have started and nothing is left to happen, a side still waits if and only if its channel end
      failed silently before `GracefulSessionEnd` was received. */
  lemma {:induction false} StuckExactly(states: seq<World>, steps: seq<Step>, i: nat)
    requires FromStart(states, steps) && i < |states| && Quiescent(states[i])
    requires states[i].me.dtor != NotStarted && states[i].other.dtor != NotStarted
    ensures states[i].me.dtor == Waiting || states[i].me.dtor == Returned
    ensures states[i].other.dtor == Waiting || states[i].other.dtor == Returned
    ensures states[i].me.dtor == Waiting <==> states[i].me.silent && !states[i].me.recv
    ensures states[i].other.dtor == Waiting <==> states[i].other.silent && !states[i].other.recv
  {
    InvInRuns(states, steps, i);
    var w := states[i];
    assert w.me.queue == [] && w.other.queue == [] by {
      assert !CanAct(w, Run(SendOk)) && !CanAct(Swap(w), Run(SendOk));
    }
  }

  /** The proviso under which the wait always ends: no `send()` or wait of W reports the channel's failure itself. */
  predicate Surfaces(t: Step) {
    t.act.Run? ==> !t.act.op.SendFails?
  }

  lemma {:induction false} NeverSilent(states: seq<World>, steps: seq<Step>, i: nat)
    requires FromStart(states, steps) && i < |states| && forall k :: 0 <= k < |steps| ==> Surfaces(steps[k])
    ensures !states[i].me.silent && !states[i].other.silent
  {
    hide Act, CanAct;
    if i > 0 {
      NeverSilent(states, steps, i - 1);
      StaysLoud(if steps[i - 1].mine then states[i - 1] else Swap(states[i - 1]), steps[i - 1].act);
    }
  }

  lemma StaysLoud(w: World, a: Action)
    requires CanAct(w, a) && !w.me.silent && (a.Run? ==> !a.op.SendFails?)
    ensures !Act(w, a).me.silent && Act(w, a).other == w.other
  {
    hide RunTask;
    if a.Run? {
      TaskIsLoud(w.me, a.op);
    }
  }

  lemma TaskIsLoud(s: Side, op: SendOp)
    requires s.queue != [] && !s.silent && !op.SendFails?
    ensures !RunTask(s, op).silent
  {
    hide Work, SendEnd;
    UseIsLoud(s.(queue := s.queue[1..]), op);
  }

  lemma UseIsLoud(s: Side, op: SendOp)
    requires !s.silent && !op.SendFails?
    ensures !Work(s, op).silent && !SendEnd(s, op).silent
  {
  }

  /** With the proviso both waits end: internal steps run out, and when they have, both destructors have gone on. */
  lemma {:induction false} BothReturn(states: seq<World>, steps: seq<Step>, i: nat)
    requires FromStart(states, steps) && i < |states| && forall k :: 0 <= k < |steps| ==> Surfaces(steps[k])
    requires states[i].me.dtor != NotStarted && states[i].other.dtor != NotStarted && Quiescent(states[i])
    ensures states[i].me.dtor == Returned && states[i].other.dtor == Returned
  {
    hide FromStart, Quiescent;
    NeverSilent(states, steps, i);
    StuckExactly(states, steps, i);
  }

  lemma ExtendRun(states: seq<World>, steps: seq<Step>, t: Step, w: World) returns (states': seq<World>, steps': seq<Step>)
    requires IsRun(states, steps) && Enabled(states[|steps|], t) && Next(states[|steps|], t) == w
    ensures IsRun(states', steps') && steps' == steps + [t] && states' == states + [w]
  {
    hide Next, Enabled;
    states', steps' := states + [w], steps + [t];
  }

  /** This side's `open_channel()` fails, and the other side sees the dead end. */
  lemma HosedOpen(e: Error) returns (states: seq<World>, steps: seq<Step>)
    ensures FromStart(states, steps) && |states| == 5 && |steps| == 4
    ensures var failed := INITIAL.(up := false, told := [e]);
            states[4] == World(failed.(silent := true), failed.(done := true))
  {
    var me := INITIAL.(up := false, told := [e], silent := true);
    states, steps := [World(INITIAL, INITIAL)], [];
    states, steps := ExtendRun(states, steps, Step(true, Post), World(INITIAL.(queue := [WorkTask]), INITIAL));
    states, steps := ExtendRun(states, steps, Step(true, Run(SendFails(e))), World(me, INITIAL));
    var other := INITIAL.(up := false, queue := [ErrorTask(e)]);
    states, steps := ExtendRun(states, steps, Step(false, Fails(e)), World(me, other));
    other := INITIAL.(up := false, told := [e], done := true);
    states, steps := ExtendRun(states, steps, Step(false, Run(SendOk)), World(me, other));
  }

  /** Without it, a run in which one side waits for ever: its `open_channel()` hosed the session. */
  lemma HosedOpenWaitsForEver(e: Error) returns (states: seq<World>, steps: seq<Step>)
    ensures FromStart(states, steps) && |states| == 10
    ensures var w := states[9];
            Quiescent(w) && w.me.dtor == Waiting && w.other.dtor == Returned && w.me.told == [e]
  {
    hide IsRun;
    var failed := INITIAL.(up := false, told := [e]);
    var me, other := failed.(silent := true), failed.(done := true);
    states, steps := HosedOpen(e);
    states, steps := ExtendRun(states, steps, Step(true, Start), World(me.(dtor := Posted, queue := [SendTask]), other));
    me := me.(dtor := Waiting);
    states, steps := ExtendRun(states, steps, Step(true, Run(SendOk)), World(me, other));
    states, steps := ExtendRun(states, steps, Step(false, Start), World(me, other.(dtor := Posted, queue := [SendTask])));
    states, steps := ExtendRun(states, steps, Step(false, Run(SendOk)), World(me, other.(dtor := Waiting)));
    states, steps := ExtendRun(states, steps, Step(false, Return), World(me, other.(dtor := Returned)));
  }

  // ----- The object -----

  /** The finisher of one side, with the end of the master channel and the thread W it works on. */
  class Finisher {
    var up: bool
    var sent: bool
    var recv: bool
    var queue: seq<Task>
    /** `m_opposing_session_done` */
    var opposingSessionDone: bool
    var dtor: Dtor
    /** The session's on-error handler executions. */
    var told: seq<Error>
    ghost var silent: bool
    ghost var twice: bool

    ghost function View(): Side
      reads this
    {
      Side(up, sent, recv, queue, opposingSessionDone, dtor, told, silent, twice)
    }

    constructor ()
      ensures View() == INITIAL
    {
      up, sent, recv, queue, opposingSessionDone, dtor, told := true, false, false, [], false, NotStarted, [];
      silent, twice := false, false;
    }

    method HoseSession(e: Error)
      modifies this`told
      ensures View() == Hose(old(View()), e)
    {
      if told == [] {
        told := [e];
      }
    }

    /** The next task of W. */
    method RunNext(op: SendOp)
      requires queue != []
      modifies this
      ensures View() == RunTask(old(View()), op)
    {
      hide SendEnd, Work;
      var task := queue[0];
      queue := queue[1..];
      match task
      case EndTask =>
        twice := twice || opposingSessionDone;
        opposingSessionDone := true;
        HoseSession(SessionFinished);
      case ErrorTask(e) =>
        HoseSession(e);
        OnMasterChannelHosed();
      case SendTask => SendGracefulSessionEnd(op);
      case WorkTask => UseChannel(op);
    }

    /** The part of `on_dtor_start()` that runs on W. */
    method SendGracefulSessionEnd(op: SendOp)
      modifies this`up, this`queue, this`silent, this`sent, this`dtor
      ensures View() == SendEnd(old(View()), op)
    {
      var r := SendMessage(op);
      if r.Sent? {
        sent := true;
      }
      dtor := Waiting;
    }

    method UseChannel(op: SendOp)
      modifies this`up, this`queue, this`silent, this`told
      ensures View() == Work(old(View()), op)
    {
      if told != [] {
        return;
      }
      var r := SendMessage(op);
      if r.Failed? {
        HoseSession(r.e);
      }
    }

    method OnMasterChannelHosed()
      modifies this`opposingSessionDone
      ensures View() == old(View()).(done := true)
    {
      if !opposingSessionDone {
        opposingSessionDone := true;
      }
    }

    method SendMessage(op: SendOp) returns (r: SendResult)
      modifies this`up, this`queue, this`silent
      ensures var s := old(View());
              View() == if !s.up || op.SendOk? then s
                        else if op.SendFails? then s.(up := false, silent := true) else FailAsync(s, op.e)
      ensures r == if !old(up) || op.SendLate? then Refused else if op.SendOk? then Sent else Failed(op.e)
    {
      if !up {
        return Refused;
      }
      match op
      case SendOk => return Sent;
      case SendFails(e) =>
        up, silent := false, true;
        return Failed(e);
      case SendLate(e) =>
        up := false;
        queue := queue + [ErrorTask(e)];
        return Refused;
    }

    /** `on_dtor_start()` up to the wait. */
    method OnDtorStart()
      modifies this`dtor, this`queue
      ensures View() == StartDtor(old(View()))
    {
      dtor := Posted;
      queue := queue + [SendTask];
    }
  }
}
