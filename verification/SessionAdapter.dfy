/** `sync_io::Session_adapter`: passively opened channels, and the one error, go from the session's thread W to the user's
    event loop through a queue (or a variable) and a pipe whose bytes wake the loop.

    Each step below is one action of one thread: W pushes under the lock and, later, writes its byte; the loop, woken by
    a readable pipe, pops under the lock, runs the user's handler, consumes one byte and waits again. */
module SessionAdapter {
  import opened MasterChannel

  datatype Producer = Idle | Pushed

  datatype Consumer<T> = Off | Armed | Popped(x: T) | Handled | Consumed

  /** `queue`, `bytes`: the target queue and the pipe.  `pushed`, `delivered`: all channels so far. */
  datatype Chans<T> = Chans(
    producer: Producer,
    queue: seq<T>,
    bytes: nat,
    consumer: Consumer<T>,
    pushed: seq<T>,
    delivered: seq<T>)

  /** `code`: the target variable.  `told`: executions of the user's on-error handler, if it was there. */
  datatype Err = Err(handler: bool, code: Option<Error>, written: bool, bytes: nat, armed: bool, told: seq<Error>)

  datatype State<T> = State(chans: Chans<T>, err: Err)

  /** `handlers`: the client form knows its handlers from the start, the server form does not. */
  function Initial<T>(handlers: bool): State<T> {
    State(Chans(Idle, [], 0, Off, [], []), Err(handlers, None, false, 0, false, []))
  }

  datatype Step<T> =
    | InitHandlers
    | StartOps
    | Push(x: T)          // W, under the lock
    | Write               // W
    | Pop                 // loop, under the lock
    | Handle              // loop
    | Consume             // loop
    | Rearm               // loop
    | SetCode(e: Error)   // W
    | WriteErr            // W
    | FireErr             // loop

  predicate Enabled<T>(s: State<T>, t: Step<T>) {
    match t
    case InitHandlers => !s.err.handler && s.err.code.None? && s.err.told == []
    case StartOps => s.chans.consumer == Off
    case Push(_) => s.chans.producer == Idle && (s.err.handler || s.err.told != [])
    case Write => s.chans.producer == Pushed
    case Pop => s.chans.consumer == Armed && s.chans.bytes > 0
    case Handle => s.chans.consumer.Popped?
    case Consume => s.chans.consumer == Handled
    case Rearm => s.chans.consumer == Consumed
    case SetCode(_) => s.err.handler && s.err.code.None?   // the session reports at most one error
    case WriteErr => s.err.code.Some? && !s.err.written
    case FireErr => s.err.armed && s.err.bytes > 0
  }

  /** `assert(!m_target_channel_open_q.empty())` */
  predicate PopAssertion<T>(c: Chans<T>) {
    c.queue != []
  }

  function PopChan<T>(c: Chans<T>): Chans<T>
  {
    if c.queue == [] then c else c.(queue := c.queue[1..], consumer := Popped(c.queue[0]))
  }

  function PushChan<T>(c: Chans<T>, x: T): Chans<T> {
    c.(producer := Pushed, queue := c.queue + [x], pushed := c.pushed + [x])
  }

  function WriteByte<T>(c: Chans<T>): Chans<T> {
    c.(producer := Idle, bytes := c.bytes + 1)
  }

  function HandleChan<T>(c: Chans<T>): Chans<T>
    requires c.consumer.Popped?
  {
    c.(consumer := Handled, delivered := c.delivered + [c.consumer.x])
  }

  function ConsumeByte<T>(c: Chans<T>): Chans<T> {
    c.(consumer := Consumed, bytes := if c.bytes > 0 then c.bytes - 1 else 0)
  }

  function FireHandler(r: Err): Err {
    r.(bytes := if r.bytes > 0 then r.bytes - 1 else 0, armed := false, handler := false,
       told := if r.handler && r.code.Some? then r.told + [r.code.value] else r.told)
  }

  function Next<T>(s: State<T>, t: Step<T>): State<T>
    requires Enabled(s, t)
  {
    match t
    case InitHandlers => s.(err := s.err.(handler := true))
    case StartOps => State(s.chans.(consumer := Armed), s.err.(armed := true))
    case Push(x) => s.(chans := PushChan(s.chans, x))
    case Write => s.(chans := WriteByte(s.chans))
    case Pop => s.(chans := PopChan(s.chans))
    case Handle => s.(chans := HandleChan(s.chans))
    case Consume => s.(chans := ConsumeByte(s.chans))
    case Rearm => s.(chans := s.chans.(consumer := Armed))
    case SetCode(e) => s.(err := s.err.(code := Some(e)))
    case WriteErr => s.(err := s.err.(written := true, bytes := s.err.bytes + 1))
    case FireErr => s.(err := FireHandler(s.err))
  }

  ghost predicate Run<T>(states: seq<State<T>>, steps: seq<Step<T>>) {
    && |states| == |steps| + 1
    && forall i :: 0 <= i < |steps| ==> Enabled(states[i], steps[i]) && states[i + 1] == Next(states[i], steps[i])
  }

  ghost predicate FromStart<T>(states: seq<State<T>>, steps: seq<Step<T>>) {
    Run(states, steps) && (states[0] == Initial(true) || states[0] == Initial(false))
  }

  // ----- Safety -----

  function InHand<T>(c: Consumer<T>): seq<T> {
    if c.Popped? then [c.x] else []
  }

  /** Every channel pushed is in exactly one place, in order; and bytes and channels match one to one, except for a byte
      not written yet, and one not consumed yet. */
  ghost predicate ChansOk<T>(c: Chans<T>) {
    && c.pushed == c.delivered + InHand(c.consumer) + c.queue
    && |c.queue| + (if c.consumer.Popped? || c.consumer == Handled then 1 else 0)
       == c.bytes + (if c.producer == Pushed then 1 else 0)
    && (c.consumer.Popped? || c.consumer == Handled ==> c.bytes > 0)
  }

  ghost predicate ErrOk(r: Err, started: bool) {
    && r.bytes == (if r.written && r.told == [] then 1 else 0)
    && (r.written ==> r.code.Some?)
    && (r.told == [] || (r.written && r.told == [r.code.value]))
    && (r.code.Some? && r.told == [] ==> r.handler)
    && (r.armed <==> started && r.told == []) && (!started ==> r.told == [])
  }

  ghost predicate Inv<T>(s: State<T>) {
    ChansOk(s.chans) && ErrOk(s.err, s.chans.consumer != Off)
  }

  /** The abstract queue: what was put in, and how much of it was taken out. */
  datatype Fifo<T> = Fifo(put: seq<T>, taken: seq<T>)

  ghost function Abstract<T>(s: State<T>): Fifo<T> {
    Fifo(s.chans.pushed, s.chans.delivered)
  }

  ghost predicate FifoStep<T>(f: Fifo<T>, t: Step<T>, f': Fifo<T>) {
    match t
    case Push(x) => f' == f.(put := f.put + [x])
    case Handle => |f.taken| < |f.put| && f' == f.(taken := f.put[..|f.taken| + 1])
    case _ => f' == f
  }

  lemma InvStep<T>(s: State<T>, t: Step<T>)
    requires Inv(s) && Enabled(s, t)
    ensures Inv(Next(s, t)) && (t.Pop? ==> PopAssertion(s.chans))
    ensures FifoStep(Abstract(s), t, Abstract(Next(s, t)))
  {
    hide ChansOk, ErrOk;
    ChansStep(s, t);
    ErrStep(s, t);
  }

  lemma ChansStep<T>(s: State<T>, t: Step<T>)
    requires Inv(s) && Enabled(s, t)
    ensures ChansOk(Next(s, t).chans) && (t.Pop? ==> PopAssertion(s.chans))
    ensures FifoStep(Abstract(s), t, Abstract(Next(s, t)))
  {
    hide ErrOk;
  }

  lemma ErrStep<T>(s: State<T>, t: Step<T>)
    requires Inv(s) && Enabled(s, t)
    ensures ErrOk(Next(s, t).err, Next(s, t).chans.consumer != Off)
  {
    hide ChansOk;
  }

  lemma {:induction false} InvInRuns<T>(states: seq<State<T>>, steps: seq<Step<T>>, i: nat)
    requires FromStart(states, steps) && i < |states|
    ensures Inv(states[i])
  {
    if i > 0 {
      InvInRuns(states, steps, i - 1);
      InvStep(states[i - 1], steps[i - 1]);
    }
  }

  /** In every interleaving the user is given a prefix of what was pushed, in order, and each step is one of a queue; the
      queue is never found empty; the error is told at most once, and is the one reported. */
  lemma {:induction false} RefinesFifo<T>(states: seq<State<T>>, steps: seq<Step<T>>, i: nat)
    requires FromStart(states, steps) && i < |steps|
    ensures FifoStep(Abstract(states[i]), steps[i], Abstract(states[i + 1]))
    ensures states[i].chans.delivered <= states[i].chans.pushed
    ensures steps[i].Pop? ==> PopAssertion(states[i].chans)
    ensures states[i].err.told == [] || (states[i].err.code.Some? && states[i].err.told == [states[i].err.code.value])
  {
    InvInRuns(states, steps, i);
    InvStep(states[i], steps[i]);
  }

  /** The channels the session has handed over in the first `i` steps, and the error. */
  function Handed<T>(steps: seq<Step<T>>, i: nat): seq<T>
    requires i <= |steps|
  {
    if i == 0 then [] else Handed(steps, i - 1) + if steps[i - 1].Push? then [steps[i - 1].x] else []
  }

  /** What is remembered is what the session handed over: the channels, in order, and the one error. */
  lemma {:induction false} RememberedInRuns<T>(states: seq<State<T>>, steps: seq<Step<T>>, i: nat)
    requires FromStart(states, steps) && i < |states|
    ensures states[i].chans.pushed == Handed(steps, i)
    ensures forall e :: states[i].err.code == Some(e) <==> exists j :: 0 <= j < i && steps[j] == SetCode(e)
    ensures forall j, j' :: 0 <= j < j' < i && steps[j].SetCode? ==> !steps[j'].SetCode?
  {
    if i > 0 {
      RememberedInRuns(states, steps, i - 1);
      CodeStep(states[i - 1], steps[i - 1]);
    }
  }

  lemma CodeStep<T>(s: State<T>, t: Step<T>)
    requires Enabled(s, t)
    ensures Next(s, t).err.code == if t.SetCode? then Some(t.e) else s.err.code
    ensures t.SetCode? ==> s.err.code.None?
    ensures Next(s, t).chans.pushed == s.chans.pushed + if t.Push? then [t.x] else []
  {
  }

  /** In every interleaving the user is given, in order, the first of the channels that the session handed over, and told of
      no error but the one it reported. */
  lemma {:induction false} GivenAndTold<T>(states: seq<State<T>>, steps: seq<Step<T>>, i: nat)
    requires FromStart(states, steps) && i < |states|
    ensures states[i].chans.delivered <= Handed(steps, i)
    ensures |states[i].err.told| <= 1
    ensures forall e | e in states[i].err.told :: exists j :: 0 <= j < i && steps[j] == SetCode(e)
  {
    InvInRuns(states, steps, i);
    RememberedInRuns(states, steps, i);
    forall e | e in states[i].err.told ensures exists j :: 0 <= j < i && steps[j] == SetCode(e) {
      assert states[i].err.code == Some(e);
    }
  }

  lemma ExtendRun<T>(states: seq<State<T>>, steps: seq<Step<T>>, t: Step<T>, s: State<T>)
      returns (states': seq<State<T>>, steps': seq<Step<T>>)
    requires Run(states, steps) && Enabled(states[|steps|], t) && Next(states[|steps|], t) == s
    ensures Run(states', steps') && steps' == steps + [t] && states' == states + [s]
  {
    hide Next, Enabled;
    states', steps' := states + [s], steps + [t];
  }

  /** A channel and the error are both on their way. */
  lemma BothWaiting<T>(x: T, e: Error) returns (states: seq<State<T>>, steps: seq<Step<T>>)
    ensures FromStart(states, steps) && |states| == 6 && |steps| == 5
    ensures states[5] == State(Chans(Idle, [x], 1, Armed, [x], []), Err(true, Some(e), true, 1, true, []))
  {
    var c0 := Chans(Idle, [], 0, Armed, [], []);
    var r0 := Err(true, None, false, 0, true, []);
    states, steps := [Initial(true)], [];
    states, steps := ExtendRun(states, steps, StartOps, State(c0, r0));
    states, steps := ExtendRun(states, steps, Push(x), State(PushChan(c0, x), r0));
    var c := Chans(Idle, [x], 1, Armed, [x], []);
    states, steps := ExtendRun(states, steps, Write, State(c, r0));
    states, steps := ExtendRun(states, steps, SetCode(e), State(c, r0.(code := Some(e))));
    states, steps := ExtendRun(states, steps, WriteErr, State(c, r0.(code := Some(e), written := true, bytes := 1)));
  }

  /** The two pipes are independent: a channel pushed before the error may be given to the user after it. */
  lemma ErrorOvertakes<T>(x: T, e: Error) returns (states: seq<State<T>>, steps: seq<Step<T>>)
    ensures FromStart(states, steps) && |states| == 9
    ensures states[6].err.told == [e] && states[6].chans.delivered == [] && states[8].chans.delivered == [x]
  {
    hide Run;
    states, steps := BothWaiting(x, e);
    var c := Chans(Idle, [x], 1, Armed, [x], []);
    var r := Err(false, Some(e), true, 0, false, [e]);
    states, steps := ExtendRun(states, steps, FireErr, State(c, r));
    c := c.(queue := [], consumer := Popped(x));
    states, steps := ExtendRun(states, steps, Step.Pop, State(c, r));
    states, steps := ExtendRun(states, steps, Handle, State(HandleChan(c), r));
  }

  // ----- Progress -----

  /** What goes on without new input. */
  predicate Internal<T>(t: Step<T>) {
    t.Write? || t.Pop? || t.Handle? || t.Consume? || t.Rearm? || t.WriteErr? || t.FireErr?
  }

  function Stage<T>(c: Consumer<T>): nat {
    match c
    case Popped(_) => 3
    case Handled => 2
    case Consumed => 1
    case _ => 0
  }

  function Measure<T>(s: State<T>): nat {
    4 * |s.chans.queue| + Stage(s.chans.consumer) + (if s.chans.producer == Pushed then 1 else 0)
    + (if s.err.armed then 1 else 0) + (if s.err.code.Some? && !s.err.written then 1 else 0)
  }

  lemma Decreases<T>(s: State<T>, t: Step<T>)
    requires Inv(s) && Enabled(s, t) && Internal(t)
    ensures Measure(Next(s, t)) < Measure(s)
  {
  }

  /** Once pushes stop, a bounded number of steps is left. */
  lemma {:induction false} RunsEnd<T>(states: seq<State<T>>, steps: seq<Step<T>>)
    requires Run(states, steps) && Inv(states[0]) && forall i :: 0 <= i < |steps| ==> Internal(steps[i])
    ensures |steps| <= Measure(states[0])
  {
    if steps != [] {
      Decreases(states[0], steps[0]);
      InvStep(states[0], steps[0]);
      assert Run(states[1..], steps[1..]);
      RunsEnd(states[1..], steps[1..]);
    }
  }

  /** No wake-up is lost: after `start_ops()`, a state in which nothing can happen has delivered everything. */
  lemma {:induction false} NothingLost<T>(states: seq<State<T>>, steps: seq<Step<T>>, i: nat)
    requires FromStart(states, steps) && i < |states| && states[i].chans.consumer != Off
    requires forall t :: Internal(t) ==> !Enabled(states[i], t)
    ensures states[i].chans.delivered == states[i].chans.pushed == Handed(steps, i)
    ensures states[i].err.told == if states[i].err.code.Some? then [states[i].err.code.value] else []
    ensures forall e :: states[i].err.told == [e] <==> exists j :: 0 <= j < i && steps[j] == SetCode(e)
  {
    InvInRuns(states, steps, i);
    RememberedInRuns(states, steps, i);
    AtRest(states[i]);
  }

  lemma AtRest<T>(s: State<T>)
    requires Inv(s) && s.chans.consumer != Off && forall t :: Internal(t) ==> !Enabled(s, t)
    ensures s.chans.delivered == s.chans.pushed
    ensures s.err.told == if s.err.code.Some? then [s.err.code.value] else []
    ensures forall e :: s.err.told == [e] <==> s.err.code == Some(e)
  {
    assert !Enabled(s, Write) && !Enabled(s, Pop) && !Enabled(s, Handle) && !Enabled(s, Consume) && !Enabled(s, Rearm);
    assert !Enabled(s, WriteErr) && !Enabled(s, FireErr);
    forall e ensures s.err.told == [e] <==> s.err.code == Some(e) {
    }
  }

  // ----- The error and the channels -----

  /** At step `j` the user is given a channel that had been pushed when step `k` was taken. */
  ghost predicate Overtaken<T>(states: seq<State<T>>, steps: seq<Step<T>>, k: nat, j: nat)
    requires |states| == |steps| + 1
  {
    k < j < |steps| && steps[j].Handle? && |states[j].chans.delivered| < |states[k].chans.pushed|
  }

  /** The loop holds something for the user: a channel in the queue, or one in its hand. */
  predicate Holds<T>(c: Chans<T>) {
    c.queue != [] || c.consumer.Popped?
  }

  lemma {:induction false} DeliveredGrows<T>(states: seq<State<T>>, steps: seq<Step<T>>, i: nat, j: nat)
    requires Run(states, steps) && i <= j < |states|
    ensures |states[i].chans.delivered| <= |states[j].chans.delivered|
    ensures states[i].chans.pushed <= states[j].chans.pushed
  {
    if i < j {
      DeliveredGrows(states, steps, i, j - 1);
    }
  }

  /** Between two counts of deliveries lies the delivery that makes the step. */
  lemma {:induction false} DeliveryBetween<T>(states: seq<State<T>>, steps: seq<Step<T>>, i: nat, n: nat) returns (j: nat)
    requires Run(states, steps) && i <= n < |states|
    requires |states[i].chans.delivered| < |states[n].chans.delivered|
    ensures i <= j < n && steps[j].Handle? && |states[j].chans.delivered| == |states[i].chans.delivered|
  {
    if |states[n - 1].chans.delivered| > |states[i].chans.delivered| {
      j := DeliveryBetween(states, steps, i, n - 1);
    } else {
      DeliveredGrows(states, steps, i, n - 1);
      j := n - 1;
    }
  }

  /** The error overtakes a channel only if, when the loop takes the error's byte, the channels' queue is not empty or the
      loop has a popped channel in hand. */
  lemma {:induction false} OvertakesOnlyIf<T>(states: seq<State<T>>, steps: seq<Step<T>>, k: nat, j: nat)
    requires FromStart(states, steps) && k < |steps| && steps[k].FireErr? && Overtaken(states, steps, k, j)
    ensures states[k].err.told == [] && states[k].err.code.Some?
    ensures states[k + 1].err.told == [states[k].err.code.value]
    ensures Holds(states[k].chans)
  {
    InvInRuns(states, steps, k);
    DeliveredGrows(states, steps, k, j);
  }

  /** In a run that goes on until nothing is left to do, the error overtakes a channel if and only if the loop holds one
      when it takes the error's byte. */
  lemma {:induction false} OvertakesExactly<T>(states: seq<State<T>>, steps: seq<Step<T>>, k: nat)
    requires FromStart(states, steps) && k < |steps| && steps[k].FireErr?
    requires forall t :: Internal(t) ==> !Enabled(states[|steps|], t)
    ensures (exists j :: Overtaken(states, steps, k, j)) <==> Holds(states[k].chans)
  {
    InvInRuns(states, steps, k);
    if Holds(states[k].chans) {
      StartedStays(states, steps, k, |steps|);
      NothingLost(states, steps, |steps|);
      DeliveredGrows(states, steps, k, |steps|);
      var j := DeliveryBetween(states, steps, k, |steps|);
      assert Overtaken(states, steps, k, j);
    }
    forall j | Overtaken(states, steps, k, j) ensures Holds(states[k].chans) {
      OvertakesOnlyIf(states, steps, k, j);
    }
  }

  lemma {:induction false} StartedStays<T>(states: seq<State<T>>, steps: seq<Step<T>>, i: nat, j: nat)
    requires Run(states, steps) && i <= j < |states| && states[i].chans.consumer != Off
    ensures states[j].chans.consumer != Off
  {
    if i < j {
      StartedStays(states, steps, i, j - 1);
    }
  }

  // ----- The object -----

  /** The channel half of the adapter; the target queue, the pipe and the waiting state. */
  class Adapter<T> {
    var queue: seq<T>
    var bytes: nat
    ghost var producer: Producer
    var consumer: Consumer<T>
    ghost var pushed: seq<T>
    ghost var delivered: seq<T>
    var onErr: bool
    var code: Option<Error>
    ghost var written: bool
    var errBytes: nat
    var errArmed: bool
    var told: seq<Error>

    ghost function View(): State<T>
      reads this
    {
      State(Chans(producer, queue, bytes, consumer, pushed, delivered), Err(onErr, code, written, errBytes, errArmed, told))
    }

    constructor (handlers: bool)
      ensures View() == Initial(handlers)
    {
      queue, bytes, producer, consumer, pushed, delivered := [], 0, Idle, Off, [], [];
      onErr, code, written, errBytes, errArmed, told := handlers, None, false, 0, false, [];
    }

    method StartOps() returns (ok: bool)
      modifies this`consumer, this`errArmed
      ensures ok == (old(consumer) == Off)
      ensures View() == if ok then Next(old(View()), Step.StartOps) else old(View())
    {
      if consumer != Off {
        return false;
      }
      errArmed := true;
      consumer := Armed;
      return true;
    }

    /** The core's passive-open handler, under the lock. */
    method OnChannel(x: T)
      requires Enabled(View(), Push(x))
      modifies this`queue, this`producer, this`pushed
      ensures View() == Next(old(View()), Push(x))
    {
      queue := queue + [x];
      pushed := pushed + [x];
      producer := Pushed;
    }

    method PipeProduce()
      requires Enabled(View(), Write)
      modifies this`bytes, this`producer
      ensures View() == Next(old(View()), Write)
    {
      bytes := bytes + 1;
      producer := Idle;
    }

    /** `on_ev_channel_open()` up to the unlock. */
    method PopUnderLock()
      requires Enabled(View(), Step.Pop) && ChansOk(View().chans)
      modifies this`queue, this`consumer
      ensures View() == Next(old(View()), Step.Pop)
    {
      assert queue != [];
      consumer := Popped(queue[0]);
      queue := queue[1..];
    }

    method CallHandler() returns (x: T)
      requires Enabled(View(), Handle)
      modifies this`consumer, this`delivered
      ensures View() == Next(old(View()), Handle) && delivered == old(delivered) + [x]
    {
      x := consumer.x;
      delivered := delivered + [x];
      consumer := Handled;
    }

    method PipeConsume()
      requires Enabled(View(), Consume) && ChansOk(View().chans)
      modifies this`consumer, this`bytes
      ensures View() == Next(old(View()), Consume)
    {
      bytes := bytes - 1;
      consumer := Consumed;
    }

    /** The core's on-error handler. */
    method OnError(e: Error)
      requires Enabled(View(), SetCode(e))
      modifies this`code
      ensures View() == Next(old(View()), SetCode(e))
    {
      assert code.None?;
      code := Some(e);
    }

    /** The loop finds the error pipe readable. */
    method OnEvError()
      requires Enabled(View(), FireErr) && Inv(View())
      modifies this`errBytes, this`errArmed, this`onErr, this`told
      ensures View() == Next(old(View()), FireErr) && told == [code.value]
    {
      errBytes := errBytes - 1;
      errArmed := false;
      onErr := false;
      told := told + [code.value];
    }
  }
}
