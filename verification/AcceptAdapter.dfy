/** `sync_io::Session_server_adapter`: one accept at a time goes to the core; its completion, in the core's thread, writes
    a byte that makes the user's event loop run the handler.

    Accepts are numbered in the order they are started.  Each step is one action of one thread. */
module AcceptAdapter {
  import opened MasterChannel

  /** `None` is success. */
  type Result = Option<Error>

  const ABORTED: Result := Some(ShutdownAborted)

  datatype Call = Call(token: nat, result: Result)

  /** The user's thread: inside `async_accept()` before its wait is armed, or inside `accept_read()`. */
  datatype User = Free | Storing | Reading(token: Option<nat>)

  /** `onDone`: the stored handler.  `core`: accepts the core has not completed.  `target`: the stored result.
      `writing`: `accept_write()` has stored it and not written its byte.  `waits`: armed waits.
      `reported`: what the core completed each accept with.  `calls`: executions of handlers. */
  datatype State = State(
    onDone: Option<nat>,
    core: set<nat>,
    target: Result,
    writing: bool,
    bytes: nat,
    waits: nat,
    user: User,
    next: nat,
    reported: map<nat, Result>,
    calls: seq<Call>)

  const INITIAL := State(None, {}, None, false, 0, 0, Free, 0, map[], [])

  datatype Step =
    | Accept                        // user: `async_accept()` that returns true, up to the core's
    | Arm                           // user: the rest of it
    | Refuse                        // user: `async_accept()` that returns false
    | Report(t: nat, r: Result)     // core: `accept_write()`, up to the byte
    | Write                         // core: the byte
    | Wake                          // user: the wait ends; consume the byte, take the handler
    | CallIt                        // user: run the handler

  predicate Enabled(s: State, t: Step) {
    match t
    case Accept => s.user == Free && s.onDone.None?
    case Arm => s.user == Storing
    case Refuse => s.user == Free && s.onDone.Some?
    case Report(k, _) => k in s.core && !s.writing
    case Write => s.writing
    case Wake => s.user == Free && s.waits > 0 && s.bytes > 0
    case CallIt => s.user.Reading?
  }

  function Next(s: State, t: Step): State
    requires Enabled(s, t)
  {
    match t
    case Accept => s.(onDone := Some(s.next), core := s.core + {s.next}, user := Storing, next := s.next + 1)
    case Arm => s.(waits := s.waits + 1, user := Free)
    case Refuse => s
    case Report(k, r) =>
      var s1 := s.(core := s.core - {k}, reported := s.reported[k := r]);
      if r == ABORTED then s1 else s1.(target := r, writing := true)
    case Write => s.(writing := false, bytes := s.bytes + 1)
    case Wake => s.(waits := s.waits - 1, bytes := s.bytes - 1, user := Reading(s.onDone), onDone := None)
    case CallIt =>
      var s1 := s.(user := Free);
      if s.user.token.None? then s1 else s1.(calls := s.calls + [Call(s.user.token.value, s.target)])
  }

  ghost predicate Run(states: seq<State>, steps: seq<Step>) {
    && |states| == |steps| + 1 && states[0] == INITIAL
    && forall i :: 0 <= i < |steps| ==> Enabled(states[i], steps[i]) && states[i + 1] == Next(states[i], steps[i])
  }

  /** The stored handler's accept is at exactly one place. */
  ghost predicate Pending(s: State, t: nat) {
    && t + 1 == s.next == |s.calls| + 1
    && (|| (s.core == {t} && !s.writing && s.bytes == 0 && t !in s.reported)
        || (s.core == {} && t in s.reported && s.reported[t] == ABORTED && !s.writing && s.bytes == 0)
        || (s.core == {} && t in s.reported && s.reported[t] == s.target != ABORTED
            && s.bytes == (if s.writing then 0 else 1)))
    && s.waits == (if s.user == Storing then 0 else 1)
    && !s.user.Reading?
  }

  /** No handler is stored: all is quiet, but for a handler about to run. */
  ghost predicate Quiet(s: State) {
    && s.core == {} && !s.writing && s.bytes == 0 && s.waits == 0 && s.user != Storing
    && match s.user
       case Reading(t) =>
         t == Some(|s.calls|) && s.next == |s.calls| + 1
         && |s.calls| in s.reported && s.reported[|s.calls|] == s.target != ABORTED
       case _ => s.next == |s.calls|
  }

  ghost predicate Inv(s: State) {
    && (forall i :: 0 <= i < |s.calls| ==>
          s.calls[i].token == i && i in s.reported && s.calls[i].result == s.reported[i] != ABORTED)
    && (forall t :: t in s.reported ==> t < s.next)
    && (if s.onDone.Some? then Pending(s, s.onDone.value) else Quiet(s))
  }

  lemma InvStep(s: State, t: Step)
    requires Inv(s) && Enabled(s, t)
    ensures Inv(Next(s, t))
  {
  }

  lemma {:induction false} InvInRuns(states: seq<State>, steps: seq<Step>, i: nat)
    requires Run(states, steps) && i < |states|
    ensures Inv(states[i])
  {
    if i > 0 {
      InvInRuns(states, steps, i - 1);
      InvStep(states[i - 1], steps[i - 1]);
    }
  }

  /** The core's completions, as far as they are remembered, are those of the steps; each accept has at most one. */
  ghost predicate Remembered(steps: seq<Step>, i: nat, reported: map<nat, Result>)
    requires i <= |steps|
  {
    && (forall j :: 0 <= j < i && steps[j].Report? ==> steps[j].t in reported && reported[steps[j].t] == steps[j].r)
    && (forall k :: k in reported ==> exists j :: 0 <= j < i && steps[j] == Report(k, reported[k]))
    && (forall j, j' :: 0 <= j < j' < i && steps[j].Report? && steps[j'].Report? ==> steps[j].t != steps[j'].t)
  }

  lemma ReportedStep(s: State, t: Step)
    requires Inv(s) && Enabled(s, t)
    ensures t.Report? ==> t.t !in s.reported
    ensures Next(s, t).reported == if t.Report? then s.reported[t.t := t.r] else s.reported
  {
  }

  lemma RememberedStep(steps: seq<Step>, i: nat, s: State)
    requires i < |steps| && Inv(s) && Enabled(s, steps[i]) && Remembered(steps, i, s.reported)
    ensures Remembered(steps, i + 1, Next(s, steps[i]).reported)
  {
    hide Inv, Enabled, Next;
    var reported := Next(s, steps[i]).reported;
    ReportedStep(s, steps[i]);
    forall k | k in reported
      ensures exists j :: 0 <= j < i + 1 && steps[j] == Report(k, reported[k])
    {
      if steps[i].Report? && steps[i].t == k {
        assert steps[i] == Report(k, reported[k]);
      } else {
        var j :| 0 <= j < i && steps[j] == Report(k, s.reported[k]);
      }
    }
  }

  lemma {:induction false} RememberedInRuns(states: seq<State>, steps: seq<Step>, i: nat)
    requires Run(states, steps) && i < |states|
    ensures Remembered(steps, i, states[i].reported)
  {
    hide Next, Enabled, Remembered;
    if i > 0 {
      RememberedInRuns(states, steps, i - 1);
      InvInRuns(states, steps, i - 1);
      RememberedStep(steps, i - 1, states[i - 1]);
    } else {
      NoneRemembered(steps);
    }
  }

  lemma NoneRemembered(steps: seq<Step>)
    ensures Remembered(steps, 0, map[])
  {
  }

  /** At most one accept is pending and at most one byte is in the pipe; handlers run in the order their accepts were
      started, each once, with what the core completed its own accept with, which it did once; the handler of an aborted
      accept never runs. */
  lemma {:induction false} OneCallEach(states: seq<State>, steps: seq<Step>, i: nat)
    requires Run(states, steps) && i < |states|
    ensures var s := states[i];
            && |s.core| <= 1 && s.bytes <= 1 && s.waits <= 1 && s.next <= |s.calls| + 1
            && (forall k :: 0 <= k < |s.calls| ==>
                  && s.calls[k].token == k && s.calls[k].result != ABORTED
                  && exists j :: 0 <= j < i && steps[j] == Report(k, s.calls[k].result))
    ensures forall j, j' :: 0 <= j < j' < i && steps[j].Report? && steps[j'].Report? ==> steps[j].t != steps[j'].t
  {
    InvInRuns(states, steps, i);
    RememberedInRuns(states, steps, i);
    var s := states[i];
    forall k | 0 <= k < |s.calls|
      ensures s.calls[k].token == k && s.calls[k].result != ABORTED
      ensures exists j :: 0 <= j < i && steps[j] == Report(k, s.calls[k].result)
    {
      assert k in s.reported;
    }
  }

  // ----- Progress -----

  /** What goes on by itself once the core has reported. */
  predicate Internal(t: Step) {
    t.Arm? || t.Write? || t.Wake? || t.CallIt?
  }

  function Measure(s: State): nat {
    (if s.user == Storing then 1 else if s.user.Reading? then 1 else 0) + (if s.writing then 3 else 0) + 2 * s.bytes
  }

  lemma {:induction false} RunsEnd(states: seq<State>, steps: seq<Step>)
    requires |states| == |steps| + 1 && Inv(states[0])
    requires forall i :: 0 <= i < |steps| ==> Enabled(states[i], steps[i]) && states[i + 1] == Next(states[i], steps[i])
                                              && Internal(steps[i])
    ensures |steps| <= Measure(states[0])
  {
    if steps != [] {
      InvStep(states[0], steps[0]);
      RunsEnd(states[1..], steps[1..]);
    }
  }

  /** When nothing goes on by itself, every accept started has had its call, except one that the core still works on or
      has aborted. */
  lemma {:induction false} NoneForgotten(states: seq<State>, steps: seq<Step>, i: nat, t: nat)
    requires Run(states, steps) && i < |states| && t < states[i].next
    requires forall u :: Internal(u) ==> !Enabled(states[i], u)
    ensures var s := states[i];
            || (t < |s.calls| && exists j :: 0 <= j < i && steps[j] == Report(t, s.calls[t].result))
            || t in s.core
            || exists j :: 0 <= j < i && steps[j] == Report(t, ABORTED)
  {
    InvInRuns(states, steps, i);
    RememberedInRuns(states, steps, i);
    if t < |states[i].calls| {
      OneCallEach(states, steps, i);
    }
    var s := states[i];
    assert !Enabled(s, Arm) && !Enabled(s, Write) && !Enabled(s, Wake) && !Enabled(s, CallIt);
  }

  // ----- The object -----

  class Adapter {
    var onDoneOrEmpty: Option<nat>
    ghost var core: set<nat>
    var targetErrCode: Result
    ghost var writing: bool
    var bytes: nat
    var waits: nat
    var user: User
    var next: nat
    ghost var reported: map<nat, Result>
    var calls: seq<Call>

    ghost function View(): State
      reads this
    {
      State(onDoneOrEmpty, core, targetErrCode, writing, bytes, waits, user, next, reported, calls)
    }

    constructor ()
      ensures View() == INITIAL
    {
      onDoneOrEmpty, core, targetErrCode, writing := None, {}, None, false;
      bytes, waits, user, next, reported, calls := 0, 0, Free, 0, map[], [];
    }

    /** `async_accept()` up to the core's.  The wait is armed next, if the result is true. */
    method AsyncAccept() returns (ok: bool)
      requires user == Free
      modifies this`onDoneOrEmpty, this`core, this`user, this`next
      ensures ok == old(onDoneOrEmpty).None?
      ensures View() == Next(old(View()), if ok then Accept else Refuse)
    {
      if onDoneOrEmpty.Some? {
        return false;
      }
      onDoneOrEmpty := Some(next);
      core := core + {next};
      next := next + 1;
      user := Storing;
      return true;
    }

    method AsyncWait()
      requires Enabled(View(), Arm)
      modifies this`waits, this`user
      ensures View() == Next(old(View()), Arm)
    {
      waits := waits + 1;
      user := Free;
    }

    method AcceptWrite(t: nat, errCode: Result)
      requires Enabled(View(), Report(t, errCode))
      modifies this`core, this`reported, this`targetErrCode, this`writing
      ensures View() == Next(old(View()), Report(t, errCode))
      ensures if errCode == ABORTED then targetErrCode == old(targetErrCode) && !writing
              else targetErrCode == errCode && writing
    {
      core := core - {t};
      reported := reported[t := errCode];
      if errCode == ABORTED {
        return;
      }
      targetErrCode := errCode;
      writing := true;
    }

    method PipeProduce()
      requires Enabled(View(), Write)
      modifies this`bytes, this`writing
      ensures View() == Next(old(View()), Write)
    {
      bytes := bytes + 1;
      writing := false;
    }

    /** In a reachable state the handler taken is there. */
    method AcceptRead()
      requires Enabled(View(), Wake) && Inv(View())
      modifies this`bytes, this`waits, this`user, this`onDoneOrEmpty
      ensures View() == Next(old(View()), Wake) && user.token.Some?
    {
      waits := waits - 1;
      bytes := bytes - 1;
      user := Reading(onDoneOrEmpty);
      onDoneOrEmpty := None;
    }

    method CallHandler()
      requires Enabled(View(), CallIt) && Inv(View())
      modifies this`user, this`calls
      ensures View() == Next(old(View()), CallIt)
      ensures calls == old(calls) + [Call(|old(calls)|, reported[|old(calls)|])]
    {
      calls := calls + [Call(user.token.value, targetErrCode)];
      user := Free;
    }
  }
}
