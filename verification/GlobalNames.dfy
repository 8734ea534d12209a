/** The message queues of one server process, across all its sessions and channels: the session server that numbers the
    sessions, each session's numbering of its channels, and the kernel's names, which other processes change too. */
module GlobalNames {
  import opened MasterChannel
  import opened MqAllocation
  import opened SharedNames
  import Decimals
  import SS = SessionServer

  /** What stays while the process runs.  `apps`: the client application of each session. */
  datatype Process = Process(y: Syntax, resource: string, srvApp: string, srvNs: string, apps: nat -> string, cfg: Config)

  /** One of the two queues of a channel of session `r`, for which the `nth` id was taken. */
  datatype Queue = Queue(r: nat, c2s: bool, nth: nat)

  /** `live`: the kernel's names; `ids`: how many ids were taken so far and not given back, by session; `queues`: all the
      queues of channels made so far; `closed`: which of them were removed again. */
  datatype World = World(srv: SS.State, live: set<string>, ids: map<nat, nat>, queues: seq<Queue>, closed: set<nat>)

  datatype Step =
    | Srv(t: SS.Step)
    | Open(r: nat, env: Env)
    | Close(i: nat)
    | Others(live: set<string>)

  function Taken(w: World, r: nat): nat {
    if r in w.ids then w.ids[r] else 0
  }

  predicate HasNs(w: World, r: nat) {
    r < |w.srv.reqs| && w.srv.reqs[r].ns.Some?
  }

  function SessionOf(p: Process, w: World, r: nat): Session
    requires HasNs(w, r)
  {
    Session(p.y, p.resource, p.srvApp, p.srvNs, p.apps(r), Decimals.ToString(w.srv.reqs[r].ns.value))
  }

  function NameOf(p: Process, w: World, q: Queue): string
    requires HasNs(w, q.r)
  {
    MqName(SessionOf(p, w, q.r), q.c2s, q.nth % WRAP)
  }

  function AllocOf(w: World, r: nat): Alloc {
    Alloc(w.live, Taken(w, r) % WRAP)
  }

  ghost predicate Enabled(p: Process, w: World, s: Step) {
    match s
    case Srv(t) => SS.Enabled(w.srv, t)
    case Open(r, _) => HasNs(w, r)
    case Close(i) => i < |w.queues| && i !in w.closed && HasNs(w, w.queues[i].r)
    case Others(live) => Existing(p, w.(live := live))   // other processes leave this one's queues alone
  }

  ghost function Next(p: Process, w: World, s: Step): World
    requires Enabled(p, w, s)
  {
    match s
    case Srv(t) => w.(srv := SS.Next(w.srv, t))
    case Open(r, env) =>
      var (a, outs) := Create(SessionOf(p, w, r), p.cfg, AllocOf(w, r), env);
      if p.cfg.SocketOnly? || !MakeMqs(SessionOf(p, w, r), AllocOf(w, r), env).1 then w.(live := a.live)
      else if !outs.ok then Advanced(w, r).(live := a.live)   // a late failure keeps the id
      else Added(w, r).(live := a.live)
    case Close(i) => w.(live := w.live - {NameOf(p, w, w.queues[i])}, closed := w.closed + {i})
    case Others(live) => w.(live := live)
  }

  function Advanced(w: World, r: nat): World {
    w.(ids := w.ids[r := Taken(w, r) + 1])
  }

  function Added(w: World, r: nat): World {
    var n := Taken(w, r) + 1;
    Advanced(w, r).(queues := w.queues + [Queue(r, true, n), Queue(r, false, n)])
  }

  ghost predicate Run(p: Process, worlds: seq<World>, steps: seq<Step>) {
    && |worlds| == |steps| + 1
    && worlds[0].srv == SS.Initial(worlds[0].srv.graveyardRuns)
    && worlds[0].ids == map[] && worlds[0].queues == [] && worlds[0].closed == {}
    && forall i :: 0 <= i < |steps| ==> Enabled(p, worlds[i], steps[i]) && worlds[i + 1] == Next(p, worlds[i], steps[i])
  }

  /** The components are non-empty and free of separators, and the separator is none of the characters of a direction or
      of a number. */
  ghost predicate Named(p: Process) {
    && Plain(p.y, p.resource) && Plain(p.y, p.srvApp) && Plain(p.y, p.srvNs)
    && (forall r: nat :: Plain(p.y, p.apps(r)))
    && !Decimals.IsDigit(p.y.sep) && p.y.sep !in "c2s" && p.y.sep !in "s2c"
  }

  /** No counter has gone round: neither the one of the sessions, nor the id of any session. */
  predicate Bounded(w: World) {
    |w.srv.made| <= SS.WRAP && forall r :: r in w.ids ==> w.ids[r] <= WRAP
  }

  // ----- Invariants -----

  ghost predicate QueueOk(w: World, q: Queue) {
    HasNs(w, q.r) && 1 <= q.nth <= Taken(w, q.r)
  }

  ghost predicate Inv(w: World) {
    && SS.Inv(w.srv)
    && (forall i :: 0 <= i < |w.queues| ==> QueueOk(w, w.queues[i]))
    && (forall i, j :: 0 <= i < j < |w.queues| ==> w.queues[i] != w.queues[j])
  }

  /** Each queue that was not removed exists. */
  ghost predicate Existing(p: Process, w: World) {
    forall i :: 0 <= i < |w.queues| && i !in w.closed ==>
      HasNs(w, w.queues[i].r) && NameOf(p, w, w.queues[i]) in w.live
  }

  lemma NsStays(s: SS.State, t: SS.Step, r: nat)
    requires SS.Inv(s) && SS.Enabled(s, t) && r < |s.reqs| && s.reqs[r].ns.Some?
    ensures r < |SS.Next(s, t).reqs| && SS.Next(s, t).reqs[r].ns == s.reqs[r].ns
  {
    hide SS.Next, SS.Enabled, SS.Inv;
    SS.CallsStay(s, t, r);
  }

  lemma MadeGrows(s: SS.State, t: SS.Step)
    requires SS.Enabled(s, t)
    ensures |s.made| <= |SS.Next(s, t).made|
  {
  }

  lemma InvStep(p: Process, w: World, s: Step)
    requires Inv(w) && Enabled(p, w, s)
    ensures Inv(Next(p, w, s))
    ensures Bounded(Next(p, w, s)) ==> Bounded(w)
  {
    hide SS.Inv, SS.Next, SS.Enabled, Create, MqName, Existing;
    match s
    case Srv(t) =>
      SS.InvStep(w.srv, t);
      MadeGrows(w.srv, t);
      forall i | 0 <= i < |w.queues| ensures QueueOk(Next(p, w, s), w.queues[i]) {
        NsStays(w.srv, t, w.queues[i].r);
      }
    case Open(r, env) =>
      AddedOk(w, r);
      AdvancedOk(w, r);
    case Close(_) =>
    case Others(_) =>
  }

  lemma AdvancedOk(w: World, r: nat)
    requires Inv(w)
    ensures Bounded(Advanced(w, r)) ==> Bounded(w)
    ensures forall live :: Inv(Advanced(w, r).(live := live))
  {
    hide SS.Inv;
    var w' := Advanced(w, r);
    assert forall i :: 0 <= i < |w.queues| ==> QueueOk(w, w.queues[i]);
    forall k | k in w.ids && Bounded(w') ensures w.ids[k] <= WRAP {
      assert k in w'.ids && w'.ids[k] >= w.ids[k];
    }
  }

  lemma AddedOk(w: World, r: nat)
    requires Inv(w) && HasNs(w, r)
    ensures Inv(Added(w, r)) && (Bounded(Added(w, r)) ==> Bounded(w))
    ensures forall live :: Inv(Added(w, r).(live := live)) && Inv(w.(live := live))
  {
    hide SS.Inv;
    var w', n := Added(w, r), Taken(w, r) + 1;
    forall i | 0 <= i < |w'.queues| ensures QueueOk(w', w'.queues[i]) {
      assert i < |w.queues| ==> w'.queues[i] == w.queues[i] && QueueOk(w, w.queues[i]);
    }
    forall k | k in w.ids && Bounded(w') ensures w.ids[k] <= WRAP {
      assert k in w'.ids && w'.ids[k] >= w.ids[k];
    }
  }

  /** Different queues have different names. */
  lemma NamesApart(p: Process, w: World, q: Queue, q': Queue)
    requires Named(p) && Inv(w) && Bounded(w)
    requires HasNs(w, q.r) && HasNs(w, q'.r) && 1 <= q.nth <= WRAP && 1 <= q'.nth <= WRAP && q != q'
    ensures NameOf(p, w, q) != NameOf(p, w, q')
  {
    hide MqName, SS.RequestOk, SS.GraveyardOk;
    if NameOf(p, w, q) == NameOf(p, w, q') {
      UsableSession(p, w, q.r);
      UsableSession(p, w, q'.r);
      MqNameInjective(SessionOf(p, w, q.r), q.c2s, q.nth % WRAP, SessionOf(p, w, q'.r), q'.c2s, q'.nth % WRAP);
      Decimals.Injective(w.srv.reqs[q.r].ns.value, w.srv.reqs[q'.r].ns.value);
      SS.NamesDistinctIff(w.srv);
    }
  }

  lemma UsableSession(p: Process, w: World, r: nat)
    requires Named(p) && HasNs(w, r)
    ensures Usable(SessionOf(p, w, r))
  {
    var ns := Decimals.ToString(w.srv.reqs[r].ns.value);
    assert forall i :: 0 <= i < |ns| ==> Decimals.IsDigit(ns[i]);
  }

  /** A name stays what it was. */
  lemma NameStays(p: Process, w: World, s: Step, q: Queue)
    requires Inv(w) && Enabled(p, w, s) && HasNs(w, q.r)
    ensures HasNs(Next(p, w, s), q.r) && NameOf(p, Next(p, w, s), q) == NameOf(p, w, q)
  {
    hide SS.Inv, SS.Next, SS.Enabled, Create, MqName, Existing;
    if s.Srv? {
      NsStays(w.srv, s.t, q.r);
    }
  }

  /** The id that a session goes on from is the one the allocation leaves, whatever becomes of the channel; other sessions
      keep theirs. */
  lemma IdsAgree(p: Process, w: World, r: nat, env: Env)
    requires HasNs(w, r)
    ensures var w' := Next(p, w, Open(r, env));
            && AllocOf(w', r) == Create(SessionOf(p, w, r), p.cfg, AllocOf(w, r), env).0
            && forall q: nat :: q != r ==> Taken(w', q) == Taken(w, q)
  {
    hide MqName;
    assert MqAllocation.Next(Taken(w, r) % WRAP) == (Taken(w, r) + 1) % WRAP;
  }

  lemma OpenedNames(p: Process, w: World, r: nat, env: Env)
    requires HasNs(w, r)
    ensures var (a, outs) := Create(SessionOf(p, w, r), p.cfg, AllocOf(w, r), env);
            var n := Taken(w, r) + 1;
            && (!outs.ok || p.cfg.SocketOnly? ==> a.live == w.live)
            && (outs.ok && !p.cfg.SocketOnly? ==>
                  && MakeMqs(SessionOf(p, w, r), AllocOf(w, r), env).1
                  && a.live == w.live + {NameOf(p, w, Queue(r, true, n)), NameOf(p, w, Queue(r, false, n))})
  {
    hide MqName;
    AllOrNothing(SessionOf(p, w, r), p.cfg, AllocOf(w, r), env);
    NextId(SessionOf(p, w, r), p.cfg, AllocOf(w, r), env);
    assert MqAllocation.Next(Taken(w, r) % WRAP) == (Taken(w, r) + 1) % WRAP;
  }

  lemma NextId(n: Session, cfg: Config, a: Alloc, env: Env)
    ensures var (a', r) := Create(n, cfg, a, env);
            r.ok && !cfg.SocketOnly? ==> a'.lastId == MqAllocation.Next(a.lastId) && MakeMqs(n, a, env).1
  {
  }

  lemma ExistingStep(p: Process, w: World, s: Step)
    requires Named(p) && Inv(w) && Bounded(w) && Existing(p, w) && Enabled(p, w, s)
    ensures Existing(p, Next(p, w, s))
  {
    hide SS.Inv, SS.Next, SS.Enabled, Create, NameOf;
    var w' := Next(p, w, s);
    if s.Open? {
      OpenedNames(p, w, s.r, s.env);
    }
    forall i | 0 <= i < |w'.queues| && i !in w'.closed
      ensures HasNs(w', w'.queues[i].r) && NameOf(p, w', w'.queues[i]) in w'.live
    {
      NameStays(p, w, s, w'.queues[i]);
      if s.Close? {
        NamesApart(p, w, w.queues[i], w.queues[s.i]);
      }
    }
  }

  lemma {:induction false} InvInRuns(p: Process, worlds: seq<World>, steps: seq<Step>, i: nat)
    requires Run(p, worlds, steps) && i < |worlds|
    ensures Inv(worlds[i])
  {
    if i > 0 {
      hide Next, Enabled;
      InvInRuns(p, worlds, steps, i - 1);
      InvStep(p, worlds[i - 1], steps[i - 1]);
    }
  }

  // ----- What the process can count on -----

  /** All the queues the process has made so far, of all its sessions and channels, have different names, until a counter
      has gone round. */
  lemma {:induction false} QueuesApart(p: Process, worlds: seq<World>, steps: seq<Step>, i: nat, j: nat, k: nat)
    requires Run(p, worlds, steps) && i < |worlds| && Named(p) && Bounded(worlds[i])
    requires j < k < |worlds[i].queues|
    ensures HasNs(worlds[i], worlds[i].queues[j].r) && HasNs(worlds[i], worlds[i].queues[k].r)
    ensures NameOf(p, worlds[i], worlds[i].queues[j]) != NameOf(p, worlds[i], worlds[i].queues[k])
  {
    hide Run, NameOf;
    InvInRuns(p, worlds, steps, i);
    NamesApart(p, worlds[i], worlds[i].queues[j], worlds[i].queues[k]);
  }

  /** Each queue exists until it is removed itself: nothing done for another channel or session takes it away. */
  lemma {:induction false} QueuesExist(p: Process, worlds: seq<World>, steps: seq<Step>, i: nat)
    requires Run(p, worlds, steps) && i < |worlds| && Named(p) && Bounded(worlds[i])
    ensures Existing(p, worlds[i])
  {
    if i == 0 {
      hide NameOf, Named;
    } else {
      hide Next, Enabled, Existing, Bounded, Inv, Named;
      InvInRuns(p, worlds, steps, i - 1);
      var w, s := worlds[i - 1], steps[i - 1];
      assert Enabled(p, w, s) && worlds[i] == Next(p, w, s);
      InvStep(p, w, s);
      QueuesExist(p, worlds, steps, i - 1);
      ExistingStep(p, w, s);
    }
  }

  /** A system call that the configuration needs fails. */
  predicate CallFails(cfg: Config, env: Env) {
    match cfg
    case SocketOnly => env.pair
    case MqsOnly => env.c2s || env.s2c || env.channel
    case MqsAndSocket => env.c2s || env.s2c || env.pair || env.channel
  }

  /** A channel's creation is never in the way of another, whatever failed before: it fails if and only if a system call
      fails, or one of its two names exists; and then it is another process that has made that name. */
  lemma {:induction false} OwnNotInTheWay(p: Process, worlds: seq<World>, steps: seq<Step>, i: nat)
    requires Run(p, worlds, steps) && i < |steps| && Named(p) && Bounded(worlds[i])
    requires steps[i].Open? && Taken(worlds[i], steps[i].r) < WRAP
    ensures var w, r, env := worlds[i], steps[i].r, steps[i].env;
            HasNs(w, r) && var n := Taken(w, r) + 1;
            && (forall c2s, k :: 0 <= k < |w.queues| ==>
                  HasNs(w, w.queues[k].r) && NameOf(p, w, Queue(r, c2s, n)) != NameOf(p, w, w.queues[k]))
            && (!Create(SessionOf(p, w, r), p.cfg, AllocOf(w, r), env).1.ok <==>
                  CallFails(p.cfg, env)
                  || (!p.cfg.SocketOnly? && exists c2s :: NameOf(p, w, Queue(r, c2s, n)) in w.live))
  {
    hide MqName, Create;
    InvInRuns(p, worlds, steps, i);
    var w, r, env := worlds[i], steps[i].r, steps[i].env;
    var n := Taken(w, r) + 1;
    forall c2s, k | 0 <= k < |w.queues|
      ensures HasNs(w, w.queues[k].r) && NameOf(p, w, Queue(r, c2s, n)) != NameOf(p, w, w.queues[k])
    {
      assert QueueOk(w, w.queues[k]);
      NamesApart(p, w, Queue(r, c2s, n), w.queues[k]);
    }
    FailsOnly(p, w, r, env);
  }

  lemma FailsOnly(p: Process, w: World, r: nat, env: Env)
    requires HasNs(w, r)
    ensures var n := Taken(w, r) + 1;
            !Create(SessionOf(p, w, r), p.cfg, AllocOf(w, r), env).1.ok <==>
              CallFails(p.cfg, env)
              || (!p.cfg.SocketOnly?
                  && (NameOf(p, w, Queue(r, true, n)) in w.live || NameOf(p, w, Queue(r, false, n)) in w.live))
  {
    hide MqName;
    assert MqAllocation.Next(Taken(w, r) % WRAP) == (Taken(w, r) + 1) % WRAP;
    DirectionsDiffer(SessionOf(p, w, r), (Taken(w, r) + 1) % WRAP);
  }

  /** Ids are used up by late failures: nothing was made, and the next channel gets the second id. */
  lemma LateFailureKeepsId(p: Process, w: World, r: nat)
    requires HasNs(w, r) && p.cfg.MqsAndSocket? && Taken(w, r) == 0 && w.live == {}
    ensures var w' := Next(p, w, Open(r, Env(false, false, true, false)));
            w'.queues == w.queues && w'.live == {} && Taken(w', r) == 1 && AllocOf(w', r).lastId == 1
  {
    hide MqName;
    DirectionsDiffer(SessionOf(p, w, r), 1);
    OpenedNames(p, w, r, Env(false, false, true, false));
  }
}
