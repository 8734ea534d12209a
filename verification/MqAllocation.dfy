/** The resources of one opened channel, made by a server session: two message queues, by name, and a socket pair, as the
    configuration has it.  The kernel is a set of the names of existing message queues. */
module MqAllocation {
  import opened MasterChannel
  import opened SharedNames
  import Decimals

  /** What a session's message queue names are built from. */
  datatype Session = Session(y: Syntax, resource: string, srvApp: string, srvNs: string, cliApp: string, cliNs: string)

  function MqName(n: Session, c2s: bool, id: nat): string {
    Slash(n.y, Slash(n.y, Build1(n.y, n.resource, n.srvApp, n.srvNs, n.cliApp, n.cliNs), if c2s then "c2s" else "s2c"),
          Decimals.ToString(id))
  }

  /** At least one of the two is configured. */
  datatype Config = MqsOnly | SocketOnly | MqsAndSocket

  /** Which system calls fail; making a queue also fails if the name exists. */
  datatype Env = Env(c2s: bool, s2c: bool, pair: bool, channel: bool)

  /** The kernel and `m_last_channel_mq_id`. */
  datatype Alloc = Alloc(live: set<string>, lastId: nat)

  const WRAP := 0x1_0000_0000   // unsigned int

  /** The out-arguments: the two names, and is there a native handle to transmit. */
  datatype Outs = Outs(ok: bool, c2s: string, s2c: string, handle: bool)

  function Next(id: nat): nat {
    (id + 1) % WRAP
  }

  /** `make_channel_mqs()`: the state after it, and did it work. */
  function MakeMqs(n: Session, a: Alloc, env: Env): (Alloc, bool) {
    var id := Next(a.lastId);
    var c2s, s2c := MqName(n, true, id), MqName(n, false, id);
    if env.c2s || c2s in a.live then (a, false)
    else if env.s2c || s2c in a.live + {c2s} then (a.(live := a.live + {c2s} - {c2s}), false)
    else (Alloc(a.live + {c2s, s2c}, id), true)
  }

  /** `create_channel_and_resources()` */
  function Create(n: Session, cfg: Config, a: Alloc, env: Env): (Alloc, Outs) {
    if cfg.SocketOnly? then (a, Outs(!env.pair, [], [], !env.pair))
    else
      var (a1, made) := MakeMqs(n, a, env);
      var c2s, s2c := MqName(n, true, a1.lastId), MqName(n, false, a1.lastId);
      if !made then (a1, Outs(false, [], [], false))
      else if cfg.MqsAndSocket? && env.pair then (a1.(live := a1.live - {c2s, s2c}), Outs(false, c2s, s2c, false))
      else if env.channel then (a1.(live := a1.live - {c2s, s2c}), Outs(false, c2s, s2c, cfg.MqsAndSocket?))
      else (a1, Outs(true, c2s, s2c, cfg.MqsAndSocket?))
  }

  /** All or nothing: a failure leaves the kernel as it was; success adds exactly two names, both new, unless only a
      socket pair is configured. */
  lemma {:induction false} AllOrNothing(n: Session, cfg: Config, a: Alloc, env: Env)
    ensures var (a', r) := Create(n, cfg, a, env);
            && (!r.ok ==> a'.live == a.live)
            && (r.ok && cfg.SocketOnly? ==> a' == a && r.handle)
            && (r.ok && !cfg.SocketOnly? ==>
                  && r.c2s !in a.live && r.s2c !in a.live && r.c2s != r.s2c
                  && a'.live == a.live + {r.c2s, r.s2c}
                  && r.c2s == MqName(n, true, a'.lastId) && r.s2c == MqName(n, false, a'.lastId)
                  && r.handle == cfg.MqsAndSocket?)
  {
    var (a', r) := Create(n, cfg, a, env);
    var id := Next(a.lastId);
    DirectionsDiffer(n, id);
    if !r.ok {
      assert a'.live == a.live;
    }
  }

  lemma DirectionsDiffer(n: Session, id: nat)
    ensures MqName(n, true, id) != MqName(n, false, id)
  {
    var base := Build1(n.y, n.resource, n.srvApp, n.srvNs, n.cliApp, n.cliNs);
    assert MqName(n, true, id)[|base| + 1] == 'c' && MqName(n, false, id)[|base| + 1] == 's';
  }

  /** `mdt_builder()` asserts that a failure leaves no handle.  The assertion fails exactly when both kinds of pipe are
      configured, everything is made, and then the channel object cannot be. */
  lemma {:induction false} HandleLeftExactly(n: Session, cfg: Config, a: Alloc, env: Env)
    ensures var r := Create(n, cfg, a, env).1;
            !r.ok && r.handle <==> cfg.MqsAndSocket? && MakeMqs(n, a, env).1 && !env.pair && env.channel
  {
  }

  /** The first channel of a session, with both kinds of pipe, reaches the failing assertion. */
  lemma HandleLeft(n: Session) returns (allocs: seq<Alloc>, envs: seq<Env>)
    ensures Runs(n, MqsAndSocket, allocs, envs) && |envs| == 1 && allocs[0].live == {} == allocs[1].live
    ensures var r := Create(n, MqsAndSocket, allocs[0], envs[0]).1; !r.ok && r.handle
  {
    hide MqName;
    DirectionsDiffer(n, 1);
    envs := [Env(false, false, false, true)];
    allocs := [Alloc({}, 0), Create(n, MqsAndSocket, Alloc({}, 0), envs[0]).0];
    assert allocs[1].live == {} by { AllOrNothing(n, MqsAndSocket, Alloc({}, 0), envs[0]); }
  }

  // ----- Ids over a session -----

  ghost predicate Runs(n: Session, cfg: Config, allocs: seq<Alloc>, envs: seq<Env>) {
    && |allocs| == |envs| + 1 && allocs[0].lastId == 0
    && forall i :: 0 <= i < |envs| ==> allocs[i + 1].lastId == Create(n, cfg, allocs[i], envs[i]).0.lastId
  }

  lemma IdStep(n: Session, cfg: Config, a: Alloc, env: Env)
    requires a.lastId < WRAP - 1
    ensures var (a', r) := Create(n, cfg, a, env);
            a.lastId <= a'.lastId <= a.lastId + 1 && (r.ok && !cfg.SocketOnly? ==> a'.lastId == a.lastId + 1)
  {
  }

  lemma {:induction false} IdsGrow(n: Session, cfg: Config, allocs: seq<Alloc>, envs: seq<Env>, i: nat, j: nat)
    requires Runs(n, cfg, allocs, envs) && |envs| < WRAP && i <= j <= |envs|
    ensures allocs[i].lastId <= allocs[j].lastId <= j
  {
    if j == 0 {
    } else if i < j {
      IdsGrow(n, cfg, allocs, envs, i, j - 1);
      IdStep(n, cfg, allocs[j - 1], envs[j - 1]);
    } else {
      IdsGrow(n, cfg, allocs, envs, i - 1, j - 1);
      IdStep(n, cfg, allocs[j - 1], envs[j - 1]);
    }
  }

  /** The ids of a session's channels strictly increase, whatever fails in between, and whatever else happens to the
      kernel's names, until the counter overflows. */
  lemma {:induction false} IdsIncrease(n: Session, cfg: Config, allocs: seq<Alloc>, envs: seq<Env>, i: nat, j: nat)
    requires Runs(n, cfg, allocs, envs) && |envs| < WRAP && i < j < |envs| && !cfg.SocketOnly?
    requires Create(n, cfg, allocs[i], envs[i]).1.ok && Create(n, cfg, allocs[j], envs[j]).1.ok
    ensures allocs[i + 1].lastId < allocs[j + 1].lastId
  {
    IdsGrow(n, cfg, allocs, envs, i + 1, j);
    IdsGrow(n, cfg, allocs, envs, 0, i);
    IdStep(n, cfg, allocs[j], envs[j]);
  }

  // ----- Names -----

  predicate Usable(n: Session) {
    && Plain(n.y, n.resource) && Plain(n.y, n.srvApp) && Plain(n.y, n.srvNs) && Plain(n.y, n.cliApp) && Plain(n.y, n.cliNs)
    && !Decimals.IsDigit(n.y.sep) && n.y.sep !in "c2s" && n.y.sep !in "s2c"
  }

  function Parts(n: Session): seq<string> {
    [n.resource, n.srvApp, n.srvNs, n.cliApp, n.cliNs]
  }

  lemma MqNameIsRun(n: Session, c2s: bool, id: nat)
    ensures MqName(n, c2s, id) == Root(n.y) + Run(n.y, Parts(n) + [if c2s then "c2s" else "s2c"]) + Decimals.ToString(id)
  {
    var d := if c2s then "c2s" else "s2c";
    var rest := d + [n.y.sep] + Decimals.ToString(id);
    Build1IsRun(n.y, Parts(n), rest);
    RunAppend(n.y, Parts(n), d);
    assert MqName(n, c2s, id) == Build1(n.y, n.resource, n.srvApp, n.srvNs, n.cliApp, n.cliNs) + [n.y.sep] + rest;
    assert Root(n.y) + Run(n.y, Parts(n)) + rest
        == Root(n.y) + (Run(n.y, Parts(n)) + d + [n.y.sep]) + Decimals.ToString(id);
  }

  /** A message queue's name says all: resource type, applications, namespaces, direction and id. */
  lemma {:induction false} MqNameInjective(n: Session, c2s: bool, id: nat, n': Session, c2s': bool, id': nat)
    requires Usable(n) && Usable(n') && n'.y == n.y && MqName(n, c2s, id) == MqName(n', c2s', id')
    ensures n == n' && c2s == c2s' && id == id'
  {
    hide Run, MqName;
    var xs := Parts(n) + [if c2s then "c2s" else "s2c"];
    var zs := Parts(n') + [if c2s' then "c2s" else "s2c"];
    MqNameIsRun(n, c2s, id);
    MqNameIsRun(n', c2s', id');
    SameComponents(n.y, xs, Decimals.ToString(id), zs, Decimals.ToString(id'));
    assert xs[0] == zs[0] && xs[1] == zs[1] && xs[2] == zs[2] && xs[3] == zs[3] && xs[4] == zs[4] && xs[5] == zs[5];
    assert "c2s"[0] != "s2c"[0];
    Decimals.Injective(id, id');
  }

  /** The start-up clean-up of a server application reaches a message queue if and only if it is one of that application,
      of any of its earlier processes. */
  lemma {:induction false} CleanUpExact(n: Session, c2s: bool, id: nat, srvApp: string)
    requires Good(n.y) && Usable(n) && Plain(n.y, srvApp)
    ensures Prefix(n.y, n.resource, srvApp) <= MqName(n, c2s, id) <==> n.srvApp == srvApp
  {
    var rest := [n.y.sep] + (if c2s then "c2s" else "s2c") + [n.y.sep] + Decimals.ToString(id);
    PrefixExact(n.y, n.resource, srvApp, Parts(n), rest);
    assert MqName(n, c2s, id) == Build1(n.y, n.resource, n.srvApp, n.srvNs, n.cliApp, n.cliNs) + rest;
  }

  // ----- The object -----

  /** A server session's part in it.  The kernel's set is shared; other processes change it between calls. */
  class Allocator {
    const n: Session
    const cfg: Config
    var live: set<string>
    var lastChannelMqId: nat

    ghost function View(): Alloc
      reads this
    {
      Alloc(live, lastChannelMqId)
    }

    constructor (n: Session, cfg: Config, live: set<string>)
      ensures View() == Alloc(live, 0) && this.n == n && this.cfg == cfg
    {
      this.n, this.cfg, this.live, lastChannelMqId := n, cfg, live, 0;
    }

    /** One creation of a queue, that must not exist. */
    method CreateOnly(name: string, fails: bool) returns (ok: bool)
      modifies this`live
      ensures ok == !(fails || name in old(live))
      ensures live == if ok then old(live) + {name} else old(live)
    {
      ok := !fails && name !in live;
      if ok {
        live := live + {name};
      }
    }

    method RemovePersistent(name: string)
      modifies this`live
      ensures live == old(live) - {name}
    {
      live := live - {name};
    }

    method MakeChannelMqs(env: Env) returns (ok: bool, c2s: string, s2c: string)
      requires lastChannelMqId < WRAP
      modifies this
      ensures (View(), ok) == MakeMqs(n, old(View()), env) && lastChannelMqId < WRAP
      ensures ok ==> c2s == MqName(n, true, lastChannelMqId) && s2c == MqName(n, false, lastChannelMqId)
      ensures !ok ==> c2s == [] && s2c == []
    {
      ghost var before := lastChannelMqId;
      lastChannelMqId := (lastChannelMqId + 1) % WRAP;
      var nameC2s, nameS2c := MqName(n, true, lastChannelMqId), MqName(n, false, lastChannelMqId);
      ok := CreateOnly(nameC2s, env.c2s);
      if !ok {
        lastChannelMqId := (lastChannelMqId + WRAP - 1) % WRAP;
        return false, [], [];
      }
      ok := CreateOnly(nameS2c, env.s2c);
      if !ok {
        lastChannelMqId := (lastChannelMqId + WRAP - 1) % WRAP;
        RemovePersistent(nameC2s);
        return false, [], [];
      }
      assert live == old(live) + {nameC2s, nameS2c};
      return true, nameC2s, nameS2c;
    }

    method CreateChannelAndResources(env: Env) returns (r: Outs)
      requires lastChannelMqId < WRAP
      modifies this
      ensures (View(), r) == Create(n, cfg, old(View()), env) && lastChannelMqId < WRAP
    {
      if cfg.SocketOnly? {
        return Outs(!env.pair, [], [], !env.pair);
      }
      var ok, c2s, s2c := MakeChannelMqs(env);
      if !ok {
        return Outs(false, [], [], false);
      }
      var handle := cfg.MqsAndSocket? && !env.pair;
      if (cfg.MqsAndSocket? && env.pair) || env.channel {
        ghost var made := live;
        RemovePersistent(c2s);
        RemovePersistent(s2c);
        assert live == made - {c2s, s2c};
        return Outs(false, c2s, s2c, handle);
      }
      return Outs(true, c2s, s2c, handle);
    }
  }
}
