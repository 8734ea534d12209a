/** One session server and any number of clients at a time: each attempt of a client that gets a socket meets the server
    session of an accept of its own, and a session's namespace is the one the session server numbers it with. */
module ManySessions {
  import opened MasterChannel
  import Decimals
  import CM = ClientModel
  import CR = ClientRuns
  import SM = ServerModel
  import SR = ServerRuns
  import SP = SessionProtocol
  import SG = SessionGuarantees
  import SS = SessionServer

  /** `at`: the accept whose session a client has met last; `met`: all accepts whose session was met. */
  datatype Joint = Joint(host: SS.State, pairs: seq<SP.World>, at: seq<Option<nat>>, met: set<nat>)

  /** A step of the session server; or of the client `c` and its server session, which is that of the accept `r`. */
  datatype Step = Host(h: SS.Step) | Pair(c: nat, t: SP.Step, r: nat)

  /** An attempt gets a socket, and with it a new server session. */
  predicate Meets(w: SP.World, t: SP.Step) {
    t.Connect? && t.run.Requested? && w.cli.conn.state == CM.Null
  }

  /** A server session has its namespace made. */
  predicate Names(s: SM.Server, t: SR.Step) {
    && t.DoTask? && s.link.queue != [] && s.link.queue[0].LogInTask? && s.link.queue[0].req.LogInReq?
    && SM.NsMade(s, s.link.queue[0].req, t.ops.env)
  }

  predicate PairNames(w: SP.World, t: SP.Step) {
    t.Srv? && Names(w.srv, t.s)
  }

  ghost predicate Enabled(j: Joint, s: Step) {
    match s
    case Host(t) => SS.Enabled(j.host, t) && !t.MakeNs? && (t.LogInDone? ==> Told(j, t.r, t.result))
    case Pair(c, t, r) =>
      && c < |j.pairs| == |j.at| && SP.Enabled(j.pairs[c], t)
      && (Meets(j.pairs[c], t) ==> SS.At(j.host, r, SS.LoggingIn) && r !in j.met && j.host.reqs[r].ns.None?)
      && (PairNames(j.pairs[c], t) ==>
            && j.at[c] == Some(r) && SS.Enabled(j.host, SS.MakeNs(r))
            && t.s.ops.env.ns == Decimals.ToString((j.host.lastNs + 1) % SS.WRAP))
  }

  /** The accept's log-in handler is run with what its session says. */
  ghost predicate Told(j: Joint, r: nat, result: SS.Result) {
    forall c :: 0 <= c < |j.pairs| == |j.at| && j.at[c] == Some(r) ==>
      j.pairs[c].srv.login.dones != [] && j.pairs[c].srv.login.dones[0].result == result
  }

  ghost function Next(j: Joint, s: Step): Joint
    requires Enabled(j, s)
  {
    match s
    case Host(t) => j.(host := SS.Next(j.host, t))
    case Pair(c, t, r) =>
      var w := j.pairs[c];
      var j1 := j.(pairs := j.pairs[c := SP.Next(w, t)]);
      if Meets(w, t) then j1.(at := j.at[c := Some(r)], met := j.met + {r})
      else if PairNames(w, t) then j1.(host := SS.Next(j.host, SS.MakeNs(r)))
      else j1
  }

  ghost predicate Run(states: seq<Joint>, steps: seq<Step>) {
    && |states| == |steps| + 1 && Initial(states[0])
    && forall i :: 0 <= i < |steps| ==> Enabled(states[i], steps[i]) && states[i + 1] == Next(states[i], steps[i])
  }

  ghost predicate Initial(j: Joint) {
    && j.host == SS.Initial(j.host.graveyardRuns) && |j.at| == |j.pairs| && j.met == {}
    && forall c :: 0 <= c < |j.pairs| ==>
         j.at[c] == None && j.pairs[c].cli == CM.Fresh(j.pairs[c].cli.cfg) && SR.Initial(j.pairs[c].srv)
  }

  // ----- The namespace of a server session -----

  lemma LogInNs(s: SM.Server, m: Msg, env: SM.LogInEnv, ops: SM.LogInOps)
    requires m.LogInReq?
    ensures SM.OnLogInReq(s, m, env, ops).login.ns == if SM.NsMade(s, m, env) then Some(env.ns) else s.login.ns
  {
    hide SM.NsMade, SM.LogInReqError, SM.Respond;
    var login := if SM.NsMade(s, m, env) then s.login.(ns := Some(env.ns)) else s.login;
    if s.link.chan.Some? {
      RespondNs(s.(login := login), m.nCli, if s.cfg.wantsSrv then env.nSrv else 0, env.ns, ops);
    }
  }

  lemma RespondNs(s: SM.Server, nCli: nat, nSrv: nat, ns: string, ops: SM.LogInOps)
    requires s.link.chan.Some?
    ensures SM.Respond(s, nCli, nSrv, ns, ops).login.ns == s.login.ns
  {
    hide SM.InitMsgs, SM.InitEnds;
  }

  lemma TaskNs(s: SM.Server, ops: SM.Ops)
    requires SR.Enabled(s, SR.DoTask(ops))
    ensures SM.RunTask(s, ops).login.ns == if Names(s, SR.DoTask(ops)) then Some(ops.env.ns) else s.login.ns
  {
    hide SM.OnLogInReq, SM.NsMade;
    match s.link.queue[0]
    case LogInTask(_, m) =>
      var s1 := s.(link := s.link.(queue := s.link.queue[1..]));
      LogInNs(s1, m, ops.env, ops.login);
      assert SM.NsMade(s1, m, ops.env) == SM.NsMade(s, m, ops.env) by { NsMadeSame(s, s1, m, ops.env); }
    case _ =>
  }

  lemma NsMadeSame(s: SM.Server, s': SM.Server, m: Msg, env: SM.LogInEnv)
    requires m.LogInReq? && s'.cfg == s.cfg
    ensures SM.NsMade(s', m, env) == SM.NsMade(s, m, env)
  {
  }

  lemma ServerNs(s: SM.Server, t: SR.Step)
    requires SR.Enabled(s, t)
    ensures SR.Next(s, t).login.ns == if Names(s, t) then Some(t.ops.env.ns) else s.login.ns
  {
    hide SM.RunTask, SM.OpenStart, SM.Receive, SM.ExpectAll;
    match t
    case DoTask(ops) => TaskNs(s, ops);
    case DoOpen(b, op) => OpenNs(s, b, op);
    case _ =>
  }

  lemma OpenNs(s: SM.Server, b: nat, op: SendOp)
    requires b < |s.mdts| && s.link.chan.Some?
    ensures SM.OpenStart(s, b, op).0.login == s.login
  {
    hide SM.Send;
  }

  lemma PairNs(w: SP.World, t: SP.Step)
    requires SP.Enabled(w, t)
    ensures SP.Next(w, t).srv.login.ns ==
              if Meets(w, t) then None else if PairNames(w, t) then Some(t.s.ops.env.ns) else w.srv.login.ns
  {
    hide SR.Next, SR.Enabled, CR.Next, CR.Enabled, Names;
    if t.Srv? || t.ToServer? {
      SP.StepEnabled(w, t);
      ServerNs(w.srv, SP.SrvStep(w, t));
      if t.ToServer? {
        assert !Names(w.srv, SP.SrvStep(w, t)) by { DeliveryNamesNone(w, t); }
      }
    }
  }

  lemma DeliveryNamesNone(w: SP.World, t: SP.Step)
    requires SP.Enabled(w, t) && t.ToServer?
    ensures !Names(w.srv, SP.SrvStep(w, t))
  {
  }

  // ----- The invariant -----

  /** The session `r` is the server session of the pair: it has a namespace if that does, the same. */
  ghost predicate Numbered(w: SP.World, host: SS.State, r: nat) {
    && r < |host.reqs|
    && (w.srv.login.ns.Some? ==> host.reqs[r].ns.Some? && w.srv.login.ns.value == Decimals.ToString(host.reqs[r].ns.value))
  }

  ghost predicate PairOk(j: Joint, c: nat)
    requires c < |j.pairs| == |j.at|
  {
    && (j.at[c].None? ==> j.pairs[c].srv.login.ns.None?)
    && (j.at[c].Some? ==> j.at[c].value in j.met && Numbered(j.pairs[c], j.host, j.at[c].value))
  }

  ghost predicate Inv(j: Joint) {
    && |j.at| == |j.pairs| && SS.Inv(j.host)
    && (forall c :: 0 <= c < |j.pairs| ==> PairOk(j, c))
    && (forall c, d :: 0 <= c < d < |j.pairs| && j.at[c].Some? ==> j.at[c] != j.at[d])
  }

  lemma HostStep(j: Joint, t: SS.Step)
    requires Inv(j) && SS.Enabled(j.host, t)
    ensures Inv(j.(host := SS.Next(j.host, t)))
  {
    hide SS.Inv, SS.Next, SS.Enabled;
    SS.InvStep(j.host, t);
    forall c | 0 <= c < |j.pairs| ensures PairOk(j.(host := SS.Next(j.host, t)), c) {
      assert PairOk(j, c);
      if j.at[c].Some? {
        SS.CallsStay(j.host, t, j.at[c].value);
      }
    }
  }

  lemma MeetStep(j: Joint, c: nat, t: SP.Step, r: nat)
    requires Inv(j) && Enabled(j, Pair(c, t, r)) && Meets(j.pairs[c], t)
    ensures Inv(Next(j, Pair(c, t, r)))
  {
    hide SS.Inv, SP.Next, SP.Enabled;
    assert PairOk(j, c);
    PairNs(j.pairs[c], t);
    var j' := Next(j, Pair(c, t, r));
    forall d | 0 <= d < |j.pairs| ensures PairOk(j', d) && j.at[d] != Some(r) {
      assert PairOk(j, d);
    }
  }

  lemma NameStep(j: Joint, c: nat, t: SP.Step, r: nat)
    requires Inv(j) && Enabled(j, Pair(c, t, r)) && PairNames(j.pairs[c], t)
    ensures Inv(Next(j, Pair(c, t, r)))
  {
    hide SS.Inv, SP.Next, SP.Enabled;
    assert PairOk(j, c);
    PairNs(j.pairs[c], t);
    HostStep(j, SS.MakeNs(r));
    MadeNs(j.host, r);
    var j' := Next(j, Pair(c, t, r));
    forall d | 0 <= d < |j.pairs| ensures PairOk(j', d) {
      assert PairOk(j.(host := j'.host), d);
    }
  }

  lemma MadeNs(host: SS.State, r: nat)
    requires SS.Enabled(host, SS.MakeNs(r))
    ensures var host' := SS.Next(host, SS.MakeNs(r));
            r < |host'.reqs| && host'.reqs[r].ns == Some((host.lastNs + 1) % SS.WRAP)
  {
  }

  lemma OtherStep(j: Joint, c: nat, t: SP.Step, r: nat)
    requires Inv(j) && Enabled(j, Pair(c, t, r)) && !Meets(j.pairs[c], t) && !PairNames(j.pairs[c], t)
    ensures Inv(Next(j, Pair(c, t, r)))
  {
    hide SS.Inv, SP.Next, SP.Enabled;
    assert PairOk(j, c);
    PairNs(j.pairs[c], t);
    var j' := Next(j, Pair(c, t, r));
    forall d | 0 <= d < |j.pairs| ensures PairOk(j', d) {
      assert PairOk(j, d);
    }
  }

  lemma InvStep(j: Joint, s: Step)
    requires Inv(j) && Enabled(j, s)
    ensures Inv(Next(j, s))
  {
    hide Inv, SS.Next, SS.Enabled, SP.Enabled, SP.Next, Meets, PairNames;
    match s
    case Host(t) => HostStep(j, t);
    case Pair(c, t, r) =>
      if Meets(j.pairs[c], t) {
        MeetStep(j, c, t, r);
      } else if PairNames(j.pairs[c], t) {
        NameStep(j, c, t, r);
      } else {
        OtherStep(j, c, t, r);
      }
  }

  lemma InvInitial(j: Joint)
    requires Initial(j)
    ensures Inv(j)
  {
  }

  lemma {:induction false} InvInRuns(states: seq<Joint>, steps: seq<Step>, i: nat)
    requires Run(states, steps) && i < |states|
    ensures Inv(states[i])
  {
    hide Inv, Next, Enabled;
    if i > 0 {
      InvInRuns(states, steps, i - 1);
      InvStep(states[i - 1], steps[i - 1]);
    } else {
      InvInitial(states[0]);
    }
  }

  lemma PairStep(j: Joint, s: Step, c: nat)
    requires Enabled(j, s) && c < |j.pairs| && SP.Inv(j.pairs[c])
    ensures c < |Next(j, s).pairs| && SP.Inv(Next(j, s).pairs[c])
  {
    hide SP.Inv, SP.Next, SP.Enabled, SS.Next, SS.Enabled;
    if s.Pair? && s.c == c {
      SP.InvStep(j.pairs[c], s.t);
    }
  }

  /** Each client and its server sessions, among all others, keep what they keep on their own. */
  lemma {:induction false} PairsInRuns(states: seq<Joint>, steps: seq<Step>, i: nat, c: nat)
    requires Run(states, steps) && i < |states| && c < |states[0].pairs|
    ensures |states[i].pairs| == |states[0].pairs| && SP.Inv(states[i].pairs[c])
  {
    hide SP.Inv, Enabled, Next;
    if i > 0 {
      PairsInRuns(states, steps, i - 1, c);
      PairStep(states[i - 1], steps[i - 1], c);
      SameMany(states[i - 1], steps[i - 1]);
    } else {
      SP.InvInitial(states[0].pairs[c]);
    }
  }

  lemma SameMany(j: Joint, s: Step)
    requires Enabled(j, s)
    ensures |Next(j, s).pairs| == |j.pairs|
  {
    hide SP.Next, SS.Next, SP.Enabled, SS.Enabled;
  }

  lemma {:induction false} ManyInRuns(states: seq<Joint>, steps: seq<Step>, i: nat)
    requires Run(states, steps) && i < |states|
    ensures |states[i].pairs| == |states[0].pairs|
  {
    hide Enabled, Next;
    if i > 0 {
      ManyInRuns(states, steps, i - 1);
      SameMany(states[i - 1], steps[i - 1]);
    }
  }

  // ----- What the client and the server can count on -----

  /** A client in PEER state holds the namespace that the session server made for its session; and until the counter has
      gone round no other session has it, whether its client is connected, was, or never got that far. */
  lemma {:induction false} SharedByNoOther(states: seq<Joint>, steps: seq<Step>, i: nat, c: nat)
    requires Run(states, steps) && i < |states| && c < |states[i].pairs|
    requires states[i].pairs[c].cli.conn.state == CM.InPeer && |states[i].host.made| <= SS.WRAP
    ensures var j := states[i];
            var cli, reqs := j.pairs[c].cli, j.host.reqs;
            && |j.at| == |j.pairs| && j.at[c].Some? && j.at[c].value < |reqs| && reqs[j.at[c].value].ns.Some?
            && cli.cliNs == Some(Decimals.ToString(reqs[j.at[c].value].ns.value)) == j.pairs[c].srv.login.ns
            && (forall q :: 0 <= q < |reqs| && q != j.at[c].value && reqs[q].ns.Some? ==>
                  Decimals.ToString(reqs[q].ns.value) != cli.cliNs.value)
            && (forall d :: 0 <= d < |j.pairs| && d != c && j.pairs[d].cli.conn.state == CM.InPeer ==>
                  j.pairs[d].cli.cliNs != cli.cliNs)
  {
    hide Run, SP.Inv;
    InvInRuns(states, steps, i);
    ManyInRuns(states, steps, i);
    var j := states[i];
    var reqs := j.host.reqs;
    PairsInRuns(states, steps, i, c);
    OwnNs(j, c);
    var r := j.at[c].value;
    SS.NamesDistinctIff(j.host);
    forall q | 0 <= q < |reqs| && q != r && reqs[q].ns.Some?
      ensures Decimals.ToString(reqs[q].ns.value) != Decimals.ToString(reqs[r].ns.value)
    {
      NsApart(j.host, q, r);
    }
    forall d | 0 <= d < |j.pairs| && d != c && j.pairs[d].cli.conn.state == CM.InPeer
      ensures j.pairs[d].cli.cliNs != j.pairs[c].cli.cliNs
    {
      PairsInRuns(states, steps, i, d);
      OwnNs(j, d);
    }
  }

  lemma OwnNs(j: Joint, c: nat)
    requires Inv(j) && c < |j.pairs| && SP.Inv(j.pairs[c]) && j.pairs[c].cli.conn.state == CM.InPeer
    ensures j.at[c].Some? && j.at[c].value < |j.host.reqs| && j.host.reqs[j.at[c].value].ns.Some?
    ensures j.pairs[c].cli.cliNs == Some(Decimals.ToString(j.host.reqs[j.at[c].value].ns.value)) == j.pairs[c].srv.login.ns
  {
    hide SP.Inv, SS.Inv;
    assert PairOk(j, c);
    SG.NamesMatch(j.pairs[c]);
  }

  lemma NsApart(host: SS.State, q: nat, r: nat)
    requires SS.NamesDistinct(host) && q < |host.reqs| && r < |host.reqs| && q != r
    requires host.reqs[q].ns.Some? && host.reqs[r].ns.Some?
    ensures Decimals.ToString(host.reqs[q].ns.value) != Decimals.ToString(host.reqs[r].ns.value)
  {
    if Decimals.ToString(host.reqs[q].ns.value) == Decimals.ToString(host.reqs[r].ns.value) {
      Decimals.Injective(host.reqs[q].ns.value, host.reqs[r].ns.value);
    }
  }
}
