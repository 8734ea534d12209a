/** The naming convention of shared resources: building a name from components, and taking a name apart again.

    The class of names itself is not part of this model.  What it contributes, a separator character, a root component and
    a sentinel component, are parameters here: everything holds for any of them, as long as the two components are
    non-empty and hold no separator. */
module SharedNames {
  import opened MasterChannel

  /** `newlines`: the characters that `.` does not match in the regular expressions. */
  datatype Syntax = Syntax(sep: char, magic: string, sentinel: string, newlines: set<char>)

  predicate Plain(y: Syntax, x: string) {
    x != [] && y.sep !in x
  }

  predicate Good(y: Syntax) {
    Plain(y, y.magic) && Plain(y, y.sentinel)
  }

  /** Does the separator end the name? */
  predicate HasTrailingSep(y: Syntax, name: string) {
    name != [] && name[|name| - 1] == y.sep
  }

  /** `name /= x`, for a name without a trailing separator. */
  function Slash(y: Syntax, name: string, x: string): string {
    name + [y.sep] + x
  }

  // ----- Building -----

  function Prefix(y: Syntax, resource: string, srvApp: string): (r: string)
    ensures HasTrailingSep(y, r)
  {
    Slash(y, Slash(y, Slash(y, Slash(y, [], y.magic), resource), srvApp), [])
  }

  /** What the builders demand of their arguments. */
  predicate Args1(y: Syntax, resource: string, srvApp: string, srvNs: string, cliApp: string, cliNs: string) {
    && resource != [] && srvApp != [] && srvApp != y.sentinel
    && srvNs != [] && srvNs != y.sentinel && cliApp != [] && cliApp != y.sentinel && cliNs != []
  }

  predicate Args2(y: Syntax, resource: string, srvApp: string, srvNs: string) {
    resource != [] && srvApp != [] && srvApp != y.sentinel && srvNs != []
  }

  /** Overload 1. */
  function Build1(y: Syntax, resource: string, srvApp: string, srvNs: string, cliApp: string, cliNs: string): string {
    Slash(y, Slash(y, Prefix(y, resource, srvApp) + srvNs, cliApp), cliNs)
  }

  /** Overload 2. */
  function Build2(y: Syntax, resource: string, srvApp: string, srvNs: string): string {
    Slash(y, Prefix(y, resource, srvApp) + srvNs, y.sentinel)
  }

  // ----- Taking apart -----

  /** The index of the first separator, or the length. */
  function FirstSep(y: Syntax, s: string): (i: nat)
    ensures i <= |s| && (i < |s| ==> s[i] == y.sep)
    ensures forall k :: 0 <= k < i ==> s[k] != y.sep
  {
    if s == [] || s[0] == y.sep then 0 else 1 + FirstSep(y, s[1..])
  }

  /** `k` times: a non-empty component, and the separator after it.  The result has the components and what follows. */
  function TakeComponents(y: Syntax, s: string, k: nat): (m: Option<(seq<string>, string)>)
    ensures m.Some? ==> |m.value.0| == k
  {
    if k == 0 then Some(([], s))
    else
      var i := FirstSep(y, s);
      if i == 0 || i == |s| then None
      else
        var rest := TakeComponents(y, s[i + 1..], k - 1);
        if rest.None? then None else Some(([s[..i]] + rest.value.0, rest.value.1))
  }

  predicate OneLine(y: Syntax, s: string) {
    forall i :: 0 <= i < |s| ==> s[i] !in y.newlines
  }

  function Root(y: Syntax): string {
    [y.sep] + y.magic + [y.sep]
  }

  /** The five components, and the rest. */
  function Decompose1(y: Syntax, name: string): Option<(seq<string>, string)> {
    if !(Root(y) <= name) then None
    else
      var m := TakeComponents(y, name[|Root(y)|..], 5);
      if m.None? || !OneLine(y, m.value.1) || m.value.0[2] == y.sentinel then None else m
  }

  /** The three components, and the rest. */
  function Decompose2(y: Syntax, name: string): Option<(seq<string>, string)> {
    if !(Root(y) <= name) then None
    else
      var m := TakeComponents(y, name[|Root(y)|..], 3);
      var tail := y.sentinel + [y.sep];
      if m.None? || !(tail <= m.value.1) || !OneLine(y, m.value.1[|tail|..]) then None
      else Some((m.value.0, m.value.1[|tail|..]))
  }

  // ----- What the regular expressions say -----

  /** Each component followed by the separator. */
  function Run(y: Syntax, xs: seq<string>): string {
    if xs == [] then [] else xs[0] + [y.sep] + Run(y, xs[1..])
  }

  predicate AllPlain(y: Syntax, xs: seq<string>) {
    forall i :: 0 <= i < |xs| ==> Plain(y, xs[i])
  }

  /** The whole of `name` is matched, with these captures. */
  predicate Matches1(y: Syntax, name: string, xs: seq<string>, rest: string) {
    |xs| == 5 && AllPlain(y, xs) && OneLine(y, rest) && name == Root(y) + Run(y, xs) + rest
  }

  predicate Matches2(y: Syntax, name: string, xs: seq<string>, rest: string) {
    |xs| == 3 && AllPlain(y, xs) && OneLine(y, rest) && name == Root(y) + Run(y, xs) + y.sentinel + [y.sep] + rest
  }

  lemma FirstSepOf(y: Syntax, x: string, t: string)
    requires y.sep !in x
    ensures FirstSep(y, x + [y.sep] + t) == |x|
  {
    var s := x + [y.sep] + t;
    assert s[|x|] == y.sep;
    assert forall k :: 0 <= k < |x| ==> s[k] == x[k] && x[k] in x;
  }

  /** `TakeComponents` finds the one way to split, if there is one. */
  lemma {:induction false} TakeIsMatch(y: Syntax, s: string, k: nat)
    ensures var m := TakeComponents(y, s, k);
            m.Some? ==> |m.value.0| == k && AllPlain(y, m.value.0) && s == Run(y, m.value.0) + m.value.1
  {
    hide Run, AllPlain, Plain;
    var i := FirstSep(y, s);
    if k == 0 {
      NoComponents(y, s);
    } else if i != 0 && i != |s| {
      TakeIsMatch(y, s[i + 1..], k - 1);
      var rest := TakeComponents(y, s[i + 1..], k - 1);
      if rest.Some? {
        OneMore(y, s, i, rest.value.0, rest.value.1);
      }
    }
  }

  lemma NoComponents(y: Syntax, s: string)
    ensures AllPlain(y, []) && s == Run(y, []) + s
  {
  }

  lemma OneMore(y: Syntax, s: string, i: nat, xs: seq<string>, t: string)
    requires 0 < i < |s| && s[i] == y.sep && (forall k :: 0 <= k < i ==> s[k] != y.sep)
    requires AllPlain(y, xs) && s[i + 1..] == Run(y, xs) + t
    ensures AllPlain(y, [s[..i]] + xs) && s == Run(y, [s[..i]] + xs) + t
  {
    hide AllPlain;
    var x := s[..i];
    RunCons(y, x, xs);
    assert AllPlain(y, [x] + xs) by { ConsPlain(y, x, xs); }
    assert s == x + [y.sep] + s[i + 1..];
    Associate(x + [y.sep], Run(y, xs), t);
  }

  lemma ConsPlain(y: Syntax, x: string, xs: seq<string>)
    requires Plain(y, x) && AllPlain(y, xs)
    ensures AllPlain(y, [x] + xs)
  {
  }

  lemma RunCons(y: Syntax, x: string, xs: seq<string>)
    ensures Run(y, [x] + xs) == x + [y.sep] + Run(y, xs)
  {
    assert ([x] + xs)[1..] == xs;
  }

  lemma Associate(a: string, b: string, c: string)
    ensures a + b + c == a + (b + c)
  {
  }

  lemma MatchIsTaken(y: Syntax, xs: seq<string>, rest: string)
    requires AllPlain(y, xs)
    ensures TakeComponents(y, Run(y, xs) + rest, |xs|) == Some((xs, rest))
  {
    TakeMore(y, xs, rest, 0);
    assert xs + [] == xs;
  }

  lemma NotRooted(y: Syntax, name: string, t: string)
    requires !(Root(y) <= name)
    ensures name != Root(y) + t
  {
  }

  /** The code's result is what the first regular expression captures, in the one way it can match; except that a sentinel
      server namespace is refused. */
  lemma {:induction false} Decompose1IsMatch(y: Syntax, name: string, xs: seq<string>, rest: string)
    ensures Decompose1(y, name) == Some((xs, rest)) <==> Matches1(y, name, xs, rest) && xs[2] != y.sentinel
  {
    hide Run, AllPlain, OneLine, TakeComponents, Root;
    var root := Root(y);
    if root <= name {
      var s := name[|root|..];
      assert name == root + s;
      TakeIsMatch(y, s, 5);
      if Matches1(y, name, xs, rest) {
        Associate(root, Run(y, xs), rest);
        assert s == Run(y, xs) + rest;
        MatchIsTaken(y, xs, rest);
      }
      var m := TakeComponents(y, s, 5);
      if m.Some? {
        Associate(root, Run(y, m.value.0), m.value.1);
      }
    } else {
      assert !Matches1(y, name, xs, rest) by { NotRooted(y, name, Run(y, xs) + rest); }
    }
  }

  lemma Match2Taken(y: Syntax, name: string, xs: seq<string>, rest: string)
    requires Matches2(y, name, xs, rest)
    ensures Decompose2(y, name) == Some((xs, rest))
  {
    var root, tail := Root(y), y.sentinel + [y.sep];
    assert name == root + (Run(y, xs) + (tail + rest));
    assert name[|root|..] == Run(y, xs) + (tail + rest);
    MatchIsTaken(y, xs, tail + rest);
    assert (tail + rest)[|tail|..] == rest;
  }

  lemma Taken2Match(y: Syntax, name: string, xs: seq<string>, rest: string)
    requires Decompose2(y, name) == Some((xs, rest))
    ensures Matches2(y, name, xs, rest)
  {
    hide TakeComponents, Run, OneLine;
    var root, tail := Root(y), y.sentinel + [y.sep];
    var s := name[|root|..];
    var t := TakeComponents(y, s, 3).value.1;
    TakeIsMatch(y, s, 3);
    assert t == tail + rest;
    assert name == root + s == root + (Run(y, xs) + (tail + rest));
  }

  lemma {:induction false} Decompose2IsMatch(y: Syntax, name: string, xs: seq<string>, rest: string)
    ensures Decompose2(y, name) == Some((xs, rest)) <==> Matches2(y, name, xs, rest)
  {
    hide Decompose2, Matches2;
    if Matches2(y, name, xs, rest) { Match2Taken(y, name, xs, rest); }
    if Decompose2(y, name) == Some((xs, rest)) { Taken2Match(y, name, xs, rest); }
  }

  // ----- Round trips -----

  /** A name of some components, one more, and a separator. */
  lemma SlashIsRun(y: Syntax, name: string, xs: seq<string>, x: string)
    requires name == Root(y) + Run(y, xs)
    ensures name + x + [y.sep] == Root(y) + Run(y, xs + [x])
  {
    hide Run, Root;
    RunAppend(y, xs, x);
    Associate(Root(y), Run(y, xs), x);
    Associate(Root(y), Run(y, xs) + x, [y.sep]);
  }

  lemma Build1IsRun(y: Syntax, xs: seq<string>, rest: string)
    requires |xs| == 5
    ensures Build1(y, xs[0], xs[1], xs[2], xs[3], xs[4]) + [y.sep] + rest == Root(y) + Run(y, xs) + rest
  {
    hide Run, Root, Prefix;
    RunOf2(y, xs[0], xs[1]);
    var name := Prefix(y, xs[0], xs[1]);
    assert [xs[0], xs[1]] + [xs[2]] == [xs[0], xs[1], xs[2]];
    assert [xs[0], xs[1], xs[2]] + [xs[3]] == [xs[0], xs[1], xs[2], xs[3]];
    SlashIsRun(y, name, [xs[0], xs[1]], xs[2]);
    SlashIsRun(y, name + xs[2] + [y.sep], [xs[0], xs[1], xs[2]], xs[3]);
    SlashIsRun(y, name + xs[2] + [y.sep] + xs[3] + [y.sep], [xs[0], xs[1], xs[2], xs[3]], xs[4]);
    assert xs == [xs[0], xs[1], xs[2], xs[3]] + [xs[4]];
  }

  lemma Build2IsRun(y: Syntax, xs: seq<string>, rest: string)
    requires |xs| == 3
    ensures Build2(y, xs[0], xs[1], xs[2]) + [y.sep] + rest == Root(y) + Run(y, xs) + y.sentinel + [y.sep] + rest
  {
    hide Run, Root, Prefix;
    RunOf2(y, xs[0], xs[1]);
    SlashIsRun(y, Prefix(y, xs[0], xs[1]), [xs[0], xs[1]], xs[2]);
    assert xs == [xs[0], xs[1]] + [xs[2]];
  }

  /** Taking apart what overload 1 of the builder made, followed by a separator and anything on one line. */
  lemma {:induction false} RoundTrip1(y: Syntax, xs: seq<string>, rest: string)
    requires |xs| == 5 && AllPlain(y, xs) && Args1(y, xs[0], xs[1], xs[2], xs[3], xs[4]) && OneLine(y, rest)
    ensures Decompose1(y, Build1(y, xs[0], xs[1], xs[2], xs[3], xs[4]) + [y.sep] + rest) == Some((xs, rest))
  {
    Build1IsRun(y, xs, rest);
    Decompose1IsMatch(y, Root(y) + Run(y, xs) + rest, xs, rest);
  }

  lemma {:induction false} RoundTrip2(y: Syntax, xs: seq<string>, rest: string)
    requires |xs| == 3 && AllPlain(y, xs) && Args2(y, xs[0], xs[1], xs[2]) && OneLine(y, rest)
    ensures Decompose2(y, Build2(y, xs[0], xs[1], xs[2]) + [y.sep] + rest) == Some((xs, rest))
  {
    Build2IsRun(y, xs, rest);
    Decompose2IsMatch(y, Build2(y, xs[0], xs[1], xs[2]) + [y.sep] + rest, xs, rest);
  }

  /** A name that was taken apart is rebuilt from its components. */
  lemma {:induction false} Rebuild1(y: Syntax, name: string)
    requires Decompose1(y, name).Some?
    ensures var (xs, rest) := Decompose1(y, name).value;
            |xs| == 5 && name == Build1(y, xs[0], xs[1], xs[2], xs[3], xs[4]) + [y.sep] + rest
  {
    var (xs, rest) := Decompose1(y, name).value;
    Decompose1IsMatch(y, name, xs, rest);
    Build1IsRun(y, xs, rest);
  }

  lemma {:induction false} Rebuild2(y: Syntax, name: string)
    requires Decompose2(y, name).Some?
    ensures var (xs, rest) := Decompose2(y, name).value;
            |xs| == 3 && name == Build2(y, xs[0], xs[1], xs[2]) + [y.sep] + rest
  {
    var (xs, rest) := Decompose2(y, name).value;
    Decompose2IsMatch(y, name, xs, rest);
    Build2IsRun(y, xs, rest);
  }

  /** Was the name made as the documentation says: by overload 1 of the builder, a separator, and more? */
  ghost predicate Built1(y: Syntax, name: string) {
    exists xs: seq<string>, rest: string ::
      && |xs| == 5 && AllPlain(y, xs) && Args1(y, xs[0], xs[1], xs[2], xs[3], xs[4]) && OneLine(y, rest)
      && name == Build1(y, xs[0], xs[1], xs[2], xs[3], xs[4]) + [y.sep] + rest
  }

  /** The name matches the regular expression with an application name the builder would not take, and with a server
      namespace it would. */
  ghost predicate SentinelApp(y: Syntax, name: string) {
    exists xs: seq<string>, rest: string ::
      Matches1(y, name, xs, rest) && xs[2] != y.sentinel && (xs[1] == y.sentinel || xs[3] == y.sentinel)
  }

  /** The documentation says that a name is taken apart if and only if it was made so.  That fails exactly for the names in
      which an application is the sentinel, which the code does not check; whatever was made is taken apart. */
  lemma {:induction false} AcceptedExactly(y: Syntax, name: string)
    ensures Built1(y, name) ==> Decompose1(y, name).Some?
    ensures (Decompose1(y, name).Some? <==> Built1(y, name)) <==> !SentinelApp(y, name)
  {
    hide Matches1, Decompose1;
    if Built1(y, name) {
      var xs: seq<string>, rest: string :|
        && |xs| == 5 && AllPlain(y, xs) && Args1(y, xs[0], xs[1], xs[2], xs[3], xs[4]) && OneLine(y, rest)
        && name == Build1(y, xs[0], xs[1], xs[2], xs[3], xs[4]) + [y.sep] + rest;
      RoundTrip1(y, xs, rest);
      OneMatch(y, name, xs, rest);
    } else if Decompose1(y, name).Some? {
      var (xs, rest) := Decompose1(y, name).value;
      Decompose1IsMatch(y, name, xs, rest);
      Rebuild1(y, name);
      MatchIsPlain(y, name, xs, rest);
      assert Matches1(y, name, xs, rest);
    } else if SentinelApp(y, name) {
      SentinelAppTaken(y, name);
    }
  }

  lemma SentinelAppTaken(y: Syntax, name: string)
    requires SentinelApp(y, name)
    ensures Decompose1(y, name).Some?
  {
    hide Decompose1;
    var xs: seq<string>, rest: string :|
      Matches1(y, name, xs, rest) && xs[2] != y.sentinel && (xs[1] == y.sentinel || xs[3] == y.sentinel);
    Decompose1IsMatch(y, name, xs, rest);
  }

  lemma MatchIsPlain(y: Syntax, name: string, xs: seq<string>, rest: string)
    requires Matches1(y, name, xs, rest)
    ensures |xs| == 5 && AllPlain(y, xs) && OneLine(y, rest)
  {
  }

  /** The regular expression matches in one way only. */
  lemma OneMatch(y: Syntax, name: string, xs: seq<string>, rest: string)
    requires Decompose1(y, name) == Some((xs, rest))
    ensures forall zs, t :: Matches1(y, name, zs, t) && zs[2] != y.sentinel ==> zs == xs
  {
    hide Decompose1;
    forall zs, t | Matches1(y, name, zs, t) && zs[2] != y.sentinel ensures zs == xs {
      Decompose1IsMatch(y, name, zs, t);
    }
  }

  /** A name with the sentinel as its client application is taken apart, though no builder made it so. */
  lemma AcceptsSentinelApp(y: Syntax, x: string)
    requires Good(y) && Plain(y, x) && x != y.sentinel
    ensures Decompose1(y, Build1(y, x, x, x, y.sentinel, x) + [y.sep]) == Some(([x, x, x, y.sentinel, x], []))
  {
    var xs := [x, x, x, y.sentinel, x];
    Build1IsRun(y, xs, []);
    var name := Build1(y, x, x, x, y.sentinel, x) + [y.sep];
    assert name + [] == name && Root(y) + Run(y, xs) + [] == Root(y) + Run(y, xs);
    Decompose1IsMatch(y, name, xs, []);
  }

  /** What overload 2 takes apart has the sentinel as its fourth component. */
  lemma FourthIsSentinel(y: Syntax, xs: seq<string>, rest: string, zs: seq<string>, t: string)
    requires Good(y) && |xs| == 5 && AllPlain(y, xs) && Matches2(y, Root(y) + Run(y, xs) + rest, zs, t)
    ensures xs[3] == y.sentinel
  {
    hide Run, Root;
    var four := zs + [y.sentinel];
    RunSplit(y, xs, 4);
    var more := Run(y, xs[4..]) + rest;
    Associate(Root(y), Run(y, xs[..4]), Run(y, xs[4..]));
    Associate(Root(y) + Run(y, xs[..4]), Run(y, xs[4..]), rest);
    SlashIsRun(y, Root(y) + Run(y, zs), zs, y.sentinel);
    SameComponents(y, four, t, xs[..4], more);
    assert xs[..4][3] == xs[3];
  }

  /** Overload 2 refuses every name that overload 1 of the builder made. */
  lemma {:induction false} OneIsNotTwo(y: Syntax, xs: seq<string>, rest: string)
    requires Good(y) && |xs| == 5 && AllPlain(y, xs) && Args1(y, xs[0], xs[1], xs[2], xs[3], xs[4])
    ensures Decompose2(y, Build1(y, xs[0], xs[1], xs[2], xs[3], xs[4]) + [y.sep] + rest).None?
  {
    hide Decompose2, Matches2;
    Build1IsRun(y, xs, rest);
    var m := Decompose2(y, Root(y) + Run(y, xs) + rest);
    if m.Some? {
      Decompose2IsMatch(y, Root(y) + Run(y, xs) + rest, m.value.0, m.value.1);
      FourthIsSentinel(y, xs, rest, m.value.0, m.value.1);
    }
  }

  lemma {:induction false} TakeMore(y: Syntax, xs: seq<string>, s: string, k: nat)
    requires AllPlain(y, xs)
    ensures var m := TakeComponents(y, s, k);
            TakeComponents(y, Run(y, xs) + s, |xs| + k)
            == if m.None? then None else Some((xs + m.value.0, m.value.1))
  {
    hide TakeComponents, Plain;
    var m := TakeComponents(y, s, k);
    if xs == [] {
      assert Run(y, xs) + s == s;
      if m.Some? { assert xs + m.value.0 == m.value.0; }
    } else {
      TakeMore(y, xs[1..], s, k);
      TakeOne(y, xs[0], Run(y, xs[1..]) + s, |xs| + k);
      assert Run(y, xs) + s == xs[0] + [y.sep] + (Run(y, xs[1..]) + s);
      if m.Some? { assert xs + m.value.0 == [xs[0]] + (xs[1..] + m.value.0); }
    }
  }

  lemma TakeOne(y: Syntax, x: string, t: string, k: nat)
    requires Plain(y, x) && k > 0
    ensures var m := TakeComponents(y, t, k - 1);
            TakeComponents(y, x + [y.sep] + t, k) == if m.None? then None else Some(([x] + m.value.0, m.value.1))
  {
    var s := x + [y.sep] + t;
    FirstSepOf(y, x, t);
    assert s[..|x|] == x && s[|x| + 1..] == t;
  }

  /** The other way about, overload 1 takes a name of overload 2 of the builder apart exactly if the server namespace is
      not the sentinel and another component, with a separator after it, follows. */
  lemma {:induction false} TwoIsOneExactly(y: Syntax, xs: seq<string>, rest: string)
    requires Good(y) && |xs| == 3 && AllPlain(y, xs)
    ensures Decompose1(y, Build2(y, xs[0], xs[1], xs[2]) + [y.sep] + rest).Some? <==>
              xs[2] != y.sentinel && TakeComponents(y, rest, 1).Some? && OneLine(y, TakeComponents(y, rest, 1).value.1)
  {
    var four := xs + [y.sentinel];
    Build2IsRun(y, xs, rest);
    RunAppend(y, xs, y.sentinel);
    var name := Build2(y, xs[0], xs[1], xs[2]) + [y.sep] + rest;
    assert name == Root(y) + (Run(y, four) + rest);
    assert name[|Root(y)|..] == Run(y, four) + rest;
    TakeMore(y, four, rest, 1);
  }

  lemma {:induction false} RunAppend(y: Syntax, xs: seq<string>, x: string)
    ensures Run(y, xs + [x]) == Run(y, xs) + x + [y.sep]
  {
    if xs != [] {
      RunAppend(y, xs[1..], x);
      assert (xs + [x])[1..] == xs[1..] + [x];
    } else {
      assert [x][1..] == [];
    }
  }

  lemma {:induction false} RunSplit(y: Syntax, xs: seq<string>, k: nat)
    requires k <= |xs|
    ensures Run(y, xs) == Run(y, xs[..k]) + Run(y, xs[k..])
  {
    if k == 0 {
      assert xs[0..] == xs;
    } else {
      RunSplit(y, xs[1..], k - 1);
      assert xs[1..][k - 1..] == xs[k..] && xs[..k][1..] == xs[1..][..k - 1];
    }
  }

  /** Equal names have equal components, as many as both begin with. */
  lemma SameComponents(y: Syntax, xs: seq<string>, s: string, zs: seq<string>, t: string)
    requires AllPlain(y, xs) && AllPlain(y, zs) && |xs| == |zs|
    requires Root(y) + Run(y, xs) + s == Root(y) + Run(y, zs) + t
    ensures xs == zs && s == t
  {
    hide Run, Root, AllPlain, TakeComponents;
    SameRest(Root(y), Run(y, xs), s, Run(y, zs), t);
    MatchIsTaken(y, xs, s);
    MatchIsTaken(y, zs, t);
  }

  lemma SameRest(r: string, a: string, s: string, b: string, t: string)
    requires r + a + s == r + b + t
    ensures a + s == b + t
  {
    Associate(r, a, s);
    Associate(r, b, t);
    assert (r + (a + s))[|r|..] == a + s && (r + (b + t))[|r|..] == b + t;
  }

  // ----- The prefix -----

  /** The start-up clean-up prefix is exact: it begins a name made for plain components, by either overload and with
      anything after it, if and only if the name is of that resource type and that server application. */
  lemma {:induction false} PrefixExact(y: Syntax, resource: string, srvApp: string, xs: seq<string>, rest: string)
    requires Good(y) && Plain(y, resource) && Plain(y, srvApp) && AllPlain(y, xs)
    ensures |xs| == 5 ==> (Prefix(y, resource, srvApp) <= Build1(y, xs[0], xs[1], xs[2], xs[3], xs[4]) + rest
                           <==> xs[0] == resource && xs[1] == srvApp)
    ensures |xs| == 3 ==> (Prefix(y, resource, srvApp) <= Build2(y, xs[0], xs[1], xs[2]) + rest
                           <==> xs[0] == resource && xs[1] == srvApp)
  {
    hide Prefix, Plain;
    if |xs| == 5 {
      PrefixOf(y, resource, srvApp, xs[0], xs[1], xs[2] + [y.sep] + xs[3] + [y.sep] + xs[4] + rest);
    } else if |xs| == 3 {
      PrefixOf(y, resource, srvApp, xs[0], xs[1], xs[2] + [y.sep] + y.sentinel + rest);
    }
  }

  lemma RunOf2(y: Syntax, a: string, b: string)
    ensures Run(y, [a, b]) == a + [y.sep] + b + [y.sep] && Prefix(y, a, b) == Root(y) + Run(y, [a, b])
  {
    assert [a, b][1..] == [b] && [b][1..] == [];
    assert Run(y, [b]) == b + [y.sep];
  }

  lemma PrefixOf(y: Syntax, a: string, b: string, c: string, d: string, t: string)
    requires Plain(y, a) && Plain(y, b) && Plain(y, c) && Plain(y, d)
    ensures Prefix(y, a, b) <= Prefix(y, c, d) + t <==> c == a && d == b
  {
    RunOf2(y, a, b);
    RunOf2(y, c, d);
    var p := Prefix(y, a, b);
    var name := Prefix(y, c, d) + t;
    if p <= name {
      assert name == p + name[|p|..];
      SameComponents(y, [a, b], name[|p|..], [c, d], t);
    }
  }
}
