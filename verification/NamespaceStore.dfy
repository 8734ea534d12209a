/** The rendezvous of client and server: the server writes its process id to the current-namespace-store file and listens
    at a name made from it; the client reads the file and connects to the name made from what it reads.

    The file is under a named mutex, so that each access is one step.  `None` is a file that does not exist. */
module NamespaceStore {
  import opened MasterChannel
  import opened SharedNames
  import Decimals

  const MAX_PID := 0x7FFF_FFFF

  /** How the server's access ends: the file cannot be opened; it is opened, which empties it, and the owner or mode check
      fails; so many characters of the line are written. */
  datatype Write = NotOpened | Refused | Written(n: nat)

  function Line(pid: nat): string {
    Decimals.ToString(pid) + ['\n']
  }

  function AfterWrite(file: Option<string>, pid: nat, w: Write): Option<string> {
    match w
    case NotOpened => file
    case Refused => Some([])
    case Written(n) => Some(if n < |Line(pid)| then Line(pid)[..n] else Line(pid))
  }

  /** The characters before the first newline, if there is one. */
  function GetLine(s: string): (r: Option<string>)
    ensures r.Some? ==> r.value + ['\n'] <= s && '\n' !in r.value
  {
    if s == [] then None
    else if s[0] == '\n' then Some([])
    else
      var rest := GetLine(s[1..]);
      if rest.None? then None else Some([s[0]] + rest.value)
  }

  /** `lexical_cast<process_id_t>`: an optional sign and digits, in range. */
  function ParsePid(s: string): Option<int> {
    var negative := s != [] && s[0] == '-';
    var digits := if s != [] && (s[0] == '-' || s[0] == '+') then s[1..] else s;
    var v := Decimals.Value(digits);
    if v.None? || v.value > (if negative then MAX_PID + 1 else MAX_PID) then None
    else Some(if negative then 0 - v.value as int else v.value as int)
  }

  function PrintPid(pid: int): string {
    if pid < 0 then ['-'] + Decimals.ToString(-pid) else Decimals.ToString(pid)
  }

  /** What the client makes of the file: a server namespace, or an error. */
  datatype ReadResult = Namespace(ns: string) | ReadError(e: Error)

  function ReadFile(file: Option<string>): ReadResult {
    if file.None? then ReadError(SystemError(2))
    else
      var line := GetLine(file.value);
      if line.None? then ReadError(NamespaceStoreBadFormat)
      else
        var pid := ParsePid(line.value);
        if pid.None? then ReadError(NamespaceStoreBadFormat) else Namespace(PrintPid(pid.value))
  }

  /** `session_master_socket_stream_acceptor_absolute_name()` */
  function AcceptorName(y: Syntax, resource: string, srvApp: string, ns: string): string {
    Slash(y, Build2(y, resource, srvApp, ns), y.sentinel)
  }

  // ----- Runs -----

  datatype Step = ServerStarts(pid: nat, w: Write) | ClientReads

  /** `opener`: the server that last opened the file, ghost to the code. */
  datatype State = State(file: Option<string>, opener: Option<nat>)

  function Next(s: State, t: Step): State {
    match t
    case ServerStarts(pid, w) =>
      State(AfterWrite(s.file, pid, w), if w.NotOpened? then s.opener else Some(pid))
    case ClientReads => s
  }

  ghost predicate Run(states: seq<State>, steps: seq<Step>) {
    && |states| == |steps| + 1 && states[0].opener.None?
    && forall i :: 0 <= i < |steps| ==>
         && states[i + 1] == Next(states[i], steps[i])
         && (steps[i].ServerStarts? ==> 0 < steps[i].pid <= MAX_PID)
  }

  ghost predicate Inv(s: State) {
    s.opener.Some? ==> 0 < s.opener.value <= MAX_PID && s.file.Some? && s.file.value <= Line(s.opener.value)
  }

  lemma {:induction false} InvInRuns(states: seq<State>, steps: seq<Step>, i: nat)
    requires Run(states, steps) && i < |states|
    ensures Inv(states[i])
  {
    if i > 0 {
      InvInRuns(states, steps, i - 1);
    }
  }

  lemma {:induction false} NoDigitIsNewline(s: string)
    requires forall i :: 0 <= i < |s| ==> Decimals.IsDigit(s[i])
    ensures GetLine(s + ['\n']) == Some(s)
  {
    if s != [] {
      NoDigitIsNewline(s[1..]);
      assert (s + ['\n'])[1..] == s[1..] + ['\n'];
      assert s == [s[0]] + s[1..];
    } else {
      assert s + ['\n'] == ['\n'];
    }
  }

  /** Printing and parsing a process id. */
  lemma {:induction false} PidRoundTrip(pid: int)
    requires -MAX_PID - 1 <= pid <= MAX_PID
    ensures ParsePid(PrintPid(pid)) == Some(pid)
  {
    var n := if pid < 0 then -pid else pid;
    Decimals.ValueOf(n);
    var d := Decimals.ToString(n);
    assert Decimals.IsDigit(d[0]);
    assert (['-'] + d)[1..] == d;
  }

  /** The texts that stand for a process id: digits, perhaps after a sign, of a number in range. */
  ghost predicate Numeral(s: string, v: int) {
    && -MAX_PID - 1 <= v <= MAX_PID
    && exists d :: Digits(d) && Signed(s, d, v)
  }

  predicate Digits(d: string) {
    Decimals.Value(d).Some?
  }

  predicate Signed(s: string, d: string, v: int)
    requires Digits(d)
  {
    var n := Decimals.Value(d).value;
    ((s == d || s == ['+'] + d) && v == n) || (s == ['-'] + d && -v == n)
  }

  lemma {:induction false} FirstIsDigit(d: string)
    requires Digits(d)
    ensures d != [] && Decimals.IsDigit(d[0])
  {
    if |d| > 1 {
      FirstIsDigit(d[..|d| - 1]);
    }
  }

  lemma ParsedExactly(s: string, v: int)
    ensures ParsePid(s) == Some(v) <==> Numeral(s, v)
  {
    if ParsePid(s) == Some(v) {
      var d := if s[0] == '-' || s[0] == '+' then s[1..] else s;
      assert s == d || s == [s[0]] + d;
      assert Digits(d) && Signed(s, d, v);
    }
    if Numeral(s, v) {
      var d :| Digits(d) && Signed(s, d, v);
      FirstIsDigit(d);
      assert s == d || s[1..] == d;
    }
  }

  lemma {:induction false} FirstLine(s: string, line: string)
    ensures GetLine(s) == Some(line) <==> line + ['\n'] <= s && '\n' !in line
  {
    if s != [] && s[0] != '\n' && line != [] {
      FirstLine(s[1..], line[1..]);
      assert line == [line[0]] + line[1..] && (line + ['\n'])[1..] == line[1..] + ['\n'];
    }
  }

  /** Whatever is in the file: the client gets a namespace if and only if the first line is there in full and is the text of
      a process id, and it is that number printed; otherwise it gets the error of the file, or of its format. */
  lemma {:induction false} ReadsExactly(file: Option<string>)
    ensures forall ns :: ReadFile(file) == Namespace(ns) <==>
              file.Some? && exists line, v :: line + ['\n'] <= file.value && '\n' !in line && Numeral(line, v) && ns == PrintPid(v)
    ensures ReadFile(file).ReadError? ==>
              ReadFile(file).e == if file.None? then SystemError(2) else NamespaceStoreBadFormat
  {
    if file.Some? {
      forall line, v | line + ['\n'] <= file.value && '\n' !in line && Numeral(line, v)
        ensures ReadFile(file) == Namespace(PrintPid(v))
      {
        FirstLine(file.value, line);
        ParsedExactly(line, v);
      }
      if ReadFile(file).Namespace? {
        var line := GetLine(file.value).value;
        FirstLine(file.value, line);
        ParsedExactly(line, ParsePid(line).value);
      }
    }
  }

  /** A part of the line is read only if it is all of it. */
  lemma {:induction false} ReadExactly(pid: nat, s: string)
    requires pid <= MAX_PID && s <= Line(pid)
    ensures ReadFile(Some(s)) == if s == Line(pid) then Namespace(Decimals.ToString(pid))
                                 else ReadError(NamespaceStoreBadFormat)
  {
    var d := Decimals.ToString(pid);
    NoDigitIsNewline(d);
    PidRoundTrip(pid);
    if s != Line(pid) {
      assert forall i :: 0 <= i < |s| ==> s[i] == d[i] && Decimals.IsDigit(s[i]);
      NoNewline(s);
    }
  }

  lemma {:induction false} NoNewline(s: string)
    requires forall i :: 0 <= i < |s| ==> Decimals.IsDigit(s[i])
    ensures GetLine(s).None?
  {
    if s != [] {
      NoNewline(s[1..]);
    }
  }

  /** In any interleaving of servers starting and clients connecting, once a server has opened the file: a client that
      parses a process id gets the namespace, and computes the acceptor name, of the server that last opened the file;
      and it parses one exactly if that server wrote the whole line. */
  lemma {:induction false} Rendezvous(states: seq<State>, steps: seq<Step>, i: nat,
                                      y: Syntax, resource: string, srvApp: string)
    requires Run(states, steps) && i < |states| && states[i].opener.Some?
    ensures var s := states[i];
            var own := Decimals.ToString(s.opener.value);
            && (ReadFile(s.file).Namespace? <==> s.file == Some(Line(s.opener.value)))
            && (ReadFile(s.file).Namespace? ==>
                  && ReadFile(s.file).ns == own && own != "0"
                  && AcceptorName(y, resource, srvApp, ReadFile(s.file).ns) == AcceptorName(y, resource, srvApp, own))
  {
    InvInRuns(states, steps, i);
    var s := states[i];
    ReadExactly(s.opener.value, s.file.value);
    assert Decimals.ToString(0) == "0";
    if Decimals.ToString(s.opener.value) == "0" {
      Decimals.Injective(s.opener.value, 0);
    }
  }

  /** Two servers listen at the same name only if they are the same process of the same application. */
  lemma {:induction false} AcceptorsApart(y: Syntax, resource: string, app: string, pid: nat, app': string, pid': nat)
    requires Good(y) && Plain(y, resource) && Plain(y, app) && Plain(y, app') && !Decimals.IsDigit(y.sep)
    requires AcceptorName(y, resource, app, Decimals.ToString(pid))
          == AcceptorName(y, resource, app', Decimals.ToString(pid'))
    ensures app == app' && pid == pid'
  {
    var d, d' := Decimals.ToString(pid), Decimals.ToString(pid');
    var xs, zs := [resource, app, d], [resource, app', d'];
    assert forall i :: 0 <= i < |d| ==> Decimals.IsDigit(d[i]);
    assert forall i :: 0 <= i < |d'| ==> Decimals.IsDigit(d'[i]);
    assert Plain(y, d) && Plain(y, d');
    Build2IsRun(y, xs, y.sentinel);
    Build2IsRun(y, zs, y.sentinel);
    var t := y.sentinel + [y.sep] + y.sentinel;
    assert Root(y) + SharedNames.Run(y, xs) + t == Root(y) + SharedNames.Run(y, zs) + t by {
      assert AcceptorName(y, resource, app, d) == Root(y) + SharedNames.Run(y, xs) + t;
      assert AcceptorName(y, resource, app', d') == Root(y) + SharedNames.Run(y, zs) + t;
    }
    SameComponents(y, xs, t, zs, t);
    assert xs[1] == zs[1] && xs[2] == zs[2];
    Decimals.Injective(pid, pid');
  }

  // ----- The objects' accesses -----

  class Store {
    var file: Option<string>

    constructor (file: Option<string>)
      ensures this.file == file
    {
      this.file := file;
    }

    /** The server's constructor, holding the mutex; the characters reach the file one by one. */
    method WriteNamespace(pid: nat, w: Write) returns (ok: bool)
      modifies this
      ensures file == AfterWrite(old(file), pid, w)
      ensures ok <==> w.Written? && w.n >= |Line(pid)|
    {
      if w.NotOpened? {
        return false;
      }
      file := Some([]);
      if w.Refused? {
        return false;
      }
      var line := Line(pid);
      var i := 0;
      while i < |line| && i < w.n
        invariant 0 <= i <= |line| && i <= w.n && file == Some(line[..i])
      {
        assert line[..i + 1] == line[..i] + [line[i]];
        file := Some(file.value + [line[i]]);
        i := i + 1;
      }
      assert line[..|line|] == line;
      return i == |line|;
    }

    method ReadNamespace() returns (r: ReadResult)
      ensures r == ReadFile(file)
    {
      if file.None? {
        return ReadError(SystemError(2));
      }
      var line := GetLine(file.value);
      if line.None? {
        return ReadError(NamespaceStoreBadFormat);
      }
      var pid := ParsePid(line.value);
      if pid.None? {
        return ReadError(NamespaceStoreBadFormat);
      }
      return Namespace(PrintPid(pid.value));
    }
  }
}
