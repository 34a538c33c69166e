// `RemoteRunner` (xespresso/remote_runner.py): a persistent SSH connection
// with a liveness probe and a retrying connect that tries key and then
// password authentication, job submission through a login shell, download
// of the result files, a remote version check and an orderly close.
//
// The network is a `Wire`: the answer of each socket dial, key login and
// password login by attempt number, of the probe, of each close, of each
// remote command and SFTP operation. What the runner does is recorded as a
// trace of events; sleeping is an event carrying its delay.

module Runner {
  import opened PyStr
  import opened PyErr

  /** What the runner asks of the network, in order. */
  datatype Event =
    | Probe
    | CloseClient
    | CloseSftp
    | Dial(attempt: int)
    | KeyAuth(keyFile: string)
    | PasswordAuth
    | Sleep(seconds: int)
    | Exec(command: string)
    | OpenSftp
    | Get(remotePath: string, localPath: string)
    | Put(localPath: string, remotePath: string)

  /** The answers of the remote side. */
  datatype Wire = Wire(
    probe: Outcome,
    closeClient: Outcome,
    closeSftp: Outcome,
    dial: int -> Outcome,
    keyAuth: int -> Outcome,
    passwordAuth: int -> Outcome,
    exec: string -> Result<(string, string)>,
    sftpAlive: bool,
    openSftp: Outcome,
    listdir: string -> Result<seq<string>>,
    get: (string, string) -> Outcome,
    home: string)

  /** The constructor's arguments. */
  datatype Config = Config(hostname: string, username: string, baseDir: string, moduleCommand: string, port: int,
                           password: Option<string>, keyPath: Option<string>)

  /**
   * The mutable fields: the client (the number of the `SSHClient` object
   * it is, counting from 0 in creation order), whether an SFTP channel is
   * held, `is_connected`, how many clients were made, and the trace.
   */
  datatype RunnerState = RunnerState(client: Option<nat>, sftp: bool, connected: bool, made: nat, trace: seq<Event>)

  /** A fresh runner holds nothing. */
  const Initial := RunnerState(None, false, false, 0, [])

  /** The key-login failures after which the password is tried. */
  predicate KeyFallback(e: Exc)
  {
    e.kind == "FileNotFoundError" || e.kind == "SSHException"
  }

  function FailedMessage(host: string, retries: int): string
  {
    "❌ Failed to connect to " + host + " after " + IntToString(retries) + " attempts."
  }

  /** The key file offered: the key path with `~` expanded. */
  function KeyFile(c: Config, home: string): string
  {
    if c.keyPath.Some? then ExpandUser(c.keyPath.value, home) else ""
  }

  function Slept(st: RunnerState, delay: int): RunnerState
  {
    st.(trace := st.trace + [Sleep(delay)])
  }

  /** One connection attempt: the new state, and whether it logged in. */
  function AttemptSpec(c: Config, st: RunnerState, a: int, delay: int, w: Wire): (RunnerState, bool)
  {
    var st1 := st.(trace := st.trace + [Dial(a)]);
    if w.dial(a).Raised? then (Slept(st1, delay), false)
    else
      var id := st1.made;
      var st2 := st1.(made := id + 1);
      var keyed := HasText(c.keyPath);
      var st3 := if keyed then st2.(trace := st2.trace + [KeyAuth(KeyFile(c, w.home))]) else st2;
      if keyed && w.keyAuth(a).Done? then (st3.(client := Some(id), connected := true), true)
      else if (!keyed || KeyFallback(w.keyAuth(a).exc)) && HasText(c.password) then
        var st4 := st3.(trace := st3.trace + [PasswordAuth]);
        if w.passwordAuth(a).Done? then (st4.(client := Some(id), connected := true), true)
        else (Slept(st4, delay), false)
      else (Slept(st3, delay), false)
  }

  /** Attempts `a` to `retries`, stopping at the first that logs in. */
  function Attempts(c: Config, st: RunnerState, a: int, retries: int, delay: int, w: Wire): (RunnerState, Result<nat>)
    decreases if a <= retries then retries - a + 1 else 0
  {
    if a > retries then (st, Err(Exc("ConnectionError", FailedMessage(c.hostname, retries))))
    else
      var (st1, ok) := AttemptSpec(c, st, a, delay, w);
      if ok && st1.client.Some? then (st1, Ok(st1.client.value))
      else Attempts(c, st1, a + 1, retries, delay, w)
  }

  /** The state after a failed probe: disconnected, both closes tried, then both fields cleared. */
  function ResetSpec(st: RunnerState, w: Wire): (RunnerState, Outcome)
  {
    var st1 := st.(connected := false, trace := st.trace + [CloseClient]);
    if w.closeClient.Raised? then (st1, w.closeClient)
    else if st1.sftp then
      var st2 := st1.(trace := st1.trace + [CloseSftp]);
      if w.closeSftp.Raised? then (st2, w.closeSftp) else (st2.(client := None, sftp := false), Done)
    else (st1.(client := None, sftp := false), Done)
  }

  /** `_connect(retries, delay)`: the new state and the number of the client it returns. */
  function ConnectSpec(c: Config, st: RunnerState, retries: int, delay: int, w: Wire): (RunnerState, Result<nat>)
  {
    if st.connected && st.client.Some? then
      var st1 := st.(trace := st.trace + [Probe]);
      if w.probe.Done? then (st1, Ok(st.client.value))
      else
        var (st2, o) := ResetSpec(st1, w);
        if o.Raised? then (st2, Err(o.exc)) else Attempts(c, st2, 1, retries, delay, w)
    else Attempts(c, st, 1, retries, delay, w)
  }

  // ---------------------------------------------------------------
  // Counting dials and sleeps
  // ---------------------------------------------------------------

  function Dials(tr: seq<Event>): nat
  {
    if tr == [] then 0 else (if tr[0].Dial? then 1 else 0) + Dials(tr[1..])
  }

  function Sleeps(tr: seq<Event>): nat
  {
    if tr == [] then 0 else (if tr[0].Sleep? then 1 else 0) + Sleeps(tr[1..])
  }

  lemma {:induction false} CountsConcat(a: seq<Event>, b: seq<Event>)
    ensures Dials(a + b) == Dials(a) + Dials(b) && Sleeps(a + b) == Sleeps(a) + Sleeps(b)
  {
    if a != [] {
      assert (a + b)[1..] == a[1..] + b;
      CountsConcat(a[1..], b);
    } else {
      assert a + b == b;
    }
  }

  /** The password is offered: the dial succeeded, a password is set, and there is no key or the key login raised FileNotFoundError or SSHException. */
  predicate PasswordOffered(c: Config, a: int, w: Wire)
  {
    w.dial(a).Done? && HasText(c.password) &&
    (!HasText(c.keyPath) || (w.keyAuth(a).Raised? && KeyFallback(w.keyAuth(a).exc)))
  }

  /** An attempt logs in by key, or else by password. */
  predicate LogsIn(c: Config, a: int, w: Wire)
  {
    w.dial(a).Done? && ((HasText(c.keyPath) && w.keyAuth(a).Done?) || (PasswordOffered(c, a, w) && w.passwordAuth(a).Done?))
  }

  /** The requests of one attempt: the dial, the key if one is set, the password if offered, and a sleep unless it logged in. */
  function AttemptLog(c: Config, a: int, delay: int, w: Wire): seq<Event>
  {
    [Dial(a)] + (if w.dial(a).Done? && HasText(c.keyPath) then [KeyAuth(KeyFile(c, w.home))] else []) +
    (if PasswordOffered(c, a, w) then [PasswordAuth] else []) +
    (if LogsIn(c, a, w) then [] else [Sleep(delay)])
  }

  /**
   * One attempt makes exactly the requests of `AttemptLog`, so the key
   * comes before the password and the password is offered only after a
   * key failure that allows it. An attempt that logs in takes the next
   * client; one that fails keeps the client it had.
   */
  lemma AttemptEvents(c: Config, st: RunnerState, a: int, delay: int, w: Wire)
    ensures var (st1, ok) := AttemptSpec(c, st, a, delay, w);
      st1.trace == st.trace + AttemptLog(c, a, delay, w) && (ok <==> LogsIn(c, a, w)) &&
      (ok ==> st1.client == Some(st.made) && st1.connected && st1.made == st.made + 1) &&
      (!ok ==> st1.client == st.client && st1.connected == st.connected)
  {
    var (st1, ok) := AttemptSpec(c, st, a, delay, w);
    var log := AttemptLog(c, a, delay, w);
    if w.dial(a).Raised? {
      assert log == [Dial(a)] + [Sleep(delay)];
    } else if HasText(c.keyPath) && w.keyAuth(a).Done? {
      assert log == [Dial(a)] + [KeyAuth(KeyFile(c, w.home))];
    } else if PasswordOffered(c, a, w) {
      assert st1.trace == st.trace + log;
    } else {
      assert st1.trace == st.trace + log;
    }
  }

  /** Every attempt dials once, and sleeps once unless it logs in. */
  lemma AttemptLogCounts(c: Config, a: int, delay: int, w: Wire)
    ensures Dials(AttemptLog(c, a, delay, w)) == 1
    ensures Sleeps(AttemptLog(c, a, delay, w)) == if LogsIn(c, a, w) then 0 else 1
  {
    var e1 := if w.dial(a).Done? && HasText(c.keyPath) then [KeyAuth(KeyFile(c, w.home))] else [];
    var e2 := if PasswordOffered(c, a, w) then [PasswordAuth] else [];
    var e3 := if LogsIn(c, a, w) then [] else [Sleep(delay)];
    CountsConcat([Dial(a)], e1);
    CountsConcat([Dial(a)] + e1, e2);
    CountsConcat([Dial(a)] + e1 + e2, e3);
    assert Dials(e3) == 0;
  }

  /**
   * There are at most `retries` attempts, one dial each. If none logs in,
   * every attempt slept once and the result is the ConnectionError naming
   * the host and `retries`; with `retries` at most 0 that happens at once,
   * with nothing done. A login leaves the runner connected to the client
   * it returns.
   */
  lemma {:induction false} AttemptsCount(c: Config, st: RunnerState, a: int, retries: int, delay: int, w: Wire)
    requires a >= 1
    ensures var (st1, r) := Attempts(c, st, a, retries, delay, w);
      var n := if a <= retries then retries - a + 1 else 0;
      |st.trace| <= |st1.trace| && st1.trace[..|st.trace|] == st.trace &&
      Dials(st1.trace[|st.trace|..]) <= n &&
      (r.Err? ==>
         r.exc == Exc("ConnectionError", FailedMessage(c.hostname, retries)) &&
         Dials(st1.trace[|st.trace|..]) == n && Sleeps(st1.trace[|st.trace|..]) == n &&
         st1.client == st.client && st1.connected == st.connected) &&
      (r.Ok? ==> st1.connected && st1.client == Some(r.value) && st.made <= r.value < st1.made)
    decreases if a <= retries then retries - a + 1 else 0
  {
    if a <= retries {
      var (st1, ok) := AttemptSpec(c, st, a, delay, w);
      AttemptEvents(c, st, a, delay, w);
      AttemptLogCounts(c, a, delay, w);
      var es := AttemptLog(c, a, delay, w);
      assert st1.trace[|st.trace|..] == es;
      if !(ok && st1.client.Some?) {
        AttemptsCount(c, st1, a + 1, retries, delay, w);
        var st2 := Attempts(c, st1, a + 1, retries, delay, w).0;
        ExtendTwice(st.trace, es, st1.trace, st2.trace);
        CountsConcat(es, st2.trace[|st1.trace|..]);
      }
    } else {
      assert st.trace[|st.trace|..] == [];
    }
  }

  /** A live connection is reused: the probe is the only request, and no new client is made. */
  lemma ConnectReuse(c: Config, st: RunnerState, retries: int, delay: int, w: Wire)
    requires st.connected && st.client.Some? && w.probe.Done?
    ensures var (st1, r) := ConnectSpec(c, st, retries, delay, w);
      r == Ok(st.client.value) && st1 == st.(trace := st.trace + [Probe])
  {
  }

  /**
   * A dead connection is torn down before reconnecting: once both closes
   * succeed, the attempts start from a runner that is disconnected and
   * holds neither client nor channel.
   */
  lemma ConnectReset(c: Config, st: RunnerState, retries: int, delay: int, w: Wire)
    requires st.connected && st.client.Some? && w.probe.Raised? && w.closeClient.Done? && w.closeSftp.Done?
    ensures var cleared := RunnerState(None, false, false, st.made,
                                 st.trace + [Probe, CloseClient] + (if st.sftp then [CloseSftp] else []));
      ConnectSpec(c, st, retries, delay, w) == Attempts(c, cleared, 1, retries, delay, w)
  {
    var st1 := st.(trace := st.trace + [Probe]);
    var cleared := RunnerState(None, false, false, st.made,
                               st.trace + [Probe, CloseClient] + (if st.sftp then [CloseSftp] else []));
    if st.sftp {
      assert st1.trace + [CloseClient] + [CloseSftp] == cleared.trace;
      assert ResetSpec(st1, w) == (cleared, Done);
    } else {
      assert st1.trace + [CloseClient] == cleared.trace;
      assert ResetSpec(st1, w) == (cleared, Done);
    }
  }

  /** Whatever happens, a connect that succeeds leaves the runner connected to the client it returns. */
  lemma ConnectOk(c: Config, st: RunnerState, retries: int, delay: int, w: Wire)
    ensures var (st1, r) := ConnectSpec(c, st, retries, delay, w);
      r.Ok? ==> st1.connected && st1.client == Some(r.value)
  {
    if st.connected && st.client.Some? {
      var st1 := st.(trace := st.trace + [Probe]);
      var (st2, o) := ResetSpec(st1, w);
      AttemptsCount(c, st2, 1, retries, delay, w);
    } else {
      AttemptsCount(c, st, 1, retries, delay, w);
    }
  }

  // ---------------------------------------------------------------
  // Submission
  // ---------------------------------------------------------------

  /** The login-shell command `submit_remote_job` runs. */
  function SubmitCommand(c: Config, subdir: string, jobCommand: Option<string>): string
  {
    var job := if jobCommand.Some? then jobCommand.value else "sbatch .job_file";
    "cd " + PathJoin(c.baseDir, subdir) + " && source /etc/profile && " + c.moduleCommand + " && " + job
  }

  /** The reply to the submission command: its stripped output, unless stderr holds anything but module loading. */
  function SubmitReply(out: string, err: string): (r: Result<string>)
    ensures r.Ok? <==> Strip(err) == "" || StartsWith(Strip(err), "Loading")
    ensures r.Ok? ==> r.value == Strip(out)
    ensures r.Err? ==> r.exc == Exc("RuntimeError", "❌ Error submitting job:\n" + Strip(err))
  {
    var output := Strip(out);
    var error := Strip(err);
    if error != "" && !StartsWith(Strip(error), "Loading") then Err(Exc("RuntimeError", "❌ Error submitting job:\n" + error))
    else
      StripClean(output);
      Ok(Strip(output))
  }

  /** `submit_remote_job`: connect with the defaults, run the command, read the reply. */
  function SubmitSpec(c: Config, st: RunnerState, subdir: string, jobCommand: Option<string>, w: Wire): (RunnerState, Result<string>)
  {
    var (st1, r) := ConnectSpec(c, st, 3, 5, w);
    if r.Err? then (st1, Err(r.exc))
    else
      var command := SubmitCommand(c, subdir, jobCommand);
      var st2 := st1.(trace := st1.trace + [Exec(command)]);
      match w.exec(command)
      case Err(e) => (st2, Err(e))
      case Ok((out, err)) => (st2, SubmitReply(out, err))
  }

  /** The submission command enters the job directory, loads the profile and the modules, and ends with the job command. */
  lemma SubmitCommandShape(c: Config, subdir: string, jobCommand: Option<string>)
    ensures var s := SubmitCommand(c, subdir, jobCommand);
      StartsWith(s, "cd " + PathJoin(c.baseDir, subdir) + " && source /etc/profile && ") &&
      EndsWith(s, " && " + (if jobCommand.Some? then jobCommand.value else "sbatch .job_file"))
  {
    var job := if jobCommand.Some? then jobCommand.value else "sbatch .job_file";
    var head := "cd " + PathJoin(c.baseDir, subdir) + " && source /etc/profile && ";
    var s := SubmitCommand(c, subdir, jobCommand);
    assert s == head + (c.moduleCommand + " && " + job);
    assert s == (head + c.moduleCommand) + (" && " + job);
    StartsWithConcat(head, c.moduleCommand + " && " + job);
    EndsWithConcat(head + c.moduleCommand, " && " + job);
  }

  // ---------------------------------------------------------------
  // Retrieval
  // ---------------------------------------------------------------

  /** The result files `retrieve_results` downloads. */
  predicate Wanted(name: string)
  {
    EndsWith(name, ".out") || EndsWith(name, ".err") || EndsWith(name, ".pwo")
  }

  function Filter(names: seq<string>): (r: seq<string>)
    ensures forall n :: n in r <==> n in names && Wanted(n)
  {
    if names == [] then [] else (if Wanted(names[0]) then [names[0]] else []) + Filter(names[1..])
  }

  function Gets(remoteDir: string, localDir: string, names: seq<string>): seq<Event>
  {
    if names == [] then [] else [Get(PathJoin(remoteDir, names[0]), PathJoin(localDir, names[0]))] +
                                Gets(remoteDir, localDir, names[1..])
  }

  /** The downloads of the listing, stopping at the first that raises. */
  function FetchAll(remoteDir: string, localDir: string, names: seq<string>, w: Wire): (seq<Event>, Outcome)
  {
    if names == [] then ([], Done)
    else if !Wanted(names[0]) then FetchAll(remoteDir, localDir, names[1..], w)
    else
      var rp := PathJoin(remoteDir, names[0]);
      var lp := PathJoin(localDir, names[0]);
      if w.get(rp, lp).Raised? then ([Get(rp, lp)], w.get(rp, lp))
      else var (es, o) := FetchAll(remoteDir, localDir, names[1..], w); ([Get(rp, lp)] + es, o)
  }

  /**
   * When no download raises, exactly the entries ending in ".out", ".err"
   * or ".pwo" are downloaded, in listing order, each to the same name in
   * the local directory.
   */
  lemma {:induction false} FetchAllExactly(remoteDir: string, localDir: string, names: seq<string>, w: Wire)
    requires forall n :: n in names && Wanted(n) ==> w.get(PathJoin(remoteDir, n), PathJoin(localDir, n)).Done?
    ensures FetchAll(remoteDir, localDir, names, w) == (Gets(remoteDir, localDir, Filter(names)), Done)
  {
    if names != [] {
      FetchAllExactly(remoteDir, localDir, names[1..], w);
      if Wanted(names[0]) {
        assert Filter(names) == [names[0]] + Filter(names[1..]);
      } else {
        assert Filter(names) == Filter(names[1..]);
      }
    }
  }

  /** `_get_sftp`: a held, live channel is kept; otherwise connect with the defaults and open one. */
  function SftpSpec(c: Config, st: RunnerState, w: Wire): (RunnerState, Outcome)
  {
    if st.sftp && w.sftpAlive then (st, Done)
    else
      var (st1, r) := ConnectSpec(c, st, 3, 5, w);
      if r.Err? then (st1, Raised(r.exc))
      else
        var st2 := st1.(trace := st1.trace + [OpenSftp]);
        if w.openSftp.Raised? then (st2, w.openSftp) else (st2.(sftp := true), Done)
  }

  /** `retrieve_results`. */
  function RetrieveSpec(c: Config, st: RunnerState, subdir: string, localDir: string, w: Wire): (RunnerState, Outcome)
  {
    var remoteDir := PathJoin(c.baseDir, subdir);
    var (st1, o) := SftpSpec(c, st, w);
    if o.Raised? then (st1, o)
    else match w.listdir(remoteDir)
      case Err(e) => (st1, Raised(e))
      case Ok(names) =>
        var (es, o2) := FetchAll(remoteDir, localDir, names, w);
        (st1.(trace := st1.trace + es), o2)
  }

  // ---------------------------------------------------------------
  // Version check
  // ---------------------------------------------------------------

  /** Python's `<` on tuples of integers. */
  predicate LexLess(a: seq<int>, b: seq<int>)
  {
    if a == [] then b != []
    else if b == [] then false
    else if a[0] != b[0] then a[0] < b[0]
    else LexLess(a[1..], b[1..])
  }

  /** Tuple comparison is a strict total order: exactly one of less, equal and greater. */
  lemma {:induction false} LexTrichotomy(a: seq<int>, b: seq<int>)
    ensures LexLess(a, b) || a == b || LexLess(b, a)
    ensures !(LexLess(a, b) && LexLess(b, a)) && !LexLess(a, a)
  {
    if a != [] && b != [] {
      LexTrichotomy(a[1..], b[1..]);
      if a[0] == b[0] && a[1..] == b[1..] {
        assert a == [a[0]] + a[1..] && b == [b[0]] + b[1..];
      }
    }
    if a != [] {
      LexTrichotomy(a[1..], a[1..]);
    }
  }

  /** A tuple is less than any longer tuple it begins. */
  lemma {:induction false} LexPrefix(a: seq<int>, b: seq<int>)
    requires b != []
    ensures LexLess(a, a + b)
  {
    if a != [] {
      assert (a + b)[1..] == a[1..] + b;
      LexPrefix(a[1..], b);
    }
  }

  /** `tuple(map(int, v.split(".")))`, None where some part is not an integer. */
  function VersionTuple(v: string): (r: Option<seq<int>>)
    ensures r.Some? ==> |r.value| == |Split(v, ".")|
  {
    Ints(Split(v, "."))
  }

  function Ints(parts: seq<string>): (r: Option<seq<int>>)
    ensures r.Some? <==> forall i :: 0 <= i < |parts| ==> ParseInt(parts[i]).Some?
    ensures r.Some? ==> |r.value| == |parts| && forall i :: 0 <= i < |parts| ==> r.value[i] == ParseInt(parts[i]).value
  {
    if parts == [] then Some([])
    else match (ParseInt(parts[0]), Ints(parts[1..]))
      case (Some(x), Some(xs)) => Some([x] + xs)
      case _ => None
  }

  /**
   * The verdict on the first "Program PWSCF" line: the version is the
   * first word after "v."; a line without one, or a version or minimum
   * that is not dotted integers, raises inside the check and so counts as
   * False, as does a version below the minimum.
   */
  function LineVerdict(line: string, minVersion: string): bool
  {
    var parts := Split(line, "v.");
    if |parts| < 2 then false
    else match FirstWord(parts[1])
      case None => false
      case Some(v) =>
        match (VersionTuple(v), VersionTuple(minVersion))
        case (Some(pv), Some(pm)) => !LexLess(pv, pm)
        case _ => false
  }

  /** The first line that mentions "Program PWSCF". */
  function FirstPwscf(lines: seq<string>): (r: Option<nat>)
    ensures r.Some? ==> r.value < |lines| && Contains(lines[r.value], "Program PWSCF") &&
                        forall j :: 0 <= j < r.value ==> !Contains(lines[j], "Program PWSCF")
    ensures r.None? ==> forall j :: 0 <= j < |lines| ==> !Contains(lines[j], "Program PWSCF")
  {
    if lines == [] then None
    else if Contains(lines[0], "Program PWSCF") then Some(0)
    else match FirstPwscf(lines[1..])
      case None => None
      case Some(i) => Some(i + 1)
  }

  /** The verdict of the banner text: False without a "Program PWSCF" line. */
  function BannerVerdict(text: string, minVersion: string): bool
  {
    var lines := SplitLines(text);
    match FirstPwscf(lines)
    case None => false
    case Some(i) => LineVerdict(lines[i], minVersion)
  }

  /** `check_qe_version_remote`: every failure, the connection's included, is False. */
  function VersionSpec(c: Config, st: RunnerState, minVersion: string, w: Wire): (RunnerState, bool)
  {
    var (st1, r) := ConnectSpec(c, st, 3, 5, w);
    if r.Err? then (st1, false) else BannerSpec(c, st1, minVersion, w)
  }

  /** Once connected: run `pw.x` with no input and judge its banner. */
  function BannerSpec(c: Config, st: RunnerState, minVersion: string, w: Wire): (RunnerState, bool)
  {
    var command := "source /etc/profile && " + c.moduleCommand + " && pw.x < /dev/null";
    var st1 := st.(trace := st.trace + [Exec(command)]);
    match w.exec(command)
    case Err(_) => (st1, false)
    case Ok((out, err)) => (st1, BannerVerdict(out + err, minVersion))
  }

  /** A banner whose version equals the minimum passes; one whose version is below it fails. */
  lemma VersionAgainstMinimum(line: string, rest: string, v: string, minVersion: string)
    requires forall k :: 0 <= k < |line| ==> !IsLineBreak(line[k])
    requires Contains(line, "Program PWSCF")
    requires |Split(line, "v.")| >= 2 && FirstWord(Split(line, "v.")[1]) == Some(v)
    requires VersionTuple(v).Some? && VersionTuple(minVersion).Some?
    ensures BannerVerdict(line + "\n" + rest, minVersion) <==> !LexLess(VersionTuple(v).value, VersionTuple(minVersion).value)
  {
    SplitLinesOf(line, rest);
    assert SplitLines(line + "\n" + rest)[0] == line;
  }

  // ---------------------------------------------------------------
  // Close and transfer
  // ---------------------------------------------------------------

  /** `close`: each close that raises leaves its field set; the runner always ends disconnected. */
  function CloseSpec(st: RunnerState, w: Wire): (r: RunnerState)
    ensures !r.connected
  {
    var st1 := if st.sftp then st.(trace := st.trace + [CloseSftp], sftp := w.closeSftp.Raised?) else st;
    var st2 := if st1.client.Some? then
                 st1.(trace := st1.trace + [CloseClient], client := if w.closeClient.Raised? then st1.client else None)
               else st1;
    st2.(connected := false)
  }

  /** When neither close raises, nothing is held afterwards and a later connect must dial again. */
  lemma CloseClears(c: Config, st: RunnerState, retries: int, delay: int, w: Wire, w2: Wire)
    requires w.closeSftp.Done? && w.closeClient.Done?
    ensures var st1 := CloseSpec(st, w);
      !st1.sftp && st1.client.None? && !st1.connected &&
      ConnectSpec(c, st1, retries, delay, w2) == Attempts(c, st1, 1, retries, delay, w2)
  {
  }

  const NoPathjoin := Exc("AttributeError", "module 'os' has no attribute 'pathjoin'")

  /**
   * `transfer_inputs` as written: after connecting, making the remote
   * directory and getting a channel, the first local entry reaches the
   * misspelt `os.pathjoin` and raises; only an empty directory gets
   * through, and it has no "pseudos" folder to copy.
   */
  function TransferSpec(c: Config, st: RunnerState, localEntries: Result<seq<string>>, subdir: string, w: Wire)
    : (RunnerState, Outcome)
  {
    var remoteDir := PathJoin(c.baseDir, subdir);
    var (st1, r) := ConnectSpec(c, st, 3, 5, w);
    if r.Err? then (st1, Raised(r.exc))
    else
      var command := "mkdir -p " + remoteDir;
      var st2 := st1.(trace := st1.trace + [Exec(command)]);
      if w.exec(command).Err? then (st2, Raised(w.exec(command).exc))
      else
        var (st3, o) := SftpSpec(c, st2, w);
        if o.Raised? then (st3, o)
        else match localEntries
          case Err(e) => (st3, Raised(e))
          case Ok(entries) => if entries == [] then (st3, Done) else (st3, Raised(NoPathjoin))
  }

  /** `st1`'s trace continues `st`'s without any request that is not part of connecting. */
  predicate Quiet(st: RunnerState, st1: RunnerState)
  {
    |st.trace| <= |st1.trace| && st1.trace[..|st.trace|] == st.trace &&
    forall i :: |st.trace| <= i < |st1.trace| ==> !st1.trace[i].Get? && !st1.trace[i].Put? && !st1.trace[i].Exec? &&
                                                  !st1.trace[i].OpenSftp?
  }

  /** `st1`'s trace continues `st`'s without a file copied either way. */
  predicate NoCopy(st: RunnerState, st1: RunnerState)
  {
    |st.trace| <= |st1.trace| && st1.trace[..|st.trace|] == st.trace &&
    forall i :: |st.trace| <= i < |st1.trace| ==> !st1.trace[i].Get? && !st1.trace[i].Put?
  }

  lemma QuietTrans(a: RunnerState, b: RunnerState, c: RunnerState)
    requires Quiet(a, b) && Quiet(b, c)
    ensures Quiet(a, c)
  {
    assert c.trace[..|a.trace|] == c.trace[..|b.trace|][..|a.trace|];
  }

  lemma NoCopyTrans(a: RunnerState, b: RunnerState, c: RunnerState)
    requires NoCopy(a, b) && NoCopy(b, c)
    ensures NoCopy(a, c)
  {
    assert c.trace[..|a.trace|] == c.trace[..|b.trace|][..|a.trace|];
  }

  /** Attempts only dial, offer credentials and sleep. */
  lemma {:induction false} AttemptsQuiet(c: Config, st: RunnerState, a: int, retries: int, delay: int, w: Wire)
    ensures Quiet(st, Attempts(c, st, a, retries, delay, w).0)
    decreases if a <= retries then retries - a + 1 else 0
  {
    if a <= retries {
      var (st1, ok) := AttemptSpec(c, st, a, delay, w);
      AttemptEvents(c, st, a, delay, w);
      assert Quiet(st, st1);
      if !(ok && st1.client.Some?) {
        AttemptsQuiet(c, st1, a + 1, retries, delay, w);
        QuietTrans(st, st1, Attempts(c, st1, a + 1, retries, delay, w).0);
      }
    }
  }

  /** Connecting only probes, closes, dials, offers credentials and sleeps. */
  lemma ConnectQuiet(c: Config, st: RunnerState, retries: int, delay: int, w: Wire)
    ensures Quiet(st, ConnectSpec(c, st, retries, delay, w).0)
  {
    if st.connected && st.client.Some? {
      var st1 := st.(trace := st.trace + [Probe]);
      var (st2, o) := ResetSpec(st1, w);
      assert Quiet(st, st2);
      if o.Done? && w.probe.Raised? {
        AttemptsQuiet(c, st2, 1, retries, delay, w);
        QuietTrans(st, st2, Attempts(c, st2, 1, retries, delay, w).0);
      }
    } else {
      AttemptsQuiet(c, st, 1, retries, delay, w);
    }
  }

  /** Getting a channel copies nothing. */
  lemma SftpNoCopy(c: Config, st: RunnerState, w: Wire)
    ensures NoCopy(st, SftpSpec(c, st, w).0)
  {
    if !(st.sftp && w.sftpAlive) {
      var st1 := ConnectSpec(c, st, 3, 5, w).0;
      ConnectQuiet(c, st, 3, 5, w);
      var st2 := st1.(trace := st1.trace + [OpenSftp]);
      assert NoCopy(st1, st2);
      NoCopyTrans(st, st1, st2);
    }
  }

  /** No upload ever happens, and a directory holding a "pseudos" folder always fails. */
  lemma TransferNeverUploads(c: Config, st: RunnerState, entries: seq<string>, subdir: string, w: Wire)
    ensures var (st1, o) := TransferSpec(c, st, Ok(entries), subdir, w);
      NoCopy(st, st1) && ("pseudos" in entries ==> o.Raised?)
  {
    var remoteDir := PathJoin(c.baseDir, subdir);
    var st1 := ConnectSpec(c, st, 3, 5, w).0;
    ConnectQuiet(c, st, 3, 5, w);
    var st2 := st1.(trace := st1.trace + [Exec("mkdir -p " + remoteDir)]);
    assert NoCopy(st, st1);
    assert NoCopy(st1, st2);
    NoCopyTrans(st, st1, st2);
    SftpNoCopy(c, st2, w);
    NoCopyTrans(st, st2, SftpSpec(c, st2, w).0);
  }

  /**
   * The uploads `transfer_inputs` evidently means to make, with
   * `os.path.join` in place of `os.pathjoin`: each regular file of the
   * directory listing goes to the same name in the remote directory.
   */
  function Uploads(localDir: string, remoteDir: string, entries: seq<string>, isFile: string -> bool): seq<Event>
  {
    if entries == [] then []
    else
      var lp := PathJoin(localDir, entries[0]);
      (if isFile(lp) then [Put(lp, PathJoin(remoteDir, entries[0]))] else []) +
      Uploads(localDir, remoteDir, entries[1..], isFile)
  }

  /** The corrected transfer: the top-level files, then those of a local "pseudos" folder when there is one. */
  function FixedTransfer(localDir: string, remoteDir: string, entries: seq<string>, pseudos: Option<seq<string>>,
                         isFile: string -> bool): seq<Event>
  {
    Uploads(localDir, remoteDir, entries, isFile) +
    (if pseudos.Some? then Uploads(PathJoin(localDir, "pseudos"), PathJoin(remoteDir, "pseudos"), pseudos.value, isFile)
     else [])
  }

  /** Every regular file of the listing is uploaded, and nothing else is. */
  lemma {:induction false} UploadsExactly(localDir: string, remoteDir: string, entries: seq<string>,
                                          isFile: string -> bool, e: Event)
    ensures e in Uploads(localDir, remoteDir, entries, isFile) <==>
      exists n :: n in entries && isFile(PathJoin(localDir, n)) && e == Put(PathJoin(localDir, n), PathJoin(remoteDir, n))
  {
    if entries != [] {
      UploadsExactly(localDir, remoteDir, entries[1..], isFile, e);
      var n0 := entries[0];
      if e == Put(PathJoin(localDir, n0), PathJoin(remoteDir, n0)) && isFile(PathJoin(localDir, n0)) {
        assert n0 in entries;
      }
      if e in Uploads(localDir, remoteDir, entries[1..], isFile) {
        var n :| n in entries[1..] && isFile(PathJoin(localDir, n)) && e == Put(PathJoin(localDir, n), PathJoin(remoteDir, n));
        assert n in entries;
      }
      forall n | n in entries && isFile(PathJoin(localDir, n)) && e == Put(PathJoin(localDir, n), PathJoin(remoteDir, n))
        ensures e in Uploads(localDir, remoteDir, entries, isFile)
      {
        if n != n0 {
          assert n in entries[1..];
        }
      }
    }
  }

  /** With a "pseudos" folder, the corrected transfer does reach its files, which the code as written never does. */
  lemma FixedTransferReachesPseudos(localDir: string, remoteDir: string, entries: seq<string>, pseudo: string,
                                    isFile: string -> bool)
    requires isFile(PathJoin(PathJoin(localDir, "pseudos"), pseudo))
    ensures var pl := PathJoin(localDir, "pseudos");
      Put(PathJoin(pl, pseudo), PathJoin(PathJoin(remoteDir, "pseudos"), pseudo)) in
        FixedTransfer(localDir, remoteDir, entries, Some([pseudo]), isFile)
  {
    UploadsExactly(PathJoin(localDir, "pseudos"), PathJoin(remoteDir, "pseudos"), [pseudo], isFile,
                   Put(PathJoin(PathJoin(localDir, "pseudos"), pseudo), PathJoin(PathJoin(remoteDir, "pseudos"), pseudo)));
  }

  /** The download loop of `retrieve_results`: the requests it makes, in order, and how it ends. */
  method FetchLoop(remoteDir: string, localDir: string, names: seq<string>, w: Wire) returns (es: seq<Event>, o: Outcome)
    ensures (es, o) == FetchAll(remoteDir, localDir, names, w)
  {
    es := [];
    assert names[0..] == names;
    assert es + FetchAll(remoteDir, localDir, names, w).0 == FetchAll(remoteDir, localDir, names, w).0;
    var i := 0;
    while i < |names|
      invariant 0 <= i <= |names|
      invariant FetchAll(remoteDir, localDir, names, w).0 == es + FetchAll(remoteDir, localDir, names[i..], w).0
      invariant FetchAll(remoteDir, localDir, names, w).1 == FetchAll(remoteDir, localDir, names[i..], w).1
    {
      var name := names[i];
      assert names[i..][1..] == names[i + 1..];
      if Wanted(name) {
        var rp := PathJoin(remoteDir, name);
        var lp := PathJoin(localDir, name);
        es := es + [Get(rp, lp)];
        if w.get(rp, lp).Raised? {
          assert FetchAll(remoteDir, localDir, names[i..], w) == ([Get(rp, lp)], w.get(rp, lp));
          assert es[..|es| - 1] + [Get(rp, lp)] == es;
          return es, w.get(rp, lp);
        }
      }
      i := i + 1;
    }
    assert FetchAll(remoteDir, localDir, names[i..], w) == ([], Done);
    assert es + [] == es;
    o := Done;
  }

  /** The line loop of `check_qe_version_remote`: the first "Program PWSCF" line decides. */
  method ScanBanner(text: string, minVersion: string) returns (ok: bool)
    ensures ok == BannerVerdict(text, minVersion)
  {
    var lines := SplitLines(text);
    var i := 0;
    while i < |lines|
      invariant 0 <= i <= |lines|
      invariant forall j :: 0 <= j < i ==> !Contains(lines[j], "Program PWSCF")
    {
      if Contains(lines[i], "Program PWSCF") {
        return LineVerdict(lines[i], minVersion);
      }
      i := i + 1;
    }
    ok := false;
  }

  // ---------------------------------------------------------------
  // The runner
  // ---------------------------------------------------------------

  class RemoteRunner {
    const cfg: Config
    var client: Option<nat>
    var sftp: bool
    var connected: bool
    var made: nat
    var trace: seq<Event>

    function State(): RunnerState
      reads this
    {
      RunnerState(client, sftp, connected, made, trace)
    }

    constructor(c: Config)
      ensures cfg == c && State() == Initial
    {
      cfg := c;
      client := None;
      sftp := false;
      connected := false;
      made := 0;
      trace := [];
    }

    /** One attempt of `_connect`'s loop. */
    method Attempt(a: int, delay: int, w: Wire) returns (ok: bool)
      modifies this
      ensures (State(), ok) == AttemptSpec(cfg, old(State()), a, delay, w)
    {
      trace := trace + [Dial(a)];
      if w.dial(a).Done? {
        var id := made;
        made := made + 1;
        var fallback := true;
        if HasText(cfg.keyPath) {
          trace := trace + [KeyAuth(KeyFile(cfg, w.home))];
          if w.keyAuth(a).Done? {
            client := Some(id);
            connected := true;
            return true;
          }
          fallback := KeyFallback(w.keyAuth(a).exc);
        }
        if fallback && HasText(cfg.password) {
          trace := trace + [PasswordAuth];
          if w.passwordAuth(a).Done? {
            client := Some(id);
            connected := true;
            return true;
          }
        }
      }
      trace := trace + [Sleep(delay)];
      ok := false;
    }

    /** `_connect(retries, delay)`: returns the number of the client in use. */
    method Connect(retries: int, delay: int, w: Wire) returns (r: Result<nat>)
      modifies this
      ensures (State(), r) == ConnectSpec(cfg, old(State()), retries, delay, w)
    {
      if connected && client.Some? {
        trace := trace + [Probe];
        if w.probe.Done? {
          return Ok(client.value);
        }
        var o := Reset(w);
        if o.Raised? {
          return Err(o.exc);
        }
      }
      r := Retry(retries, delay, w);
    }

    /** The reset after a failed probe: disconnected, then the client and the channel closed and cleared. */
    method Reset(w: Wire) returns (o: Outcome)
      modifies this
      ensures (State(), o) == ResetSpec(old(State()), w)
    {
      connected := false;
      trace := trace + [CloseClient];
      if w.closeClient.Raised? {
        return w.closeClient;
      }
      if sftp {
        trace := trace + [CloseSftp];
        if w.closeSftp.Raised? {
          return w.closeSftp;
        }
      }
      client := None;
      sftp := false;
      o := Done;
    }

    /** The attempt loop of `_connect`, from attempt 1 to `retries`. */
    method Retry(retries: int, delay: int, w: Wire) returns (r: Result<nat>)
      modifies this
      ensures (State(), r) == Attempts(cfg, old(State()), 1, retries, delay, w)
    {
      ghost var start := State();
      var a := 1;
      while a <= retries
        invariant a >= 1
        invariant Attempts(cfg, State(), a, retries, delay, w) == Attempts(cfg, start, 1, retries, delay, w)
        decreases retries - a + 1
      {
        var ok := Attempt(a, delay, w);
        if ok {
          return Ok(client.value);
        }
        a := a + 1;
      }
      r := Err(Exc("ConnectionError", FailedMessage(cfg.hostname, retries)));
    }

    /** `submit_remote_job`; `jobCommand` is the calculator's command when one is given. */
    method SubmitRemoteJob(subdir: string, jobCommand: Option<string>, w: Wire) returns (r: Result<string>)
      modifies this
      ensures (State(), r) == SubmitSpec(cfg, old(State()), subdir, jobCommand, w)
    {
      var c := Connect(3, 5, w);
      if c.Err? {
        return Err(c.exc);
      }
      var command := SubmitCommand(cfg, subdir, jobCommand);
      trace := trace + [Exec(command)];
      var reply := w.exec(command);
      if reply.Err? {
        return Err(reply.exc);
      }
      var output := Strip(reply.value.0);
      var error := Strip(reply.value.1);
      if error != "" && !StartsWith(Strip(error), "Loading") {
        return Err(Exc("RuntimeError", "❌ Error submitting job:\n" + error));
      }
      r := Ok(Strip(output));
    }

    /** `_get_sftp`. */
    method GetSftp(w: Wire) returns (o: Outcome)
      modifies this
      ensures (State(), o) == SftpSpec(cfg, old(State()), w)
    {
      if sftp && w.sftpAlive {
        return Done;
      }
      var c := Connect(3, 5, w);
      if c.Err? {
        return Raised(c.exc);
      }
      trace := trace + [OpenSftp];
      if w.openSftp.Raised? {
        return w.openSftp;
      }
      sftp := true;
      o := Done;
    }

    /** `retrieve_results`: the listing is walked once, downloading the wanted entries. */
    method RetrieveResults(subdir: string, localDir: string, w: Wire) returns (o: Outcome)
      modifies this
      ensures (State(), o) == RetrieveSpec(cfg, old(State()), subdir, localDir, w)
    {
      var remoteDir := PathJoin(cfg.baseDir, subdir);
      o := GetSftp(w);
      if o.Raised? {
        return;
      }
      var listing := w.listdir(remoteDir);
      if listing.Err? {
        return Raised(listing.exc);
      }
      var es;
      es, o := FetchLoop(remoteDir, localDir, listing.value, w);
      trace := trace + es;
    }

    /** `check_qe_version_remote`: the banner is read line by line up to the first "Program PWSCF" line. */
    method CheckQeVersion(minVersion: string, w: Wire) returns (ok: bool)
      modifies this
      ensures (State(), ok) == VersionSpec(cfg, old(State()), minVersion, w)
    {
      var c := Connect(3, 5, w);
      if c.Err? {
        return false;
      }
      ok := RunBanner(minVersion, w);
    }

    method RunBanner(minVersion: string, w: Wire) returns (ok: bool)
      modifies this
      ensures (State(), ok) == BannerSpec(cfg, old(State()), minVersion, w)
    {
      var command := "source /etc/profile && " + cfg.moduleCommand + " && pw.x < /dev/null";
      trace := trace + [Exec(command)];
      var reply := w.exec(command);
      if reply.Err? {
        return false;
      }
      ok := ScanBanner(reply.value.0 + reply.value.1, minVersion);
    }

    /** `close`. */
    method Close(w: Wire)
      modifies this
      ensures State() == CloseSpec(old(State()), w)
    {
      if sftp {
        trace := trace + [CloseSftp];
        if w.closeSftp.Done? {
          sftp := false;
        }
      }
      if client.Some? {
        trace := trace + [CloseClient];
        if w.closeClient.Done? {
          client := None;
        }
      }
      connected := false;
    }

    /** `transfer_inputs`, as written; `localEntries` is the local listing, or the error listing it raises. */
    method TransferInputs(localEntries: Result<seq<string>>, subdir: string, w: Wire) returns (o: Outcome)
      modifies this
      ensures (State(), o) == TransferSpec(cfg, old(State()), localEntries, subdir, w)
    {
      var remoteDir := PathJoin(cfg.baseDir, subdir);
      var c := Connect(3, 5, w);
      if c.Err? {
        return Raised(c.exc);
      }
      var command := "mkdir -p " + remoteDir;
      trace := trace + [Exec(command)];
      if w.exec(command).Err? {
        return Raised(w.exec(command).exc);
      }
      o := GetSftp(w);
      if o.Raised? {
        return;
      }
      if localEntries.Err? {
        return Raised(localEntries.exc);
      }
      if |localEntries.value| > 0 {
        return Raised(NoPathjoin);
      }
      o := Done;
    }
  }
}
