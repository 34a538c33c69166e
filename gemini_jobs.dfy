// xespresso/gemini-remote_job_manager.py: a copy of the remote job manager
// that opens a new SSH client for every step (each `with` block closes it
// again), prefers a key file over a password, strips what commands print,
// uploads every entry of the job directory and asks the cluster whether the
// job file arrived before choosing how to run it.

module GeminiJobs {
  import opened PyStr
  import opened PyErr
  import opened PyDict
  import opened Json
  import opened JobDirs
  import opened SshSteps

  datatype Config = Config(host: string, user: string, port: int, remoteBase: string,
                           keyPath: Option<string>, password: Option<string>)

  const NoCredentials := Exc("ValueError", "You must provide either an SSH key path or a password.")

  const NoInput := Exc("FileNotFoundError", "No .pwi file found in the local directory.")

  /** `__init__`: the base defaults to `/home/<user>/jobs`; a key path or a password is required. */
  function NewConfig(host: string, user: string, remoteBase: Option<string>, port: int,
                     keyPath: Option<string>, password: Option<string>): (r: Result<Config>)
    ensures r.Err? <==> !HasText(keyPath) && !HasText(password)
    ensures r.Err? ==> r.exc == NoCredentials
    ensures r.Ok? ==> r.value.host == host && r.value.user == user && r.value.port == port &&
                      r.value.keyPath == keyPath && r.value.password == password
    ensures r.Ok? && HasText(remoteBase) ==> r.value.remoteBase == remoteBase.value
  {
    var base := if HasText(remoteBase) then remoteBase.value else PathJoin(PathJoin("/home", user), "jobs");
    if !HasText(keyPath) && !HasText(password) then Err(NoCredentials)
    else Ok(Config(host, user, port, base, keyPath, password))
  }

  /** Without a base (or with an empty one) a user name without slashes gets `/home/<user>/jobs`. */
  lemma DefaultBase(host: string, user: string, remoteBase: Option<string>, port: int,
                    keyPath: Option<string>, password: Option<string>)
    requires HasText(keyPath) || HasText(password)
    requires !HasText(remoteBase)
    requires user != "" && user[0] != '/' && user[|user| - 1] != '/'
    ensures NewConfig(host, user, remoteBase, port, keyPath, password) == Ok(Config(host, user, port, "/home/" + user + "/jobs", keyPath, password))
  {
    var home := PathJoin("/home", user);
    assert home == "/home/" + user by {
      assert !StartsWith(user, "/") by { assert user[..1][0] == user[0]; }
      assert !EndsWith("/home", "/");
    }
    assert !EndsWith(home, "/") by {
      assert home[|home| - 1] == user[|user| - 1];
    }
    assert PathJoin(home, "jobs") == home + "/jobs";
  }

  // ---------------------------------------------------------------
  // One client per step
  // ---------------------------------------------------------------

  /** The exception `_connect_ssh` raises in place of a failed login's. */
  function ConnectError(e: Exc): (r: Exc)
    ensures r.kind == "Exception"
    ensures e.kind == "AuthenticationException" ==> r.message == "Authentication failed. Please check your credentials."
    ensures e.kind != "AuthenticationException" ==> EndsWith(r.message, e.message)
  {
    EndsWithConcat("SSH connection failed: ", e.message);
    EndsWithConcat("Could not connect to the server: ", e.message);
    if e.kind == "AuthenticationException" then Exc("Exception", "Authentication failed. Please check your credentials.")
    else if e.kind == "SSHException" then Exc("Exception", "SSH connection failed: " + e.message)
    else Exc("Exception", "Could not connect to the server: " + e.message)
  }

  /** `_connect_ssh`: a new client logs in with the key file when one is set, else with the password. */
  function Connect(c: Config, w: Wire, h: Host): (r: (Wire, Outcome))
    ensures r.0 == Dial(w, HasText(c.keyPath), h).0
    ensures r.1.Raised? <==> h.login(w.logins).Raised?
    ensures r.1.Raised? ==> r.1.exc == ConnectError(h.login(w.logins).exc)
  {
    var (w1, o) := Dial(w, HasText(c.keyPath), h);
    (w1, if o.Raised? then Raised(ConnectError(o.exc)) else Done)
  }

  /** `_execute_command`: what the command printed, stripped; an SSH failure is reworded. */
  function Run(w: Wire, cmd: string, h: Host): (r: (Wire, Result<string>))
    ensures r.0 == Send(w, cmd, h).0
    ensures r.1.Ok? <==> h.exec(w.commands, cmd).Ok?
    ensures r.1.Ok? ==> r.1.value == Strip(h.exec(w.commands, cmd).value.0)
  {
    var (w1, out) := Send(w, cmd, h);
    if out.Ok? then (w1, Ok(Strip(out.value.0)))
    else if out.exc.kind == "SSHException" then (w1, Err(Exc("Exception", "Command execution failed: " + out.exc.message)))
    else (w1, Err(out.exc))
  }

  // ---------------------------------------------------------------
  // Remote directory and prefix
  // ---------------------------------------------------------------

  /** The arguments of `submit`, with the console answer and the clock readings it consumes. */
  datatype Submission = Submission(localDir: string, jobFile: string, prefix: Option<string>,
                                   remoteDir: Option<string>, lab: Option<string>,
                                   answer: string, stamp: string, now: string)

  /** A new directory under the base: the label, else `job_<stamp>`. */
  function Fresh(c: Config, a: Submission): Value
  {
    VStr(PathJoin(c.remoteBase, if HasText(a.lab) then a.lab.value else "job_" + a.stamp))
  }

  /** `if remote_dir is None`: a missing directory, or a recorded null, is chosen afresh. */
  function Settle(c: Config, a: Submission, rd: Option<Value>): Value
  {
    if rd.None? || rd.value == VNone then Fresh(c, a) else rd.value
  }

  /**
   * The remote directory: the recorded one, unless the user answers "y"
   * (in any case) to the restart question, in which case the old remote
   * directory is removed over a client of its own, the record is deleted
   * and the directory is chosen afresh.
   */
  function ResolveSpec(c: Config, w: Wire, disk: Disk, a: Submission, h: Host): (r: (Wire, Disk, Result<Value>))
    ensures r.1 == disk || r.1 == RemoveInfo(disk)
  {
    if disk.info.None? then (w, disk, Ok(Settle(c, a, if a.remoteDir.Some? then Some(VStr(a.remoteDir.value)) else None)))
    else match Get(disk.info.value, "remote_dir")
      case None => (w, disk, Err(Exc("KeyError", "'remote_dir'")))
      case Some(v) =>
        if Lower(a.answer) != "y" then (w, disk, Ok(Settle(c, a, Some(v))))
        else
          var (w1, o) := Connect(c, w, h);
          if o.Raised? then (w1, disk, Err(o.exc))
          else
            var (w2, x) := Run(w1, "rm -rf " + Show(v), h);
            var w3 := Note(w2, Disconnect);
            if x.Err? then (w3, disk, Err(x.exc)) else (w3, RemoveInfo(disk), Ok(Fresh(c, a)))
  }

  /** The precedence of the remote directory, and what a restart does to the cluster. */
  lemma RemoteDirPrecedence(c: Config, w: Wire, disk: Disk, a: Submission, h: Host)
    ensures var (w1, d1, r) := ResolveSpec(c, w, disk, a, h);
      (disk.info.None? ==>
         w1 == w && d1 == disk &&
         r == Ok(if a.remoteDir.Some? then VStr(a.remoteDir.value) else Fresh(c, a))) &&
      (disk.info.Some? && HasKey(disk.info.value, "remote_dir") && Get(disk.info.value, "remote_dir") != Some(VNone) &&
       Lower(a.answer) != "y" ==>
         w1 == w && d1 == disk && r == Ok(Get(disk.info.value, "remote_dir").value)) &&
      (disk.info.Some? && !HasKey(disk.info.value, "remote_dir") ==> r == Err(Exc("KeyError", "'remote_dir'"))) &&
      (disk.info.Some? && r.Ok? && Lower(a.answer) == "y" ==>
         d1.info.None? && r.value == Fresh(c, a) &&
         w1.trace == w.trace + [Login(HasText(c.keyPath)), Exec("rm -rf " + Show(Get(disk.info.value, "remote_dir").value)), Disconnect])
  {
  }

  /** The prefix: the given one, else the first `.pwi` entry of the listing, extension included. */
  function PrefixOf(disk: Disk, a: Submission): (r: Result<string>)
    ensures a.prefix.Some? ==> r == Ok(a.prefix.value)
    ensures a.prefix.None? && disk.entries.None? ==> r == Err(NoDir(a.localDir))
    ensures a.prefix.None? && disk.entries.Some? ==>
      (r.Err? <==> forall i :: 0 <= i < |disk.entries.value| ==> !EndsWith(disk.entries.value[i], ".pwi")) &&
      (r.Err? ==> r.exc == NoInput) &&
      (r.Ok? ==> r.value in disk.entries.value && EndsWith(r.value, ".pwi"))
  {
    if a.prefix.Some? then Ok(a.prefix.value)
    else if disk.entries.None? then Err(NoDir(a.localDir))
    else match FirstPwi(disk.entries.value)
      case None => Err(NoInput)
      case Some(f) => Ok(f)
  }

  // ---------------------------------------------------------------
  // The run command
  // ---------------------------------------------------------------

  function TestCmd(rd: string, jobFile: string): string
  {
    "test -f " + PathJoin(rd, jobFile) + " && echo 'exists'"
  }

  /** The last of the existence tests: bash when it printed something, else pw.x. */
  function Retest(w: Wire, rd: string, jobFile: string, prefix: string, h: Host): (Wire, Result<string>)
  {
    var (w1, t) := Run(w, TestCmd(rd, jobFile), h);
    if t.Err? then (w1, Err(t.exc))
    else if t.value != "" then (w1, Ok(Bash(rd, jobFile)))
    else (w1, Ok(PwX(rd, prefix)))
  }

  /**
   * The choice of the run command once `command -v sbatch` printed
   * `slurmPath`: sbatch when it printed something and the job file is on
   * the cluster; otherwise the existence test is asked (again) and bash
   * runs the job file when it is there, pw.x the input when it is not.
   */
  function ChooseSpec(w: Wire, slurmPath: string, rd: string, jobFile: string, prefix: string, h: Host): (Wire, Result<string>)
  {
    if slurmPath == "" then Retest(w, rd, jobFile, prefix, h)
    else
      var (w1, t) := Run(w, TestCmd(rd, jobFile), h);
      if t.Err? then (w1, Err(t.exc))
      else if t.value != "" then (w1, Ok(Sbatch(rd, jobFile)))
      else Retest(w1, rd, jobFile, prefix, h)
  }

  /** What the test at command number `n` printed, stripped. */
  function Said(h: Host, n: nat, rd: string, jobFile: string): Result<string>
  {
    if h.exec(n, TestCmd(rd, jobFile)).Ok? then Ok(Strip(h.exec(n, TestCmd(rd, jobFile)).value.0))
    else Err(h.exec(n, TestCmd(rd, jobFile)).exc)
  }

  /** The existence test is asked once, or twice when sbatch was found and the first answer was empty. */
  lemma ChoiceRequests(w: Wire, slurmPath: string, rd: string, jobFile: string, prefix: string, h: Host)
    ensures var w1 := ChooseSpec(w, slurmPath, rd, jobFile, prefix, h).0;
      w1.logins == w.logins &&
      (w1 == Send(w, TestCmd(rd, jobFile), h).0 ||
       (slurmPath != "" && Said(h, w.commands, rd, jobFile) == Ok("") &&
        w1 == Send(Send(w, TestCmd(rd, jobFile), h).0, TestCmd(rd, jobFile), h).0))
  {
  }

  /**
   * Why each command is chosen: sbatch exactly when sbatch was found and
   * the first test found the job file; bash when the last test found it
   * after sbatch was missing or the first test did not; pw.x when the
   * last test printed nothing.
   */
  lemma ChoiceReasons(w: Wire, slurmPath: string, rd: string, jobFile: string, prefix: string, h: Host)
    ensures var (w1, r) := ChooseSpec(w, slurmPath, rd, jobFile, prefix, h);
      var first := Said(h, w.commands, rd, jobFile);
      var last := Said(h, w1.commands - 1, rd, jobFile);
      (r == Ok(Sbatch(rd, jobFile)) <==> slurmPath != "" && first.Ok? && first.value != "") &&
      (r == Ok(Bash(rd, jobFile)) <==> (slurmPath == "" || first == Ok("")) && last.Ok? && last.value != "") &&
      (r == Ok(PwX(rd, prefix)) <==> (slurmPath == "" || first == Ok("")) && last == Ok("")) &&
      (r.Err? <==> last.Err?)
  {
    CommandsDiffer(rd, jobFile, prefix);
    var first := Said(h, w.commands, rd, jobFile);
    if slurmPath == "" {
      RetestReasons(w, rd, jobFile, prefix, h);
      assert ChooseSpec(w, slurmPath, rd, jobFile, prefix, h) == Retest(w, rd, jobFile, prefix, h);
    } else {
      var w1 := Send(w, TestCmd(rd, jobFile), h).0;
      if first == Ok("") {
        RetestReasons(w1, rd, jobFile, prefix, h);
        assert ChooseSpec(w, slurmPath, rd, jobFile, prefix, h) == Retest(w1, rd, jobFile, prefix, h);
      } else {
        assert ChooseSpec(w, slurmPath, rd, jobFile, prefix, h).0 == w1;
      }
    }
  }

  /** The last test decides between bash and pw.x, and its failure is the choice's failure. */
  lemma RetestReasons(w: Wire, rd: string, jobFile: string, prefix: string, h: Host)
    ensures var (w1, r) := Retest(w, rd, jobFile, prefix, h);
      var last := Said(h, w.commands, rd, jobFile);
      w1.commands == w.commands + 1 && r != Ok(Sbatch(rd, jobFile)) &&
      (r == Ok(Bash(rd, jobFile)) <==> last.Ok? && last.value != "") &&
      (r == Ok(PwX(rd, prefix)) <==> last == Ok("")) &&
      (r.Err? <==> last.Err?)
  {
    CommandsDiffer(rd, jobFile, prefix);
  }

  // ---------------------------------------------------------------
  // submit
  // ---------------------------------------------------------------

  /** Every entry of the listing goes to the same name under the remote directory. */
  function Pairs(localDir: string, rd: string, names: seq<string>): (r: seq<(string, string)>)
    ensures |r| == |names|
    ensures forall i :: 0 <= i < |names| ==> r[i] == (PathJoin(localDir, names[i]), PathJoin(rd, names[i]))
  {
    if names == [] then [] else [(PathJoin(localDir, names[0]), PathJoin(rd, names[0]))] + Pairs(localDir, rd, names[1..])
  }

  /**
   * The body of the second `with` block: the directory is made, every
   * entry is uploaded over a channel that is closed again, sbatch is
   * looked for, the run command is chosen and run.
   */
  function SessionSpec(w: Wire, disk: Disk, localDir: string, rd: string, jobFile: string, prefix: string, h: Host): (Wire, Outcome)
  {
    var (w1, m) := Run(w, "mkdir -p " + rd, h);
    if m.Err? then (w1, Raised(m.exc))
    else
      var w2 := Note(w1, OpenSftp);
      if h.openSftp.Raised? then (w2, h.openSftp)
      else if disk.entries.None? then (Note(w2, CloseSftp), Raised(NoDir(localDir)))
      else
        var (es, u) := PutAll(Pairs(localDir, rd, disk.entries.value), h);
        var w3 := Note(w2.(trace := w2.trace + es), CloseSftp);
        if u.Raised? then (w3, u) else Launch(w3, rd, jobFile, prefix, h)
  }

  /** After the uploads: sbatch is looked for, the run command is chosen and run. */
  function Launch(w: Wire, rd: string, jobFile: string, prefix: string, h: Host): (r: (Wire, Outcome))
    ensures w.trace <= r.0.trace
  {
    var (w1, sp) := Run(w, "command -v sbatch", h);
    if sp.Err? then (w1, Raised(sp.exc))
    else
      var (w2, cmd) := ChooseSpec(w1, sp.value, rd, jobFile, prefix, h);
      ChooseGrows(w1, sp.value, rd, jobFile, prefix, h);
      if cmd.Err? then (w2, Raised(cmd.exc))
      else
        var (w3, out) := Run(w2, cmd.value, h);
        (w3, if out.Err? then Raised(out.exc) else Done)
  }

  /** The record `submit` writes. */
  function Record(c: Config, rd: Value, now: string): (r: Dict<string, Value>)
    ensures Get(r, "remote_dir") == Some(rd) && Get(r, "host") == Some(VStr(c.host)) && Get(r, "submitted") == Some(VStr(now))
  {
    var d := [("remote_dir", rd), ("host", VStr(c.host)), ("submitted", VStr(now))];
    GetSkip(d, "host", 1);
    GetSkip(d, "submitted", 2);
    d
  }

  /**
   * `submit`: the remote directory, then the prefix, then one client for
   * the whole staging and run, which is closed however the body ends;
   * the record is written only when everything succeeded.
   */
  function SubmitSpec(c: Config, w: Wire, disk: Disk, a: Submission, h: Host): (r: (Wire, Disk, Outcome))
    ensures r.1.files == disk.files
    ensures r.2.Raised? ==> r.1 == disk || r.1 == RemoveInfo(disk)
    ensures r.2.Done? ==>
      (r.1.info.Some? && Get(r.1.info.value, "host") == Some(VStr(c.host)) &&
       Get(r.1.info.value, "submitted") == Some(VStr(a.now)) &&
       |r.0.trace| > 0 && Last(r.0.trace) == Disconnect)
  {
    var (w1, d1, rd) := ResolveSpec(c, w, disk, a, h);
    if rd.Err? then (w1, d1, Raised(rd.exc))
    else match PrefixOf(d1, a)
      case Err(e) => (w1, d1, Raised(e))
      case Ok(prefix) =>
        var (w2, o) := Connect(c, w1, h);
        if o.Raised? then (w2, d1, o)
        else
          var (w3, s) := SessionSpec(w2, d1, a.localDir, Show(rd.value), a.jobFile, prefix, h);
          var w4 := Note(w3, Disconnect);
          if s.Raised? then (w4, d1, s)
          else (w4, WriteInfo(d1, Record(c, rd.value, a.now)), Done)
  }

  /** Commands only add to the requests made before them. */
  lemma ChooseGrows(w: Wire, slurmPath: string, rd: string, jobFile: string, prefix: string, h: Host)
    ensures w.trace <= ChooseSpec(w, slurmPath, rd, jobFile, prefix, h).0.trace
  {
  }

  /** A session that ends well has uploaded every entry of the listing. */
  lemma SessionUploads(w: Wire, disk: Disk, localDir: string, rd: string, jobFile: string, prefix: string, h: Host)
    ensures SessionSpec(w, disk, localDir, rd, jobFile, prefix, h).1.Done? ==>
      disk.entries.Some? &&
      forall n :: n in disk.entries.value ==>
        Upload(PathJoin(localDir, n), PathJoin(rd, n)) in SessionSpec(w, disk, localDir, rd, jobFile, prefix, h).0.trace
  {
    if SessionSpec(w, disk, localDir, rd, jobFile, prefix, h).1.Done? {
      var w2 := Note(Run(w, "mkdir -p " + rd, h).0, OpenSftp);
      var pairs := Pairs(localDir, rd, disk.entries.value);
      PutAllSends(pairs, h);
      var w3 := Note(w2.(trace := w2.trace + Transfers(pairs)), CloseSftp);
      var final := SessionSpec(w, disk, localDir, rd, jobFile, prefix, h).0;
      assert w3.trace <= final.trace;
      forall n | n in disk.entries.value
        ensures Upload(PathJoin(localDir, n), PathJoin(rd, n)) in final.trace
      {
        var i :| 0 <= i < |disk.entries.value| && disk.entries.value[i] == n;
        assert w3.trace[|w2.trace| + i] == Transfers(pairs)[i];
      }
    }
  }

  /** A submission that succeeds has uploaded every entry of the listing it staged from, the record included. */
  lemma SubmitUploadsEverything(c: Config, w: Wire, disk: Disk, a: Submission, h: Host)
    ensures var (w1, d1, rd) := ResolveSpec(c, w, disk, a, h);
      SubmitSpec(c, w, disk, a, h).2.Done? ==>
        rd.Ok? && d1.entries.Some? &&
        forall n :: n in d1.entries.value ==>
          Upload(PathJoin(a.localDir, n), PathJoin(Show(rd.value), n)) in SubmitSpec(c, w, disk, a, h).0.trace
  {
    var (w1, d1, rd) := ResolveSpec(c, w, disk, a, h);
    if SubmitSpec(c, w, disk, a, h).2.Done? {
      var w2 := Connect(c, w1, h).0;
      SessionUploads(w2, d1, a.localDir, Show(rd.value), a.jobFile, PrefixOf(d1, a).value, h);
    }
  }

  // ---------------------------------------------------------------
  // submit, step by step
  // ---------------------------------------------------------------

  /** The first part of `submit`: `remote_dir` is rebound from the record, the answer and the fallback. */
  method ResolveRemoteDir(c: Config, w: Wire, disk: Disk, a: Submission, h: Host) returns (w': Wire, d: Disk, r: Result<Value>)
    ensures (w', d, r) == ResolveSpec(c, w, disk, a, h)
  {
    w', d := w, disk;
    var remoteDir: Option<Value> := if a.remoteDir.Some? then Some(VStr(a.remoteDir.value)) else None;
    if disk.info.Some? {
      var v := Get(disk.info.value, "remote_dir");
      if v.None? {
        return w', d, Err(Exc("KeyError", "'remote_dir'"));
      }
      remoteDir := v;
      if Lower(a.answer) == "y" {
        var login := Connect(c, w', h);
        w' := login.0;
        var o := login.1;
        if o.Raised? {
          return w', d, Err(o.exc);
        }
        var removal := Run(w', "rm -rf " + Show(v.value), h);
        w' := removal.0;
        var x := removal.1;
        w' := Note(w', Disconnect);
        if x.Err? {
          return w', d, Err(x.exc);
        }
        d := RemoveInfo(d);
        remoteDir := None;
      }
    }
    if remoteDir.None? || remoteDir.value == VNone {
      if HasText(a.lab) {
        remoteDir := Some(VStr(PathJoin(c.remoteBase, a.lab.value)));
      } else {
        remoteDir := Some(VStr(PathJoin(c.remoteBase, "job_" + a.stamp)));
      }
    }
    r := Ok(remoteDir.value);
  }

  /** The `if`/`elif`/`else` that picks `exec_cmd`. */
  method ChooseCommand(w: Wire, slurmPath: string, rd: string, jobFile: string, prefix: string, h: Host)
    returns (w': Wire, r: Result<string>)
    ensures (w', r) == ChooseSpec(w, slurmPath, rd, jobFile, prefix, h)
  {
    w' := w;
    var test := TestCmd(rd, jobFile);
    if slurmPath != "" {
      var asked := Run(w', test, h);
      w' := asked.0;
      var t := asked.1;
      if t.Err? {
        return w', Err(t.exc);
      }
      if t.value != "" {
        return w', Ok(Sbatch(rd, jobFile));
      }
    }
    var asked := Run(w', test, h);
    w' := asked.0;
    var t := asked.1;
    if t.Err? {
      return w', Err(t.exc);
    }
    if t.value != "" {
      r := Ok(Bash(rd, jobFile));
    } else {
      r := Ok(PwX(rd, prefix));
    }
  }

  /** The body of the second `with` block, with the upload loop. */
  method Session(w: Wire, disk: Disk, localDir: string, rd: string, jobFile: string, prefix: string, h: Host)
    returns (w': Wire, o: Outcome)
    ensures (w', o) == SessionSpec(w, disk, localDir, rd, jobFile, prefix, h)
  {
    var made := Run(w, "mkdir -p " + rd, h);
    w' := made.0;
    var m := made.1;
    if m.Err? {
      return w', Raised(m.exc);
    }
    w' := Note(w', OpenSftp);
    if h.openSftp.Raised? {
      return w', h.openSftp;
    }
    if disk.entries.None? {
      return Note(w', CloseSftp), Raised(NoDir(localDir));
    }
    var es, u := PutEach(Pairs(localDir, rd, disk.entries.value), h);
    w' := Note(w'.(trace := w'.trace + es), CloseSftp);
    if u.Raised? {
      return w', u;
    }
    var lookup := Run(w', "command -v sbatch", h);
    w' := lookup.0;
    var slurmPath := lookup.1;
    if slurmPath.Err? {
      return w', Raised(slurmPath.exc);
    }
    var cmd;
    w', cmd := ChooseCommand(w', slurmPath.value, rd, jobFile, prefix, h);
    if cmd.Err? {
      return w', Raised(cmd.exc);
    }
    var ran := Run(w', cmd.value, h);
    w' := ran.0;
    var out := ran.1;
    o := if out.Err? then Raised(out.exc) else Done;
  }

  /** `submit`. */
  method Submit(c: Config, w: Wire, disk: Disk, a: Submission, h: Host) returns (w': Wire, d: Disk, o: Outcome)
    ensures (w', d, o) == SubmitSpec(c, w, disk, a, h)
  {
    var rd;
    w', d, rd := ResolveRemoteDir(c, w, disk, a, h);
    if rd.Err? {
      return w', d, Raised(rd.exc);
    }
    var prefix := a.prefix;
    if prefix.None? {
      if d.entries.None? {
        return w', d, Raised(NoDir(a.localDir));
      }
      prefix := FindPwi(d.entries.value);
      if prefix.None? {
        return w', d, Raised(NoInput);
      }
    }
    var login := Connect(c, w', h);
    w', o := login.0, login.1;
    if o.Raised? {
      return;
    }
    w', o := Session(w', d, a.localDir, Show(rd.value), a.jobFile, prefix.value, h);
    w' := Note(w', Disconnect);
    if o.Done? {
      d := WriteInfo(d, Record(c, rd.value, a.now));
    }
  }
}
