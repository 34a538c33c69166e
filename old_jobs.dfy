// xespresso/old-remote_job_manager.py: the earlier remote job manager. It
// logs in with a key file only, fills `{user}` into the base directory,
// finds the prefix before anything else, never closes a client when a step
// fails, and decides how to run the job from the listing of the remote
// directory.

module OldJobs {
  import opened PyStr
  import opened PyErr
  import opened PyDict
  import opened Json
  import opened JobDirs
  import opened SshSteps

  datatype Config = Config(host: string, user: string, keyPath: string, port: int, remoteBase: string)

  const NoInput := Exc("FileNotFoundError", "Nenhum arquivo .pwi encontrado no diretório local.")

  /** `__init__`: `remote_base.format(user=user)`; nothing else is checked. */
  function NewConfig(host: string, user: string, keyPath: string, remoteBase: string, port: int): (r: Result<Config>)
    ensures r.Ok? <==> FormatUser(remoteBase, user).Ok?
    ensures r.Err? ==> r.exc == FormatUser(remoteBase, user).exc
    ensures r.Ok? ==> r.value.host == host && r.value.user == user && r.value.keyPath == keyPath && r.value.port == port
  {
    match FormatUser(remoteBase, user)
    case Err(e) => Err(e)
    case Ok(base) => Ok(Config(host, user, keyPath, port, base))
  }

  /** A base without braces is kept as it is. */
  lemma PlainBase(host: string, user: string, keyPath: string, remoteBase: string, port: int)
    requires !HasBrace(remoteBase)
    ensures NewConfig(host, user, keyPath, remoteBase, port) == Ok(Config(host, user, keyPath, port, remoteBase))
  {
    FormatUserPlain(remoteBase, user);
  }

  /** The default base `/home/{user}/jobs` becomes `/home/<user>/jobs`. */
  lemma DefaultBase(host: string, user: string, keyPath: string, port: int)
    ensures NewConfig(host, user, keyPath, "/home/{user}/jobs", port) == Ok(Config(host, user, keyPath, port, "/home/" + user + "/jobs"))
  {
    assert !HasBrace("/home/") && !HasBrace("/jobs");
    FormatUserOf("/home/", "/jobs", user);
    assert "/home/" + "{user}" + "/jobs" == "/home/{user}/jobs";
    assert FormatUser("/home/{user}/jobs", user) == Ok("/home/" + user + "/jobs");
  }

  /** The arguments of `submit`, with the console answer and the clock readings it consumes. */
  datatype Submission = Submission(localDir: string, jobFile: string, prefix: Option<string>,
                                   remoteDir: Option<string>, lab: Option<string>,
                                   answer: string, stamp: string, now: string)

  /** The prefix: the given one, else the first `.pwi` entry of the listing, extension included. */
  function PrefixOf(disk: Disk, a: Submission): (r: Result<string>)
    ensures a.prefix.Some? ==> r == Ok(a.prefix.value)
    ensures a.prefix.None? && disk.entries.None? ==> r == Err(NoDir(a.localDir))
    ensures a.prefix.None? && disk.entries.Some? ==>
      (r.Err? <==> forall i :: 0 <= i < |disk.entries.value| ==> !EndsWith(disk.entries.value[i], ".pwi")) &&
      (r.Err? ==> r.exc == NoInput) &&
      (r.Ok? ==> r.value in disk.entries.value && EndsWith(r.value, ".pwi"))
  {
    if a.prefix.Some? then Ok(a.prefix.value)
    else if disk.entries.None? then Err(NoDir(a.localDir))
    else match FirstPwi(disk.entries.value)
      case None => Err(NoInput)
      case Some(f) => Ok(f)
  }

  /**
   * `if label and remote_dir is None`, then `if remote_dir is None`: a
   * missing directory (or a recorded null) becomes `<base>/<label>`, or
   * `<base>/job_<stamp>` without a label.
   */
  function Settle(c: Config, a: Submission, rd: Option<Value>): Value
  {
    if rd.Some? && rd.value != VNone then rd.value
    else if HasText(a.lab) then VStr(PathJoin(c.remoteBase, a.lab.value))
    else VStr(c.remoteBase + "/job_" + a.stamp)
  }

  /**
   * The remote directory: the recorded one, unless the user answers "s"
   * (in any case) to the restart question, in which case a client of its
   * own removes the old remote directory and is closed, the record is
   * deleted and the directory is chosen afresh.
   */
  function ResolveSpec(c: Config, w: Wire, disk: Disk, a: Submission, h: Host): (r: (Wire, Disk, Result<Value>))
    ensures r.1 == disk || r.1 == RemoveInfo(disk)
  {
    if disk.info.None? then (w, disk, Ok(Settle(c, a, if a.remoteDir.Some? then Some(VStr(a.remoteDir.value)) else None)))
    else match Get(disk.info.value, "remote_dir")
      case None => (w, disk, Err(Exc("KeyError", "'remote_dir'")))
      case Some(v) =>
        if Lower(a.answer) != "s" then (w, disk, Ok(Settle(c, a, Some(v))))
        else
          var (w1, o) := Dial(w, true, h);
          if o.Raised? then (w1, disk, Err(o.exc))
          else
            var (w2, x) := Send(w1, "rm -rf " + Show(v), h);
            if x.Err? then (w2, disk, Err(x.exc))
            else (Note(w2, Disconnect), RemoveInfo(disk), Ok(Settle(c, a, None)))
  }

  /** The precedence of the remote directory, and what a restart does to the cluster. */
  lemma RemoteDirPrecedence(c: Config, w: Wire, disk: Disk, a: Submission, h: Host)
    ensures var (w1, d1, r) := ResolveSpec(c, w, disk, a, h);
      (disk.info.None? && a.remoteDir.Some? ==> w1 == w && d1 == disk && r == Ok(VStr(a.remoteDir.value))) &&
      (disk.info.None? && a.remoteDir.None? && HasText(a.lab) ==>
         w1 == w && d1 == disk && r == Ok(VStr(PathJoin(c.remoteBase, a.lab.value)))) &&
      (disk.info.None? && a.remoteDir.None? && !HasText(a.lab) ==>
         w1 == w && d1 == disk && r == Ok(VStr(c.remoteBase + "/job_" + a.stamp))) &&
      (disk.info.Some? && HasKey(disk.info.value, "remote_dir") && Get(disk.info.value, "remote_dir") != Some(VNone) &&
       Lower(a.answer) != "s" ==>
         w1 == w && d1 == disk && r == Ok(Get(disk.info.value, "remote_dir").value)) &&
      (disk.info.Some? && !HasKey(disk.info.value, "remote_dir") ==> r == Err(Exc("KeyError", "'remote_dir'"))) &&
      (disk.info.Some? && r.Ok? && Lower(a.answer) == "s" ==>
         d1.info.None? && r.value == Settle(c, a, None) &&
         w1.trace == w.trace + [Login(true), Exec("rm -rf " + Show(Get(disk.info.value, "remote_dir").value)), Disconnect])
  {
  }

  /** The run command: sbatch when sbatch exists and the job file is listed, bash when it is only listed, else pw.x. */
  function Command(slurmPath: string, listing: seq<string>, rd: string, jobFile: string, prefix: string): string
  {
    if slurmPath != "" && jobFile in listing then Sbatch(rd, jobFile)
    else if jobFile in listing then Bash(rd, jobFile)
    else PwX(rd, prefix)
  }

  /** Each of the three commands is chosen exactly in its own case. */
  lemma CommandCases(slurmPath: string, listing: seq<string>, rd: string, jobFile: string, prefix: string)
    ensures var cmd := Command(slurmPath, listing, rd, jobFile, prefix);
      (cmd == Sbatch(rd, jobFile) <==> slurmPath != "" && jobFile in listing) &&
      (cmd == Bash(rd, jobFile) <==> slurmPath == "" && jobFile in listing) &&
      (cmd == PwX(rd, prefix) <==> jobFile !in listing)
  {
    CommandsDiffer(rd, jobFile, prefix);
  }

  /** Every entry of the listing goes to `<remote dir>/<name>`. */
  function Pairs(localDir: string, rd: string, names: seq<string>): (r: seq<(string, string)>)
    ensures |r| == |names|
    ensures forall i :: 0 <= i < |names| ==> r[i] == (PathJoin(localDir, names[i]), rd + "/" + names[i])
  {
    if names == [] then [] else [(PathJoin(localDir, names[0]), rd + "/" + names[0])] + Pairs(localDir, rd, names[1..])
  }

  /** After the uploads: sbatch is looked for, the remote directory listed, and the run command run. */
  function Launch(w: Wire, rd: string, jobFile: string, prefix: string, h: Host): (r: (Wire, Outcome))
    ensures w.trace <= r.0.trace
  {
    var (w1, sp) := Send(w, "command -v sbatch", h);
    if sp.Err? then (w1, Raised(sp.exc))
    else
      var (w2, ls) := Send(w1, "ls " + rd, h);
      if ls.Err? then (w2, Raised(ls.exc))
      else
        var (w3, out) := Send(w2, Command(Strip(sp.value.0), Words(ls.value.0), rd, jobFile, prefix), h);
        (w3, if out.Err? then Raised(out.exc) else Done)
  }

  /**
   * What the client that `submit` logs in does, up to its `close`: the
   * directory is made, every entry uploaded over a channel, and the job
   * launched. A failing step raises there and then, leaving the channel
   * and the client open.
   */
  function StageSpec(w: Wire, disk: Disk, localDir: string, rd: string, jobFile: string, prefix: string, h: Host): (Wire, Outcome)
  {
    var (w1, m) := Send(w, "mkdir -p " + rd, h);
    if m.Err? then (w1, Raised(m.exc))
    else
      var w2 := Note(w1, OpenSftp);
      if h.openSftp.Raised? then (w2, h.openSftp)
      else if disk.entries.None? then (w2, Raised(NoDir(localDir)))
      else
        var (es, u) := PutAll(Pairs(localDir, rd, disk.entries.value), h);
        if u.Raised? then (w2.(trace := w2.trace + es), u)
        else Launch(Note(w2.(trace := w2.trace + es), CloseSftp), rd, jobFile, prefix, h)
  }

  /** The record `submit` writes. */
  function Record(c: Config, rd: Value, now: string): (r: Dict<string, Value>)
    ensures Get(r, "remote_dir") == Some(rd) && Get(r, "host") == Some(VStr(c.host)) && Get(r, "submitted") == Some(VStr(now))
  {
    var d := [("remote_dir", rd), ("host", VStr(c.host)), ("submitted", VStr(now))];
    GetSkip(d, "host", 1);
    GetSkip(d, "submitted", 2);
    d
  }

  /**
   * `submit`: the prefix, then the remote directory, then one client for
   * the staging and the run, closed only when everything succeeded; the
   * record is written after that close.
   */
  function SubmitSpec(c: Config, w: Wire, disk: Disk, a: Submission, h: Host): (r: (Wire, Disk, Outcome))
    ensures r.1.files == disk.files
    ensures r.2.Raised? ==> r.1 == disk || r.1 == RemoveInfo(disk)
    ensures r.2.Done? ==>
      (r.1.info.Some? && Get(r.1.info.value, "host") == Some(VStr(c.host)) &&
       Get(r.1.info.value, "submitted") == Some(VStr(a.now)) &&
       |r.0.trace| > 0 && Last(r.0.trace) == Disconnect)
  {
    match PrefixOf(disk, a)
    case Err(e) => (w, disk, Raised(e))
    case Ok(prefix) =>
      var (w1, d1, rd) := ResolveSpec(c, w, disk, a, h);
      if rd.Err? then (w1, d1, Raised(rd.exc))
      else
        var (w2, o) := Dial(w1, true, h);
        if o.Raised? then (w2, d1, o)
        else
          var (w3, s) := StageSpec(w2, d1, a.localDir, Show(rd.value), a.jobFile, prefix, h);
          if s.Raised? then (w3, d1, s)
          else (Note(w3, Disconnect), WriteInfo(d1, Record(c, rd.value, a.now)), Done)
  }

  /** `after` extends `before` with requests none of which closes the client. */
  predicate StaysOpen(before: seq<Event>, after: seq<Event>)
  {
    before <= after && Disconnect !in after[|before|..]
  }

  lemma KeepsOpen(a: seq<Event>, b: seq<Event>, es: seq<Event>)
    requires StaysOpen(a, b) && Disconnect !in es
    ensures StaysOpen(a, b + es)
  {
    assert (b + es)[|a|..] == b[|a|..] + es;
  }

  /** The launch only runs commands. */
  lemma LaunchStaysOpen(w: Wire, rd: string, jobFile: string, prefix: string, h: Host)
    ensures StaysOpen(w.trace, Launch(w, rd, jobFile, prefix, h).0.trace)
  {
    var (w1, sp) := Send(w, "command -v sbatch", h);
    assert w.trace[|w.trace|..] == [];
    KeepsOpen(w.trace, w.trace, [Exec("command -v sbatch")]);
    if sp.Ok? {
      var (w2, ls) := Send(w1, "ls " + rd, h);
      KeepsOpen(w.trace, w1.trace, [Exec("ls " + rd)]);
      if ls.Ok? {
        KeepsOpen(w.trace, w2.trace, [Exec(Command(Strip(sp.value.0), Words(ls.value.0), rd, jobFile, prefix))]);
      }
    }
  }

  /** The staging adds requests and never closes the client. */
  lemma StageNeverCloses(w: Wire, disk: Disk, localDir: string, rd: string, jobFile: string, prefix: string, h: Host)
    ensures StaysOpen(w.trace, StageSpec(w, disk, localDir, rd, jobFile, prefix, h).0.trace)
  {
    assert w.trace[|w.trace|..] == [];
    var w1 := Send(w, "mkdir -p " + rd, h).0;
    KeepsOpen(w.trace, w.trace, [Exec("mkdir -p " + rd)]);
    var w2 := Note(w1, OpenSftp);
    KeepsOpen(w.trace, w1.trace, [OpenSftp]);
    if disk.entries.Some? {
      var pairs := Pairs(localDir, rd, disk.entries.value);
      var es := PutAll(pairs, h).0;
      PutAllOnlyUploads(pairs, h);
      KeepsOpen(w.trace, w2.trace, es);
      KeepsOpen(w.trace, w2.trace + es, [CloseSftp]);
      var w3 := Note(w2.(trace := w2.trace + es), CloseSftp);
      LaunchStaysOpen(w3, rd, jobFile, prefix, h);
      var w4 := Launch(w3, rd, jobFile, prefix, h).0;
      assert w4.trace[|w.trace|..] == w3.trace[|w.trace|..] + w4.trace[|w3.trace|..];
    }
  }

  /**
   * Without a `with` block or a `try`, a submission that raises after its
   * first request leaves the last client open: its requests never end with
   * a close.
   */
  lemma FailureLeavesClientOpen(c: Config, w: Wire, disk: Disk, a: Submission, h: Host)
    ensures var r := SubmitSpec(c, w, disk, a, h);
      r.2.Raised? && r.0.trace != w.trace ==> |r.0.trace| > 0 && Last(r.0.trace) != Disconnect
  {
    var r := SubmitSpec(c, w, disk, a, h);
    if PrefixOf(disk, a).Ok? {
      var (w1, d1, rd) := ResolveSpec(c, w, disk, a, h);
      if rd.Ok? {
        var (w2, o) := Dial(w1, true, h);
        if o.Done? {
          var prefix := PrefixOf(disk, a).value;
          StageNeverCloses(w2, d1, a.localDir, Show(rd.value), a.jobFile, prefix, h);
          var w3 := StageSpec(w2, d1, a.localDir, Show(rd.value), a.jobFile, prefix, h).0;
          assert Last(w3.trace) in w3.trace[|w2.trace| - 1..];
        }
      }
    }
  }

  /** A staging that ends well has uploaded every entry of the listing. */
  lemma StageUploads(w: Wire, disk: Disk, localDir: string, rd: string, jobFile: string, prefix: string, h: Host)
    ensures StageSpec(w, disk, localDir, rd, jobFile, prefix, h).1.Done? ==>
      disk.entries.Some? &&
      forall n :: n in disk.entries.value ==>
        Upload(PathJoin(localDir, n), rd + "/" + n) in StageSpec(w, disk, localDir, rd, jobFile, prefix, h).0.trace
  {
    if StageSpec(w, disk, localDir, rd, jobFile, prefix, h).1.Done? {
      var w2 := Note(Send(w, "mkdir -p " + rd, h).0, OpenSftp);
      var pairs := Pairs(localDir, rd, disk.entries.value);
      PutAllSends(pairs, h);
      var w3 := Note(w2.(trace := w2.trace + Transfers(pairs)), CloseSftp);
      var final := StageSpec(w, disk, localDir, rd, jobFile, prefix, h).0;
      assert w3.trace <= final.trace;
      forall n | n in disk.entries.value
        ensures Upload(PathJoin(localDir, n), rd + "/" + n) in final.trace
      {
        var i :| 0 <= i < |disk.entries.value| && disk.entries.value[i] == n;
        assert w3.trace[|w2.trace| + i] == Transfers(pairs)[i];
      }
    }
  }

  /** A submission that succeeds has uploaded every entry of the listing, the record included. */
  lemma SubmitUploadsEverything(c: Config, w: Wire, disk: Disk, a: Submission, h: Host)
    ensures var (w1, d1, rd) := ResolveSpec(c, w, disk, a, h);
      SubmitSpec(c, w, disk, a, h).2.Done? ==>
        rd.Ok? && d1.entries.Some? &&
        forall n :: n in d1.entries.value ==>
          Upload(PathJoin(a.localDir, n), Show(rd.value) + "/" + n) in SubmitSpec(c, w, disk, a, h).0.trace
  {
    var (w1, d1, rd) := ResolveSpec(c, w, disk, a, h);
    if SubmitSpec(c, w, disk, a, h).2.Done? {
      var w2 := Dial(w1, true, h).0;
      StageUploads(w2, d1, a.localDir, Show(rd.value), a.jobFile, PrefixOf(disk, a).value, h);
    }
  }

  // ---------------------------------------------------------------
  // submit, step by step
  // ---------------------------------------------------------------

  /** The part of `submit` that rebinds `remote_dir`. */
  method ResolveRemoteDir(c: Config, w: Wire, disk: Disk, a: Submission, h: Host) returns (w': Wire, d: Disk, r: Result<Value>)
    ensures (w', d, r) == ResolveSpec(c, w, disk, a, h)
  {
    w', d := w, disk;
    var remoteDir: Option<Value> := if a.remoteDir.Some? then Some(VStr(a.remoteDir.value)) else None;
    if disk.info.Some? {
      var v := Get(disk.info.value, "remote_dir");
      if v.None? {
        return w', d, Err(Exc("KeyError", "'remote_dir'"));
      }
      remoteDir := v;
      if Lower(a.answer) == "s" {
        var login := Dial(w', true, h);
        w' := login.0;
        if login.1.Raised? {
          return w', d, Err(login.1.exc);
        }
        var removal := Send(w', "rm -rf " + Show(v.value), h);
        w' := removal.0;
        if removal.1.Err? {
          return w', d, Err(removal.1.exc);
        }
        w' := Note(w', Disconnect);
        d := RemoveInfo(d);
        remoteDir := None;
      }
    }
    if HasText(a.lab) && (remoteDir.None? || remoteDir.value == VNone) {
      remoteDir := Some(VStr(PathJoin(c.remoteBase, a.lab.value)));
    }
    if remoteDir.None? || remoteDir.value == VNone {
      remoteDir := Some(VStr(c.remoteBase + "/job_" + a.stamp));
    }
    r := Ok(remoteDir.value);
  }

  /** The staging and the launch, on the client `submit` logged in. */
  method Stage(w: Wire, disk: Disk, localDir: string, rd: string, jobFile: string, prefix: string, h: Host)
    returns (w': Wire, o: Outcome)
    ensures (w', o) == StageSpec(w, disk, localDir, rd, jobFile, prefix, h)
  {
    var made := Send(w, "mkdir -p " + rd, h);
    w' := made.0;
    if made.1.Err? {
      return w', Raised(made.1.exc);
    }
    w' := Note(w', OpenSftp);
    if h.openSftp.Raised? {
      return w', h.openSftp;
    }
    if disk.entries.None? {
      return w', Raised(NoDir(localDir));
    }
    var es, u := PutEach(Pairs(localDir, rd, disk.entries.value), h);
    w' := w'.(trace := w'.trace + es);
    if u.Raised? {
      return w', u;
    }
    w' := Note(w', CloseSftp);
    var lookup := Send(w', "command -v sbatch", h);
    w' := lookup.0;
    if lookup.1.Err? {
      return w', Raised(lookup.1.exc);
    }
    var slurmPath := Strip(lookup.1.value.0);
    var listed := Send(w', "ls " + rd, h);
    w' := listed.0;
    if listed.1.Err? {
      return w', Raised(listed.1.exc);
    }
    var remoteFiles := Words(listed.1.value.0);
    var execCmd;
    if slurmPath != "" && jobFile in remoteFiles {
      execCmd := Sbatch(rd, jobFile);
    } else if jobFile in remoteFiles {
      execCmd := Bash(rd, jobFile);
    } else {
      execCmd := PwX(rd, prefix);
    }
    var ran := Send(w', execCmd, h);
    w' := ran.0;
    o := if ran.1.Err? then Raised(ran.1.exc) else Done;
  }

  /** `submit`. */
  method Submit(c: Config, w: Wire, disk: Disk, a: Submission, h: Host) returns (w': Wire, d: Disk, o: Outcome)
    ensures (w', d, o) == SubmitSpec(c, w, disk, a, h)
  {
    var prefix := a.prefix;
    if prefix.None? {
      if disk.entries.None? {
        return w, disk, Raised(NoDir(a.localDir));
      }
      prefix := FindPwi(disk.entries.value);
      if prefix.None? {
        return w, disk, Raised(NoInput);
      }
    }
    var rd;
    w', d, rd := ResolveRemoteDir(c, w, disk, a, h);
    if rd.Err? {
      return w', d, Raised(rd.exc);
    }
    var login := Dial(w', true, h);
    w', o := login.0, login.1;
    if o.Raised? {
      return;
    }
    w', o := Stage(w', d, a.localDir, Show(rd.value), a.jobFile, prefix.value, h);
    if o.Done? {
      w' := Note(w', Disconnect);
      d := WriteInfo(d, Record(c, rd.value, a.now));
    }
  }
}
