// The non-pooled `RemoteExecutionMixin` (schedulers/remote_mixin.py; the
// copy in schedulers/old/remote_mixin.py is the same code): every remote
// run builds a new `RemoteAuth` from the queue, sends the input and the job
// file from the script directory, runs the submit command in the remote
// path taken verbatim from the queue, fetches the output and closes the
// session.

module PlainMixin {
  import opened PyStr
  import opened PyDict
  import opened Json
  import opened PyErr
  import opened Auth
  import opened MixinRun

  /** What `run` does: hand over to the scheduler's own `run`, return (stdout, stderr), or raise. */
  datatype Reply = Delegated | Returned(stdout: string, stderr: string) | RunFailed(exc: Exc)

  /** `queue[k]` on a missing key. */
  function KeyErr(k: string): Exc
  {
    Exc("KeyError", "'" + k + "'")
  }

  /** `queue.get("execution") != "remote"`. */
  predicate IsRemote(queue: Dict<string, Value>)
  {
    Get(queue, "execution") == Some(VStr("remote"))
  }

  /** The session settings `_setup_remote` builds: user, host and auth entries are read in that order. */
  function PlainSettings(queue: Dict<string, Value>, home: string): Result<Settings>
  {
    match Get(queue, "remote_user")
    case None => Err(KeyErr("remote_user"))
    case Some(user) =>
      match Get(queue, "remote_host")
      case None => Err(KeyErr("remote_host"))
      case Some(host) =>
        match Get(queue, "remote_auth")
        case None => Err(KeyErr("remote_auth"))
        case Some(config) => ConfigureFrom(user, host, config, home)
  }

  /** The requests of a run: `<prefix>.in` and the job file go up, `<prefix>.out` comes back. */
  function PlainPlan(remotePath: Value, scriptDir: string, prefix: string, jobFile: string, submit: string): Plan
  {
    var input := prefix + ".in";
    var output := prefix + ".out";
    var rp := Show(remotePath);
    Plan(PathJoin(scriptDir, input), rp + "/" + input, PathJoin(scriptDir, jobFile), rp + "/" + jobFile,
         "cd " + rp + " && " + submit, rp + "/" + output, PathJoin(scriptDir, output))
  }

  /** The reply of a remote run and the final state of the session it built. */
  function PlainRun(queue: Dict<string, Value>, home: string, scriptDir: string, prefix: string, jobFile: string,
                    submit: string, t: Transport): (Reply, Session)
  {
    if !IsRemote(queue) then (Delegated, Fresh)
    else match Get(queue, "remote_path")
      case None => (RunFailed(KeyErr("remote_path")), Fresh)
      case Some(rp) =>
        match PlainSettings(queue, home)
        case Err(e) => (RunFailed(e), Fresh)
        case Ok(s) =>
          var (st1, r) := Perform(s, Fresh, PlainPlan(rp, scriptDir, prefix, jobFile, submit), t);
          PlainFinish(st1, r, t)
  }

  /** After the requests: a failure is reported as is, otherwise the session is closed and the output returned. */
  function PlainFinish(st1: Session, r: Result<(string, string)>, t: Transport): (Reply, Session)
  {
    if r.Err? then (RunFailed(r.exc), st1)
    else
      var (st2, c) := CloseSpec(st1, t);
      if c.Raised? then (RunFailed(c.exc), st2) else (Returned(r.value.0, r.value.1), st2)
  }

  /** A run that returns closed the channel and then the client, and returns the command's output. */
  lemma FinishReturned(st1: Session, r: Result<(string, string)>, t: Transport)
    requires r.Ok? ==> st1.client && st1.sftp
    ensures var (rep, st) := PlainFinish(st1, r, t);
      rep.Returned? ==> r.Ok? && st.trace == st1.trace + [CloseSftp, CloseClient] && (rep.stdout, rep.stderr) == r.value
  {
    if r.Ok? && CloseSpec(st1, t).1.Done? {
      assert CloseSpec(st1, t).0.trace == st1.trace + [CloseSftp] + [CloseClient];
    }
  }

  /** Perform adds only the handshake and the four kinds of request: it never closes. */
  lemma PerformNoClose(s: Settings, st: Session, p: Plan, t: Transport)
    ensures var st1 := Perform(s, st, p, t).0;
      |st.trace| <= |st1.trace| && st1.trace[..|st.trace|] == st.trace &&
      CloseSftp !in st1.trace[|st.trace|..] && CloseClient !in st1.trace[|st.trace|..]
  {
    var (st1, o1) := SendSpec(s, st, p.localInput, p.remoteInput, t);
    SendGrows(s, st, p.localInput, p.remoteInput, t);
    if o1.Done? {
      var (st2, o2) := SendSpec(s, st1, p.localJob, p.remoteJob, t);
      SendGrows(s, st1, p.localJob, p.remoteJob, t);
      GrowsTrans(st.trace, st1.trace, st2.trace);
      if o2.Done? {
        var (st3, r) := RunSpec(s, st2, p.command, t);
        RunGrows(s, st2, p.command, t);
        GrowsTrans(st.trace, st2.trace, st3.trace);
        if r.Ok? {
          RetrieveGrows(s, st3, p.remoteOutput, p.localOutput, t);
          GrowsTrans(st.trace, st3.trace, RetrieveSpec(s, st3, p.remoteOutput, p.localOutput, t).0.trace);
        }
      }
    }
  }

  /**
   * A run that returns has made, on its own new session, exactly the
   * handshake, the two uploads, the submit command, the download and then
   * one close of the channel and of the client; a run that fails after
   * setup never closes.
   */
  lemma PlainRunOrder(queue: Dict<string, Value>, home: string, scriptDir: string, prefix: string, jobFile: string,
                      submit: string, t: Transport)
    requires IsRemote(queue) && HasKey(queue, "remote_path") && PlainSettings(queue, home).Ok?
    ensures var (r, st) := PlainRun(queue, home, scriptDir, prefix, jobFile, submit, t);
      var p := PlainPlan(Get(queue, "remote_path").value, scriptDir, prefix, jobFile, submit);
      (r.Returned? ==> st.trace == [Handshake] + Requests(p) + [CloseSftp, CloseClient] &&
                       (r.stdout, r.stderr) == t.exec(p.command).value) &&
      (r.RunFailed? && Perform(PlainSettings(queue, home).value, Fresh, p, t).1.Err? ==>
         CloseSftp !in st.trace && CloseClient !in st.trace)
  {
    PlainRunReturned(queue, home, scriptDir, prefix, jobFile, submit, t);
    PlainRunFailed(queue, home, scriptDir, prefix, jobFile, submit, t);
  }

  /** The returning half of `PlainRunOrder`. */
  lemma PlainRunReturned(queue: Dict<string, Value>, home: string, scriptDir: string, prefix: string, jobFile: string,
                         submit: string, t: Transport)
    requires IsRemote(queue) && HasKey(queue, "remote_path") && PlainSettings(queue, home).Ok?
    ensures var (r, st) := PlainRun(queue, home, scriptDir, prefix, jobFile, submit, t);
      var p := PlainPlan(Get(queue, "remote_path").value, scriptDir, prefix, jobFile, submit);
      r.Returned? ==> st.trace == [Handshake] + Requests(p) + [CloseSftp, CloseClient] &&
                      (r.stdout, r.stderr) == t.exec(p.command).value
  {
    var s := PlainSettings(queue, home).value;
    var p := PlainPlan(Get(queue, "remote_path").value, scriptDir, prefix, jobFile, submit);
    FreshRunReturned(s, p, t);
    assert PlainRun(queue, home, scriptDir, prefix, jobFile, submit, t) ==
      PlainFinish(Perform(s, Fresh, p, t).0, Perform(s, Fresh, p, t).1, t);
  }

  /** A run on a new session that returns: handshake, the four requests, both closes, and the command's output. */
  lemma FreshRunReturned(s: Settings, p: Plan, t: Transport)
    ensures var (st1, r) := Perform(s, Fresh, p, t);
      var (rep, st) := PlainFinish(st1, r, t);
      rep.Returned? ==> st.trace == [Handshake] + Requests(p) + [CloseSftp, CloseClient] &&
                        (rep.stdout, rep.stderr) == t.exec(p.command).value
  {
    var (st1, r) := Perform(s, Fresh, p, t);
    PerformCases(s, Fresh, p, t);
    PerformConnected(s, Fresh, p, t);
    FinishReturned(st1, r, t);
  }

  /** The failing half of `PlainRunOrder`: a failed request is never followed by a close. */
  lemma PlainRunFailed(queue: Dict<string, Value>, home: string, scriptDir: string, prefix: string, jobFile: string,
                       submit: string, t: Transport)
    requires IsRemote(queue) && HasKey(queue, "remote_path") && PlainSettings(queue, home).Ok?
    ensures var (r, st) := PlainRun(queue, home, scriptDir, prefix, jobFile, submit, t);
      var p := PlainPlan(Get(queue, "remote_path").value, scriptDir, prefix, jobFile, submit);
      r.RunFailed? && Perform(PlainSettings(queue, home).value, Fresh, p, t).1.Err? ==>
        CloseSftp !in st.trace && CloseClient !in st.trace
  {
    var s := PlainSettings(queue, home).value;
    var p := PlainPlan(Get(queue, "remote_path").value, scriptDir, prefix, jobFile, submit);
    PerformNoClose(s, Fresh, p, t);
    assert Perform(s, Fresh, p, t).0.trace[|Fresh.trace|..] == Perform(s, Fresh, p, t).0.trace;
  }

  class PlainScheduler {
    const queue: Dict<string, Value>
    const scriptDir: string
    const prefix: string
    const jobFile: string
    /** The text `submit_command()` returns. */
    const submit: string
    /** `self.remote_path`, None until set. */
    var remotePath: Option<Value>
    var remote: RemoteAuth?

    constructor(queue: Dict<string, Value>, scriptDir: string, prefix: string, jobFile: string, submit: string)
      ensures this.queue == queue && this.scriptDir == scriptDir && this.prefix == prefix
      ensures this.jobFile == jobFile && this.submit == submit
      ensures remotePath.None? && remote == null
    {
      this.queue := queue;
      this.scriptDir := scriptDir;
      this.prefix := prefix;
      this.jobFile := jobFile;
      this.submit := submit;
      remotePath := None;
      remote := null;
    }

    /** `_setup_remote`: the remote path verbatim, then a new, unconnected session. */
    method SetupRemote(home: string) returns (o: Outcome)
      modifies this
      ensures !HasKey(queue, "remote_path") ==>
        o == Raised(KeyErr("remote_path")) && remotePath == old(remotePath) && remote == old(remote)
      ensures HasKey(queue, "remote_path") ==>
        remotePath == Get(queue, "remote_path") &&
        (o.Raised? <==> PlainSettings(queue, home).Err?) &&
        (o.Raised? ==> o.exc == PlainSettings(queue, home).exc && remote == old(remote)) &&
        (o.Done? ==> remote != null && fresh(remote) && remote.settings == PlainSettings(queue, home).value &&
                     remote.State() == Fresh)
    {
      var rp := Get(queue, "remote_path");
      if rp.None? {
        return Raised(KeyErr("remote_path"));
      }
      remotePath := rp;
      var user := Get(queue, "remote_user");
      if user.None? {
        return Raised(KeyErr("remote_user"));
      }
      var host := Get(queue, "remote_host");
      if host.None? {
        return Raised(KeyErr("remote_host"));
      }
      var config := Get(queue, "remote_auth");
      if config.None? {
        return Raised(KeyErr("remote_auth"));
      }
      var a := NewRemoteAuth(user.value, host.value, config.value, home);
      if a.Err? {
        return Raised(a.exc);
      }
      remote := a.value;
      o := Done;
    }

    /**
     * `run`: outside remote execution nothing is set up; otherwise the
     * reply, and the final state of the session this run built, are those
     * of `PlainRun`.
     */
    method Run(home: string, t: Transport) returns (r: Reply)
      modifies this
      ensures !IsRemote(queue) ==> r == Delegated && remote == old(remote) && remotePath == old(remotePath)
      ensures r == PlainRun(queue, home, scriptDir, prefix, jobFile, submit, t).0
      ensures IsRemote(queue) && HasKey(queue, "remote_path") && PlainSettings(queue, home).Ok? ==>
        remote != null && fresh(remote) && remote.State() == PlainRun(queue, home, scriptDir, prefix, jobFile, submit, t).1
    {
      if !IsRemote(queue) {
        return Delegated;
      }
      var o := SetupRemote(home);
      if o.Raised? {
        return RunFailed(o.exc);
      }
      var p := PlainPlan(remotePath.value, scriptDir, prefix, jobFile, submit);
      var out := Execute(remote, p, t);
      if out.Err? {
        return RunFailed(out.exc);
      }
      var c := remote.Close(t);
      if c.Raised? {
        return RunFailed(c.exc);
      }
      r := Returned(out.value.0, out.value.1);
    }
  }
}
