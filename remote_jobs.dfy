// xespresso/remote_job_manager.py: `RemoteJobManager` keeps one SSH
// connection per object (`ssh_connected`), submits a local job directory
// to a cluster (scheduler detection, remote directory choice, upload,
// submission through Slurm, PBS or a direct background run), records the
// submission in `.remote_info.json`, and polls and downloads the results.
//
// The cluster is a `Host` oracle: every login, command, upload, listing
// and download gets its answer from it, and commands are numbered in the
// order the manager sends them so that the same command may be answered
// differently later (a job that finishes). The answers to the two console
// prompts, the clock readings and the local directory are parameters.

module RemoteJobs {
  import opened PyStr
  import opened PyErr
  import opened PyDict
  import opened Json
  import opened JobDirs
  import opened SshSteps
  import SlurmUtils

  datatype Config = Config(host: string, user: string, keyPath: Option<string>, password: Option<string>,
                           port: int, remoteBase: string)

  /**
   * The manager's state: whether a connection is held, how many logins
   * and commands it has made, the answer to the direct-execution question
   * once it has been asked, and every request so far.
   */
  datatype MState = MState(connected: bool, logins: nat, commands: nat, confirmed: Option<bool>, trace: seq<Event>)

  const Initial := MState(false, 0, 0, None, [])

  const NoCredentials := Exc("ValueError", "Deve fornecer key_path ou password para autenticação")

  // ---------------------------------------------------------------
  // Construction
  // ---------------------------------------------------------------

  /**
   * `__init__`: the key path is expanded when given, `{user}` is put into
   * the remote base, and a manager with neither key nor password is refused.
   */
  function NewConfig(host: string, user: string, keyPath: Option<string>, password: Option<string>,
                     remoteBase: string, port: int, home: string): (r: Result<Config>)
    ensures r.Ok? <==> FormatUser(remoteBase, user).Ok? && (HasText(keyPath) || HasText(password))
    ensures r.Ok? ==> HasText(r.value.keyPath) || HasText(r.value.password)
    ensures r.Ok? ==> (HasText(keyPath) <==> HasText(r.value.keyPath)) && r.value.password == password
    ensures r.Err? && FormatUser(remoteBase, user).Ok? ==> r.exc == NoCredentials
  {
    var key := if HasText(keyPath) then Some(ExpandUser(keyPath.value, home)) else None;
    match FormatUser(remoteBase, user)
    case Err(e) => Err(e)
    case Ok(base) =>
      if !HasText(key) && !HasText(password) then Err(NoCredentials)
      else Ok(Config(host, user, key, password, port, base))
  }

  lemma ExpandUserNonEmpty(p: string, home: string)
    requires p != ""
    ensures ExpandUser(p, home) != ""
  {
  }

  /** The default remote base `/home/{user}/jobs` becomes `/home/<user>/jobs`. */
  lemma DefaultBase(host: string, user: string, password: string, port: int, home: string)
    requires password != ""
    ensures NewConfig(host, user, None, Some(password), "/home/{user}/jobs", port, home).Ok?
    ensures NewConfig(host, user, None, Some(password), "/home/{user}/jobs", port, home).value.remoteBase ==
            "/home/" + user + "/jobs"
  {
    assert !HasBrace("/home/") && !HasBrace("/jobs");
    FormatUserOf("/home/", "/jobs", user);
    assert "/home/" + "{user}" + "/jobs" == "/home/{user}/jobs";
    assert FormatUser("/home/{user}/jobs", user) == Ok("/home/" + user + "/jobs");
  }

  // ---------------------------------------------------------------
  // The connection
  // ---------------------------------------------------------------

  /** The exception `_connect_ssh` raises in place of the one paramiko raised. */
  function LoginError(e: Exc): Exc
  {
    if e.kind == "AuthenticationException" then Exc("Exception", "❌ Autenticação falhou. Verifique chave/senha.")
    else Exc("Exception", "❌ Erro de conexão: " + e.message)
  }

  /** `_connect_ssh`: a held connection is reused; otherwise one login, by key when there is one. */
  function ConnectSpec(c: Config, st: MState, h: Host): (MState, Outcome)
  {
    if st.connected then (st, Done)
    else
      var st1 := st.(logins := st.logins + 1, trace := st.trace + [Login(HasText(c.keyPath))]);
      match h.login(st.logins)
      case Done => (st1.(connected := true), Done)
      case Raised(e) => (st1, Raised(LoginError(e)))
  }

  /** `_disconnect_ssh`. */
  function DisconnectSpec(st: MState): (r: MState)
    ensures !r.connected
    ensures st.connected <==> r.trace == st.trace + [Disconnect]
    ensures !st.connected ==> r == st
  {
    if st.connected then st.(connected := false, trace := st.trace + [Disconnect]) else st
  }

  /** `_execute_command`: connect if needed, run, and strip both outputs. */
  function ExecSpec(c: Config, st: MState, cmd: string, h: Host): (MState, Result<(string, string)>)
  {
    var (st1, o) := ConnectSpec(c, st, h);
    if o.Raised? then (st1, Err(o.exc))
    else
      var st2 := st1.(commands := st1.commands + 1, trace := st1.trace + [Exec(cmd)]);
      match h.exec(st1.commands, cmd)
      case Err(e) => (st2, Err(e))
      case Ok(p) => (st2, Ok((Strip(p.0), Strip(p.1))))
  }

  /**
   * A connection is made at most once: on a held connection a command is
   * sent without logging in again, and a command sent from a fresh state
   * logs in first, with the key when there is one.
   */
  lemma ExecReusesConnection(c: Config, st: MState, cmd: string, h: Host)
    ensures var (st1, r) := ExecSpec(c, st, cmd, h);
      st1.confirmed == st.confirmed &&
      (st.connected ==> st1.logins == st.logins && st1.trace == st.trace + [Exec(cmd)] && st1.connected) &&
      (!st.connected ==> st1.logins == st.logins + 1 && st1.trace[..|st.trace| + 1] == st.trace + [Login(HasText(c.keyPath))]) &&
      (r.Ok? ==> st1.connected && st1.commands == st.commands + 1 && st1.trace[|st1.trace| - 1] == Exec(cmd) &&
                 r.value == (Strip(h.exec(st.commands, cmd).value.0), Strip(h.exec(st.commands, cmd).value.1)))
  {
    var (s1, o) := ConnectSpec(c, st, h);
    if !st.connected && o.Done? {
      assert ExecSpec(c, st, cmd, h).0.trace == st.trace + [Login(HasText(c.keyPath))] + [Exec(cmd)];
    }
  }

  // ---------------------------------------------------------------
  // Scheduler detection
  // ---------------------------------------------------------------

  /** The scheduler the job file's text names, if any. */
  function MarkerOf(content: string): (r: Option<string>)
    ensures r.Some? ==> r.value in ["slurm", "pbs", "direct"]
  {
    if Contains(content, "#SBATCH") then Some("slurm")
    else if Contains(content, "#PBS") then Some("pbs")
    else if Contains(content, "#!/bin/bash") || Contains(content, "#!/bin/sh") then Some("direct")
    else None
  }

  /** `_read_queue_config(local_dir, job_file)`: the job file, then the record, then "direct". */
  function ReadQueueConfig(disk: Disk, localDir: string, jobFile: string): (r: Result<Value>)
    ensures r.Err? <==> r == Err(NoDir(localDir))
  {
    if jobFile in disk.files && MarkerOf(disk.files[jobFile]).Some? then Ok(VStr(MarkerOf(disk.files[jobFile]).value))
    else if disk.info.Some? && HasKey(disk.info.value, "scheduler") then Ok(Get(disk.info.value, "scheduler").value)
    else if disk.entries.None? then Err(NoDir(localDir))
    else Ok(VStr("direct"))
  }

  /**
   * The precedence of the detection: a marker in the job file wins over
   * the record, "#SBATCH" over "#PBS" over a shebang; any other scheduler
   * name comes from the record; the directory listing never changes the
   * answer, it only raises when the directory is missing.
   */
  lemma QueuePrecedence(disk: Disk, localDir: string, jobFile: string)
    ensures var r := ReadQueueConfig(disk, localDir, jobFile);
      (jobFile in disk.files && Contains(disk.files[jobFile], "#SBATCH") ==> r == Ok(VStr("slurm"))) &&
      (jobFile in disk.files && !Contains(disk.files[jobFile], "#SBATCH") && Contains(disk.files[jobFile], "#PBS") ==>
         r == Ok(VStr("pbs"))) &&
      (r.Ok? && r.value !in [VStr("slurm"), VStr("pbs"), VStr("direct")] ==>
         disk.info.Some? && Get(disk.info.value, "scheduler") == Some(r.value)) &&
      (disk.entries.Some? ==> r.Ok?)
  {
  }

  // ---------------------------------------------------------------
  // Submission: prefix and remote directory
  // ---------------------------------------------------------------

  /** The arguments of `submit`, with the console answers and clock readings it consumes. */
  datatype Submission = Submission(localDir: string, jobFile: string, prefix: Option<string>,
                                   remoteDir: Option<string>, lab: Option<string>,
                                   restart: string, confirm: string, stamp: string, now: string)

  const NoPwi := Exc("FileNotFoundError", "Nenhum arquivo .pwi encontrado no diretório local.")

  /** The prefix: the given one, or the first `.pwi` entry with every ".pwi" removed. */
  function PrefixOf(disk: Disk, a: Submission): (r: Result<string>)
    ensures a.prefix.Some? ==> r == Ok(a.prefix.value)
    ensures a.prefix.None? && disk.entries.Some? ==>
      (r.Err? <==> forall i :: 0 <= i < |disk.entries.value| ==> !EndsWith(disk.entries.value[i], ".pwi"))
  {
    if a.prefix.Some? then Ok(a.prefix.value)
    else if disk.entries.None? then Err(NoDir(a.localDir))
    else match FirstPwi(disk.entries.value)
      case None => Err(NoPwi)
      case Some(f) => Ok(ReplaceAll(f, ".pwi", ""))
  }

  /** Without a record: the given directory, else `<base>/<label>`, else `<base>/<prefix>_<stamp>`. */
  function Fallback(c: Config, a: Submission, prefix: string, rd: Option<Value>): Value
  {
    if rd.Some? then rd.value
    else if HasText(a.lab) then VStr(c.remoteBase + "/" + a.lab.value)
    else VStr(c.remoteBase + "/" + prefix + "_" + a.stamp)
  }

  function Given(a: Submission): Option<Value>
  {
    if a.remoteDir.Some? then Some(VStr(a.remoteDir.value)) else None
  }

  /**
   * The remote directory: the recorded one, unless the user answers "s"
   * to the restart question, in which case the old remote directory is
   * removed, the record is deleted and the directory is chosen afresh
   * (ignoring the one given by the caller).
   */
  function ResolveSpec(c: Config, st: MState, disk: Disk, a: Submission, prefix: string, h: Host): (MState, Disk, Result<Value>)
  {
    if disk.info.None? then (st, disk, Ok(Fallback(c, a, prefix, Given(a))))
    else match Get(disk.info.value, "remote_dir")
      case None => (st, disk, Err(Exc("KeyError", "'remote_dir'")))
      case Some(v) =>
        if Lower(a.restart) != "s" then (st, disk, Ok(v))
        else
          var (st1, r) := ExecSpec(c, st, "rm -rf " + Show(v), h);
          if r.Err? then (st1, disk, Err(r.exc))
          else (st1, RemoveInfo(disk), Ok(Fallback(c, a, prefix, None)))
  }

  /** The precedence of the remote directory, and what a restart does. */
  lemma RemoteDirPrecedence(c: Config, st: MState, disk: Disk, a: Submission, prefix: string, h: Host)
    ensures var (st1, d1, r) := ResolveSpec(c, st, disk, a, prefix, h);
      (disk.info.None? ==>
         st1 == st && d1 == disk &&
         r == Ok(if a.remoteDir.Some? then VStr(a.remoteDir.value)
                 else if HasText(a.lab) then VStr(c.remoteBase + "/" + a.lab.value)
                 else VStr(c.remoteBase + "/" + prefix + "_" + a.stamp))) &&
      (disk.info.Some? && HasKey(disk.info.value, "remote_dir") && Lower(a.restart) != "s" ==>
         st1 == st && d1 == disk && r == Ok(Get(disk.info.value, "remote_dir").value)) &&
      (disk.info.Some? && r.Ok? && Lower(a.restart) == "s" ==>
         d1.info.None? && Exec("rm -rf " + Show(Get(disk.info.value, "remote_dir").value)) in st1.trace &&
         r.value == Fallback(c, a, prefix, None)) &&
      (d1 == disk || d1 == RemoveInfo(disk))
  {
    if disk.info.Some? && HasKey(disk.info.value, "remote_dir") && Lower(a.restart) == "s" {
      var v := Get(disk.info.value, "remote_dir").value;
      ExecReusesConnection(c, st, "rm -rf " + Show(v), h);
    }
  }

  // ---------------------------------------------------------------
  // Submission: staging the files
  // ---------------------------------------------------------------

  /** `submit` uploads the regular files other than the record. */
  predicate Uploaded(files: map<string, string>, name: string)
  {
    name != InfoName && name in files
  }

  /** The entries `submit` uploads, in listing order. */
  function Regular(names: seq<string>, files: map<string, string>): (r: seq<string>)
    ensures forall n :: n in r <==> n in names && n != InfoName && n in files
  {
    if names == [] then []
    else (if Uploaded(files, names[0]) then [names[0]] else []) + Regular(names[1..], files)
  }

  function Puts(localDir: string, rd: string, names: seq<string>): seq<Event>
  {
    if names == [] then [] else [Upload(PathJoin(localDir, names[0]), rd + "/" + names[0])] + Puts(localDir, rd, names[1..])
  }

  /** The uploads of the listing, stopping at the first that raises. */
  function Uploads(localDir: string, files: map<string, string>, rd: string, names: seq<string>, h: Host): (seq<Event>, Outcome)
  {
    if names == [] then ([], Done)
    else if !Uploaded(files, names[0]) then Uploads(localDir, files, rd, names[1..], h)
    else
      var lp := PathJoin(localDir, names[0]);
      var rp := rd + "/" + names[0];
      if h.put(lp, rp).Raised? then ([Upload(lp, rp)], h.put(lp, rp))
      else var (es, o) := Uploads(localDir, files, rd, names[1..], h); ([Upload(lp, rp)] + es, o)
  }

  /**
   * When no upload raises, exactly the regular files other than
   * `.remote_info.json` are uploaded, in listing order, each to the same
   * name under the remote directory.
   */
  lemma {:induction false} UploadsExactly(localDir: string, files: map<string, string>, rd: string, names: seq<string>, h: Host)
    requires forall n :: n in names && n != InfoName && n in files ==> h.put(PathJoin(localDir, n), rd + "/" + n).Done?
    ensures Uploads(localDir, files, rd, names, h) == (Puts(localDir, rd, Regular(names, files)), Done)
  {
    if names != [] {
      UploadsExactly(localDir, files, rd, names[1..], h);
      if Uploaded(files, names[0]) {
        assert Regular(names, files) == [names[0]] + Regular(names[1..], files);
      } else {
        assert Regular(names, files) == Regular(names[1..], files);
      }
    }
  }

  /** The record is never uploaded. */
  lemma {:induction false} RecordNeverUploaded(localDir: string, files: map<string, string>, rd: string, names: seq<string>, h: Host)
    ensures Upload(PathJoin(localDir, InfoName), rd + "/" + InfoName) !in Uploads(localDir, files, rd, names, h).0
  {
    if names != [] {
      RecordNeverUploaded(localDir, files, rd, names[1..], h);
      SameParent(rd, names[0], InfoName);
    }
  }

  lemma SameParent(rd: string, x: string, y: string)
    ensures rd + "/" + x == rd + "/" + y ==> x == y
  {
    if rd + "/" + x == rd + "/" + y {
      assert (rd + "/" + x)[|rd| + 1..] == x;
      assert (rd + "/" + y)[|rd| + 1..] == y;
    }
  }

  /**
   * Connect, create the remote directory, upload, and list it: Ok(true)
   * when the job file is in the listing, Ok(false) when a command wrote to
   * stderr or the job file is missing, Err when something raised.
   */
  function StageSpec(c: Config, st: MState, disk: Disk, localDir: string, rd: string, jobFile: string, h: Host): (MState, Result<bool>)
  {
    var (st1, o) := ConnectSpec(c, st, h);
    if o.Raised? then (st1, Err(o.exc))
    else
      var (st2, m) := ExecSpec(c, st1, "mkdir -p " + rd, h);
      if m.Err? then (st2, Err(m.exc))
      else if m.value.1 != "" then (st2, Ok(false))
      else
        var st3 := st2.(trace := st2.trace + [OpenSftp]);
        if h.openSftp.Raised? then (st3, Err(h.openSftp.exc))
        else if disk.entries.None? then (st3, Err(NoDir(localDir)))
        else
          var (es, u) := Uploads(localDir, disk.files, rd, disk.entries.value, h);
          var st4 := st3.(trace := st3.trace + es);
          if u.Raised? then (st4, Err(u.exc))
          else
            var (st5, l) := ExecSpec(c, st4.(trace := st4.trace + [CloseSftp]), "ls " + rd, h);
            if l.Err? then (st5, Err(l.exc))
            else if l.value.1 != "" then (st5, Ok(false))
            else (st5, Ok(jobFile in Words(l.value.0)))
  }

  /** Staging passes only when the remote listing, answered by the cluster, names the job file. */
  lemma StageNeedsJobFile(c: Config, st: MState, disk: Disk, localDir: string, rd: string, jobFile: string, h: Host)
    ensures StageSpec(c, st, disk, localDir, rd, jobFile, h).1 == Ok(true) ==>
      exists n: nat :: h.exec(n, "ls " + rd).Ok? && jobFile in Words(Strip(h.exec(n, "ls " + rd).value.0))
  {
    if StageSpec(c, st, disk, localDir, rd, jobFile, h).1 == Ok(true) {
      var (st1, o) := ConnectSpec(c, st, h);
      var (st2, m) := ExecSpec(c, st1, "mkdir -p " + rd, h);
      var st3 := st2.(trace := st2.trace + [OpenSftp]);
      var (es, u) := Uploads(localDir, disk.files, rd, disk.entries.value, h);
      var st4 := st3.(trace := st3.trace + es + [CloseSftp]);
      ExecReusesConnection(c, st4, "ls " + rd, h);
      var n := st4.commands;
      assert h.exec(n, "ls " + rd).Ok?;
    }
  }

  // ---------------------------------------------------------------
  // Submission: the schedulers
  // ---------------------------------------------------------------

  /** The verdict on `sbatch`'s stdout: success only when it is all digits (as `--parsable` would print). */
  function SlurmVerdict(out: string): (r: (bool, Option<string>))
    ensures r.0 <==> IsDigits(out)
    ensures r.0 ==> r.1 == Some(out)
  {
    if out != "" && IsDigits(out) then (true, Some(out)) else (false, None)
  }

  /** As written, the usual reply of `sbatch` without `--parsable` is taken for a failure. */
  lemma SlurmVerdictRejectsUsualReply(id: string)
    requires IsDigits(id)
    ensures !SlurmVerdict(SlurmUtils.MatchHead + id).0
  {
    assert (SlurmUtils.MatchHead + id)[0] == 'S';
  }

  /** The intended verdict: the bare id, or the id of "Submitted batch job <id>". */
  function FixedSlurmVerdict(out: string): (r: (bool, Option<string>))
    ensures r.0 <==> r.1.Some?
    ensures r.0 ==> IsDigits(r.1.value)
  {
    if IsDigits(out) then (true, Some(out))
    else match SlurmUtils.ParseSlurmOutput(out)
      case JobId(id) => (true, Some(id))
      case NoJobId(_) => (false, None)
  }

  /** Both forms of `sbatch`'s reply give the job id. */
  lemma FixedSlurmVerdictAccepts(id: string)
    requires IsDigits(id)
    ensures FixedSlurmVerdict(id) == (true, Some(id))
    ensures FixedSlurmVerdict(SlurmUtils.MatchHead + id) == (true, Some(id))
  {
    assert (SlurmUtils.MatchHead + id)[0] == 'S';
    SlurmUtils.ParseUsualReply(id, "");
    assert SlurmUtils.MatchHead + id + "" == SlurmUtils.MatchHead + id;
  }

  /** `_submit_slurm`: success only when the reply of `sbatch` is all digits. */
  function SlurmSpec(c: Config, st: MState, rd: string, jobFile: string, h: Host): (MState, Result<(bool, Option<string>)>)
  {
    var (st1, r) := ExecSpec(c, st, "command -v sbatch", h);
    if r.Err? then (st1, Err(r.exc))
    else if r.value.0 == "" then (st1, Ok((false, None)))
    else
      var (st2, r2) := ExecSpec(c, st1, "cd " + rd + " && sbatch " + jobFile, h);
      if r2.Err? then (st2, Err(r2.exc))
      else if r2.value.1 != "" then (st2, Ok((false, None)))
      else (st2, Ok(SlurmVerdict(r2.value.0)))
  }

  /** `_submit_pbs`: the job id is what precedes the first "." of `qsub`'s reply. */
  function PbsSpec(c: Config, st: MState, rd: string, jobFile: string, h: Host): (MState, Result<(bool, Option<string>)>)
  {
    var (st1, r) := ExecSpec(c, st, "command -v qsub", h);
    if r.Err? then (st1, Err(r.exc))
    else if r.value.0 == "" then (st1, Ok((false, None)))
    else
      var (st2, r2) := ExecSpec(c, st1, "cd " + rd + " && qsub " + jobFile, h);
      if r2.Err? then (st2, Err(r2.exc))
      else if r2.value.1 != "" || r2.value.0 == "" then (st2, Ok((false, None)))
      else (st2, Ok((true, Some(Split(r2.value.0, ".")[0]))))
  }

  /** The PBS id is the reply up to its first ".", and contains no ".". */
  lemma PbsJobId(c: Config, st: MState, rd: string, jobFile: string, h: Host)
    ensures var r := PbsSpec(c, st, rd, jobFile, h).1;
      r.Ok? && r.value.0 ==>
        r.value.1.Some? && !Contains(r.value.1.value, ".") &&
        exists out :: out != "" && StartsWith(out, r.value.1.value) &&
          (r.value.1.value == out || StartsWith(out, r.value.1.value + "."))
  {
    var r := PbsSpec(c, st, rd, jobFile, h).1;
    if r.Ok? && r.value.0 {
      var (st1, r1) := ExecSpec(c, st, "command -v qsub", h);
      var (st2, r2) := ExecSpec(c, st1, "cd " + rd + " && qsub " + jobFile, h);
      var out := r2.value.0;
      SplitHead(out, ".");
    }
  }

  /** The first piece of a split on "." is a prefix free of "."; the text goes on with "." unless it was all of it. */
  lemma SplitHead(s: string, sep: string)
    requires sep != ""
    ensures var p := Split(s, sep)[0];
      !Contains(p, sep) && StartsWith(s, p) && (p == s || StartsWith(s, p + sep))
  {
    SplitPiecesFree(s, sep);
    var i := Find(s, sep);
    if i != -1 {
      assert s[..i + |sep|] == s[..i] + sep;
    }
  }

  const LoginIndicators := ["login", "manager", "head", "master", "admin", "control", "frontend"]

  /** The hostname names a login or management node. */
  predicate LooksLikeLoginNode(hostname: string)
  {
    exists i :: 0 <= i < |LoginIndicators| && Contains(hostname, LoginIndicators[i])
  }

  /**
   * `_is_safe_for_direct_execution`: refused on a login node; otherwise
   * the user's answer, asked once per manager and remembered.
   */
  function SafeSpec(c: Config, st: MState, confirm: string, h: Host): (MState, bool)
  {
    var (st1, r) := ExecSpec(c, st, "hostname", h);
    if r.Err? then (st1, false)
    else if LooksLikeLoginNode(Lower(r.value.0)) then (st1, false)
    else if st1.confirmed.Some? then (st1, st1.confirmed.value)
    else (st1.(confirmed := Some(Lower(confirm) == "s")), Lower(confirm) == "s")
  }

  /**
   * A login node is refused without asking; once the question has been
   * answered the answer given later plays no part; and a positive verdict
   * is always a remembered "s".
   */
  lemma SafeProperties(c: Config, st: MState, confirm: string, other: string, h: Host)
    ensures var (st1, ok) := SafeSpec(c, st, confirm, h);
      (ok ==> st1.confirmed == Some(true)) &&
      (st.confirmed.Some? ==> SafeSpec(c, st, other, h) == (st1, ok) && st1.confirmed == st.confirmed) &&
      (st1.confirmed != st.confirmed ==> st.confirmed.None? && st1.confirmed == Some(Lower(confirm) == "s"))
    ensures var (st1, r) := ExecSpec(c, st, "hostname", h);
      r.Ok? && LooksLikeLoginNode(Lower(r.value.0)) ==> SafeSpec(c, st, confirm, h) == (st1, false) && st1.confirmed == st.confirmed
  {
    ExecReusesConnection(c, st, "hostname", h);
  }

  /** `_submit_direct`: start the job file in the background and look for it in `ps`. */
  function DirectSpec(c: Config, st: MState, rd: string, jobFile: string, confirm: string, h: Host): (MState, Result<bool>)
  {
    var (st1, safe) := SafeSpec(c, st, confirm, h);
    if !safe then (st1, Ok(false))
    else
      var (st2, r) := ExecSpec(c, st1, "cd " + rd + " && nohup bash " + jobFile + " > job.out 2> job.err &", h);
      if r.Err? then (st2, Err(r.exc))
      else
        var (st3, r2) := ExecSpec(c, st2, "ps aux | grep '" + jobFile + "' | grep -v grep", h);
        if r2.Err? then (st3, Err(r2.exc)) else (st3, Ok(r2.value.0 != ""))
  }

  /** The submission by scheduler: anything but "slurm", "pbs" and "direct" is refused. */
  function DispatchSpec(c: Config, st: MState, sched: Value, rd: string, jobFile: string, confirm: string, h: Host)
    : (MState, Result<(bool, Option<string>)>)
  {
    if sched == VStr("slurm") then SlurmSpec(c, st, rd, jobFile, h)
    else if sched == VStr("pbs") then PbsSpec(c, st, rd, jobFile, h)
    else if sched == VStr("direct") then
      var (st1, r) := DirectSpec(c, st, rd, jobFile, confirm, h);
      (st1, if r.Err? then Err(r.exc) else Ok((r.value, None)))
    else (st, Ok((false, None)))
  }

  /** A direct run is accepted only after a positive answer to the safety question, and records no job id. */
  lemma DirectNeedsConfirmation(c: Config, st: MState, rd: string, jobFile: string, confirm: string, h: Host)
    ensures var (st1, r) := DispatchSpec(c, st, VStr("direct"), rd, jobFile, confirm, h);
      r.Ok? && r.value.0 ==> r.value.1.None? && st1.confirmed == Some(true)
  {
    var (s1, safe) := SafeSpec(c, st, confirm, h);
    SafeProperties(c, st, confirm, confirm, h);
    if safe {
      var (s2, r) := ExecSpec(c, s1, "cd " + rd + " && nohup bash " + jobFile + " > job.out 2> job.err &", h);
      ExecReusesConnection(c, s1, "cd " + rd + " && nohup bash " + jobFile + " > job.out 2> job.err &", h);
      ExecReusesConnection(c, s2, "ps aux | grep '" + jobFile + "' | grep -v grep", h);
    }
  }

  // ---------------------------------------------------------------
  // Submission as a whole
  // ---------------------------------------------------------------

  /** The record `submit` writes after a successful submission. */
  function Record(c: Config, rd: Value, prefix: string, sched: Value, jobId: Option<string>, now: string): (r: Dict<string, Value>)
    ensures Get(r, "remote_dir") == Some(rd) && Get(r, "host") == Some(VStr(c.host))
    ensures Get(r, "scheduler") == Some(sched) && Get(r, "status") == Some(VStr("submitted"))
    ensures Get(r, "job_id") == Some(if jobId.Some? then VStr(jobId.value) else VNone)
  {
    var r := [("remote_dir", rd), ("host", VStr(c.host)), ("user", VStr(c.user)), ("prefix", VStr(prefix)),
              ("scheduler", sched), ("job_id", if jobId.Some? then VStr(jobId.value) else VNone),
              ("submitted", VStr(now)), ("status", VStr("submitted"))];
    GetSkip(r, "scheduler", 4);
    GetSkip(r, "job_id", 5);
    GetSkip(r, "status", 7);
    r
  }

  /** The body of `submit`'s `try`; its result is the value `submit` returns. */
  function SubmitBody(c: Config, st: MState, disk: Disk, a: Submission, h: Host): (r: (MState, Disk, bool))
    ensures r.1.files == disk.files
    ensures !r.2 ==> r.1 == disk || r.1 == RemoveInfo(disk)
    ensures r.2 ==> r.1.info.Some? && Get(r.1.info.value, "status") == Some(VStr("submitted")) &&
                    Get(r.1.info.value, "host") == Some(VStr(c.host)) && HasKey(r.1.info.value, "remote_dir")
  {
    match PrefixOf(disk, a)
    case Err(_) => (st, disk, false)
    case Ok(prefix) =>
      match ReadQueueConfig(disk, a.localDir, a.jobFile)
      case Err(_) => (st, disk, false)
      case Ok(sched) =>
        var (st1, d1, rr) := ResolveSpec(c, st, disk, a, prefix, h);
        RemoteDirPrecedence(c, st, disk, a, prefix, h);
        if rr.Err? then (st1, d1, false)
        else
          var rd := Show(rr.value);
          var (st2, s) := StageSpec(c, st1, d1, a.localDir, rd, a.jobFile, h);
          if s != Ok(true) then (st2, d1, false)
          else
            var (st3, dsp) := DispatchSpec(c, st2, sched, rd, a.jobFile, a.confirm, h);
            if dsp.Err? || !dsp.value.0 then (st3, d1, false)
            else (st3, WriteInfo(d1, Record(c, rr.value, prefix, sched, dsp.value.1, a.now)), true)
  }

  /**
   * `submit`: the body, then the connection is always closed. The record
   * is written exactly when it returns True, and then says "submitted"
   * with the host and the remote directory; on False the record is left
   * as it was, or removed by a confirmed restart.
   */
  function SubmitSpec(c: Config, st: MState, disk: Disk, a: Submission, h: Host): (r: (MState, Disk, bool))
    ensures !r.0.connected && r.1.files == disk.files
    ensures !r.2 ==> r.1 == disk || r.1 == RemoveInfo(disk)
    ensures r.2 ==> r.1.info.Some? && Get(r.1.info.value, "status") == Some(VStr("submitted")) &&
                    Get(r.1.info.value, "host") == Some(VStr(c.host)) && HasKey(r.1.info.value, "remote_dir")
  {
    var (st1, d1, ok) := SubmitBody(c, st, disk, a, h);
    (DisconnectSpec(st1), d1, ok)
  }

  /** A submission that succeeds has passed staging: the job file was in the remote listing. */
  lemma SubmitNeedsRemoteJobFile(c: Config, st: MState, disk: Disk, a: Submission, h: Host)
    ensures SubmitSpec(c, st, disk, a, h).2 ==>
      exists rd: string, n: nat :: h.exec(n, "ls " + rd).Ok? && a.jobFile in Words(Strip(h.exec(n, "ls " + rd).value.0))
  {
    if SubmitSpec(c, st, disk, a, h).2 {
      var prefix := PrefixOf(disk, a).value;
      var (st1, d1, rr) := ResolveSpec(c, st, disk, a, prefix, h);
      StageNeedsJobFile(c, st1, d1, a.localDir, Show(rr.value), a.jobFile, h);
    }
  }

  // ---------------------------------------------------------------
  // Status, download and monitoring
  // ---------------------------------------------------------------

  /** The queue's word on the job, before the completion check. */
  function QueueStatus(c: Config, st: MState, info: Dict<string, Value>, h: Host): (r: (MState, Result<string>))
    ensures r.1.Ok? ==> r.1.value == "unknown" || StartsWith(r.1.value, "slurm_") || StartsWith(r.1.value, "pbs_")
  {
    var sched := Get(info, "scheduler");
    var jid := Get(info, "job_id");
    if sched == Some(VStr("slurm")) && jid.Some? && Truthy(jid.value) then
      var (st1, r) := ExecSpec(c, st, "squeue -j " + Show(jid.value) + " -h -o %T", h);
      if r.Err? then (st1, Err(r.exc))
      else (st1, Ok(if r.value.0 != "" then "slurm_" + r.value.0 else "unknown"))
    else if sched == Some(VStr("pbs")) && jid.Some? && Truthy(jid.value) then
      var (st1, r) := ExecSpec(c, st, "qstat -f " + Show(jid.value) + " | grep job_state", h);
      if r.Err? then (st1, Err(r.exc))
      else if r.value.0 != "" && Contains(r.value.0, "=") then
        SplitCount(r.value.0, "=");
        (st1, Ok("pbs_" + Strip(Split(r.value.0, "=")[1])))
      else (st1, Ok("unknown"))
    else (st, Ok("unknown"))
  }

  /** Text that holds the separator splits into at least two pieces. */
  lemma SplitCount(s: string, sep: string)
    requires sep != "" && Contains(s, sep)
    ensures |Split(s, sep)| >= 2
  {
  }

  /** The command that tells whether `<prefix>.pwo` exists. */
  function PwoCheck(rd: Value, prefix: Value): string
  {
    "ls " + Show(rd) + "/" + Show(prefix) + ".pwo 2>/dev/null || echo 'none'"
  }

  /** A status starts with "slurm_" or "pbs_", or is one of the fixed words. */
  predicate KnownStatus(s: string)
  {
    s in ["not_submitted", "unknown", "error", "completed"] || StartsWith(s, "slurm_") || StartsWith(s, "pbs_")
  }

  /**
   * The completion check of `get_job_status`: when the `.pwo` check prints
   * nothing that contains "none" the job is "completed", whatever the queue
   * said.
   */
  function PwoStatus(c: Config, st: MState, info: Dict<string, Value>, queued: string, h: Host): (r: (MState, string))
    ensures r.1 in ["error", "completed", queued]
    ensures !HasKey(info, "remote_dir") || !HasKey(info, "prefix") ==> r == (st, "error")
    ensures HasKey(info, "remote_dir") && HasKey(info, "prefix") ==>
      var x := ExecSpec(c, st, PwoCheck(Get(info, "remote_dir").value, Get(info, "prefix").value), h).1;
      (x.Err? ==> r.1 == "error") &&
      (x.Ok? && CompletedAsWritten(x.value.0) ==> r.1 == "completed") &&
      (x.Ok? && !CompletedAsWritten(x.value.0) ==> r.1 == queued)
  {
    if !HasKey(info, "remote_dir") || !HasKey(info, "prefix") then (st, "error")
    else
      var (st1, x) := ExecSpec(c, st, PwoCheck(Get(info, "remote_dir").value, Get(info, "prefix").value), h);
      if x.Err? then (st1, "error")
      else if CompletedAsWritten(x.value.0) then (st1, "completed")
      else (st1, queued)
  }

  /** The word for a missing record is none of the queue's words. */
  lemma NotSubmittedIsNoQueueWord()
    ensures !StartsWith("not_submitted", "slurm_") && !StartsWith("not_submitted", "pbs_")
  {
    assert "not_submitted"[0] != "slurm_"[0];
    assert "not_submitted"[0] != "pbs_"[0];
  }

  /** `get_job_status`, which leaves the connection open; without a record nothing is asked of the cluster. */
  function StatusSpec(c: Config, st: MState, disk: Disk, h: Host): (r: (MState, string))
    ensures KnownStatus(r.1)
    ensures disk.info.None? <==> r.1 == "not_submitted"
    ensures disk.info.None? ==> r.0 == st
  {
    if disk.info.None? then (st, "not_submitted")
    else
      var (st1, q) := QueueStatus(c, st, disk.info.value, h);
      NotSubmittedIsNoQueueWord();
      if q.Err? then (st1, "error")
      else PwoStatus(c, st1, disk.info.value, q.value, h)
  }

  /** The completion check as written: `"none" not in output`. */
  predicate CompletedAsWritten(out: string)
  {
    !Contains(out, "none")
  }

  /**
   * As written, a finished job whose prefix contains "none" is never
   * reported completed, though its `.pwo` exists and `ls` prints its path.
   */
  lemma PwoCheckHidesNone(rd: string, prefix: string)
    requires Contains(prefix, "none")
    ensures !CompletedAsWritten(rd + "/" + prefix + ".pwo")
    ensures FixedCompleted(rd + "/" + prefix + ".pwo")
  {
    FixedCompletedListing(rd, prefix);
    var s := rd + "/" + prefix + ".pwo";
    var i := Find(prefix, "none");
    assert s[|rd| + 1 + i..|rd| + 1 + i + 4] == prefix[i..i + 4];
    FindFirst(s, "none", |rd| + 1 + i);
  }

  /** The intended completion check: completed unless the command printed exactly the fallback word. */
  predicate FixedCompleted(out: string)
  {
    out != "none"
  }

  /** With the intended check, the path `ls` prints for an existing `.pwo` always counts as completed. */
  lemma FixedCompletedListing(rd: string, prefix: string)
    ensures FixedCompleted(rd + "/" + prefix + ".pwo")
  {
    var s := rd + "/" + prefix + ".pwo";
    assert s[|s| - 1] == 'o';
  }

  /** The local names `download_results` may write: all of them with overwrite, else the absent ones. */
  predicate Fetches(present: set<string>, overwrite: bool, name: string)
  {
    overwrite || name !in present
  }

  function Gets(rd: string, localDir: string, names: seq<string>): seq<Event>
  {
    if names == [] then [] else [Download(rd + "/" + names[0], PathJoin(localDir, names[0]))] + Gets(rd, localDir, names[1..])
  }

  function Fetched(present: set<string>, overwrite: bool, names: seq<string>): (r: seq<string>)
    ensures forall n :: n in r <==> n in names && Fetches(present, overwrite, n)
  {
    if names == [] then []
    else (if Fetches(present, overwrite, names[0]) then [names[0]] else []) + Fetched(present, overwrite, names[1..])
  }

  /** The downloads of the remote listing, stopping at the first that raises. */
  function Downloads(rd: string, localDir: string, present: set<string>, overwrite: bool, names: seq<string>, h: Host)
    : (seq<Event>, Outcome)
  {
    if names == [] then ([], Done)
    else if !Fetches(present, overwrite, names[0]) then Downloads(rd, localDir, present, overwrite, names[1..], h)
    else
      var rp := rd + "/" + names[0];
      var lp := PathJoin(localDir, names[0]);
      if h.get(rp, lp).Raised? then ([Download(rp, lp)], h.get(rp, lp))
      else var (es, o) := Downloads(rd, localDir, present, overwrite, names[1..], h); ([Download(rp, lp)] + es, o)
  }

  /**
   * When no download raises, exactly the remote entries allowed by
   * `overwrite` are downloaded, in listing order; without `overwrite`, no
   * file already present locally is written.
   */
  lemma {:induction false} DownloadsExactly(rd: string, localDir: string, present: set<string>, overwrite: bool,
                                            names: seq<string>, h: Host)
    requires forall n :: n in names && Fetches(present, overwrite, n) ==> h.get(rd + "/" + n, PathJoin(localDir, n)).Done?
    ensures Downloads(rd, localDir, present, overwrite, names, h) == (Gets(rd, localDir, Fetched(present, overwrite, names)), Done)
  {
    if names != [] {
      DownloadsExactly(rd, localDir, present, overwrite, names[1..], h);
      if Fetches(present, overwrite, names[0]) {
        assert Fetched(present, overwrite, names) == [names[0]] + Fetched(present, overwrite, names[1..]);
      } else {
        assert Fetched(present, overwrite, names) == Fetched(present, overwrite, names[1..]);
      }
    }
  }

  /** The names `os.path.exists` finds in the local directory. */
  function Present(disk: Disk): set<string>
  {
    if disk.entries.Some? then set n | n in disk.entries.value else {}
  }

  /** The body of `download_results`' `try`. */
  function DownloadBody(c: Config, st: MState, info: Dict<string, Value>, present: set<string>, localDir: string,
                        overwrite: bool, h: Host): (MState, bool)
  {
    var (st1, o) := ConnectSpec(c, st, h);
    if o.Raised? then (st1, false)
    else
      var st2 := st1.(trace := st1.trace + [OpenSftp]);
      if h.openSftp.Raised? then (st2, false)
      else match Get(info, "remote_dir")
        case None => (st2, false)
        case Some(v) =>
          if !v.VStr? then (st2, false)
          else match h.listdir(v.s)
            case Err(_) => (st2, false)
            case Ok(names) =>
              var (es, o2) := Downloads(v.s, localDir, present, overwrite, names, h);
              var st3 := st2.(trace := st2.trace + es);
              if o2.Raised? then (st3, false) else (st3.(trace := st3.trace + [CloseSftp]), true)
  }

  /** `download_results`: nothing without a record; otherwise the body, then the connection is closed. */
  function DownloadSpec(c: Config, st: MState, disk: Disk, localDir: string, overwrite: bool, h: Host): (MState, bool)
  {
    if disk.info.None? then (st, false)
    else
      var (st1, ok) := DownloadBody(c, st, disk.info.value, Present(disk), localDir, overwrite, h);
      (DisconnectSpec(st1), ok)
  }

  /**
   * One round of `monitor_job`'s loop: the status, and whether the loop
   * stops there (after downloading a completed job) or sleeps.
   */
  function PollSpec(c: Config, st: MState, disk: Disk, localDir: string, interval: int, h: Host): (MState, string, bool)
  {
    var (st1, s) := StatusSpec(c, st, disk, h);
    if s == "completed" then (DownloadSpec(c, st1, disk, localDir, false, h).0, s, true)
    else if s == "error" then (st1, s, true)
    else (st1.(trace := st1.trace + [Sleep(interval)]), s, false)
  }

  /**
   * The statuses of a monitoring run with `fuel` polls allowed: at most
   * `fuel`, at least one, none but the last "completed" or "error", and the
   * last one of these when the run ended early.
   */
  predicate StopsOnlyAtEnd(ss: seq<string>, fuel: nat)
  {
    |ss| <= fuel && (fuel > 0 ==> |ss| > 0) &&
    (forall i :: 0 <= i < |ss| - 1 ==> ss[i] != "completed" && ss[i] != "error") &&
    (|ss| < fuel ==> ss[|ss| - 1] == "completed" || ss[|ss| - 1] == "error")
  }

  lemma StopsOnlyAtEndCons(s: string, rest: seq<string>, fuel: nat)
    requires fuel > 0 && s != "completed" && s != "error" && StopsOnlyAtEnd(rest, fuel - 1)
    ensures StopsOnlyAtEnd([s] + rest, fuel)
  {
    var ss := [s] + rest;
    forall i | 0 <= i < |ss| - 1
      ensures ss[i] != "completed" && ss[i] != "error"
    {
      if i > 0 {
        assert ss[i] == rest[i - 1];
      }
    }
  }

  /**
   * The polling loop of `monitor_job`, for at most `fuel` polls: the
   * statuses seen and the final state. It stops only on "completed" or
   * "error", and otherwise goes on until the fuel runs out.
   */
  function MonitorLoop(c: Config, st: MState, disk: Disk, localDir: string, interval: int, fuel: nat, h: Host)
    : (r: (MState, seq<string>))
    ensures StopsOnlyAtEnd(r.1, fuel)
    decreases fuel
  {
    if fuel == 0 then (st, [])
    else
      var (st1, s, stop) := PollSpec(c, st, disk, localDir, interval, h);
      if stop then (st1, [s])
      else
        var (st2, ss) := MonitorLoop(c, st1, disk, localDir, interval, fuel - 1, h);
        StopsOnlyAtEndCons(s, ss, fuel);
        (st2, [s] + ss)
  }

  lemma MonitorNone(c: Config, st: MState, disk: Disk, localDir: string, interval: int, h: Host)
    ensures MonitorLoop(c, st, disk, localDir, interval, 0, h) == (st, [])
  {
  }

  /**
   * One round of the polling loop on values: after a poll from `st` that
   * ended in `st1` with status `s`, the loop has `next` polls left, and
   * the whole run is the statuses seen, `s`, then what those polls do.
   */
  lemma MonitorRoundSpec(c: Config, st: MState, disk: Disk, localDir: string, interval: int, left: nat, h: Host,
                         st1: MState, s: string, stop: bool, whole: (MState, seq<string>), seen: seq<string>)
    requires left > 0 && (st1, s, stop) == PollSpec(c, st, disk, localDir, interval, h)
    requires whole.0 == MonitorLoop(c, st, disk, localDir, interval, left, h).0
    requires whole.1 == seen + MonitorLoop(c, st, disk, localDir, interval, left, h).1
    ensures var next := if stop then 0 else left - 1;
      var rest := MonitorLoop(c, st1, disk, localDir, interval, next, h);
      whole.0 == rest.0 && whole.1 == seen + [s] + rest.1
  {
    if stop {
      assert seen + [s] + [] == seen + [s];
    } else {
      SnocAssoc(seen, s, MonitorLoop(c, st1, disk, localDir, interval, left - 1, h).1);
    }
  }

  /** `monitor_job`: the polls, then the connection is closed. */
  function MonitorSpec(c: Config, st: MState, disk: Disk, localDir: string, interval: int, fuel: nat, h: Host)
    : (MState, seq<string>)
  {
    var (st1, ss) := MonitorLoop(c, st, disk, localDir, interval, fuel, h);
    (DisconnectSpec(st1), ss)
  }

  /** Without a record, every poll says "not_submitted" and monitoring never stops by itself. */
  lemma {:induction false} MonitorWithoutRecord(c: Config, st: MState, disk: Disk, localDir: string, interval: int, fuel: nat, h: Host)
    requires disk.info.None?
    ensures MonitorLoop(c, st, disk, localDir, interval, fuel, h).1 == seq(fuel, _ => "not_submitted")
    decreases fuel
  {
    if fuel > 0 {
      var st2 := PollSpec(c, st, disk, localDir, interval, h).0;
      MonitorWithoutRecord(c, st2, disk, localDir, interval, fuel - 1, h);
      assert MonitorLoop(c, st, disk, localDir, interval, fuel, h).1 ==
             ["not_submitted"] + MonitorLoop(c, st2, disk, localDir, interval, fuel - 1, h).1;
    }
  }

  // ---------------------------------------------------------------
  // Loops as methods
  // ---------------------------------------------------------------

  /** The upload loop of `submit`: the requests it makes, in order, and how it ends. */
  method UploadLoop(localDir: string, files: map<string, string>, rd: string, names: seq<string>, h: Host)
    returns (es: seq<Event>, o: Outcome)
    ensures (es, o) == Uploads(localDir, files, rd, names, h)
  {
    es := [];
    assert names[0..] == names;
    var i := 0;
    while i < |names|
      invariant 0 <= i <= |names|
      invariant Uploads(localDir, files, rd, names, h).0 == es + Uploads(localDir, files, rd, names[i..], h).0
      invariant Uploads(localDir, files, rd, names, h).1 == Uploads(localDir, files, rd, names[i..], h).1
    {
      var name := names[i];
      UploadsAt(localDir, files, rd, names, i, h);
      if Uploaded(files, name) {
        var lp := PathJoin(localDir, name);
        var rp := rd + "/" + name;
        if h.put(lp, rp).Raised? {
          es := es + [Upload(lp, rp)];
          return es, h.put(lp, rp);
        }
        assert es + ([Upload(lp, rp)] + Uploads(localDir, files, rd, names[i + 1..], h).0) ==
               (es + [Upload(lp, rp)]) + Uploads(localDir, files, rd, names[i + 1..], h).0;
        es := es + [Upload(lp, rp)];
      }
      i := i + 1;
    }
    assert es + [] == es;
    o := Done;
  }

  /** One step of `Uploads` at position `i` of the listing. */
  lemma UploadsAt(localDir: string, files: map<string, string>, rd: string, names: seq<string>, i: nat, h: Host)
    requires i < |names|
    ensures var lp, rp := PathJoin(localDir, names[i]), rd + "/" + names[i];
      var rest := Uploads(localDir, files, rd, names[i + 1..], h);
      Uploads(localDir, files, rd, names[i..], h) ==
        if !Uploaded(files, names[i]) then rest
        else if h.put(lp, rp).Raised? then ([Upload(lp, rp)], h.put(lp, rp))
        else ([Upload(lp, rp)] + rest.0, rest.1)
  {
    assert names[i..][1..] == names[i + 1..];
  }

  /** The download loop of `download_results`. */
  method DownloadLoop(rd: string, localDir: string, present: set<string>, overwrite: bool, names: seq<string>, h: Host)
    returns (es: seq<Event>, o: Outcome)
    ensures (es, o) == Downloads(rd, localDir, present, overwrite, names, h)
  {
    es := [];
    ghost var whole := Downloads(rd, localDir, present, overwrite, names, h);
    assert names[0..] == names;
    var i := 0;
    while i < |names|
      invariant 0 <= i <= |names|
      invariant whole.0 == es + Downloads(rd, localDir, present, overwrite, names[i..], h).0
      invariant whole.1 == Downloads(rd, localDir, present, overwrite, names[i..], h).1
    {
      var name := names[i];
      ghost var rest := Downloads(rd, localDir, present, overwrite, names[i + 1..], h);
      DownloadsAt(rd, localDir, present, overwrite, names, i, h);
      if Fetches(present, overwrite, name) {
        var rp := rd + "/" + name;
        var lp := PathJoin(localDir, name);
        if h.get(rp, lp).Raised? {
          es := es + [Download(rp, lp)];
          return es, h.get(rp, lp);
        }
        SnocAssoc(es, Download(rp, lp), rest.0);
        es := es + [Download(rp, lp)];
      }
      i := i + 1;
    }
    assert es + [] == es;
    o := Done;
  }

  /** One step of `Downloads` at position `i` of the listing. */
  lemma DownloadsAt(rd: string, localDir: string, present: set<string>, overwrite: bool, names: seq<string>, i: nat, h: Host)
    requires i < |names|
    ensures var rp, lp := rd + "/" + names[i], PathJoin(localDir, names[i]);
      var rest := Downloads(rd, localDir, present, overwrite, names[i + 1..], h);
      Downloads(rd, localDir, present, overwrite, names[i..], h) ==
        if !Fetches(present, overwrite, names[i]) then rest
        else if h.get(rp, lp).Raised? then ([Download(rp, lp)], h.get(rp, lp))
        else ([Download(rp, lp)] + rest.0, rest.1)
  {
    assert names[i..][1..] == names[i + 1..];
  }

  /** `RemoteJobManager(...)`: a manager, or the error the constructor raises. */
  method NewManager(host: string, user: string, keyPath: Option<string>, password: Option<string>,
                    remoteBase: string, port: int, home: string) returns (r: Result<RemoteJobManager>)
    ensures r.Err? <==> NewConfig(host, user, keyPath, password, remoteBase, port, home).Err?
    ensures r.Err? ==> r.exc == NewConfig(host, user, keyPath, password, remoteBase, port, home).exc
    ensures r.Ok? ==> fresh(r.value) && r.value.cfg == NewConfig(host, user, keyPath, password, remoteBase, port, home).value &&
                      r.value.State() == Initial
  {
    var c := NewConfig(host, user, keyPath, password, remoteBase, port, home);
    if c.Err? {
      return Err(c.exc);
    }
    var m := new RemoteJobManager(c.value);
    r := Ok(m);
  }

  class RemoteJobManager {
    const cfg: Config
    var connected: bool
    var logins: nat
    var commands: nat
    /** `_direct_execution_confirmed`, absent until the question is asked. */
    var confirmed: Option<bool>
    var trace: seq<Event>

    function State(): MState
      reads this
    {
      MState(connected, logins, commands, confirmed, trace)
    }

    constructor(c: Config)
      ensures cfg == c && State() == Initial
    {
      cfg := c;
      connected := false;
      logins := 0;
      commands := 0;
      confirmed := None;
      trace := [];
    }

    method ConnectSsh(h: Host) returns (o: Outcome)
      modifies this
      ensures (State(), o) == ConnectSpec(cfg, old(State()), h)
    {
      if connected {
        return Done;
      }
      trace := trace + [Login(HasText(cfg.keyPath))];
      var n := logins;
      logins := logins + 1;
      var l := h.login(n);
      if l.Raised? {
        return Raised(LoginError(l.exc));
      }
      connected := true;
      o := Done;
    }

    method DisconnectSsh()
      modifies this
      ensures State() == DisconnectSpec(old(State()))
    {
      if connected {
        trace := trace + [Disconnect];
        connected := false;
      }
    }

    method ExecuteCommand(cmd: string, h: Host) returns (r: Result<(string, string)>)
      modifies this
      ensures (State(), r) == ExecSpec(cfg, old(State()), cmd, h)
    {
      var o := ConnectSsh(h);
      if o.Raised? {
        return Err(o.exc);
      }
      var n := commands;
      commands := commands + 1;
      trace := trace + [Exec(cmd)];
      var x := h.exec(n, cmd);
      if x.Err? {
        return Err(x.exc);
      }
      r := Ok((Strip(x.value.0), Strip(x.value.1)));
    }

    method SubmitSlurm(rd: string, jobFile: string, h: Host) returns (r: Result<(bool, Option<string>)>)
      modifies this
      ensures (State(), r) == SlurmSpec(cfg, old(State()), rd, jobFile, h)
    {
      var x := ExecuteCommand("command -v sbatch", h);
      if x.Err? {
        return Err(x.exc);
      }
      if x.value.0 == "" {
        return Ok((false, None));
      }
      var y := ExecuteCommand("cd " + rd + " && sbatch " + jobFile, h);
      if y.Err? {
        return Err(y.exc);
      }
      if y.value.1 != "" {
        return Ok((false, None));
      }
      var out := y.value.0;
      if out != "" && IsDigits(out) {
        return Ok((true, Some(out)));
      }
      r := Ok((false, None));
    }

    method SubmitPbs(rd: string, jobFile: string, h: Host) returns (r: Result<(bool, Option<string>)>)
      modifies this
      ensures (State(), r) == PbsSpec(cfg, old(State()), rd, jobFile, h)
    {
      var x := ExecuteCommand("command -v qsub", h);
      if x.Err? {
        return Err(x.exc);
      }
      if x.value.0 == "" {
        return Ok((false, None));
      }
      var y := ExecuteCommand("cd " + rd + " && qsub " + jobFile, h);
      if y.Err? {
        return Err(y.exc);
      }
      if y.value.1 != "" || y.value.0 == "" {
        return Ok((false, None));
      }
      r := Ok((true, Some(Split(y.value.0, ".")[0])));
    }

    method IsSafeForDirectExecution(confirm: string, h: Host) returns (ok: bool)
      modifies this
      ensures (State(), ok) == SafeSpec(cfg, old(State()), confirm, h)
    {
      var x := ExecuteCommand("hostname", h);
      if x.Err? {
        return false;
      }
      var hostname := Lower(x.value.0);
      if LooksLikeLoginNode(hostname) {
        return false;
      }
      if confirmed.None? {
        confirmed := Some(Lower(confirm) == "s");
      }
      ok := confirmed.value;
    }

    method SubmitDirect(rd: string, jobFile: string, confirm: string, h: Host) returns (r: Result<bool>)
      modifies this
      ensures (State(), r) == DirectSpec(cfg, old(State()), rd, jobFile, confirm, h)
    {
      var safe := IsSafeForDirectExecution(confirm, h);
      if !safe {
        return Ok(false);
      }
      var x := ExecuteCommand("cd " + rd + " && nohup bash " + jobFile + " > job.out 2> job.err &", h);
      if x.Err? {
        return Err(x.exc);
      }
      var y := ExecuteCommand("ps aux | grep '" + jobFile + "' | grep -v grep", h);
      if y.Err? {
        return Err(y.exc);
      }
      r := Ok(y.value.0 != "");
    }

    method Dispatch(sched: Value, rd: string, jobFile: string, confirm: string, h: Host)
      returns (r: Result<(bool, Option<string>)>)
      modifies this
      ensures (State(), r) == DispatchSpec(cfg, old(State()), sched, rd, jobFile, confirm, h)
    {
      if sched == VStr("slurm") {
        r := SubmitSlurm(rd, jobFile, h);
      } else if sched == VStr("pbs") {
        r := SubmitPbs(rd, jobFile, h);
      } else if sched == VStr("direct") {
        var d := SubmitDirect(rd, jobFile, confirm, h);
        r := if d.Err? then Err(d.exc) else Ok((d.value, None));
      } else {
        r := Ok((false, None));
      }
    }

    /** The restart question and the choice of the remote directory. */
    method Resolve(disk: Disk, a: Submission, prefix: string, h: Host) returns (d: Disk, r: Result<Value>)
      modifies this
      ensures (State(), d, r) == ResolveSpec(cfg, old(State()), disk, a, prefix, h)
    {
      d := disk;
      var rd := Given(a);
      if disk.info.Some? {
        var v := Get(disk.info.value, "remote_dir");
        if v.None? {
          return disk, Err(Exc("KeyError", "'remote_dir'"));
        }
        rd := v;
        if Lower(a.restart) == "s" {
          var x := ExecuteCommand("rm -rf " + Show(v.value), h);
          if x.Err? {
            return disk, Err(x.exc);
          }
          d := RemoveInfo(disk);
          rd := None;
        }
      }
      r := Ok(Fallback(cfg, a, prefix, rd));
    }

    /** Connect, create the remote directory, upload and list it. */
    method Stage(disk: Disk, localDir: string, rd: string, jobFile: string, h: Host) returns (r: Result<bool>)
      modifies this
      ensures (State(), r) == StageSpec(cfg, old(State()), disk, localDir, rd, jobFile, h)
    {
      var o := ConnectSsh(h);
      if o.Raised? {
        return Err(o.exc);
      }
      var m := ExecuteCommand("mkdir -p " + rd, h);
      if m.Err? {
        return Err(m.exc);
      }
      if m.value.1 != "" {
        return Ok(false);
      }
      trace := trace + [OpenSftp];
      if h.openSftp.Raised? {
        return Err(h.openSftp.exc);
      }
      if disk.entries.None? {
        return Err(NoDir(localDir));
      }
      var es, u := UploadLoop(localDir, disk.files, rd, disk.entries.value, h);
      trace := trace + es;
      if u.Raised? {
        return Err(u.exc);
      }
      trace := trace + [CloseSftp];
      var l := ExecuteCommand("ls " + rd, h);
      if l.Err? {
        return Err(l.exc);
      }
      if l.value.1 != "" {
        return Ok(false);
      }
      r := Ok(jobFile in Words(l.value.0));
    }

    method SubmitSteps(disk: Disk, a: Submission, h: Host) returns (d: Disk, ok: bool)
      modifies this
      ensures (State(), d, ok) == SubmitBody(cfg, old(State()), disk, a, h)
    {
      var prefix := a.prefix;
      if prefix.None? {
        if disk.entries.None? {
          return disk, false;
        }
        var f := FindPwi(disk.entries.value);
        if f.None? {
          return disk, false;
        }
        prefix := Some(ReplaceAll(f.value, ".pwi", ""));
      }
      assert PrefixOf(disk, a) == Ok(prefix.value);
      var sched := ReadQueueConfig(disk, a.localDir, a.jobFile);
      if sched.Err? {
        return disk, false;
      }
      var rr;
      d, rr := Resolve(disk, a, prefix.value, h);
      if rr.Err? {
        return d, false;
      }
      var rd := Show(rr.value);
      var s := Stage(d, a.localDir, rd, a.jobFile, h);
      if s != Ok(true) {
        return d, false;
      }
      var dsp := Dispatch(sched.value, rd, a.jobFile, a.confirm, h);
      if dsp.Err? || !dsp.value.0 {
        return d, false;
      }
      d := WriteInfo(d, Record(cfg, rr.value, prefix.value, sched.value, dsp.value.1, a.now));
      ok := true;
    }

    /** `submit`. */
    method Submit(disk: Disk, a: Submission, h: Host) returns (d: Disk, ok: bool)
      modifies this
      ensures (State(), d, ok) == SubmitSpec(cfg, old(State()), disk, a, h)
    {
      d, ok := SubmitSteps(disk, a, h);
      DisconnectSsh();
    }

    method QueueStatusOf(info: Dict<string, Value>, h: Host) returns (r: Result<string>)
      modifies this
      ensures (State(), r) == QueueStatus(cfg, old(State()), info, h)
    {
      var sched := Get(info, "scheduler");
      var jid := Get(info, "job_id");
      if sched == Some(VStr("slurm")) && jid.Some? && Truthy(jid.value) {
        var x := ExecuteCommand("squeue -j " + Show(jid.value) + " -h -o %T", h);
        if x.Err? {
          return Err(x.exc);
        }
        r := Ok(if x.value.0 != "" then "slurm_" + x.value.0 else "unknown");
      } else if sched == Some(VStr("pbs")) && jid.Some? && Truthy(jid.value) {
        var x := ExecuteCommand("qstat -f " + Show(jid.value) + " | grep job_state", h);
        if x.Err? {
          return Err(x.exc);
        }
        if x.value.0 != "" && Contains(x.value.0, "=") {
          SplitCount(x.value.0, "=");
          r := Ok("pbs_" + Strip(Split(x.value.0, "=")[1]));
        } else {
          r := Ok("unknown");
        }
      } else {
        r := Ok("unknown");
      }
    }

    method PwoStatusOf(info: Dict<string, Value>, queued: string, h: Host) returns (s: string)
      modifies this
      ensures (State(), s) == PwoStatus(cfg, old(State()), info, queued, h)
    {
      if !HasKey(info, "remote_dir") || !HasKey(info, "prefix") {
        return "error";
      }
      var x := ExecuteCommand(PwoCheck(Get(info, "remote_dir").value, Get(info, "prefix").value), h);
      if x.Err? {
        return "error";
      }
      if CompletedAsWritten(x.value.0) {
        return "completed";
      }
      s := queued;
    }

    /** `get_job_status`. */
    method GetJobStatus(disk: Disk, h: Host) returns (s: string)
      modifies this
      ensures (State(), s) == StatusSpec(cfg, old(State()), disk, h)
    {
      if disk.info.None? {
        return "not_submitted";
      }
      var info := disk.info.value;
      var q := QueueStatusOf(info, h);
      if q.Err? {
        return "error";
      }
      s := PwoStatusOf(info, q.value, h);
    }

    method DownloadSteps(info: Dict<string, Value>, present: set<string>, localDir: string, overwrite: bool, h: Host)
      returns (ok: bool)
      modifies this
      ensures (State(), ok) == DownloadBody(cfg, old(State()), info, present, localDir, overwrite, h)
    {
      var o := ConnectSsh(h);
      if o.Raised? {
        return false;
      }
      trace := trace + [OpenSftp];
      if h.openSftp.Raised? {
        return false;
      }
      var v := Get(info, "remote_dir");
      if v.None? || !v.value.VStr? {
        return false;
      }
      var names := h.listdir(v.value.s);
      if names.Err? {
        return false;
      }
      var es, o2 := DownloadLoop(v.value.s, localDir, present, overwrite, names.value, h);
      trace := trace + es;
      if o2.Raised? {
        return false;
      }
      trace := trace + [CloseSftp];
      ok := true;
    }

    /** `download_results`. */
    method DownloadResults(disk: Disk, localDir: string, overwrite: bool, h: Host) returns (ok: bool)
      modifies this
      ensures (State(), ok) == DownloadSpec(cfg, old(State()), disk, localDir, overwrite, h)
    {
      if disk.info.None? {
        return false;
      }
      ok := DownloadSteps(disk.info.value, Present(disk), localDir, overwrite, h);
      DisconnectSsh();
    }

    /** One round of `monitor_job`'s loop. */
    method Poll(disk: Disk, localDir: string, interval: int, h: Host) returns (s: string, stop: bool)
      modifies this
      ensures (State(), s, stop) == PollSpec(cfg, old(State()), disk, localDir, interval, h)
    {
      s := GetJobStatus(disk, h);
      if s == "completed" {
        var downloaded := DownloadResults(disk, localDir, false, h);
        return s, true;
      }
      if s == "error" {
        return s, true;
      }
      trace := trace + [Sleep(interval)];
      stop := false;
    }

    /** `monitor_job`, for at most `fuel` polls: the statuses it reports, in order. */
    method MonitorJob(disk: Disk, localDir: string, interval: int, fuel: nat, h: Host) returns (seen: seq<string>)
      modifies this
      ensures (State(), seen) == MonitorSpec(cfg, old(State()), disk, localDir, interval, fuel, h)
    {
      seen := MonitorPolls(disk, localDir, interval, fuel, h);
      DisconnectSsh();
    }

    /**
     * One round of the polling loop, with `left` polls allowed: it either
     * stops, or goes on with one poll fewer; `rest` is what the remaining
     * polls will do, and with the status added to those seen the whole
     * run is unchanged.
     */
    method MonitorRound(disk: Disk, localDir: string, interval: int, left: nat, h: Host,
                        ghost whole: (MState, seq<string>), ghost seen: seq<string>)
      returns (s: string, next: nat, ghost rest: (MState, seq<string>))
      requires left > 0
      requires whole.0 == MonitorLoop(cfg, State(), disk, localDir, interval, left, h).0
      requires whole.1 == seen + MonitorLoop(cfg, State(), disk, localDir, interval, left, h).1
      modifies this
      ensures next < left && rest == MonitorLoop(cfg, State(), disk, localDir, interval, next, h)
      ensures whole.0 == rest.0 && whole.1 == seen + [s] + rest.1
    {
      ghost var before := State();
      var stop;
      s, stop := Poll(disk, localDir, interval, h);
      MonitorRoundSpec(cfg, before, disk, localDir, interval, left, h, State(), s, stop, whole, seen);
      next := if stop then 0 else left - 1;
      rest := MonitorLoop(cfg, State(), disk, localDir, interval, next, h);
    }

    /** The polling loop of `monitor_job`. */
    method MonitorPolls(disk: Disk, localDir: string, interval: int, fuel: nat, h: Host) returns (seen: seq<string>)
      modifies this
      ensures (State(), seen) == MonitorLoop(cfg, old(State()), disk, localDir, interval, fuel, h)
    {
      ghost var whole := MonitorLoop(cfg, State(), disk, localDir, interval, fuel, h);
      ghost var rest := whole;
      seen := [];
      assert seen + whole.1 == whole.1;
      var left: nat := fuel;
      while left > 0
        invariant rest == MonitorLoop(cfg, State(), disk, localDir, interval, left, h)
        invariant whole.0 == rest.0 && whole.1 == seen + rest.1
        decreases left
      {
        var s;
        s, left, rest := MonitorRound(disk, localDir, interval, left, h, whole, seen);
        seen := seen + [s];
      }
      MonitorNone(cfg, State(), disk, localDir, interval, h);
      assert seen + [] == seen;
    }
  }
}
