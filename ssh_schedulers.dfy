// The two schedulers that work over SSH: `SSHDirectScheduler`
// (schedulers/ssh_direct.py) runs commands on the remote host directly,
// `RemoteSlurmScheduler` (schedulers/remote.py) writes a script there and
// submits it with `sbatch`. The handshake and what each remote command
// returns are inputs; the client records the logins it attempted and the
// commands it handed to `exec_command`, in order.

module SshSchedulers {
  import opened PyStr
  import opened PyErr
  import opened JobText
  import opened Slurm
  import opened RemoteFs

  /** `remote_dir or f"/home/{username}/{leaf}"`. */
  function RemoteDirOr(remoteDir: string, username: string, leaf: string): string
  {
    if remoteDir != "" then remoteDir else "/home/" + username + "/" + leaf
  }

  // ---------------------------------------------------------------
  // Connecting and running one command
  // ---------------------------------------------------------------

  /** The credentials a handshake uses. */
  datatype Login = KeyLogin(keyFile: string) | PasswordLogin(password: Option<string>)

  /** `connect`: the key file when it is set and not empty, else the password (possibly None). */
  function LoginFor(keyFilename: Option<string>, password: Option<string>): (r: Login)
    ensures r.KeyLogin? <==> keyFilename.Some? && keyFilename.value != ""
    ensures r.KeyLogin? ==> r.keyFile == keyFilename.value
    ensures r.PasswordLogin? ==> r.password == password
  {
    if keyFilename.Some? && keyFilename.value != "" then KeyLogin(keyFilename.value) else PasswordLogin(password)
  }

  /**
   * The dictionary `execute_command` returns: with `wait`, the exit status
   * and the stripped output; without, only that the command started; and
   * when `exec_command` or reading its result raises, the message.
   */
  datatype ExecReply =
    | Finished(success: bool, exitCode: int, output: string, error: string, command: string)
    | Started(command: string)
    | ExecFailed(error: string, command: string)

  /** `execute_command(command, wait)` once connected; `run` is what the remote side does with the command. */
  function ExecReplyOf(command: string, wait: bool, run: Result<Completed>): ExecReply
  {
    match run
    case Err(e) => ExecFailed(e.message, command)
    case Ok(c) =>
      if wait then Finished(c.code == 0, c.code, Strip(c.stdout), Strip(c.stderr), command)
      else Started(command)
  }

  /** The "success" entry of a reply. */
  predicate Succeeded(r: ExecReply)
  {
    match r
    case Finished(ok, _, _, _, _) => ok
    case Started(_) => true
    case ExecFailed(_, _) => false
  }

  /**
   * A reply reports success exactly when the command was handed over and,
   * when waited for, exited with status 0; every reply names the command,
   * and only a waited reply carries the exit status and the stripped output.
   */
  lemma ExecReplyCases(command: string, wait: bool, run: Result<Completed>)
    ensures var r := ExecReplyOf(command, wait, run);
      (Succeeded(r) <==> run.Ok? && (wait ==> run.value.code == 0)) &&
      r.command == command &&
      (r.Finished? <==> run.Ok? && wait) &&
      (r.Finished? ==> r.exitCode == run.value.code && r.output == Strip(run.value.stdout) &&
                       r.error == Strip(run.value.stderr)) &&
      (r.ExecFailed? ==> r.error == run.exc.message)
  {
  }

  // ---------------------------------------------------------------
  // The direct script and the direct command line
  // ---------------------------------------------------------------

  const DirectStartEcho := "echo \"Starting direct execution at $(date)\""
  const DirectPwdEcho := "echo \"Working directory: $(pwd)\""
  const DirectDoneEcho := "echo \"Execution completed at $(date)\""

  /** The lines before the commands. */
  function DirectHead(workingDir: string): seq<string>
  {
    ["#!/bin/bash", "", "cd " + workingDir, "", DirectStartEcho, DirectPwdEcho, ""]
  }

  const DirectTail := ["", DirectDoneEcho]

  function DirectLines(workingDir: string, commands: seq<string>): seq<string>
  {
    DirectHead(workingDir) + commands + DirectTail
  }

  /** `generate_script(commands)` of the direct scheduler. */
  function DirectScript(workingDir: string, commands: seq<string>): string
  {
    Unlines(DirectLines(workingDir, commands))
  }

  /**
   * The script moves to the working directory before anything else runs,
   * has the commands one per line in order after the two start messages,
   * and ends with the completion message.
   */
  lemma DirectLayout(workingDir: string, commands: seq<string>)
    ensures var lines := DirectLines(workingDir, commands);
      |lines| == |commands| + 9 && lines[0] == "#!/bin/bash" && lines[2] == "cd " + workingDir &&
      lines[4] == DirectStartEcho && lines[5] == DirectPwdEcho &&
      lines[7..7 + |commands|] == commands && lines[|lines| - 1] == DirectDoneEcho
  {
  }

  /** Read back with `split("\n")`, the script gives exactly its lines when none holds a newline. */
  lemma DirectSplit(workingDir: string, commands: seq<string>)
    requires '\n' !in workingDir && SingleLines(commands)
    ensures Split(DirectScript(workingDir, commands), "\n") == DirectLines(workingDir, commands) + [""]
  {
    var lines := DirectLines(workingDir, commands);
    assert SingleLines(lines) by {
      forall i | 0 <= i < |lines|
        ensures '\n' !in lines[i]
      {
        if 7 <= i < 7 + |commands| {
          assert lines[i] == commands[i - 7];
        }
      }
    }
    SplitUnlines(lines);
  }

  /** `generate_script`, with its loop over the commands. */
  method GenerateScript(workingDir: string, commands: seq<string>) returns (script: string)
    ensures script == DirectScript(workingDir, commands)
  {
    script := Unlines(DirectHead(workingDir));
    var body := LinesText(commands);
    script := script + body + Unlines(DirectTail);
    UnlinesAppend(DirectHead(workingDir), commands);
    UnlinesAppend(DirectHead(workingDir) + commands, DirectTail);
  }

  /** One "module load m" per module, in order. */
  function ModuleLoads(modules: seq<string>): (r: seq<string>)
    ensures |r| == |modules|
  {
    if modules == [] then [] else ModuleLoads(modules[..|modules| - 1]) + ["module load " + Last(modules)]
  }

  /** The steps `run_direct` chains: module loads, the change of directory, the commands. */
  function DirectSteps(modules: seq<string>, workingDir: string, commands: seq<string>): seq<string>
  {
    ModuleLoads(modules) + ["cd " + workingDir] + commands
  }

  /**
   * The module loads come first, one per module in order, then the change
   * to the working directory, then the commands in order.
   */
  lemma {:induction false} DirectStepsLayout(modules: seq<string>, workingDir: string, commands: seq<string>)
    ensures var steps := DirectSteps(modules, workingDir, commands);
      |steps| == |modules| + 1 + |commands| &&
      (forall k :: 0 <= k < |modules| ==> steps[k] == "module load " + modules[k]) &&
      steps[|modules|] == "cd " + workingDir &&
      steps[|modules| + 1..] == commands
    decreases |modules|
  {
    if modules != [] {
      DirectStepsLayout(modules[..|modules| - 1], workingDir, commands);
    }
  }

  /** `nohup bash -c '<command>' > <remote_dir>/nohup.out 2>&1 &`. */
  function InBackground(command: string, remoteDir: string): string
  {
    "nohup bash -c '" + command + "' > " + remoteDir + "/nohup.out 2>&1 &"
  }

  /** The full command of `run_direct`. */
  function DirectCommand(steps: seq<string>, remoteDir: string, background: bool): string
  {
    var full := Join(" && ", steps);
    if background then InBackground(full, remoteDir) else full
  }

  /** In the background the chained steps are quoted for `bash -c` and the output goes to the remote directory. */
  lemma BackgroundShape(steps: seq<string>, remoteDir: string)
    ensures var c := DirectCommand(steps, remoteDir, true);
      StartsWith(c, "nohup bash -c '" + Join(" && ", steps) + "'") &&
      EndsWith(c, remoteDir + "/nohup.out 2>&1 &")
  {
    var c := DirectCommand(steps, remoteDir, true);
    var head := "nohup bash -c '" + Join(" && ", steps) + "'";
    assert c == head + (" > " + remoteDir + "/nohup.out 2>&1 &");
    StartsWithConcat(head, " > " + remoteDir + "/nohup.out 2>&1 &");
    assert c == ("nohup bash -c '" + Join(" && ", steps) + "' > ") + (remoteDir + "/nohup.out 2>&1 &");
    EndsWithConcat("nohup bash -c '" + Join(" && ", steps) + "' > ", remoteDir + "/nohup.out 2>&1 &");
  }

  // ---------------------------------------------------------------
  // SSHDirectScheduler
  // ---------------------------------------------------------------

  class SshDirect {
    const username: string
    const password: Option<string>
    const keyFilename: Option<string>
    const remoteDir: string
    const workingDir: string
    /** `ssh_client is not None`. */
    var client: bool
    /** The handshakes attempted, in order. */
    var logins: seq<Login>
    /** The commands handed to `exec_command`, in order. */
    var sent: seq<string>

    /** `remote_dir` falls back to "/home/<username>/direct_jobs"; nothing is connected yet. */
    constructor(username: string, password: Option<string>, keyFilename: Option<string>, remoteDir: string,
                workingDir: string)
      ensures this.remoteDir == (if remoteDir != "" then remoteDir else "/home/" + username + "/direct_jobs")
      ensures this.username == username && this.workingDir == workingDir
      ensures this.password == password && this.keyFilename == keyFilename
      ensures !client && logins == [] && sent == []
    {
      this.username := username;
      this.password := password;
      this.keyFilename := keyFilename;
      this.remoteDir := RemoteDirOr(remoteDir, username, "direct_jobs");
      this.workingDir := workingDir;
      client := false;
      logins := [];
      sent := [];
    }

    /** `connect`: the client is created before the handshake, so it stays set when the handshake fails. */
    method Connect(handshake: Outcome) returns (o: Outcome)
      modifies this
      ensures client && o == handshake
      ensures logins == old(logins) + [LoginFor(keyFilename, password)] && sent == old(sent)
    {
      client := true;
      logins := logins + [LoginFor(keyFilename, password)];
      o := handshake;
    }

    /**
     * `execute_command(command, wait)`: connects first only when there is
     * no client yet, and a failed handshake propagates; otherwise the
     * command is handed over and the reply describes what it did.
     */
    method ExecuteCommand(command: string, wait: bool, handshake: Outcome, run: Result<Completed>)
      returns (r: Result<ExecReply>)
      modifies this
      ensures client
      ensures logins == old(logins) + (if old(client) then [] else [LoginFor(keyFilename, password)])
      ensures r.Err? <==> !old(client) && handshake.Raised?
      ensures r.Err? ==> r.exc == handshake.exc && sent == old(sent)
      ensures r.Ok? ==> r.value == ExecReplyOf(command, wait, run) && sent == old(sent) + [command]
    {
      if !client {
        var o := Connect(handshake);
        if o.Raised? {
          return Err(o.exc);
        }
      }
      sent := sent + [command];
      r := Ok(ExecReplyOf(command, wait, run));
    }

    /** The loop of `run_direct` that gathers the steps into `all_commands`. */
    method Steps(modules: seq<string>, commands: seq<string>) returns (all: seq<string>)
      ensures all == DirectSteps(modules, workingDir, commands)
    {
      all := [];
      var i := 0;
      while i < |modules|
        invariant 0 <= i <= |modules|
        invariant all == ModuleLoads(modules[..i])
      {
        assert modules[..i + 1][..i] == modules[..i];
        all := all + ["module load " + modules[i]];
        i := i + 1;
      }
      assert modules[..i] == modules;
      all := all + ["cd " + workingDir];
      all := all + commands;
    }

    /**
     * `run_direct(commands, modules, background)`: the chained steps, run
     * and waited for in the foreground, or handed to `nohup` without
     * waiting in the background.
     */
    method RunDirect(commands: seq<string>, modules: seq<string>, background: bool, handshake: Outcome,
                     run: Result<Completed>) returns (r: Result<ExecReply>)
      modifies this
      ensures var full := DirectCommand(DirectSteps(modules, workingDir, commands), remoteDir, background);
        (r.Ok? ==> r.value == ExecReplyOf(full, !background, run) && sent == old(sent) + [full]) &&
        (r.Err? <==> !old(client) && handshake.Raised?)
      ensures logins == old(logins) + (if old(client) then [] else [LoginFor(keyFilename, password)])
    {
      var all := Steps(modules, commands);
      var full := Join(" && ", all);
      if background {
        full := InBackground(full, remoteDir);
      }
      r := ExecuteCommand(full, !background, handshake, run);
    }
  }

  // ---------------------------------------------------------------
  // RemoteSlurmScheduler
  // ---------------------------------------------------------------

  /** `f"cd {remote_dir} && sbatch {script_name}"`. */
  function SbatchIn(remoteDir: string, scriptName: string): string
  {
    "cd " + remoteDir + " && sbatch " + scriptName
  }

  /** What `sftp.chdir` on a session whose SFTP channel was never opened raises. */
  const NoSftp := Exc("AttributeError", "'NoneType' object has no attribute 'chdir'")

  class RemoteSlurm {
    const username: string
    const password: Option<string>
    const keyFilename: Option<string>
    const remoteDir: string
    /** The remote side as the SFTP channel sees it. */
    const sftp: Sftp
    var client: bool
    /** The SFTP channel was opened: the handshake completed. */
    var sftpOpen: bool
    var logins: seq<Login>
    var sent: seq<string>

    /** `remote_dir` falls back to "/home/<username>/slurm_jobs"; nothing is connected yet. */
    constructor(username: string, password: Option<string>, keyFilename: Option<string>, remoteDir: string,
                remote: Sftp)
      ensures this.remoteDir == (if remoteDir != "" then remoteDir else "/home/" + username + "/slurm_jobs")
      ensures this.username == username && this.password == password && this.keyFilename == keyFilename
      ensures sftp == remote && !client && !sftpOpen && logins == [] && sent == []
    {
      this.username := username;
      this.password := password;
      this.keyFilename := keyFilename;
      this.remoteDir := RemoteDirOr(remoteDir, username, "slurm_jobs");
      sftp := remote;
      client := false;
      sftpOpen := false;
      logins := [];
      sent := [];
    }

    /** `connect`: the client first, then the handshake, then the SFTP channel. */
    method Connect(handshake: Outcome) returns (o: Outcome)
      modifies this
      ensures client && o == handshake && sftpOpen == (old(sftpOpen) || handshake.Done?)
      ensures logins == old(logins) + [LoginFor(keyFilename, password)] && sent == old(sent)
    {
      client := true;
      logins := logins + [LoginFor(keyFilename, password)];
      if handshake.Done? {
        sftpOpen := true;
      }
      o := handshake;
    }

    /**
     * `submit_job(script_content, script_name)`: the remote directory is
     * ensured, the script is written to `<remote_dir>/<script_name>`, made
     * executable and submitted with `cd <remote_dir> && sbatch <script_name>`;
     * the reply is the Slurm reply carrying the script path. A failed
     * handshake propagates; any later exception becomes a failed reply.
     */
    method SubmitJob(content: string, scriptName: string, handshake: Outcome, chmod: Outcome,
                     run: Result<Completed>) returns (r: Result<Submission>)
      modifies this, sftp
      ensures r.Err? <==> !old(client) && handshake.Raised?
      ensures logins == old(logins) + (if old(client) then [] else [LoginFor(keyFilename, password)])
      ensures var path := remoteDir + "/" + scriptName;
        var ready := r.Ok? && sftpOpen;
        (r.Ok? && !sftpOpen ==> r.value == SubmitFailed(NoSftp.message) && sent == old(sent) &&
                                sftp.State() == old(sftp.State())) &&
        (ready ==> sftp.State() == EnsureSpec(old(sftp.State()), remoteDir).(files :=
                     EnsureSpec(old(sftp.State()), remoteDir).files[path := content])) &&
        (ready && chmod.Raised? ==> r.value == SubmitFailed(chmod.exc.message) &&
                                    sent == old(sent) + ["chmod +x " + path]) &&
        (ready && chmod.Done? ==> r.value == SubmitReply(run, Some(path)) &&
                                  sent == old(sent) + ["chmod +x " + path, SbatchIn(remoteDir, scriptName)])
      ensures r.Err? ==> sftp.State() == old(sftp.State()) && sent == old(sent)
    {
      if !client {
        var o := Connect(handshake);
        if o.Raised? {
          return Err(o.exc);
        }
      }
      if !sftpOpen {
        return Ok(SubmitFailed(NoSftp.message));
      }
      sftp.EnsureRemoteDir(remoteDir);
      var path := remoteDir + "/" + scriptName;
      sftp.WriteFile(path, content);
      sent := sent + ["chmod +x " + path];
      if chmod.Raised? {
        return Ok(SubmitFailed(chmod.exc.message));
      }
      sent := sent + [SbatchIn(remoteDir, scriptName)];
      r := Ok(SubmitReply(run, Some(path)));
    }
  }

  /**
   * A submission that ran reports success exactly when `sbatch` exited with
   * status 0, and then carries the script path and the last word of the
   * output as job id when the output says "Submitted batch job".
   */
  lemma RemoteSubmitReply(c: Completed, path: string)
    ensures var r := SubmitReply(Ok(c), Some(path));
      r.Submitted? && (r.success <==> c.code == 0) &&
      (r.success ==> r.scriptPath == Some(path) && r.jobId == JobIdOf(Strip(c.stdout))) &&
      (!r.success ==> r.jobId.None? && r.code == Some(c.code) && r.scriptPath.None?)
  {
  }
}
