// xespresso/remote_job_manager-old.py: the first remote job manager. Its
// constructor is the one of xespresso/old-remote_job_manager.py; `submit`
// always makes a new `<base>/job_<stamp>` directory, keeps no record, and
// submits with sbatch whenever sbatch exists, whether or not the job file
// is there.

module OldestJobs {
  import opened PyStr
  import opened PyErr
  import opened JobDirs
  import opened SshSteps
  import OldJobs

  /** The prefix `submit` uses when none is given. */
  const DefaultPrefix := "test.pwi"

  /** The arguments of `submit`, with the clock reading it consumes. */
  datatype Submission = Submission(localDir: string, jobFile: string, prefix: string, stamp: string)

  /** The run command: sbatch when sbatch exists, else bash when the local listing holds the job file, else pw.x. */
  function Command(slurmPath: string, listing: seq<string>, rd: string, jobFile: string, prefix: string): string
  {
    if slurmPath != "" then Sbatch(rd, jobFile)
    else if jobFile in listing then Bash(rd, jobFile)
    else PwX(rd, prefix)
  }

  /**
   * Each command is chosen exactly in its own case; in particular sbatch is
   * used whenever it exists, even for a job file that is not in the listing.
   */
  lemma CommandCases(slurmPath: string, listing: seq<string>, rd: string, jobFile: string, prefix: string)
    ensures var cmd := Command(slurmPath, listing, rd, jobFile, prefix);
      (cmd == Sbatch(rd, jobFile) <==> slurmPath != "") &&
      (cmd == Bash(rd, jobFile) <==> slurmPath == "" && jobFile in listing) &&
      (cmd == PwX(rd, prefix) <==> slurmPath == "" && jobFile !in listing)
  {
    CommandsDiffer(rd, jobFile, prefix);
  }

  lemma DefaultHasOneExtension()
    ensures !Contains("test", ".pwi")
  {
    assert FindFrom("test", ".pwi", 1) == -1;
    assert "test"[0..4] != ".pwi" by {
      assert "test"[0..4][0] == 't';
    }
  }

  /** The default prefix's output is test.pwo. */
  lemma DefaultOutput()
    ensures ReplaceAll(DefaultPrefix, ".pwi", ".pwo") == "test.pwo"
  {
    DefaultHasOneExtension();
    FindExtension("test");
    assert "test" + ".pwi" == DefaultPrefix;
    assert DefaultPrefix[..4] == "test";
    assert DefaultPrefix[8..] == "";
    ReplaceCountAbsent("", ".pwi", ".pwo", 0);
  }

  /** With the default prefix, no sbatch and no job file, pw.x reads test.pwi and writes test.pwo. */
  lemma DefaultRun(listing: seq<string>, rd: string, jobFile: string)
    requires jobFile !in listing
    ensures Command("", listing, rd, jobFile, DefaultPrefix) == "cd " + rd + " && pw.x < " + "test.pwi" + " > " + "test.pwo"
  {
    DefaultOutput();
  }

  /** The remote directory: always new, `<base>/job_<stamp>`. */
  function RemoteDir(c: OldJobs.Config, a: Submission): string
  {
    c.remoteBase + "/job_" + a.stamp
  }

  /**
   * `submit`: one client makes the directory, uploads every entry of the
   * local listing, looks for sbatch, runs the chosen command and is
   * closed; a failing step raises there and then, leaving it open.
   */
  function SubmitSpec(c: OldJobs.Config, w: Wire, disk: Disk, a: Submission, h: Host): (r: (Wire, Outcome))
    ensures w.trace <= r.0.trace
  {
    var rd := RemoteDir(c, a);
    var (w1, o) := Dial(w, true, h);
    if o.Raised? then (w1, o)
    else
      var (w2, m) := Send(w1, "mkdir -p " + rd, h);
      if m.Err? then (w2, Raised(m.exc))
      else
        var w3 := Note(w2, OpenSftp);
        if h.openSftp.Raised? then (w3, h.openSftp)
        else if disk.entries.None? then (w3, Raised(NoDir(a.localDir)))
        else
          var (es, u) := PutAll(OldJobs.Pairs(a.localDir, rd, disk.entries.value), h);
          if u.Raised? then (w3.(trace := w3.trace + es), u)
          else Launch(Note(w3.(trace := w3.trace + es), CloseSftp), disk.entries.value, rd, a, h)
  }

  /** After the uploads: sbatch is looked for, and the chosen command run; the client is closed after it. */
  function Launch(w: Wire, listing: seq<string>, rd: string, a: Submission, h: Host): (r: (Wire, Outcome))
    ensures w.trace <= r.0.trace
  {
    var (w1, sp) := Send(w, "command -v sbatch", h);
    if sp.Err? then (w1, Raised(sp.exc))
    else
      var (w2, out) := Send(w1, Command(Strip(sp.value.0), listing, rd, a.jobFile, a.prefix), h);
      if out.Err? then (w2, Raised(out.exc)) else (Note(w2, Disconnect), Done)
  }

  /**
   * A submission that succeeds has made, in order: one login, the
   * directory, the channel, one upload per entry of the listing, the
   * channel's close, the sbatch lookup, the run command and the close.
   */
  lemma SubmitRequests(c: OldJobs.Config, w: Wire, disk: Disk, a: Submission, h: Host)
    ensures var (w1, o) := SubmitSpec(c, w, disk, a, h);
      var rd := RemoteDir(c, a);
      o.Done? ==>
        disk.entries.Some? &&
        exists cmd :: w1.trace == w.trace + [Login(true), Exec("mkdir -p " + rd), OpenSftp] +
                      Transfers(OldJobs.Pairs(a.localDir, rd, disk.entries.value)) +
                      [CloseSftp, Exec("command -v sbatch"), Exec(cmd), Disconnect] &&
                      cmd in {Sbatch(rd, a.jobFile), Bash(rd, a.jobFile), PwX(rd, a.prefix)}
  {
    var (w1, o) := SubmitSpec(c, w, disk, a, h);
    if o.Done? {
      var rd := RemoteDir(c, a);
      var pairs := OldJobs.Pairs(a.localDir, rd, disk.entries.value);
      PutAllSends(pairs, h);
      var w3 := Note(Send(Dial(w, true, h).0, "mkdir -p " + rd, h).0, OpenSftp);
      var w4 := Note(w3.(trace := w3.trace + Transfers(pairs)), CloseSftp);
      var sp := h.exec(w4.commands, "command -v sbatch");
      var cmd := Command(Strip(sp.value.0), disk.entries.value, rd, a.jobFile, a.prefix);
      assert w1.trace == w4.trace + [Exec("command -v sbatch"), Exec(cmd), Disconnect];
    }
  }

  /** `submit`, step by step. */
  method Submit(c: OldJobs.Config, w: Wire, disk: Disk, a: Submission, h: Host) returns (w': Wire, o: Outcome)
    ensures (w', o) == SubmitSpec(c, w, disk, a, h)
  {
    var remoteDir := c.remoteBase + "/job_" + a.stamp;
    var login := Dial(w, true, h);
    w', o := login.0, login.1;
    if o.Raised? {
      return;
    }
    var made := Send(w', "mkdir -p " + remoteDir, h);
    w' := made.0;
    if made.1.Err? {
      return w', Raised(made.1.exc);
    }
    w' := Note(w', OpenSftp);
    if h.openSftp.Raised? {
      return w', h.openSftp;
    }
    if disk.entries.None? {
      return w', Raised(NoDir(a.localDir));
    }
    var es, u := PutEach(OldJobs.Pairs(a.localDir, remoteDir, disk.entries.value), h);
    w' := w'.(trace := w'.trace + es);
    if u.Raised? {
      return w', u;
    }
    w' := Note(w', CloseSftp);
    var lookup := Send(w', "command -v sbatch", h);
    w' := lookup.0;
    if lookup.1.Err? {
      return w', Raised(lookup.1.exc);
    }
    var slurmPath := Strip(lookup.1.value.0);
    var execCmd;
    if slurmPath != "" {
      execCmd := Sbatch(remoteDir, a.jobFile);
    } else if a.jobFile in disk.entries.value {
      execCmd := Bash(remoteDir, a.jobFile);
    } else {
      execCmd := PwX(remoteDir, a.prefix);
    }
    var ran := Send(w', execCmd, h);
    w' := ran.0;
    if ran.1.Err? {
      return w', Raised(ran.1.exc);
    }
    w', o := Note(w', Disconnect), Done;
  }
}
