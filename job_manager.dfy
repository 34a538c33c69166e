// xespresso/job_manager.py: a `RemoteJobManager` that keeps a history of
// submitted jobs and the set of jobs still running, on top of a scheduler
// object. The scheduler is given by what it answers: which optional
// attributes it has, and its replies to the requests numbered 0, 1, 2, …
// The clock and `datetime.now()` are parameters too.

module JobManager {
  import opened PyStr
  import opened PyErr
  import opened PyDict
  import opened Json

  // ---------------------------------------------------------------
  // Construction
  // ---------------------------------------------------------------

  /** The scheduler the constructor builds. */
  datatype Built =
    | SshDirect(remoteDir: string)
    | RemoteSlurm(remoteDir: string)
    | LocalRun

  const RemoteRequired := Exc("ValueError", "hostname and username are required for remote schedulers")

  /**
   * `get_scheduler(kind, job_name=…, working_dir=…)` against the factory's
   * signature `get_scheduler(calc, queue, command)`: the keyword is refused.
   */
  const FactoryRefusal := Exc("TypeError", "get_scheduler() got an unexpected keyword argument 'job_name'")

  /** `remote_dir or f"/home/{username}/xespresso_jobs"`. */
  function RemoteDirOf(remoteDir: Option<string>, username: string): string
  {
    if HasText(remoteDir) then remoteDir.value else "/home/" + username + "/xespresso_jobs"
  }

  /** `_initialize_scheduler`: the scheduler built for the (lower-cased) type, or what is raised. */
  function Initialize(schedulerType: string, hostname: Option<string>, username: Option<string>,
                      remoteDir: Option<string>): Result<Built>
  {
    var kind := Lower(schedulerType);
    if kind == "ssh_direct" || kind == "remote_slurm" then
      if !HasText(hostname) || !HasText(username) then Err(RemoteRequired)
      else if kind == "ssh_direct" then Ok(SshDirect(RemoteDirOf(remoteDir, username.value)))
      else Ok(RemoteSlurm(RemoteDirOf(remoteDir, username.value)))
    else if kind == "local" then Ok(LocalRun)
    else Err(FactoryRefusal)
  }

  /**
   * The two remote types need a hostname and a username; their remote
   * directory defaults to `/home/<user>/xespresso_jobs`; "local" builds the
   * local scheduler; every other type reaches the factory and is refused.
   */
  lemma InitializeCases(schedulerType: string, hostname: Option<string>, username: Option<string>,
                        remoteDir: Option<string>)
    ensures var kind, r := Lower(schedulerType), Initialize(schedulerType, hostname, username, remoteDir);
      (r == Err(RemoteRequired) <==>
         (kind == "ssh_direct" || kind == "remote_slurm") && (!HasText(hostname) || !HasText(username))) &&
      (r.Ok? && r.value.LocalRun? <==> kind == "local") &&
      (r == Err(FactoryRefusal) <==> kind != "ssh_direct" && kind != "remote_slurm" && kind != "local") &&
      (r.Ok? && !r.value.LocalRun? ==>
         (r.value.SshDirect? <==> kind == "ssh_direct") &&
         r.value.remoteDir == (if HasText(remoteDir) then remoteDir.value
                               else "/home/" + username.value + "/xespresso_jobs"))
  {
  }

  // ---------------------------------------------------------------
  // The scheduler and the manager's records
  // ---------------------------------------------------------------

  /** What the manager asks of the scheduler (and its own pauses), in order. */
  datatype Request =
    | UploadFile(localPath: string, remotePath: string)
    | Run(commands: Value, modules: Option<seq<string>>, scriptName: string)
    | CheckStatus(jobId: Value)
    | Sleep(seconds: int)
    | DownloadFile(remotePath: string, localPath: string)
    | CancelJob(cancelId: string)
    | ExecuteCommand(command: string)

  /**
   * The scheduler: the optional attributes it has ("job_name",
   * "upload_file", "download_file", "check_job_status", "cancel_job",
   * "execute_command"), its working directory, and its answer to the n-th
   * request.
   */
  datatype Scheduler = Scheduler(
    attrs: set<string>,
    workingDir: string,
    upload: nat -> Outcome,
    run: nat -> Result<Dict<string, Value>>,
    status: nat -> Dict<string, Value>,
    cancel: nat -> Value,
    execute: nat -> Dict<string, Value>)

  /** A history record; `completion` holds `completion_time` and `final_status` once set. */
  datatype JobInfo = JobInfo(
    jobId: Value,
    jobName: string,
    submissionTime: string,
    commands: Value,
    result: Dict<string, Value>,
    status: Value,
    completion: Option<(string, Dict<string, Value>)>)

  /**
   * The manager's state: the scheduler's `job_name`, `job_history`,
   * `active_jobs`, and the requests made so far.
   */
  datatype MState = MState(
    jobName: string,
    history: seq<JobInfo>,
    active: Dict<Value, JobInfo>,
    asked: nat,
    trace: seq<Request>)

  /** A request to the scheduler, answered by its reply number `s.asked`. */
  function Ask(s: MState, q: Request): (r: MState)
    ensures r.asked == s.asked + 1 && r.trace == s.trace + [q]
    ensures r.jobName == s.jobName && r.history == s.history && r.active == s.active
  {
    s.(asked := s.asked + 1, trace := s.trace + [q])
  }

  // ---------------------------------------------------------------
  // Bookkeeping
  // ---------------------------------------------------------------

  /** Lines 153-164: the record is appended, and enters `active_jobs` when its id is truthy. */
  function Record(s: MState, info: JobInfo): (r: MState)
    ensures r.history == s.history + [info]
    ensures r.jobName == s.jobName && r.asked == s.asked && r.trace == s.trace
  {
    s.(history := s.history + [info],
       active := if Truthy(info.jobId) then Put(s.active, info.jobId, info) else s.active)
  }

  /**
   * Every recorded job adds exactly one history entry; it is active under
   * its id exactly when the id is truthy, and no other key changes.
   */
  lemma RecordKeepsBooks(s: MState, info: JobInfo, k: Value)
    ensures |Record(s, info).history| == |s.history| + 1
    ensures var a := Record(s, info).active;
      (k != info.jobId ==> Get(a, k) == Get(s.active, k)) &&
      (Truthy(info.jobId) ==> Get(a, info.jobId) == Some(info)) &&
      (!Truthy(info.jobId) ==> a == s.active)
  {
    if Truthy(info.jobId) {
      PutGet(s.active, info.jobId, info, k);
      PutGet(s.active, info.jobId, info, info.jobId);
    }
  }

  /** The statuses at which waiting ends. */
  predicate Terminal(st: Dict<string, Value>)
  {
    Get(st, "status") in {Some(VStr("COMPLETED")), Some(VStr("FAILED")), Some(VStr("CANCELLED"))}
  }

  /** `i` is the first history position holding `id`. */
  predicate FirstWith(h: seq<JobInfo>, id: Value, i: nat)
  {
    i < |h| && h[i].jobId == id && forall j :: 0 <= j < i ==> h[j].jobId != id
  }

  function Completed(j: JobInfo, st: Dict<string, Value>, stamp: string): JobInfo
  {
    j.(status := GetOr(st, "status", VNone), completion := Some((stamp, st)))
  }

  /** The loop at lines 277-282: the first entry with the id takes the final status, then the loop stops. */
  function MarkFirst(h: seq<JobInfo>, id: Value, st: Dict<string, Value>, stamp: string): (r: seq<JobInfo>)
    ensures |r| == |h|
  {
    if h == [] then []
    else if h[0].jobId == id then [Completed(h[0], st, stamp)] + h[1..]
    else [h[0]] + MarkFirst(h[1..], id, st, stamp)
  }

  /** Only the first entry with the id changes: it takes the final status and the completion stamp. */
  lemma {:induction false} MarkFirstAt(h: seq<JobInfo>, id: Value, st: Dict<string, Value>, stamp: string, i: nat)
    requires i < |h|
    ensures MarkFirst(h, id, st, stamp)[i] == if FirstWith(h, id, i) then Completed(h[i], st, stamp) else h[i]
  {
    if h[0].jobId != id && i > 0 {
      MarkFirstAt(h[1..], id, st, stamp, i - 1);
      assert FirstWith(h, id, i) <==> FirstWith(h[1..], id, i - 1) by {
        if FirstWith(h[1..], id, i - 1) {
          forall j | 0 <= j < i
            ensures h[j].jobId != id
          {
            if j > 0 {
              assert h[j] == h[1..][j - 1];
            }
          }
        }
      }
    }
  }

  /** Lines 277-285: the history update and the removal from `active_jobs`. */
  function Finish(s: MState, id: Value, st: Dict<string, Value>, stamp: string): MState
  {
    s.(history := MarkFirst(s.history, id, st, stamp), active := Pop(s.active, id))
  }

  // ---------------------------------------------------------------
  // Status, waiting
  // ---------------------------------------------------------------

  /** `get_job_status`: the scheduler's answer, or an "unknown" status without asking. */
  function StatusOf(s: MState, sch: Scheduler, id: Value): (r: (MState, Dict<string, Value>))
    ensures "check_job_status" in sch.attrs ==> r == (Ask(s, CheckStatus(id)), sch.status(s.asked))
    ensures "check_job_status" !in sch.attrs ==> r.0 == s && Get(r.1, "status") == Some(VStr("unknown"))
  {
    if "check_job_status" in sch.attrs then (Ask(s, CheckStatus(id)), sch.status(s.asked))
    else (s, [("status", VStr("unknown")), ("job_id", id)])
  }

  /** How waiting ends: a final status, the timeout, or still waiting when the polls allowed run out. */
  datatype Waited = Finished(status: Dict<string, Value>) | TimedOut(exc: Exc) | StillWaiting

  predicate Bounded(timeout: Option<int>)
  {
    timeout.Some? && timeout.value != 0
  }

  function TimeoutErr(id: Value, t: int): Exc
  {
    Exc("TimeoutError", "Job " + Show(id) + " did not complete within " + IntToString(t) + " seconds")
  }

  /**
   * `wait_for_job` from its `polls`-th poll on: `clock(k)` is the time read
   * after the k-th poll and `start` the time read before the first; at most
   * `fuel` more pauses of 30 seconds.
   */
  function WaitFrom(s: MState, sch: Scheduler, id: Value, timeout: Option<int>, clock: nat -> int,
                    start: int, polls: nat, stamp: string, fuel: nat): (r: (MState, Waited))
    ensures |r.0.history| == |s.history|
    decreases fuel
  {
    var (s1, st) := StatusOf(s, sch, id);
    if Terminal(st) then (Finish(s1, id, st, stamp), Finished(st))
    else if Bounded(timeout) && clock(polls + 1) - start > timeout.value then (s1, TimedOut(TimeoutErr(id, timeout.value)))
    else if fuel == 0 then (s1, StillWaiting)
    else WaitFrom(s1.(trace := s1.trace + [Sleep(30)]), sch, id, timeout, clock, start, polls + 1, stamp, fuel - 1)
  }

  function WaitSpec(s: MState, sch: Scheduler, id: Value, timeout: Option<int>, clock: nat -> int,
                    stamp: string, fuel: nat): (MState, Waited)
  {
    WaitFrom(s, sch, id, timeout, clock, clock(0), 0, stamp, fuel)
  }

  /** `after` extends `before` by status checks and pauses only: never a cancellation. */
  predicate Polled(before: seq<Request>, after: seq<Request>)
  {
    before <= after && forall i :: |before| <= i < |after| ==> after[i].CheckStatus? || after[i] == Sleep(30)
  }

  lemma PolledTrans(a: seq<Request>, b: seq<Request>, c: seq<Request>)
    requires Polled(a, b) && Polled(b, c)
    ensures Polled(a, c)
  {
  }

  /**
   * Waiting ends with a terminal status, which is then in the first history
   * entry with the id and the id no longer active; or it raises
   * TimeoutError, which a timeout of None or 0 never does, and the records
   * are untouched; in every case only polls and pauses were made.
   */
  lemma {:induction false} WaitOutcomes(s: MState, sch: Scheduler, id: Value, timeout: Option<int>, clock: nat -> int,
                                        start: int, polls: nat, stamp: string, fuel: nat)
    ensures var r := WaitFrom(s, sch, id, timeout, clock, start, polls, stamp, fuel);
      Polled(s.trace, r.0.trace) && r.0.jobName == s.jobName
    ensures var r := WaitFrom(s, sch, id, timeout, clock, start, polls, stamp, fuel);
      r.1.Finished? ==>
        Terminal(r.1.status) && r.0.history == MarkFirst(s.history, id, r.1.status, stamp) && r.0.active == Pop(s.active, id)
    ensures var r := WaitFrom(s, sch, id, timeout, clock, start, polls, stamp, fuel);
      !r.1.Finished? ==> r.0.history == s.history && r.0.active == s.active
    ensures var r := WaitFrom(s, sch, id, timeout, clock, start, polls, stamp, fuel);
      r.1.TimedOut? ==> Bounded(timeout) && r.1.exc == TimeoutErr(id, timeout.value)
    decreases fuel
  {
    var s1 := StatusOf(s, sch, id).0;
    assert Polled(s.trace, s1.trace);
    if !Terminal(StatusOf(s, sch, id).1) && !(Bounded(timeout) && clock(polls + 1) - start > timeout.value) && fuel > 0 {
      var s2 := s1.(trace := s1.trace + [Sleep(30)]);
      WaitOutcomes(s2, sch, id, timeout, clock, start, polls + 1, stamp, fuel - 1);
      PolledTrans(s.trace, s2.trace, WaitFrom(s2, sch, id, timeout, clock, start, polls + 1, stamp, fuel - 1).0.trace);
    }
  }

  /** One iteration of the waiting loop, unfolded. */
  lemma WaitStep(s: MState, sch: Scheduler, id: Value, timeout: Option<int>, clock: nat -> int,
                 start: int, polls: nat, stamp: string, fuel: nat)
    requires !Terminal(StatusOf(s, sch, id).1)
    requires !(Bounded(timeout) && clock(polls + 1) - start > timeout.value)
    requires fuel > 0
    ensures var s1 := StatusOf(s, sch, id).0;
      WaitFrom(s, sch, id, timeout, clock, start, polls, stamp, fuel) ==
      WaitFrom(s1.(trace := s1.trace + [Sleep(30)]), sch, id, timeout, clock, start, polls + 1, stamp, fuel - 1)
  {
  }

  /** The polling loop of `wait_for_job`, on the manager's state as a value. */
  method Poll(s: MState, sch: Scheduler, id: Value, timeout: Option<int>, clock: nat -> int, stamp: string, fuel: nat)
    returns (s': MState, w: Waited)
    ensures (s', w) == WaitSpec(s, sch, id, timeout, clock, stamp, fuel)
  {
    var start := clock(0);
    var polls: nat := 0;
    var left := fuel;
    s' := s;
    while true
      invariant WaitSpec(s, sch, id, timeout, clock, stamp, fuel) == WaitFrom(s', sch, id, timeout, clock, start, polls, stamp, left)
      decreases left
    {
      var step := StatusOf(s', sch, id);
      var st := step.1;
      if Terminal(st) {
        return Finish(step.0, id, st, stamp), Finished(st);
      }
      if Bounded(timeout) && clock(polls + 1) - start > timeout.value {
        return step.0, TimedOut(TimeoutErr(id, timeout.value));
      }
      if left == 0 {
        return step.0, StillWaiting;
      }
      WaitStep(s', sch, id, timeout, clock, start, polls, stamp, left);
      s' := step.0.(trace := step.0.trace + [Sleep(30)]);
      polls := polls + 1;
      left := left - 1;
    }
  }

  // ---------------------------------------------------------------
  // File transfers
  // ---------------------------------------------------------------

  /** The remote path of a file: its base name in the scheduler's working directory. */
  function RemotePath(sch: Scheduler, f: string): string
  {
    PathJoin(sch.workingDir, BaseName(f))
  }

  /** `_upload_files`: each existing file is put, in order; a missing one is skipped; a failing put raises. */
  function UploadSpec(s: MState, sch: Scheduler, files: seq<string>, present: set<string>): (r: (MState, Outcome))
    ensures s.trace <= r.0.trace
    ensures r.0.jobName == s.jobName && r.0.history == s.history && r.0.active == s.active
    decreases |files|
  {
    if files == [] then (s, Done)
    else
      var f := files[0];
      var (s1, o) := if f in present then
                       (Ask(s, UploadFile(f, RemotePath(sch, f))), sch.upload(s.asked))
                     else (s, Done);
      if o.Raised? then (s1, o) else UploadSpec(s1, sch, files[1..], present)
  }

  /** `after` extends `before` by uploads of files from the list that exist, each to its remote path. */
  predicate Uploaded(sch: Scheduler, files: seq<string>, present: set<string>, before: seq<Request>, after: seq<Request>)
  {
    before <= after &&
    forall i :: |before| <= i < |after| ==>
      after[i].UploadFile? && after[i].localPath in present && after[i].localPath in files &&
      after[i].remotePath == RemotePath(sch, after[i].localPath)
  }

  /** Whatever happens, only existing files of the list are uploaded. */
  lemma {:induction false} UploadsOnlyExisting(s: MState, sch: Scheduler, files: seq<string>, present: set<string>)
    ensures Uploaded(sch, files, present, s.trace, UploadSpec(s, sch, files, present).0.trace)
    decreases |files|
  {
    if files != [] {
      var f := files[0];
      var s1 := if f in present then Ask(s, UploadFile(f, RemotePath(sch, f))) else s;
      UploadsOnlyExisting(s1, sch, files[1..], present);
      var t := UploadSpec(s1, sch, files[1..], present).0.trace;
      forall i | |s1.trace| <= i < |t|
        ensures t[i].localPath in files
      {
        assert t[i].localPath in files[1..];
      }
    }
  }

  /** The files that exist, in order. */
  function Existing(files: seq<string>, present: set<string>): (r: seq<string>)
    ensures forall f :: f in r <==> f in files && f in present
  {
    if files == [] then [] else (if files[0] in present then [files[0]] else []) + Existing(files[1..], present)
  }

  function Uploads(sch: Scheduler, files: seq<string>): (r: seq<Request>)
    ensures |r| == |files|
  {
    if files == [] then [] else [UploadFile(files[0], RemotePath(sch, files[0]))] + Uploads(sch, files[1..])
  }

  /** When no put raises, exactly the existing files are uploaded, in order, one request each. */
  lemma {:induction false} UploadsAllExisting(s: MState, sch: Scheduler, files: seq<string>, present: set<string>)
    ensures var r := UploadSpec(s, sch, files, present);
      r.1.Done? ==> r.0.trace == s.trace + Uploads(sch, Existing(files, present)) &&
                    r.0.asked == s.asked + |Existing(files, present)|
    decreases |files|
  {
    if files == [] {
      assert s.trace + [] == s.trace;
    } else {
      var f := files[0];
      var rest := Existing(files[1..], present);
      ExistingHead(files, present);
      if f in present {
        var q := UploadFile(f, RemotePath(sch, f));
        var s1 := Ask(s, q);
        if sch.upload(s.asked).Done? {
          assert UploadSpec(s, sch, files, present) == UploadSpec(s1, sch, files[1..], present);
          UploadsAllExisting(s1, sch, files[1..], present);
          UploadsCons(sch, f, rest);
          SnocAssoc(s.trace, q, Uploads(sch, rest));
        }
      } else {
        assert UploadSpec(s, sch, files, present) == UploadSpec(s, sch, files[1..], present);
        UploadsAllExisting(s, sch, files[1..], present);
        assert [] + rest == rest;
      }
    }
  }

  lemma ExistingHead(files: seq<string>, present: set<string>)
    requires files != []
    ensures Existing(files, present) ==
            (if files[0] in present then [files[0]] else []) + Existing(files[1..], present)
  {
  }

  lemma UploadsCons(sch: Scheduler, f: string, rest: seq<string>)
    ensures Uploads(sch, [f] + rest) == [UploadFile(f, RemotePath(sch, f))] + Uploads(sch, rest)
  {
    assert ([f] + rest)[1..] == rest;
  }

  lemma UploadAt(s: MState, sch: Scheduler, files: seq<string>, present: set<string>, i: nat)
    requires i < |files|
    ensures var f := files[i];
      var (s1, o) := if f in present then (Ask(s, UploadFile(f, RemotePath(sch, f))), sch.upload(s.asked)) else (s, Done);
      UploadSpec(s, sch, files[i..], present) ==
        if o.Raised? then (s1, o) else UploadSpec(s1, sch, files[i + 1..], present)
  {
    assert files[i..][1..] == files[i + 1..];
  }

  /** The upload loop. */
  method UploadEach(s: MState, sch: Scheduler, files: seq<string>, present: set<string>) returns (s': MState, o: Outcome)
    ensures (s', o) == UploadSpec(s, sch, files, present)
  {
    s' := s;
    assert files[0..] == files;
    var i := 0;
    while i < |files|
      invariant 0 <= i <= |files|
      invariant UploadSpec(s, sch, files, present) == UploadSpec(s', sch, files[i..], present)
    {
      var f := files[i];
      UploadAt(s', sch, files, present, i);
      if f in present {
        var u := sch.upload(s'.asked);
        s' := Ask(s', UploadFile(f, RemotePath(sch, f)));
        if u.Raised? {
          return s', u;
        }
      }
      i := i + 1;
    }
    o := Done;
  }

  /** `_download_files`: every file is asked for, into `cwd`; a failure is only logged. */
  function Downloads(sch: Scheduler, files: seq<string>, cwd: string): (r: seq<Request>)
    ensures |r| == |files|
  {
    if files == [] then []
    else [DownloadFile(RemotePath(sch, files[0]), PathJoin(cwd, BaseName(files[0])))] + Downloads(sch, files[1..], cwd)
  }

  /** The download loop. */
  method DownloadEach(sch: Scheduler, files: seq<string>, cwd: string) returns (es: seq<Request>)
    ensures es == Downloads(sch, files, cwd)
  {
    es := [];
    assert files[0..] == files;
    var i := 0;
    while i < |files|
      invariant 0 <= i <= |files|
      invariant Downloads(sch, files, cwd) == es + Downloads(sch, files[i..], cwd)
    {
      assert files[i..][1..] == files[i + 1..];
      var d := DownloadFile(RemotePath(sch, files[i]), PathJoin(cwd, BaseName(files[i])));
      assert es + Downloads(sch, files[i..], cwd) == (es + [d]) + Downloads(sch, files[i + 1..], cwd);
      es := es + [d];
      i := i + 1;
    }
    assert es + [] == es;
  }

  // ---------------------------------------------------------------
  // Submission
  // ---------------------------------------------------------------

  /** The arguments of `submit_job`; absent input or output lists are empty. */
  datatype JobRequest = JobRequest(
    commands: Value,
    jobName: Option<string>,
    modules: Option<seq<string>>,
    inputFiles: seq<string>,
    outputFiles: seq<string>,
    scriptName: string,
    waitForCompletion: bool,
    timeout: Option<int>)

  /**
   * What `submit_job` consumes besides the scheduler: the local files that
   * exist, the working directory, the two `datetime.now()` readings, the
   * clock and how many pauses the model follows.
   */
  datatype Env = Env(present: set<string>, cwd: string, submitted: string, completed: string,
                     clock: nat -> int, fuel: nat)

  /** How `submit_job` ends: it returns the record, raises, or is still waiting. */
  datatype Reply = Returned(info: JobInfo) | Failed(exc: Exc) | Blocked

  /** Lines 142-147: the job name and the uploads. */
  function Prepare(s: MState, sch: Scheduler, a: JobRequest, env: Env): (r: (MState, Outcome))
    ensures r.0.history == s.history && r.0.active == s.active
  {
    var s1 := if HasText(a.jobName) && "job_name" in sch.attrs then s.(jobName := a.jobName.value) else s;
    if a.inputFiles != [] && "upload_file" in sch.attrs then UploadSpec(s1, sch, a.inputFiles, env.present)
    else (s1, Done)
  }

  /** Lines 153-160: the record of a submission. */
  function NewRecord(s: MState, sch: Scheduler, a: JobRequest, env: Env, result: Dict<string, Value>): JobInfo
  {
    JobInfo(GetOr(result, "job_id", VNone),
            if HasText(a.jobName) then a.jobName.value else if "job_name" in sch.attrs then s.jobName else "unknown",
            env.submitted, a.commands, result, VStr("submitted"), None)
  }

  /** Lines 166-174: the optional wait and the downloads after a successful one. */
  function Conclude(s: MState, sch: Scheduler, a: JobRequest, env: Env): (r: (MState, Reply))
    requires |s.history| > 0
    ensures |r.0.history| == |s.history|
  {
    var n := |s.history| - 1;
    var info := s.history[n];
    if !(a.waitForCompletion && Truthy(info.jobId)) then (s, Returned(info))
    else
      var (s1, w) := WaitSpec(s, sch, info.jobId, a.timeout, env.clock, env.completed, env.fuel);
      match w
      case TimedOut(e) => (s1, Failed(e))
      case StillWaiting => (s1, Blocked)
      case Finished(st) => (Fetch(s1, sch, a, env, st), Returned(s1.history[n]))
  }

  /** Lines 171-172: the outputs are fetched after a successful job. */
  function Fetch(s: MState, sch: Scheduler, a: JobRequest, env: Env, st: Dict<string, Value>): (r: MState)
    ensures r.history == s.history && r.active == s.active && s.trace <= r.trace
  {
    if a.outputFiles != [] && Truthy(GetOr(st, "success", VBool(false))) && "download_file" in sch.attrs
    then s.(trace := s.trace + Downloads(sch, a.outputFiles, env.cwd)) else s
  }

  /** `submit_job`. */
  function SubmitSpec(s: MState, sch: Scheduler, a: JobRequest, env: Env): (r: (MState, Reply))
  {
    var (s1, o) := Prepare(s, sch, a, env);
    if o.Raised? then (s1, Failed(o.exc))
    else
      var s2 := Ask(s1, Run(a.commands, a.modules, a.scriptName));
      var res := sch.run(s1.asked);
      if res.Err? then (s2, Failed(res.exc))
      else Conclude(Record(s2, NewRecord(s1, sch, a, env, res.value)), sch, a, env)
  }

  /**
   * A submission whose run call returns adds exactly one history record,
   * the returned one when it returns; one that raises before adds none.
   * Without waiting, the record is the last entry, "submitted", and active
   * exactly when its id is truthy.
   */
  lemma SubmitRecords(s: MState, sch: Scheduler, a: JobRequest, env: Env)
    ensures var (s1, o) := Prepare(s, sch, a, env);
      var (r, reply) := SubmitSpec(s, sch, a, env);
      var ran := o.Done? && sch.run(s1.asked).Ok?;
      (ran ==> |r.history| == |s.history| + 1) &&
      (!ran ==> r.history == s.history && r.active == s.active && reply.Failed?) &&
      (reply.Returned? ==> reply.info == r.history[|s.history|]) &&
      (ran && !a.waitForCompletion ==>
         var info := NewRecord(s1, sch, a, env, sch.run(s1.asked).value);
         reply == Returned(info) && r == Record(Ask(s1, Run(a.commands, a.modules, a.scriptName)), info) &&
         info.status == VStr("submitted") && info.jobId == GetOr(sch.run(s1.asked).value, "job_id", VNone))
  {
    var (s1, o) := Prepare(s, sch, a, env);
    if o.Done? && sch.run(s1.asked).Ok? {
      var s2 := Ask(s1, Run(a.commands, a.modules, a.scriptName));
      var info := NewRecord(s1, sch, a, env, sch.run(s1.asked).value);
      var s3 := Record(s2, info);
      assert SubmitSpec(s, sch, a, env) == Conclude(s3, sch, a, env);
      if !a.waitForCompletion {
        assert Conclude(s3, sch, a, env) == (s3, Returned(info));
      }
    }
  }

  /**
   * A submission that waits and sees its job finish leaves the job no
   * longer active; the record it returns shows the final status exactly
   * when no earlier record has the same id (otherwise the earlier one
   * takes it).
   */
  lemma SubmitWaitFinishes(s: MState, sch: Scheduler, a: JobRequest, env: Env)
    ensures var (s1, o) := Prepare(s, sch, a, env);
      var (r, reply) := SubmitSpec(s, sch, a, env);
      o.Done? && sch.run(s1.asked).Ok? && a.waitForCompletion ==>
        var id := GetOr(sch.run(s1.asked).value, "job_id", VNone);
        (!Truthy(id) ==> reply.Returned?) &&
        (Truthy(id) && reply.Returned? ==>
           !HasKey(r.active, id) &&
           (reply.info.completion.Some? <==> forall j :: 0 <= j < |s.history| ==> s.history[j].jobId != id) &&
           (reply.info.completion.Some? ==> Terminal(reply.info.completion.value.1)))
  {
    var (s1, o) := Prepare(s, sch, a, env);
    if o.Done? && sch.run(s1.asked).Ok? && a.waitForCompletion {
      var s2 := Ask(s1, Run(a.commands, a.modules, a.scriptName));
      var info := NewRecord(s1, sch, a, env, sch.run(s1.asked).value);
      var s3 := Record(s2, info);
      ConcludeOutcome(s3, sch, a, env);
      assert s3.history[..|s.history|] == s.history;
    }
  }

  /** The last entry after marking: it is completed exactly when no earlier entry has its id. */
  lemma MarkLast(h: seq<JobInfo>, id: Value, st: Dict<string, Value>, stamp: string)
    requires |h| > 0 && h[|h| - 1].jobId == id && h[|h| - 1].completion.None?
    ensures var n := |h| - 1;
      var e := MarkFirst(h, id, st, stamp)[n];
      (e.completion.Some? <==> forall j :: 0 <= j < n ==> h[..n][j].jobId != id) &&
      (e.completion.Some? ==> e.completion.value.1 == st)
  {
    var n := |h| - 1;
    MarkFirstAt(h, id, st, stamp, n);
    assert forall j :: 0 <= j < n ==> h[..n][j] == h[j];
    assert FirstWith(h, id, n) <==> forall j :: 0 <= j < n ==> h[..n][j].jobId != id;
  }

  /** The wait after recording: see `SubmitWaitFinishes`. */
  lemma ConcludeOutcome(s: MState, sch: Scheduler, a: JobRequest, env: Env)
    requires |s.history| > 0 && s.history[|s.history| - 1].completion.None?
    ensures var n, id := |s.history| - 1, s.history[|s.history| - 1].jobId;
      var (r, reply) := Conclude(s, sch, a, env);
      a.waitForCompletion ==>
        (!Truthy(id) ==> reply.Returned?) &&
        (Truthy(id) && reply.Returned? ==>
           !HasKey(r.active, id) &&
           (reply.info.completion.Some? <==> forall j :: 0 <= j < n ==> s.history[..n][j].jobId != id) &&
           (reply.info.completion.Some? ==> Terminal(reply.info.completion.value.1)))
  {
    var n, id := |s.history| - 1, s.history[|s.history| - 1].jobId;
    if a.waitForCompletion && Truthy(id) {
      var ww := WaitSpec(s, sch, id, a.timeout, env.clock, env.completed, env.fuel);
      WaitOutcomes(s, sch, id, a.timeout, env.clock, env.clock(0), 0, env.completed, env.fuel);
      if ww.1.Finished? {
        assert Conclude(s, sch, a, env) == (Fetch(ww.0, sch, a, env, ww.1.status), Returned(ww.0.history[n]));
        PopGet(s.active, id, id);
        MarkLast(s.history, id, ww.1.status, env.completed);
      }
    }
  }

  // ---------------------------------------------------------------
  // Quantum ESPRESSO jobs
  // ---------------------------------------------------------------

  /** `input_file.replace('.in', '.out')`. */
  function OutputName(inputFile: string): string
  {
    ReplaceAll(inputFile, ".in", ".out")
  }

  /** The command of `submit_espresso_job`. */
  function EspressoCommand(schedulerType: string, inputFile: string, executable: string, mpi: Option<int>): string
  {
    var run := executable + " < " + BaseName(inputFile) + " > " + BaseName(OutputName(inputFile));
    if mpi.Some? && mpi.value != 0 && schedulerType != "ssh_direct" then "mpirun -np " + IntToString(mpi.value) + " " + run
    else run
  }

  /**
   * The command is the executable reading the input and writing the output,
   * prefixed by `mpirun -np <n>` exactly when a non-zero process count is
   * given and the type is not "ssh_direct".
   */
  lemma EspressoCommandCases(schedulerType: string, inputFile: string, executable: string, mpi: Option<int>)
    ensures var run := executable + " < " + BaseName(inputFile) + " > " + BaseName(OutputName(inputFile));
      var cmd := EspressoCommand(schedulerType, inputFile, executable, mpi);
      EndsWith(cmd, run) &&
      (cmd == run <==> !(mpi.Some? && mpi.value != 0 && schedulerType != "ssh_direct")) &&
      (cmd != run ==> cmd == "mpirun -np " + IntToString(mpi.value) + " " + run)
  {
    var run := executable + " < " + BaseName(inputFile) + " > " + BaseName(OutputName(inputFile));
    EndsWithConcat("mpirun -np " + IntToString(if mpi.Some? then mpi.value else 0) + " ", run);
  }

  lemma FindInExtension(p: string)
    requires !Contains(p, ".in")
    ensures Find(p + ".in", ".in") == |p|
  {
    var s := p + ".in";
    assert OccursAt(s, ".in", |p|) by {
      assert s[|p|..|p| + 3] == ".in";
    }
    FindFirst(s, ".in", |p|);
    ContainsIff(p, ".in");
    forall j | 0 <= j < |p|
      ensures !OccursAt(s, ".in", j)
    {
      if j + 3 <= |p| {
        assert s[j..j + 3] == p[j..j + 3];
        assert !OccursAt(p, ".in", j);
      } else {
        var k := |p| - j;
        assert s[j..j + 3][k] == '.';
        assert ".in"[k] != '.';
      }
    }
  }

  /** An input `<p>.in` with no other ".in" in it writes `<p>.out`. */
  lemma OutputOfInput(p: string)
    requires !Contains(p, ".in")
    ensures OutputName(p + ".in") == p + ".out"
  {
    var s := p + ".in";
    FindInExtension(p);
    assert s[..|p|] == p;
    assert s[|p| + 3..] == "";
    ReplaceCountAbsent("", ".in", ".out", 0);
  }

  const DefaultModules := ["quantum-espresso"]

  /** The `submit_job` call of `submit_espresso_job`; `rest` carries the remaining keyword arguments. */
  function EspressoRequest(schedulerType: string, inputFile: string, executable: string,
                           modules: Option<seq<string>>, mpi: Option<int>, rest: JobRequest): (r: JobRequest)
    ensures r.commands == VList([VStr(EspressoCommand(schedulerType, inputFile, executable, mpi))])
    ensures r.modules == Some(if modules.None? then DefaultModules else modules.value)
    ensures r.inputFiles == [inputFile] && r.outputFiles == [OutputName(inputFile)]
    ensures r.jobName == rest.jobName && r.scriptName == rest.scriptName &&
            r.waitForCompletion == rest.waitForCompletion && r.timeout == rest.timeout
  {
    rest.(commands := VList([VStr(EspressoCommand(schedulerType, inputFile, executable, mpi))]),
          modules := Some(if modules.None? then DefaultModules else modules.value),
          inputFiles := [inputFile], outputFiles := [OutputName(inputFile)])
  }

  // ---------------------------------------------------------------
  // Cancellation, listing
  // ---------------------------------------------------------------

  /** `cancel_job`: the scheduler's own cancel, else scancel or qdel by type, else False. */
  function CancelSpec(s: MState, sch: Scheduler, schedulerType: string, id: string): (r: (MState, Result<Value>))
  {
    if "cancel_job" in sch.attrs then (Ask(s, CancelJob(id)), Ok(sch.cancel(s.asked)))
    else if schedulerType in {"slurm", "remote_slurm", "pbs"} then
      var cmd := if schedulerType == "pbs" then "qdel " + id else "scancel " + id;
      if "execute_command" !in sch.attrs then (s, Err(Exc("AttributeError", "'Scheduler' object has no attribute 'execute_command'")))
      else
        var res := sch.execute(s.asked);
        (Ask(s, ExecuteCommand(cmd)),
         if HasKey(res, "success") then Ok(Get(res, "success").value) else Err(Exc("KeyError", "'success'")))
    else (s, Ok(VBool(false)))
  }

  /**
   * At most one request is made: the scheduler's cancel when it has one,
   * else `scancel <id>` for the Slurm types or `qdel <id>` for PBS; any
   * other type answers False without asking; the records never change.
   */
  lemma CancelCases(s: MState, sch: Scheduler, schedulerType: string, id: string)
    ensures var (r, res) := CancelSpec(s, sch, schedulerType, id);
      r.history == s.history && r.active == s.active && r.jobName == s.jobName &&
      ("cancel_job" in sch.attrs ==> r.trace == s.trace + [CancelJob(id)] && res == Ok(sch.cancel(s.asked))) &&
      ("cancel_job" !in sch.attrs && "execute_command" in sch.attrs ==>
         (schedulerType in {"slurm", "remote_slurm"} ==> r.trace == s.trace + [ExecuteCommand("scancel " + id)]) &&
         (schedulerType == "pbs" ==> r.trace == s.trace + [ExecuteCommand("qdel " + id)])) &&
      ("cancel_job" !in sch.attrs && schedulerType !in {"slurm", "remote_slurm", "pbs"} ==>
         r == s && res == Ok(VBool(false)))
  {
  }

  /** `list_jobs(status)`: the entries with that status in history order; all of them without a status. */
  function JobsWith(h: seq<JobInfo>, status: Option<string>): (r: seq<JobInfo>)
    ensures !HasText(status) ==> r == h
    ensures |r| <= |h|
  {
    if !HasText(status) || h == [] then h
    else (if h[0].status == VStr(status.value) then [h[0]] else []) + JobsWith(h[1..], status)
  }

  /** With a status, exactly the entries with that status are listed. */
  lemma {:induction false} JobsWithMembers(h: seq<JobInfo>, status: string, j: JobInfo)
    requires status != ""
    ensures j in JobsWith(h, Some(status)) <==> j in h && j.status == VStr(status)
  {
    if h != [] {
      JobsWithMembers(h[1..], status, j);
      assert h == [h[0]] + h[1..];
    }
  }

  /** The filter keeps history order: it distributes over appending records. */
  lemma {:induction false} JobsWithAppend(h: seq<JobInfo>, more: seq<JobInfo>, status: Option<string>)
    ensures JobsWith(h + more, status) == JobsWith(h, status) + JobsWith(more, status)
  {
    if HasText(status) {
      if h == [] {
        assert h + more == more;
      } else {
        var head := if h[0].status == VStr(status.value) then [h[0]] else [];
        assert (h + more)[0] == h[0];
        assert (h + more)[1..] == h[1..] + more;
        JobsWithAppend(h[1..], more, status);
        assert JobsWith(h + more, status) == head + JobsWith(h[1..] + more, status);
        assert head + (JobsWith(h[1..], status) + JobsWith(more, status)) == (head + JobsWith(h[1..], status)) + JobsWith(more, status);
      }
    }
  }

  /** Right after it is recorded, a job is listed last among the "submitted" ones. */
  lemma ListedAfterRecord(s: MState, info: JobInfo)
    requires info.status == VStr("submitted")
    ensures JobsWith(Record(s, info).history, Some("submitted")) == JobsWith(s.history, Some("submitted")) + [info]
  {
    JobsWithAppend(s.history, [info], Some("submitted"));
    assert [info][1..] == [];
  }

  // ---------------------------------------------------------------
  // The manager object
  // ---------------------------------------------------------------

  class Manager {
    /** The lower-cased scheduler type. */
    const schedulerType: string
    const sch: Scheduler
    var jobName: string
    var history: seq<JobInfo>
    var active: Dict<Value, JobInfo>
    var asked: nat
    var trace: seq<Request>

    function State(): MState
      reads this
    {
      MState(jobName, history, active, asked, trace)
    }

    /** A manager whose scheduler was built at time `now`, with no job yet. */
    constructor(kind: string, s: Scheduler, now: int)
      ensures schedulerType == kind && sch == s
      ensures State() == MState("xespresso_job_" + IntToString(now), [], [], 0, [])
    {
      schedulerType := kind;
      sch := s;
      jobName := "xespresso_job_" + IntToString(now);
      history := [];
      active := [];
      asked := 0;
      trace := [];
    }

    method SetState(t: MState)
      modifies this
      ensures State() == t
    {
      jobName, history, active, asked, trace := t.jobName, t.history, t.active, t.asked, t.trace;
    }

    /** `wait_for_job`. */
    method WaitForJob(id: Value, timeout: Option<int>, clock: nat -> int, stamp: string, fuel: nat) returns (w: Waited)
      modifies this
      ensures (State(), w) == WaitSpec(old(State()), sch, id, timeout, clock, stamp, fuel)
    {
      var t;
      t, w := Poll(State(), sch, id, timeout, clock, stamp, fuel);
      SetState(t);
    }

    /** Lines 142-147: the job name and the uploads. */
    method PrepareJob(a: JobRequest, env: Env) returns (o: Outcome)
      modifies this
      ensures (State(), o) == Prepare(old(State()), sch, a, env)
    {
      if HasText(a.jobName) && "job_name" in sch.attrs {
        jobName := a.jobName.value;
      }
      o := Done;
      if a.inputFiles != [] && "upload_file" in sch.attrs {
        var t;
        t, o := UploadEach(State(), sch, a.inputFiles, env.present);
        SetState(t);
      }
    }

    /** Lines 162-164: the history grows by the record, and `active_jobs` takes it when its id is truthy. */
    method RecordJob(info: JobInfo)
      modifies this
      ensures State() == Record(old(State()), info)
    {
      history := history + [info];
      if Truthy(info.jobId) {
        active := Put(active, info.jobId, info);
      }
    }

    /** Lines 166-174. */
    method ConcludeJob(a: JobRequest, env: Env) returns (reply: Reply)
      requires |history| > 0
      modifies this
      ensures (State(), reply) == Conclude(old(State()), sch, a, env)
    {
      var n := |history| - 1;
      var info := history[n];
      if !(a.waitForCompletion && Truthy(info.jobId)) {
        return Returned(info);
      }
      var w := WaitForJob(info.jobId, a.timeout, env.clock, env.completed, env.fuel);
      match w {
        case TimedOut(e) =>
          reply := Failed(e);
        case StillWaiting =>
          reply := Blocked;
        case Finished(st) =>
          reply := Returned(history[n]);
          if a.outputFiles != [] && Truthy(GetOr(st, "success", VBool(false))) && "download_file" in sch.attrs {
            var es := DownloadEach(sch, a.outputFiles, env.cwd);
            trace := trace + es;
          }
      }
    }

    /** `submit_job`. */
    method SubmitJob(a: JobRequest, env: Env) returns (reply: Reply)
      modifies this
      ensures (State(), reply) == SubmitSpec(old(State()), sch, a, env)
    {
      var o := PrepareJob(a, env);
      if o.Raised? {
        return Failed(o.exc);
      }
      var before := State();
      var n := asked;
      asked, trace := asked + 1, trace + [Run(a.commands, a.modules, a.scriptName)];
      var res := sch.run(n);
      if res.Err? {
        return Failed(res.exc);
      }
      RecordJob(NewRecord(before, sch, a, env, res.value));
      reply := ConcludeJob(a, env);
    }

    /** `submit_espresso_job`. */
    method SubmitEspressoJob(inputFile: string, executable: string, modules: Option<seq<string>>, mpi: Option<int>,
                             rest: JobRequest, env: Env) returns (reply: Reply)
      modifies this
      ensures (State(), reply) == SubmitSpec(old(State()), sch, EspressoRequest(schedulerType, inputFile, executable, modules, mpi, rest), env)
    {
      var outputFile := ReplaceAll(inputFile, ".in", ".out");
      var command := executable + " < " + BaseName(inputFile) + " > " + BaseName(outputFile);
      if mpi.Some? && mpi.value != 0 && schedulerType != "ssh_direct" {
        command := "mpirun -np " + IntToString(mpi.value) + " " + command;
      }
      var mods := if modules.None? then DefaultModules else modules.value;
      reply := SubmitJob(rest.(commands := VList([VStr(command)]), modules := Some(mods),
                               inputFiles := [inputFile], outputFiles := [outputFile]), env);
    }

    /** `cancel_job`. */
    method Cancel(id: string) returns (r: Result<Value>)
      modifies this
      ensures (State(), r) == CancelSpec(old(State()), sch, schedulerType, id)
    {
      if "cancel_job" in sch.attrs {
        r := Ok(sch.cancel(asked));
        asked, trace := asked + 1, trace + [CancelJob(id)];
        return;
      }
      if schedulerType in {"slurm", "remote_slurm", "pbs"} {
        var cmd := if schedulerType == "pbs" then "qdel " + id else "scancel " + id;
        if "execute_command" !in sch.attrs {
          return Err(Exc("AttributeError", "'Scheduler' object has no attribute 'execute_command'"));
        }
        var res := sch.execute(asked);
        asked, trace := asked + 1, trace + [ExecuteCommand(cmd)];
        if HasKey(res, "success") {
          return Ok(Get(res, "success").value);
        }
        return Err(Exc("KeyError", "'success'"));
      }
      r := Ok(VBool(false));
    }

    /** `list_jobs`. */
    method ListJobs(status: Option<string>) returns (r: seq<JobInfo>)
      ensures r == JobsWith(history, status)
    {
      r := JobsWith(history, status);
    }
  }
}
