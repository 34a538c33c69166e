// The earlier `set_queue` front end: every PACKAGE is replaced (no "pw"
// special case), an exact "slurm" kind is checked for availability first,
// construction failures are re-raised as ValueError, and the calculator's
// ASE profile, when it has one, receives the same command.

module OldSchedulerQueue {
  import opened PyStr
  import opened PyDict
  import opened Json
  import opened PyErr
  import opened FileSys
  import opened JobText
  import opened Placeholders
  import opened Espresso
  import opened SchedBase
  import opened BashScheduler
  import opened Factory
  import opened SchedulerQueue

  /** The resolution of this front end: PACKAGE everywhere, then PREFIX, then PARALLEL. */
  function ResolveAll(command: string, package: string, prefix: string, parallel: string): string
  {
    SubstParallel(SubstPrefix(SubstPackageAll(command, package), prefix), parallel)
  }

  /** For a package name without "pw" the two resolutions agree. */
  lemma ResolveAllAgrees(command: string, package: string, prefix: string, parallel: string)
    requires !Contains(package, "pw")
    ensures ResolveAll(command, package, prefix, parallel) == Resolve(command, package, prefix, parallel)
  {
    if !Contains(command, PACKAGE) {
      ReplaceCountAbsent(command, PACKAGE, package, 0);
    }
  }

  /** Reaching `calc.profile` on a calculator that has no profile. */
  const NoProfile := Exc("AttributeError", "'Espresso' object has no attribute 'profile'")

  /** The outcome once the command is set: the debug print of `calc.profile.command` raises without a profile. */
  function Finish(hasProfile: bool): (r: Outcome)
    ensures r.Done? <==> hasProfile
  {
    if hasProfile then Done else Raised(NoProfile)
  }

  /** `RuntimeError(f"SLURM scheduler is not available: {e}")`. */
  function SlurmUnavailable(message: string): Exc
  {
    Exc("RuntimeError", "SLURM scheduler is not available: " + message)
  }

  /** `ValueError(f"Failed to initialize scheduler '{queue.get('scheduler')}': {e}")`. */
  function InitFailed(q: Queue, e: Exc): Exc
  {
    Exc("ValueError", "Failed to initialize scheduler '" + Show(GetOr(q, "scheduler", VNone)) + "': " + e.message)
  }

  /**
   * What `set_queue` does after the write-back, for the resolved command;
   * `slurmCheck` is what `check_slurm_available()` raises (None when it
   * returns). A set command also goes to the profile when there is one.
   */
  function OldDispatchEffect(resolved: string, q: Option<Queue>, hasProfile: bool, directory: string,
                             files: map<string, string>, home: string, slurmCheck: Option<string>): Effect
  {
    if !QueueSet(q) || !HasKey(q.value, "scheduler") then Effect(Finish(hasProfile), Some(resolved), None)
    else if Get(q.value, "scheduler") == Some(VStr("slurm")) && slurmCheck.Some? then
      Effect(Raised(SlurmUnavailable(slurmCheck.value)), None, None)
    else match Construct(q.value, resolved, directory, files, home)
      case Err(e) => Effect(Raised(InitFailed(q.value, e)), None, None)
      case Ok(s) => ScriptEffect(s, Finish(hasProfile))
  }

  /** Without a scheduler entry the command is set and nothing is written, even when the missing profile then raises. */
  lemma OldNoScheduler(resolved: string, q: Option<Queue>, hasProfile: bool, directory: string,
                       files: map<string, string>, home: string, slurmCheck: Option<string>)
    requires !QueueSet(q) || !HasKey(q.value, "scheduler")
    ensures var e := OldDispatchEffect(resolved, q, hasProfile, directory, files, home, slurmCheck);
      e.command == Some(resolved) && e.write.None? && (e.outcome.Done? <==> hasProfile)
  {
  }

  /**
   * Every failure before the script is written is a RuntimeError or a
   * ValueError and leaves the command and the files alone.
   */
  lemma OldFailures(resolved: string, q: Option<Queue>, hasProfile: bool, directory: string,
                    files: map<string, string>, home: string, slurmCheck: Option<string>)
    requires QueueSet(q) && HasKey(q.value, "scheduler")
    ensures var e := OldDispatchEffect(resolved, q, hasProfile, directory, files, home, slurmCheck);
      e.write.None? ==>
        e.outcome.Raised? && e.command.None? &&
        (e.outcome.exc.kind == "RuntimeError" || e.outcome.exc.kind == "ValueError")
  {
  }

  /** A failed join of the script lines is a TypeError, not wrapped, raised after the (empty) file is written. */
  lemma OldJoinFailure(resolved: string, q: Option<Queue>, hasProfile: bool, directory: string,
                       files: map<string, string>, home: string, slurmCheck: Option<string>)
    requires QueueSet(q) && HasKey(q.value, "scheduler")
    ensures var e := OldDispatchEffect(resolved, q, hasProfile, directory, files, home, slurmCheck);
      e.write.Some? && e.command.None? ==> e.outcome.Raised? && e.outcome.exc.kind == "TypeError"
  {
    var c := Construct(q.value, resolved, directory, files, home);
    if c.Ok? && ScriptText(c.value).Err? {
      ScriptTextOk(c.value);
      assert !JoinLines("\n", BashLines(c.value)).Ok?;
    }
  }

  /** The availability check applies to the exact string "slurm" only: "SLURM" goes straight to the factory. */
  lemma SlurmCheckExact(resolved: string, q: Queue, hasProfile: bool, directory: string,
                        files: map<string, string>, home: string, msg: string)
    requires q != [] && Get(q, "scheduler") == Some(VStr("SLURM"))
    ensures OldDispatchEffect(resolved, Some(q), hasProfile, directory, files, home, Some(msg)) ==
            OldDispatchEffect(resolved, Some(q), hasProfile, directory, files, home, None)
  {
  }

  /** The `or` defaults and the substitution steps of lines 34-46. */
  method ResolveArguments(command: Option<string>, env: Option<string>, package: Option<string>,
                          calcPackage: string, prefix: string, parallel: Option<string>, calcParallel: string)
    returns (c: string)
    ensures c == ResolveAll(CommandOr(command, env), StrOr(package, calcPackage), prefix, StrOr(parallel, calcParallel))
  {
    var p := if package.Some? && package.value != "" then package.value else calcPackage;
    var par := if parallel.Some? && parallel.value != "" then parallel.value else calcParallel;
    c := if command.Some? && command.value != "" then command.value
         else if env.Some? then env.value else "";
    if Contains(c, PACKAGE) {
      c := ReplaceAll(c, PACKAGE, p);
    }
    if Contains(c, PREFIX) {
      c := ReplaceAll(c, PREFIX, prefix);
    }
    if Contains(c, PARALLEL) {
      c := ReplaceAll(c, PARALLEL, par);
    }
    if !Contains(CommandOr(command, env), PACKAGE) {
      ReplaceCountAbsent(CommandOr(command, env), PACKAGE, p, 0);
    }
  }

  /**
   * `set_queue`: `queue or calc.queue` is written back, the command is
   * resolved from the `or` defaults, and the dispatch sets the command and
   * the profile's command.
   */
  method SetQueue(calculator: Calc, package: Option<string>, parallel: Option<string>, queue: Option<Queue>,
                  command: Option<string>, env: Option<string>, home: string, fs: FileStore,
                  slurmCheck: Option<string>)
    returns (outcome: Outcome)
    modifies calculator, fs
    ensures calculator.queue == QueueOr(queue, old(calculator.queue))
    ensures KeepsLabel(calculator) && calculator.package == old(calculator.package)
    ensures calculator.parallel == old(calculator.parallel)
    ensures var e := OldDispatchEffect(ResolveAll(CommandOr(command, env), StrOr(package, old(calculator.package)),
                                                  old(calculator.prefix), StrOr(parallel, old(calculator.parallel))),
                                       calculator.queue, old(calculator.hasProfile), old(calculator.directory),
                                       old(fs.files), home, slurmCheck);
      outcome == e.outcome &&
      calculator.command == (if e.command.Some? then e.command.value else old(calculator.command)) &&
      calculator.profileCommand ==
        (if e.command.Some? && old(calculator.hasProfile) then e.command.value else old(calculator.profileCommand)) &&
      fs.files == ApplyWrite(old(fs.files), e.write)
  {
    var c := ResolveArguments(command, env, package, calculator.package, calculator.prefix,
                              parallel, calculator.parallel);
    var q := if QueueSet(queue) then queue else calculator.queue;
    calculator.queue := q;
    outcome := Dispatch(calculator, q, c, home, fs, slurmCheck);
  }

  /** Lines 52-83: the direct command, or the availability check, the construction, the script and the submit command. */
  method Dispatch(calculator: Calc, q: Option<Queue>, resolved: string, home: string, fs: FileStore,
                  slurmCheck: Option<string>)
    returns (outcome: Outcome)
    modifies calculator, fs
    ensures KeepsLabel(calculator) && calculator.queue == old(calculator.queue)
    ensures calculator.package == old(calculator.package) && calculator.parallel == old(calculator.parallel)
    ensures var e := OldDispatchEffect(resolved, q, calculator.hasProfile, calculator.directory, old(fs.files),
                                       home, slurmCheck);
      outcome == e.outcome &&
      calculator.command == (if e.command.Some? then e.command.value else old(calculator.command)) &&
      calculator.profileCommand ==
        (if e.command.Some? && calculator.hasProfile then e.command.value else old(calculator.profileCommand)) &&
      fs.files == ApplyWrite(old(fs.files), e.write)
  {
    if !QueueSet(q) || !HasKey(q.value, "scheduler") {
      calculator.command := resolved;
      if calculator.hasProfile {
        calculator.profileCommand := resolved;
      }
      return Finish(calculator.hasProfile);
    }
    if Get(q.value, "scheduler") == Some(VStr("slurm")) && slurmCheck.Some? {
      return Raised(SlurmUnavailable(slurmCheck.value));
    }
    var s := GetSchedulerInstance(q.value, resolved, calculator.directory, fs.files, home);
    if s.Err? {
      return Raised(InitFailed(q.value, s.exc));
    }
    var submit;
    outcome, submit := WriteAndSubmit(s.value, fs);
    if submit.Some? {
      calculator.command := submit.value;
      if calculator.hasProfile {
        calculator.profileCommand := calculator.command;
      }
      outcome := Finish(calculator.hasProfile);
    }
  }
}
