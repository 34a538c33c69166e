// `set_queue(calc, package, parallel, queue, command)` of the scheduler
// front end: falsy arguments fall back to the calculator's values, the
// placeholders are resolved, and a queue with a "scheduler" entry hands the
// job over to the scheduler class the factory chooses.

module SchedulerQueue {
  import opened PyStr
  import opened PyDict
  import opened Json
  import opened PyErr
  import opened FileSys
  import opened JobText
  import opened Placeholders
  import opened Espresso
  import opened SchedBase
  import opened BashScheduler
  import opened Factory

  /** Python's `x or fallback` for an optional queue. */
  function QueueOr(queue: Option<Queue>, fallback: Option<Queue>): (r: Option<Queue>)
    ensures QueueSet(queue) ==> r == queue
    ensures !QueueSet(queue) ==> r == fallback
  {
    if QueueSet(queue) then queue else fallback
  }

  /** Python's `x or fallback` for an optional string. */
  function StrOr(x: Option<string>, fallback: string): (r: string)
    ensures x.Some? && x.value != "" ==> r == x.value
    ensures x.None? || x.value == "" ==> r == fallback
  {
    if x.Some? && x.value != "" then x.value else fallback
  }

  /** `command or os.environ.get("ASE_ESPRESSO_COMMAND", "")`. */
  function CommandOr(command: Option<string>, env: Option<string>): string
  {
    StrOr(command, if env.Some? then env.value else "")
  }

  /** `SlurmScheduler.__init__` takes keyword arguments only, so the positional call raises. */
  const SlurmPositional := Exc("TypeError", "SlurmScheduler.__init__() takes 1 positional argument but 4 were given")

  /**
   * `get_scheduler(calc, queue, command)`: the factory's choice, then the
   * constructor; the Slurm constructor refuses positional arguments, so only
   * the bash class yields an instance.
   */
  function Construct(q: Queue, command: string, directory: string, files: map<string, string>,
                     home: string): (r: Result<Scheduler>)
    ensures r.Ok? ==> GetScheduler(q) == Ok(BashClass) && r == NewScheduler(directory, q, command, files, home)
    ensures GetScheduler(q) == Ok(SlurmClass) ==> r == Err(SlurmPositional)
    ensures GetScheduler(q).Err? ==> r == Err(GetScheduler(q).exc)
  {
    match GetScheduler(q)
    case Err(e) => Err(e)
    case Ok(SlurmClass) => Err(SlurmPositional)
    case Ok(BashClass) => NewScheduler(directory, q, command, files, home)
  }

  /**
   * `scheduler.write_script()` followed by `submit_command()`: the job file is
   * always written (empty when the join fails); `finish` is the outcome once
   * the command is set.
   */
  function ScriptEffect(s: Scheduler, finish: Outcome): (e: Effect)
    ensures e.write == Some((JobPath(s), if ScriptText(s).Ok? then ScriptText(s).value else ""))
    ensures e.command.Some? <==> ScriptText(s).Ok?
  {
    match ScriptText(s)
    case Err(x) => Effect(Raised(x), None, Some((JobPath(s), "")))
    case Ok(t) => Effect(finish, Some(SubmitCommand(s)), Some((JobPath(s), t)))
  }

  /**
   * What `set_queue` does with the resolved command `c` and the effective
   * queue: without a queue or without a "scheduler" entry the command is
   * used directly; otherwise the factory's class writes the script.
   */
  function DispatchEffect(resolved: string, q: Option<Queue>, directory: string,
                          files: map<string, string>, home: string): Effect
  {
    if !QueueSet(q) || !HasKey(q.value, "scheduler") then Effect(Done, Some(resolved), None)
    else match Construct(q.value, resolved, directory, files, home)
      case Err(e) => Effect(Raised(e), None, None)
      case Ok(s) => ScriptEffect(s, Done)
  }

  /**
   * An empty queue or one without "scheduler" sets the command to the
   * resolved command and writes nothing; a raise never sets the command; a
   * kind other than bash raises before any file is written.
   */
  lemma DispatchCases(resolved: string, q: Option<Queue>, directory: string,
                      files: map<string, string>, home: string)
    ensures var e := DispatchEffect(resolved, q, directory, files, home);
      (!QueueSet(q) || !HasKey(q.value, "scheduler") ==> e == Effect(Done, Some(resolved), None)) &&
      (e.outcome.Raised? ==> e.command.None?) &&
      (QueueSet(q) && HasKey(q.value, "scheduler") && GetScheduler(q.value) != Ok(BashClass) ==>
         e.outcome.Raised? && e.write.None?)
  {
  }

  /**
   * A bash queue writes the script to `<directory>/.job_file` once the
   * scheduler is constructed (empty when joining its lines fails), and on
   * success the command becomes "bash .job_file".
   */
  lemma BashDispatch(resolved: string, q: Option<Queue>, directory: string,
                     files: map<string, string>, home: string)
    requires QueueSet(q) && HasKey(q.value, "scheduler") && GetScheduler(q.value) == Ok(BashClass)
    ensures var e := DispatchEffect(resolved, q, directory, files, home);
      var s := NewScheduler(directory, q.value, resolved, files, home);
      (e.write.Some? <==> s.Ok?) &&
      (s.Ok? ==> e.write.value.0 == PathJoin(directory, ".job_file")) &&
      (e.outcome.Done? ==> e.command == Some("bash " + ".job_file") && ScriptText(s.value) == Ok(e.write.value.1))
  {
  }

  /** `get_scheduler`: the factory's lookup, then the constructor of the chosen class. */
  method GetSchedulerInstance(q: Queue, command: string, directory: string, files: map<string, string>,
                              home: string) returns (r: Result<Scheduler>)
    ensures r == Construct(q, command, directory, files, home)
  {
    var cls := GetScheduler(q);
    if cls.Err? {
      return Err(cls.exc);
    }
    if cls.value == SlurmClass {
      return Err(SlurmPositional);
    }
    r := Init(directory, q, command, files, home);
  }

  /** `write_script()` then `submit_command()` on a constructed scheduler. */
  method WriteAndSubmit(s: Scheduler, fs: FileStore) returns (outcome: Outcome, submit: Option<string>)
    modifies fs
    ensures var e := ScriptEffect(s, Done);
      outcome == e.outcome && submit == e.command && fs.files == ApplyWrite(old(fs.files), e.write)
  {
    outcome := WriteScript(s, fs);
    if outcome.Raised? {
      return outcome, None;
    }
    submit := Some(SubmitCommand(s));
  }

  /** Lines 13-29 after the queue: the `or` defaults and the substitution steps. */
  method ResolveArguments(command: Option<string>, env: Option<string>, package: Option<string>,
                          calcPackage: string, prefix: string, parallel: Option<string>, calcParallel: string)
    returns (c: string)
    ensures c == Resolve(CommandOr(command, env), StrOr(package, calcPackage), prefix, StrOr(parallel, calcParallel))
  {
    var p := if package.Some? && package.value != "" then package.value else calcPackage;
    var par := if parallel.Some? && parallel.value != "" then parallel.value else calcParallel;
    c := if command.Some? && command.value != "" then command.value
         else if env.Some? then env.value else "";
    c := SubstituteCommand(c, p, prefix, par);
  }

  /**
   * `set_queue`: `queue or calc.queue` is written back; package and parallel
   * fall back to the calculator's values without being written back; the
   * command falls back to ASE_ESPRESSO_COMMAND (`env`, "" when unset).
   */
  method SetQueue(calculator: Calc, package: Option<string>, parallel: Option<string>, queue: Option<Queue>,
                  command: Option<string>, env: Option<string>, home: string, fs: FileStore)
    returns (outcome: Outcome)
    modifies calculator, fs
    ensures calculator.queue == QueueOr(queue, old(calculator.queue))
    ensures KeepsLabel(calculator) && calculator.package == old(calculator.package)
    ensures calculator.parallel == old(calculator.parallel)
    ensures calculator.profileCommand == old(calculator.profileCommand)
    ensures var e := DispatchEffect(Resolve(CommandOr(command, env), StrOr(package, old(calculator.package)),
                                            old(calculator.prefix), StrOr(parallel, old(calculator.parallel))),
                                    calculator.queue, old(calculator.directory), old(fs.files), home);
      outcome == e.outcome &&
      calculator.command == (if e.command.Some? then e.command.value else old(calculator.command)) &&
      fs.files == ApplyWrite(old(fs.files), e.write)
  {
    var c := ResolveArguments(command, env, package, calculator.package, calculator.prefix,
                              parallel, calculator.parallel);
    var q := if QueueSet(queue) then queue else calculator.queue;
    calculator.queue := q;
    outcome := Dispatch(calculator, q, c, home, fs);
  }

  /** Lines 34-41: the direct command, or the chosen scheduler's script and submit command. */
  method Dispatch(calculator: Calc, q: Option<Queue>, resolved: string, home: string, fs: FileStore)
    returns (outcome: Outcome)
    modifies calculator, fs
    ensures CommandOnly(calculator)
    ensures var e := DispatchEffect(resolved, q, calculator.directory, old(fs.files), home);
      outcome == e.outcome &&
      calculator.command == (if e.command.Some? then e.command.value else old(calculator.command)) &&
      fs.files == ApplyWrite(old(fs.files), e.write)
  {
    if !QueueSet(q) || !HasKey(q.value, "scheduler") {
      calculator.command := resolved;
      return Done;
    }
    var s := GetSchedulerInstance(q.value, resolved, calculator.directory, fs.files, home);
    if s.Err? {
      return Raised(s.exc);
    }
    var submit;
    outcome, submit := WriteAndSubmit(s.value, fs);
    if submit.Some? {
      calculator.command := submit.value;
    }
  }
}
