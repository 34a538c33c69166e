// The `set_queue` front end that calls a scheduler module's three-argument
// `generate`: arguments given explicitly are written back, the placeholders
// are resolved, and the kind picks the plain-bash or the PBS generator
// (the Slurm module has no module-level `generate`).

module NotSchedulerQueue {
  import opened PyStr
  import opened PyDict
  import opened Json
  import opened PyErr
  import opened FileSys
  import opened JobText
  import opened Placeholders
  import opened Espresso
  import opened Factory
  import opened Generators
  import opened NewSchedulerQueue

  /** The PBS generator's lines before the config text. */
  function PbsFront(prefix: string, q: Queue): seq<string>
  {
    PbsHeader(prefix) + Directives(q, GenSkip, "#PBS -l ")
  }

  /**
   * What `set_queue` does after the write-backs, for the command template
   * `c` and the calculator's queue, package, prefix, launcher and directory.
   */
  function NotEffect(c: Option<string>, q: Option<Queue>, package: string, prefix: string, parallel: string,
                     directory: string, files: map<string, string>): Effect
  {
    if c.None? then Effect(Raised(NoneNotIterable), None, None)
    else if q.None? then Effect(Raised(NoneHasNoGet), None, None)
    else match SchedulerType(q.value)
      case Err(e) => Effect(Raised(e), None, None)
      case Ok(kind) =>
        var resolved := Resolve(c.value, package, prefix, parallel);
        if kind == "slurm" then Effect(Raised(NoGenerate), None, None)
        else if kind == "direct" then GenEffect(directory, ["#!/bin/bash"], q.value, files, resolved, "bash .job_file")
        else if kind == "pbs" then GenEffect(directory, PbsFront(prefix, q.value), q.value, files, resolved, "qsub .job_file")
        else Effect(Raised(Unrecognised(kind)), None, None)
  }

  /**
   * Exactly one generator runs: "direct" writes the plain-bash job file and
   * "pbs" the PBS one, each to `<directory>/.job_file` and ending with the
   * resolved command; every other case raises without writing anything.
   */
  lemma NotDispatchCases(c: Option<string>, q: Option<Queue>, package: string, prefix: string, parallel: string,
                         directory: string, files: map<string, string>)
    ensures var e := NotEffect(c, q, package, prefix, parallel, directory, files);
      (e.write.Some? <==> c.Some? && q.Some? && (SchedulerType(q.value) == Ok("direct") || SchedulerType(q.value) == Ok("pbs"))) &&
      (e.write.Some? ==> e.write.value.0 == JobPath(directory)) &&
      (e.outcome.Done? ==>
         EndsWith(e.write.value.1, Resolve(c.value, package, prefix, parallel) + "\n") &&
         e.command == Some(if SchedulerType(q.value) == Ok("direct") then "bash .job_file" else "qsub .job_file")) &&
      (e.write.None? ==> e.outcome.Raised? && e.command.None?)
  {
    var e := NotEffect(c, q, package, prefix, parallel, directory, files);
    if e.outcome.Done? {
      var resolved := Resolve(c.value, package, prefix, parallel);
      if SchedulerType(q.value) == Ok("direct") {
        GenFileShape(directory, ["#!/bin/bash"], q.value, files, resolved, "bash .job_file");
      } else {
        GenFileShape(directory, PbsFront(prefix, q.value), q.value, files, resolved, "qsub .job_file");
      }
    }
  }

  /** For the kinds neither front end generates for, both end with the same exception and write nothing. */
  lemma SameFailureAsNew(c: Option<string>, q: Option<Queue>, package: string, prefix: string, parallel: string,
                         directory: string, files: map<string, string>, home: string)
    requires c.None? || q.None? || (SchedulerType(q.value) != Ok("direct") && SchedulerType(q.value) != Ok("pbs"))
    ensures NotEffect(c, q, package, prefix, parallel, directory, files) ==
            Effect(Raised(NewError(c, q, files, home)), None, None)
  {
  }

  /**
   * `set_queue`: the `is None` write-backs, then the command template from
   * the argument or ASE_ESPRESSO_COMMAND (`env`), and the dispatch.
   */
  method SetQueue(calculator: Calc, package: Option<string>, parallel: Option<string>, queue: Option<Queue>,
                  command: Option<string>, env: Option<string>, fs: FileStore)
    returns (outcome: Outcome)
    modifies calculator, fs
    ensures calculator.queue == (if queue.Some? then queue else old(calculator.queue))
    ensures calculator.package == (if package.Some? then package.value else old(calculator.package))
    ensures calculator.parallel == (if parallel.Some? then parallel.value else old(calculator.parallel))
    ensures KeepsLabel(calculator) && calculator.profileCommand == old(calculator.profileCommand)
    ensures var e := NotEffect(if command.Some? then command else env, calculator.queue, calculator.package,
                               calculator.prefix, calculator.parallel, calculator.directory, old(fs.files));
      outcome == e.outcome &&
      calculator.command == (if e.command.Some? then e.command.value else old(calculator.command)) &&
      fs.files == ApplyWrite(old(fs.files), e.write)
  {
    WriteBack(calculator, package, parallel, queue);
    outcome := Dispatch(calculator, if command.Some? then command else env, fs);
  }

  /** Lines 25-47 for the written-back calculator. */
  method Dispatch(calculator: Calc, c: Option<string>, fs: FileStore) returns (outcome: Outcome)
    modifies calculator, fs
    ensures CommandOnly(calculator)
    ensures var e := NotEffect(c, calculator.queue, calculator.package, calculator.prefix, calculator.parallel,
                               calculator.directory, old(fs.files));
      outcome == e.outcome &&
      calculator.command == (if e.command.Some? then e.command.value else old(calculator.command)) &&
      fs.files == ApplyWrite(old(fs.files), e.write)
  {
    if c.None? {
      return Raised(NoneNotIterable);
    }
    var resolved := SubstituteCommand(c.value, calculator.package, calculator.prefix, calculator.parallel);
    var q := calculator.queue;
    if q.None? {
      return Raised(NoneHasNoGet);
    }
    var kind := SchedulerType(q.value);
    if kind.Err? {
      return Raised(kind.exc);
    }
    if kind.value == "slurm" {
      return Raised(NoGenerate);
    } else if kind.value == "direct" {
      outcome := GenerateDirect(calculator, q.value, resolved, fs);
    } else if kind.value == "pbs" {
      outcome := GeneratePbs(calculator, q.value, resolved, fs);
    } else {
      return Raised(Unrecognised(kind.value));
    }
  }
}
