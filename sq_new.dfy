// The `set_queue` front end that hands the calculator, the queue, the
// command and the shell setup text to a scheduler module's `generate`:
// arguments given explicitly are written back to the calculator, a command
// without PARALLEL gets the launcher put in front of it, and the kind picks
// the module. None of the three modules offers a four-argument `generate`,
// so every call ends in an exception.

module NewSchedulerQueue {
  import opened PyStr
  import opened PyDict
  import opened Json
  import opened PyErr
  import opened JobText
  import opened Placeholders
  import opened Espresso
  import opened Factory

  /** `CONFIG_FILES`: `$HOME/.xespressorc`, then `.xespressorc` in the working directory. */
  function ConfigFiles(home: string): seq<string>
  {
    [PathJoin(home, ".xespressorc"), ".xespressorc"]
  }

  /** The text of the first path that exists, or "" when none does. */
  function FirstExisting(paths: seq<string>, files: map<string, string>): string
  {
    if paths == [] then ""
    else if paths[0] in files then files[paths[0]]
    else FirstExisting(paths[1..], files)
  }

  /** The first existing path is the one read; with none, the text is empty. */
  lemma {:induction false} FirstExistingIsFirst(paths: seq<string>, files: map<string, string>)
    ensures (forall i :: 0 <= i < |paths| ==> paths[i] !in files) ==> FirstExisting(paths, files) == ""
    ensures forall i :: 0 <= i < |paths| && paths[i] in files && (forall j :: 0 <= j < i ==> paths[j] !in files) ==>
      FirstExisting(paths, files) == files[paths[i]]
  {
    if paths != [] {
      FirstExistingIsFirst(paths[1..], files);
      forall i | 0 <= i < |paths| && paths[i] in files && (forall j :: 0 <= j < i ==> paths[j] !in files)
        ensures FirstExisting(paths, files) == files[paths[i]]
      {
        if i > 0 {
          assert paths[1..][i - 1] == paths[i];
          forall j | 0 <= j < i - 1
            ensures paths[1..][j] !in files
          {
            assert paths[1..][j] == paths[j + 1];
          }
        }
      }
      if forall i :: 0 <= i < |paths| ==> paths[i] !in files {
        forall i | 0 <= i < |paths| - 1
          ensures paths[1..][i] !in files
        {
          assert paths[1..][i] == paths[i + 1];
        }
      }
    }
  }

  /**
   * `get_xespresso_config(queue)`: with a "config" entry (truthy or not),
   * `$HOME/<config>` when it exists and "" otherwise; without one, the first
   * existing file among `CONFIG_FILES`. A non-string entry cannot be joined.
   */
  function XespressoConfig(q: Queue, files: map<string, string>, home: string): (r: Result<string>)
    ensures r.Err? <==> HasKey(q, "config") && !Get(q, "config").value.VStr?
    ensures HasKey(q, "config") && r.Ok? ==>
      r.value == (if PathJoin(home, Get(q, "config").value.s) in files
                  then files[PathJoin(home, Get(q, "config").value.s)] else "")
    ensures !HasKey(q, "config") ==> r == Ok(FirstExisting(ConfigFiles(home), files))
  {
    match Get(q, "config")
    case Some(v) =>
      if !v.VStr? then Err(Exc("TypeError", "join() argument must be str, bytes, or os.PathLike object"))
      else if PathJoin(home, v.s) in files then Ok(files[PathJoin(home, v.s)])
      else Ok("")
    case None => Ok(FirstExisting(ConfigFiles(home), files))
  }

  /** `get_xespresso_config`, with its loop over `CONFIG_FILES` that stops at the first file found. */
  method GetXespressoConfig(q: Queue, files: map<string, string>, home: string) returns (r: Result<string>)
    ensures r == XespressoConfig(q, files, home)
  {
    var script := "";
    if HasKey(q, "config") {
      var v := Get(q, "config").value;
      if !v.VStr? {
        return Err(Exc("TypeError", "join() argument must be str, bytes, or os.PathLike object"));
      }
      var cf := PathJoin(home, v.s);
      if cf in files {
        script := files[cf];
      }
    } else {
      var cfs := ConfigFiles(home);
      var i := 0;
      while i < |cfs|
        invariant 0 <= i <= |cfs|
        invariant script == "" && FirstExisting(cfs[i..], files) == FirstExisting(cfs, files)
      {
        if cfs[i] in files {
          script := files[cfs[i]];
          break;
        }
        assert cfs[i..][1..] == cfs[i + 1..];
        i := i + 1;
      }
    }
    r := Ok(script);
  }

  /** The resolution of this front end: PACKAGE (pw rule), PREFIX, then PARALLEL or the launcher in front. */
  function ResolveOrPrefix(command: string, package: string, prefix: string, parallel: string): string
  {
    SubstParallelOrPrefix(SubstPrefix(SubstPackagePw(command, package), prefix), parallel)
  }

  /** It is the shared resolution, with the launcher and a space put in front when no PARALLEL is left to replace. */
  lemma ResolveOrPrefixCases(command: string, package: string, prefix: string, parallel: string)
    ensures var before := SubstPrefix(SubstPackagePw(command, package), prefix);
      ResolveOrPrefix(command, package, prefix, parallel) ==
        if Contains(before, PARALLEL) then Resolve(command, package, prefix, parallel)
        else parallel + " " + Resolve(command, package, prefix, parallel)
  {
  }

  /** `"PACKAGE" in None`: the command template is missing. */
  const NoneNotIterable := Exc("TypeError", "argument of type 'NoneType' is not iterable")
  /** `None.get(...)`: neither the argument nor the calculator has a queue. */
  const NoneHasNoGet := Exc("AttributeError", "'NoneType' object has no attribute 'get'")
  /** The Slurm scheduler module defines a class, not a module-level `generate`. */
  const NoGenerate := Exc("AttributeError", "module 'xespresso.schedulers.slurm' has no attribute 'generate'")
  /** `generate(calc, queue, command)` called with the shell setup text as a fourth argument. */
  const TooManyArguments := Exc("TypeError", "generate() takes 3 positional arguments but 4 were given")

  function Unrecognised(kind: string): Exc
  {
    Exc("ValueError", "Tipo de scheduler não reconhecido: " + kind)
  }

  /**
   * The exception `set_queue` ends with, after the write-backs: the command
   * template and the queue must exist, the kind must be a string; "slurm"
   * fails on the attribute lookup before the setup text is read, "direct"
   * and "pbs" read it and then fail on the argument count, and any other
   * kind is reported.
   */
  function NewError(c: Option<string>, q: Option<Queue>, files: map<string, string>, home: string): (x: Exc)
    ensures c.None? ==> x == NoneNotIterable
    ensures c.Some? && q.None? ==> x == NoneHasNoGet
    ensures c.Some? && q.Some? && SchedulerType(q.value).Err? ==> x == SchedulerType(q.value).exc
    ensures c.Some? && q.Some? && SchedulerType(q.value) == Ok("slurm") ==> x == NoGenerate
    ensures c.Some? && q.Some? && (SchedulerType(q.value) == Ok("direct") || SchedulerType(q.value) == Ok("pbs")) ==>
      x == (if XespressoConfig(q.value, files, home).Err? then XespressoConfig(q.value, files, home).exc
            else TooManyArguments)
    ensures c.Some? && q.Some? && SchedulerType(q.value).Ok? ==>
      var kind := SchedulerType(q.value).value;
      kind != "slurm" && kind != "direct" && kind != "pbs" ==> x == Unrecognised(kind)
  {
    if c.None? then NoneNotIterable
    else if q.None? then NoneHasNoGet
    else match SchedulerType(q.value)
      case Err(e) => e
      case Ok(kind) =>
        if kind == "slurm" then NoGenerate
        else if kind == "direct" || kind == "pbs" then
          match XespressoConfig(q.value, files, home)
          case Err(e) => e
          case Ok(_) => TooManyArguments
        else Unrecognised(kind)
  }

  /** Without a "scheduler" entry the kind defaults to "slurm", which has no `generate`. */
  lemma MissingKindNoGenerate(c: string, q: Queue, files: map<string, string>, home: string)
    requires !HasKey(q, "scheduler")
    ensures NewError(Some(c), Some(q), files, home) == NoGenerate
  {
  }

  /** The `is None` write-backs: each argument given replaces the calculator's value, and nothing else changes. */
  method WriteBack(calculator: Calc, package: Option<string>, parallel: Option<string>, queue: Option<Queue>)
    modifies calculator
    ensures calculator.queue == (if queue.Some? then queue else old(calculator.queue))
    ensures calculator.package == (if package.Some? then package.value else old(calculator.package))
    ensures calculator.parallel == (if parallel.Some? then parallel.value else old(calculator.parallel))
    ensures KeepsLabel(calculator) && calculator.command == old(calculator.command)
    ensures calculator.profileCommand == old(calculator.profileCommand)
  {
    if queue.Some? {
      calculator.queue := queue;
    }
    if package.Some? {
      calculator.package := package.value;
    }
    if parallel.Some? {
      calculator.parallel := parallel.value;
    }
  }

  /**
   * `set_queue`: after the write-backs it always raises, and it never
   * changes the command or writes a file (`env` is ASE_ESPRESSO_COMMAND,
   * `files` the file system contents).
   */
  method SetQueue(calculator: Calc, package: Option<string>, parallel: Option<string>, queue: Option<Queue>,
                  command: Option<string>, env: Option<string>, home: string, files: map<string, string>)
    returns (outcome: Outcome)
    modifies calculator
    ensures calculator.queue == (if queue.Some? then queue else old(calculator.queue))
    ensures calculator.package == (if package.Some? then package.value else old(calculator.package))
    ensures calculator.parallel == (if parallel.Some? then parallel.value else old(calculator.parallel))
    ensures KeepsLabel(calculator) && calculator.command == old(calculator.command)
    ensures calculator.profileCommand == old(calculator.profileCommand)
    ensures outcome == Raised(NewError(if command.Some? then command else env, calculator.queue, files, home))
  {
    WriteBack(calculator, package, parallel, queue);
    outcome := Run(if command.Some? then command else env, calculator.queue, calculator.package,
                   calculator.prefix, calculator.parallel, files, home);
  }

  /** Lines 45-71: the substitution steps and the dispatch on the kind, for the written-back values. */
  method Run(c: Option<string>, q: Option<Queue>, package: string, prefix: string, parallel: string,
             files: map<string, string>, home: string) returns (outcome: Outcome)
    ensures outcome == Raised(NewError(c, q, files, home))
  {
    if c.None? {
      return Raised(NoneNotIterable);
    }
    var resolved := SubstituteCommand(c.value, package, prefix, parallel);
    if !Contains(resolved, PARALLEL) {
      // The launcher is put in front; the text goes nowhere, since every branch below raises.
      resolved := parallel + " " + resolved;
    }
    if q.None? {
      return Raised(NoneHasNoGet);
    }
    var kind := SchedulerType(q.value);
    if kind.Err? {
      return Raised(kind.exc);
    }
    if kind.value == "slurm" {
      return Raised(NoGenerate);
    }
    if kind.value == "direct" || kind.value == "pbs" {
      var config := GetXespressoConfig(q.value, files, home);
      if config.Err? {
        return Raised(config.exc);
      }
      return Raised(TooManyArguments);
    }
    outcome := Raised(Unrecognised(kind.value));
  }
}
