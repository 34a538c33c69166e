// The calculator object of `xespresso.py`: its directory and prefix, the
// file names derived from them, and the resolution of the execution command
// with the Slurm job file it writes when a queue is set.

module Espresso {
  import opened PyStr
  import opened PyDict
  import opened Json
  import opened PyErr
  import opened FileSys
  import opened JobText
  import opened Placeholders

  // ---------------------------------------------------------------
  // Label and paths
  // ---------------------------------------------------------------

  /** The prefix `set_label` chooses: the given one, or the last component of the label. */
  function DefaultPrefix(lab: string, prefix: Option<string>): (r: string)
    ensures prefix.Some? && prefix.value != "" ==> r == prefix.value
    ensures (prefix.None? || prefix.value == "") ==> '/' !in r && EndsWith(lab, r)
    ensures (prefix.None? || prefix.value == "") && EndsWith(lab, "/") ==> r == ""
  {
    if prefix.None? || prefix.value == "" then BaseName(lab) else prefix.value
  }

  /** Joining a name that does not start with "/" and then appending a suffix is joining the suffixed name. */
  lemma PathJoinSuffix(d: string, p: string, x: string)
    requires x != "" && x[0] != '/'
    ensures PathJoin(d, p + x) == PathJoin(d, p) + x
  {
    if StartsWith(p, "/") {
      StartsWithSlashAppend(p, x);
    } else {
      RelativeJoinSuffix(d, p, x);
    }
  }

  lemma StartsWithSlashAppend(p: string, x: string)
    requires StartsWith(p, "/")
    ensures StartsWith(p + x, "/")
  {
    assert (p + x)[..1] == p[..1];
  }

  /** A relative name joined after a suffix is added is the join with that suffix appended. */
  lemma RelativeJoinSuffix(d: string, p: string, x: string)
    requires x != "" && x[0] != '/' && !StartsWith(p, "/")
    ensures PathJoin(d, p + x) == PathJoin(d, p) + x
  {
    assert !StartsWith(p + x, "/") by {
      if p != "" {
        assert (p + x)[..1] == p[..1];
      } else {
        assert p + x == x && x[..1] == [x[0]];
      }
    }
    assert d + (p + x) == d + p + x;
    assert d + "/" + (p + x) == d + "/" + p + x;
  }

  /** The file names `set_label` derives from the directory and the prefix. */
  datatype Paths = Paths(labelPath: string, pwi: string, pwo: string, asei: string,
                         aseiTemp: string, saveDirectory: string)

  function LabelPaths(dir: string, prefix: string): (r: Paths)
    ensures r.labelPath == PathJoin(dir, prefix)
    ensures r.pwi == r.labelPath + ".pwi" && r.pwo == r.labelPath + ".pwo"
    ensures r.asei == r.labelPath + ".asei" && r.saveDirectory == r.labelPath + ".save"
    ensures r.aseiTemp == PathJoin(dir, "." + prefix + ".asei_temp")
  {
    PathJoinSuffix(dir, prefix, ".pwi");
    PathJoinSuffix(dir, prefix, ".pwo");
    PathJoinSuffix(dir, prefix, ".asei");
    PathJoinSuffix(dir, prefix, ".save");
    Paths(PathJoin(dir, prefix), PathJoin(dir, prefix + ".pwi"), PathJoin(dir, prefix + ".pwo"),
          PathJoin(dir, prefix + ".asei"), PathJoin(dir, "." + prefix + ".asei_temp"),
          PathJoin(dir, prefix + ".save"))
  }

  // ---------------------------------------------------------------
  // The job file written by `set_queue`
  // ---------------------------------------------------------------

  /** The five fixed header lines; the job-name line keeps its trailing space. */
  function JobHeader(prefix: string): seq<string>
  {
    ["#!/bin/bash",
     "#SBATCH --job-name=" + prefix + " ",
     "#SBATCH --output=" + prefix + ".out",
     "#SBATCH --error=" + prefix + ".err",
     "#SBATCH --wait"]
  }

  /** Only the "config" entry is skipped; "scheduler" becomes a directive like any other key. */
  const JobSkip: set<string> := {"config"}

  /** The lines of `.job_file`: header, directives, the shell setup text and the command, each with a trailing space. */
  function JobLines(prefix: string, q: Queue, script: string, command: string): (r: seq<string>)
    ensures |r| == |Kept(q, JobSkip)| + 7
  {
    JobHeader(prefix) + Directives(q, JobSkip, "#SBATCH --") + [script + " ", command + " "]
  }

  /** The whole `.job_file` text. */
  function JobFile(prefix: string, q: Queue, script: string, command: string): string
  {
    Unlines(JobLines(prefix, q, script, command))
  }

  /** The shell setup text read when the queue names no "config": the last existing rc file wins. */
  function RcScript(files: map<string, string>, home: string): (r: string)
    ensures ".xespressorc" in files ==> r == files[".xespressorc"]
    ensures ".xespressorc" !in files && PathJoin(home, ".xespressorc") !in files ==> r == ""
  {
    if ".xespressorc" in files then files[".xespressorc"]
    else if PathJoin(home, ".xespressorc") in files then files[PathJoin(home, ".xespressorc")]
    else ""
  }

  /** The shell setup text for a queue: `$HOME/<config>` must exist when "config" is given. */
  function QueueScript(q: Queue, files: map<string, string>, home: string): (r: Result<string>)
    ensures !HasKey(q, "config") ==> r == Ok(RcScript(files, home))
    ensures HasKey(q, "config") && r.Ok? ==>
      Get(q, "config").value.VStr? && PathJoin(home, Get(q, "config").value.s) in files &&
      r.value == files[PathJoin(home, Get(q, "config").value.s)]
  {
    match Get(q, "config")
    case None => Ok(RcScript(files, home))
    case Some(v) =>
      if !v.VStr? then Err(Exc("TypeError", "expected str, bytes or os.PathLike object"))
      else if PathJoin(home, v.s) !in files then
        Err(Exc("FileNotFoundError", "No such file or directory: '" + PathJoin(home, v.s) + "'"))
      else Ok(files[PathJoin(home, v.s)])
  }

  /** Python's truthiness of an optional dictionary (None or empty is false). */
  predicate QueueSet(q: Option<Queue>)
  {
    q.Some? && q.value != []
  }

  // ---------------------------------------------------------------
  // The calculator
  // ---------------------------------------------------------------

  class Calc {
    var directory: string
    var prefix: string
    /** label, pwi, pwo, asei, asei_temp and save_directory. */
    var paths: Paths
    /** None stands for Python's None. */
    var queue: Option<Queue>
    var package: string
    var parallel: string
    var command: string
    /** Whether the calculator carries an ASE profile, and that profile's command. */
    var hasProfile: bool
    var profileCommand: string

    /** The label and prefix set by the constructor, with the defaults package "pw" and parallel "". */
    constructor(lab: string, prefix: Option<string>, queue: Option<Queue>)
      ensures directory == lab && this.prefix == DefaultPrefix(lab, prefix)
      ensures this.queue == queue && package == "pw" && parallel == "" && command == ""
      ensures !hasProfile
    {
      var p := DefaultPrefix(lab, prefix);
      var ps := LabelPaths(lab, p);
      directory := lab;
      this.prefix := p;
      paths := ps;
      this.queue := queue;
      package := "pw";
      parallel := "";
      command := "";
      hasProfile := false;
      profileCommand := "";
    }

    /** `set_label`: the directory is the label; every file name is directory/prefix plus an extension. */
    method SetLabel(newLabel: string, newPrefix: Option<string>)
      modifies this
      ensures directory == newLabel && prefix == DefaultPrefix(newLabel, newPrefix)
      ensures paths == LabelPaths(newLabel, prefix)
      ensures KeepsRun(this)
    {
      var p := DefaultPrefix(newLabel, newPrefix);
      var ps := LabelPaths(newLabel, p);
      Relabel(newLabel, p, ps);
    }

    /** The three assignments of `set_label`. */
    method Relabel(newDirectory: string, newPrefix: string, newPaths: Paths)
      modifies this
      ensures directory == newDirectory && prefix == newPrefix && paths == newPaths
      ensures KeepsRun(this)
    {
      directory, prefix, paths := newDirectory, newPrefix, newPaths;
    }

    /**
     * `set_queue`: explicit arguments are written back, a missing command is
     * taken from ASE_ESPRESSO_COMMAND (`env`), the placeholders are resolved,
     * and with a non-empty queue the Slurm job file is written and the
     * command becomes "sbatch .job_file".
     */
    method SetQueue(newPackage: Option<string>, newParallel: Option<string>, newQueue: Option<Queue>,
                    cmd: Option<string>, env: Option<string>, home: string, fs: FileStore)
      returns (outcome: Outcome)
      modifies this, fs
      ensures queue == (if newQueue.Some? then newQueue else old(queue))
      ensures package == (if newPackage.Some? then newPackage.value else old(package))
      ensures parallel == (if newParallel.Some? then newParallel.value else old(parallel))
      ensures directory == old(directory) && prefix == old(prefix) && paths == old(paths)
      ensures var e := QueueEffect(if cmd.Some? then cmd else env, queue, package, prefix, parallel,
                                   directory, old(fs.files), home);
        outcome == e.outcome &&
        command == (if e.command.Some? then e.command.value else old(command)) &&
        fs.files == ApplyWrite(old(fs.files), e.write)
    {
      if newQueue.Some? { queue := newQueue; }
      if newPackage.Some? { package := newPackage.value; }
      if newParallel.Some? { parallel := newParallel.value; }
      outcome := ApplyQueue(if cmd.Some? then cmd else env, home, fs);
    }

    /** The body of `set_queue` after the write-backs, for the command template `c`. */
    method ApplyQueue(c: Option<string>, home: string, fs: FileStore) returns (outcome: Outcome)
      modifies this, fs
      ensures queue == old(queue) && package == old(package) && parallel == old(parallel)
      ensures directory == old(directory) && prefix == old(prefix) && paths == old(paths)
      ensures var e := QueueEffect(c, queue, package, prefix, parallel, directory, old(fs.files), home);
        outcome == e.outcome &&
        command == (if e.command.Some? then e.command.value else old(command)) &&
        fs.files == ApplyWrite(old(fs.files), e.write)
    {
      if c.None? {
        outcome := Raised(Exc("TypeError", "argument of type 'NoneType' is not iterable"));
        return;
      }
      var resolved := Resolve(c.value, package, prefix, parallel);
      if !QueueSet(queue) {
        command := resolved;
        outcome := Done;
        return;
      }
      var q := queue.value;
      var script := QueueScript(q, fs.files, home);
      if script.Err? {
        outcome := Raised(script.exc);
        return;
      }
      var text := WriteJobFile(prefix, q, script.value, resolved);
      fs.Write(directory + "/.job_file", text);
      command := "sbatch .job_file";
      outcome := Done;
    }
  }

  /** Every field of the calculator except `command` is as it was. */
  twostate predicate CommandOnly(c: Calc)
    reads c
  {
    KeepsLabel(c) && c.queue == old(c.queue) && c.package == old(c.package) &&
    c.parallel == old(c.parallel) && c.profileCommand == old(c.profileCommand)
  }

  /** Everything but the label is as it was: queue, package, launcher, command and profile. */
  twostate predicate KeepsRun(c: Calc)
    reads c
  {
    c.queue == old(c.queue) && c.package == old(c.package) && c.parallel == old(c.parallel) &&
    c.command == old(c.command) && c.hasProfile == old(c.hasProfile) && c.profileCommand == old(c.profileCommand)
  }

  /** The directory, prefix, derived paths and the presence of a profile are as they were. */
  twostate predicate KeepsLabel(c: Calc)
    reads c
  {
    c.directory == old(c.directory) && c.prefix == old(c.prefix) && c.paths == old(c.paths) &&
    c.hasProfile == old(c.hasProfile)
  }

  /** The writes of the `with open(... .job_file)` block, in order. */
  method WriteJobFile(prefix: string, q: Queue, script: string, command: string) returns (text: string)
    ensures text == JobFile(prefix, q, script, command)
  {
    var dirs := WriteDirectives(q, JobSkip, "#SBATCH --");
    text := Unlines(JobHeader(prefix)) + dirs + Unlines([script + " ", command + " "]);
    JobFileText(prefix, q, script, command);
  }

  /**
   * What `set_queue` does after the argument write-backs, given the command
   * template (None when neither the argument nor ASE_ESPRESSO_COMMAND is set)
   * and the effective queue.
   */
  function QueueEffect(c: Option<string>, q: Option<Queue>, package: string, prefix: string, parallel: string,
                       directory: string, files: map<string, string>, home: string): Effect
  {
    if c.None? then Effect(Raised(Exc("TypeError", "argument of type 'NoneType' is not iterable")), None, None)
    else
      var resolved := Resolve(c.value, package, prefix, parallel);
      if !QueueSet(q) then Effect(Done, Some(resolved), None)
      else match QueueScript(q.value, files, home)
        case Err(e) => Effect(Raised(e), None, None)
        case Ok(script) =>
          Effect(Done, Some("sbatch .job_file"), Some((directory + "/.job_file", JobFile(prefix, q.value, script, resolved))))
  }

  /**
   * The cases of `set_queue`: no command template raises; without a queue the
   * resolved command is kept and nothing is written; with a queue either the
   * shell setup file is missing (nothing written, command unchanged) or the
   * job file goes to `<directory>/.job_file` and the command becomes
   * "sbatch .job_file".
   */
  lemma QueueEffectCases(c: Option<string>, q: Option<Queue>, package: string, prefix: string, parallel: string,
                         directory: string, files: map<string, string>, home: string)
    ensures var e := QueueEffect(c, q, package, prefix, parallel, directory, files, home);
      (c.None? ==> e.outcome.Raised? && e.command.None? && e.write.None?) &&
      (c.Some? && !QueueSet(q) ==>
         e == Effect(Done, Some(Resolve(c.value, package, prefix, parallel)), None)) &&
      (c.Some? && QueueSet(q) && e.outcome.Done? ==>
         e.command == Some("sbatch .job_file") && e.write.Some? &&
         e.write.value.0 == directory + "/.job_file" &&
         e.write.value.1 == JobFile(prefix, q.value, QueueScript(q.value, files, home).value,
                                    Resolve(c.value, package, prefix, parallel))) &&
      (e.outcome.Raised? ==> e.command.None? && e.write.None?)
  {
  }

  /** The job file is the header, the directives and the two trailing lines, in that order. */
  lemma JobFileText(prefix: string, q: Queue, script: string, command: string)
    ensures JobFile(prefix, q, script, command) ==
      Unlines(JobHeader(prefix)) + Unlines(Directives(q, JobSkip, "#SBATCH --")) + Unlines([script + " ", command + " "])
  {
    var head := JobHeader(prefix);
    var dirs := Directives(q, JobSkip, "#SBATCH --");
    var tail := [script + " ", command + " "];
    UnlinesAppend(head + dirs, tail);
    UnlinesAppend(head, dirs);
  }

  /** The job file ends with the shell setup line and then the command line. */
  lemma JobFileEnds(prefix: string, q: Queue, script: string, command: string)
    ensures EndsWith(JobFile(prefix, q, script, command), script + " \n" + command + " \n")
  {
    var tail := [script + " ", command + " "];
    JobFileText(prefix, q, script, command);
    assert Unlines(tail) == script + " " + "\n" + (command + " " + "\n" + Unlines([])) by {
      assert tail[1..] == [command + " "];
      assert tail[1..][1..] == [];
    }
    assert Unlines(tail) == script + " \n" + command + " \n";
  }

  /** An entry becomes a job-file directive exactly when it is truthy and not "config". */
  lemma JobDirectivesExactly(q: Queue, e: (string, Value))
    ensures e in Kept(q, JobSkip) <==> e in q && e.0 != "config" && Truthy(e.1)
  {
    KeptExactly(q, JobSkip, e);
  }
}
