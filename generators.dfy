// The module-level job-file generators `generate(calc, queue, command)` of
// the Slurm (`#SBATCH`), PBS (`#PBS`) and plain-bash kinds: each writes
// `<directory>/.job_file` line by line and sets the calculator's command.

module Generators {
  import opened PyStr
  import opened PyDict
  import opened Json
  import opened PyErr
  import opened FileSys
  import opened JobText
  import opened Espresso

  /** The queue keys that never become directives. */
  const GenSkip: set<string> := {"scheduler", "config"}

  /** `old-slurm.py`'s header: the job-name line has no trailing space and there is no "--wait". */
  function SlurmHeader(prefix: string): seq<string>
  {
    ["#!/bin/bash",
     "#SBATCH --job-name=" + prefix,
     "#SBATCH --output=" + prefix + ".out",
     "#SBATCH --error=" + prefix + ".err"]
  }

  function PbsHeader(prefix: string): seq<string>
  {
    ["#!/bin/bash",
     "#PBS -N " + prefix,
     "#PBS -o " + prefix + ".out",
     "#PBS -e " + prefix + ".err"]
  }

  /**
   * The text inserted from `queue["config"]`: nothing when the entry is
   * falsy or names no existing file (FileNotFoundError is swallowed), the
   * file's text otherwise; a non-string path raises.
   */
  function ConfigInsert(q: Queue, files: map<string, string>): (r: Result<seq<string>>)
    ensures r.Ok? ==> |r.value| <= 1
    ensures r.Ok? && r.value != [] ==>
      (GetOr(q, "config", VNone).VStr? && GetOr(q, "config", VNone).s in files &&
       r.value == [files[GetOr(q, "config", VNone).s]])
    ensures r.Err? <==> Truthy(GetOr(q, "config", VNone)) && !GetOr(q, "config", VNone).VStr?
  {
    var c := GetOr(q, "config", VNone);
    if !Truthy(c) then Ok([])
    else if !c.VStr? then Err(Exc("TypeError", "expected str, bytes or os.PathLike object"))
    else if c.s in files then Ok([files[c.s]])
    else Ok([])
  }

  /** `f"{calculator.directory}/.job_file"`. */
  function JobPath(directory: string): string
  {
    directory + "/.job_file"
  }

  /**
   * What a generator does to the calculator's command and to the file store:
   * all lines written with a raise on a non-string config path, after
   * which only the lines before it are in the file and the command is kept.
   */
  function GenEffect(directory: string, front: seq<string>, q: Queue, files: map<string, string>,
                     command: string, submit: string): (e: Effect)
    ensures e.write.Some? && e.write.value.0 == JobPath(directory)
    ensures e.outcome.Done? <==> ConfigInsert(q, files).Ok?
    ensures e.outcome.Done? ==>
      (e.command == Some(submit) && e.write.value.1 == Unlines(front + ConfigInsert(q, files).value + [command]))
    ensures e.outcome.Raised? ==> e.command.None? && e.write.value.1 == Unlines(front)
  {
    match ConfigInsert(q, files)
    case Err(x) => Effect(Raised(x), None, Some((JobPath(directory), Unlines(front))))
    case Ok(cfg) => Effect(Done, Some(submit), Some((JobPath(directory), Unlines(front + cfg + [command]))))
  }

  /** The config insertion and the command line, appended to the text written so far. */
  method WriteTail(path: string, text: string, front: seq<string>, q: Queue, command: string, fs: FileStore)
    returns (outcome: Outcome)
    requires text == Unlines(front)
    modifies fs
    ensures outcome.Done? <==> ConfigInsert(q, old(fs.files)).Ok?
    ensures outcome.Raised? ==>
      (outcome.exc == ConfigInsert(q, old(fs.files)).exc && fs.files == old(fs.files)[path := text])
    ensures outcome.Done? ==>
      fs.files == old(fs.files)[path := Unlines(front + ConfigInsert(q, old(fs.files)).value + [command])]
  {
    var t := text;
    var configPath := GetOr(q, "config", VNone);
    ghost var cfg: seq<string> := [];
    assert front + cfg == front;
    if Truthy(configPath) {
      if !configPath.VStr? {
        fs.Write(path, t);
        return Raised(Exc("TypeError", "expected str, bytes or os.PathLike object"));
      }
      if configPath.s in fs.files {
        cfg := [fs.files[configPath.s]];
        UnlinesAppend(front, cfg);
        t := t + (fs.files[configPath.s] + "\n");
      }
    }
    assert cfg == ConfigInsert(q, fs.files).value;
    assert t == Unlines(front + cfg);
    UnlinesAppend(front + cfg, [command]);
    t := t + (command + "\n");
    fs.Write(path, t);
    outcome := Done;
  }

  /** `old-slurm.py`'s `generate`: header, one "#SBATCH --k=v" per kept entry, config text, command; then "sbatch .job_file". */
  method GenerateSlurm(calculator: Calc, q: Queue, command: string, fs: FileStore) returns (outcome: Outcome)
    modifies calculator, fs
    ensures var e := GenEffect(calculator.directory,
                               SlurmHeader(calculator.prefix) + Directives(q, GenSkip, "#SBATCH --"),
                               q, old(fs.files), command, "sbatch .job_file");
      outcome == e.outcome &&
      calculator.command == (if e.command.Some? then e.command.value else old(calculator.command)) &&
      fs.files == old(fs.files)[e.write.value.0 := e.write.value.1]
    ensures CommandOnly(calculator)
  {
    var dirs := WriteDirectives(q, GenSkip, "#SBATCH --");
    var head := SlurmHeader(calculator.prefix);
    UnlinesAppend(head, Directives(q, GenSkip, "#SBATCH --"));
    outcome := WriteTail(calculator.directory + "/.job_file", Unlines(head) + dirs,
                         head + Directives(q, GenSkip, "#SBATCH --"), q, command, fs);
    if outcome.Done? {
      calculator.command := "sbatch .job_file";
    }
  }

  /** `pbs.py`'s `generate`: header, one "#PBS -l k=v" per kept entry, config text, command; then "qsub .job_file". */
  method GeneratePbs(calculator: Calc, q: Queue, command: string, fs: FileStore) returns (outcome: Outcome)
    modifies calculator, fs
    ensures var e := GenEffect(calculator.directory,
                               PbsHeader(calculator.prefix) + Directives(q, GenSkip, "#PBS -l "),
                               q, old(fs.files), command, "qsub .job_file");
      outcome == e.outcome &&
      calculator.command == (if e.command.Some? then e.command.value else old(calculator.command)) &&
      fs.files == old(fs.files)[e.write.value.0 := e.write.value.1]
    ensures CommandOnly(calculator)
  {
    var dirs := WriteDirectives(q, GenSkip, "#PBS -l ");
    var head := PbsHeader(calculator.prefix);
    UnlinesAppend(head, Directives(q, GenSkip, "#PBS -l "));
    outcome := WriteTail(calculator.directory + "/.job_file", Unlines(head) + dirs,
                         head + Directives(q, GenSkip, "#PBS -l "), q, command, fs);
    if outcome.Done? {
      calculator.command := "qsub .job_file";
    }
  }

  /** `direct.py`'s `generate`: the shebang, the config text and the command; then "bash .job_file". */
  method GenerateDirect(calculator: Calc, q: Queue, command: string, fs: FileStore) returns (outcome: Outcome)
    modifies calculator, fs
    ensures var e := GenEffect(calculator.directory, ["#!/bin/bash"], q, old(fs.files), command, "bash .job_file");
      outcome == e.outcome &&
      calculator.command == (if e.command.Some? then e.command.value else old(calculator.command)) &&
      fs.files == old(fs.files)[e.write.value.0 := e.write.value.1]
    ensures CommandOnly(calculator)
  {
    outcome := WriteTail(calculator.directory + "/.job_file", Unlines(["#!/bin/bash"]), ["#!/bin/bash"], q, command, fs);
    if outcome.Done? {
      calculator.command := "bash .job_file";
    }
  }

  /** An entry becomes a directive line exactly when its value is truthy and its key is neither "scheduler" nor "config". */
  lemma GenDirectivesExactly(q: Queue, e: (string, Value))
    ensures e in Kept(q, GenSkip) <==> e in q && e.0 != "scheduler" && e.0 != "config" && Truthy(e.1)
  {
    KeptExactly(q, GenSkip, e);
  }

  /**
   * The written file starts with the front lines (header and directives)
   * and ends with the command line, whichever generator wrote it.
   */
  lemma GenFileShape(directory: string, front: seq<string>, q: Queue, files: map<string, string>,
                     command: string, submit: string)
    requires GenEffect(directory, front, q, files, command, submit).outcome.Done?
    ensures var text := GenEffect(directory, front, q, files, command, submit).write.value.1;
      StartsWith(text, Unlines(front)) && EndsWith(text, command + "\n")
  {
    var cfg := ConfigInsert(q, files).value;
    assert front + cfg + [command] == front + (cfg + [command]);
    UnlinesPrefix(front, cfg + [command]);
  }

  /** The plain-bash generator consults only the "config" entry: queues that agree on it give the same effect. */
  lemma DirectOnlyConfig(directory: string, q1: Queue, q2: Queue, files: map<string, string>, command: string)
    requires Get(q1, "config") == Get(q2, "config")
    ensures GenEffect(directory, ["#!/bin/bash"], q1, files, command, "bash .job_file") ==
            GenEffect(directory, ["#!/bin/bash"], q2, files, command, "bash .job_file")
  {
    assert GetOr(q1, "config", VNone) == GetOr(q2, "config", VNone);
  }
}
