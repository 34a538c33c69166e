// `LocalScheduler` of schedulers/local.py: a plain bash script, and a
// "submission" that reads the commands back out of the script text and
// runs them one after another in the working directory. What each command
// run returns, or the exception it raises, comes from the environment.

module LocalRun {
  import opened PyStr
  import opened PyErr
  import opened JobText
  import opened Slurm

  /** The word that marks a status line, which `submit_job` skips. */
  const Echo := "echo"
  const StartEcho := Echo + " \"Starting local execution at $(date)\""
  const DoneEcho := Echo + " \"Execution completed at $(date)\""

  /** The lines before the commands: shebang, start message, change of directory. */
  function LocalHead(workingDir: string): seq<string>
  {
    ["#!/bin/bash", "", StartEcho, "cd " + workingDir, ""]
  }

  /** The lines after the commands: the completion message. */
  const LocalTail := ["", DoneEcho]

  /** The lines of `generate_script(commands)`. */
  function LocalLines(workingDir: string, commands: seq<string>): seq<string>
  {
    LocalHead(workingDir) + commands + LocalTail
  }

  function LocalScript(workingDir: string, commands: seq<string>): string
  {
    Unlines(LocalLines(workingDir, commands))
  }

  /**
   * The script opens with the shebang, the start message and the change to
   * the working directory, then has the commands one per line in order, and
   * closes with the completion message.
   */
  lemma LocalLayout(workingDir: string, commands: seq<string>)
    ensures var lines := LocalLines(workingDir, commands);
      |lines| == |commands| + 7 && lines[0] == "#!/bin/bash" && lines[2] == StartEcho &&
      lines[3] == "cd " + workingDir && lines[5..5 + |commands|] == commands && lines[|lines| - 1] == DoneEcho
  {
  }

  /** `generate_script`, with the loop over the commands. */
  method GenerateScript(workingDir: string, commands: seq<string>) returns (script: string)
    ensures script == LocalScript(workingDir, commands)
  {
    script := Unlines(LocalHead(workingDir));
    var body := LinesText(commands);
    script := script + body + Unlines(LocalTail);
    UnlinesAppend(LocalHead(workingDir), commands);
    UnlinesAppend(LocalHead(workingDir) + commands, LocalTail);
  }

  // ---------------------------------------------------------------
  // Reading the commands back
  // ---------------------------------------------------------------

  /** A stripped line that is run: not empty, not a comment, not an `echo`. */
  predicate IsCommand(line: string)
  {
    line != "" && !StartsWith(line, "#") && !StartsWith(line, Echo)
  }

  /** The stripped lines that are run, in order. */
  function CommandsOf(lines: seq<string>): (r: seq<string>)
    ensures |r| <= |lines|
    ensures forall k :: 0 <= k < |r| ==> IsCommand(r[k])
  {
    if |lines| == 0 then []
    else CommandsOf(lines[..|lines| - 1]) + (if IsCommand(Strip(Last(lines))) then [Strip(Last(lines))] else [])
  }

  /** The commands `submit_job` extracts from the script text. */
  function ExtractCommands(script: string): seq<string>
  {
    CommandsOf(Split(script, "\n"))
  }

  /** Every extracted command is a line of the script, stripped. */
  lemma {:induction false} CommandsOfSound(lines: seq<string>, c: string)
    requires c in CommandsOf(lines)
    ensures IsCommand(c) && exists i :: 0 <= i < |lines| && Strip(lines[i]) == c
    decreases |lines|
  {
    var init := lines[..|lines| - 1];
    if c in CommandsOf(init) {
      CommandsOfSound(init, c);
      var i :| 0 <= i < |init| && Strip(init[i]) == c;
      assert lines[i] == init[i];
    } else {
      assert Strip(lines[|lines| - 1]) == c;
    }
  }

  /** Every stripped line that runs is extracted. */
  lemma {:induction false} CommandsOfComplete(lines: seq<string>, i: nat)
    requires i < |lines| && IsCommand(Strip(lines[i]))
    ensures Strip(lines[i]) in CommandsOf(lines)
    decreases |lines|
  {
    var init := lines[..|lines| - 1];
    if i < |init| {
      assert init[i] == lines[i];
      CommandsOfComplete(init, i);
    }
  }

  /** Extraction keeps the order of the lines: it distributes over concatenation. */
  lemma {:induction false} CommandsOfAppend(a: seq<string>, b: seq<string>)
    ensures CommandsOf(a + b) == CommandsOf(a) + CommandsOf(b)
    decreases |b|
  {
    if |b| == 0 {
      assert a + b == a;
    } else {
      assert (a + b)[..|a + b| - 1] == a + b[..|b| - 1];
      CommandsOfAppend(a, b[..|b| - 1]);
      assert Last(a + b) == Last(b);
    }
  }

  /** A line that is already stripped and runs is extracted as it is. */
  predicate CleanCommand(c: string)
  {
    '\n' !in c && Strip(c) == c && IsCommand(c)
  }

  lemma {:induction false} CommandsOfClean(cs: seq<string>)
    requires forall k :: 0 <= k < |cs| ==> CleanCommand(cs[k])
    ensures CommandsOf(cs) == cs
    decreases |cs|
  {
    if |cs| > 0 {
      CommandsOfClean(cs[..|cs| - 1]);
      assert cs == cs[..|cs| - 1] + [Last(cs)];
    }
  }

  /** Lines none of which runs contribute nothing. */
  lemma {:induction false} CommandsOfNone(lines: seq<string>)
    requires forall k :: 0 <= k < |lines| ==> !IsCommand(Strip(lines[k]))
    ensures CommandsOf(lines) == []
    decreases |lines|
  {
    if |lines| > 0 {
      CommandsOfNone(lines[..|lines| - 1]);
    }
  }

  /** A status line is skipped. */
  lemma EchoSkipped(message: string)
    ensures !IsCommand(Strip(Echo + message))
  {
    StripKeepsHead(Echo, message);
  }

  lemma ShebangSkipped()
    ensures !IsCommand(Strip("#!/bin/bash"))
  {
    StripKeepsHead("#", "!/bin/bash");
  }

  /** The `cd` line always runs, whatever the working directory. */
  lemma CdKept(workingDir: string)
    ensures IsCommand(Strip("cd " + workingDir))
  {
    assert "cd " + workingDir == "cd" + (" " + workingDir);
    StripKeepsHead("cd", " " + workingDir);
    var t := Strip("cd " + workingDir);
    DiffersAt(t, "#", "cd", 0);
    DiffersAt(t, Echo, "cd", 0);
  }

  /** Five lines of which only the fourth runs yield that line, stripped. */
  lemma OnlyFourthRuns(l0: string, l1: string, l2: string, l3: string, l4: string)
    requires !IsCommand(Strip(l0)) && !IsCommand(Strip(l1)) && !IsCommand(Strip(l2))
    requires IsCommand(Strip(l3)) && !IsCommand(Strip(l4))
    ensures CommandsOf([l0, l1, l2, l3, l4]) == [Strip(l3)]
  {
    CommandsOfNone([l0, l1, l2]);
    assert [l0, l1, l2, l3, l4][..4] == [l0, l1, l2, l3];
    assert [l0, l1, l2, l3][..3] == [l0, l1, l2];
  }

  /** Of the lines before the commands, only the change of directory is extracted. */
  lemma HeadExtracted(workingDir: string)
    ensures CommandsOf(LocalHead(workingDir)) == [Strip("cd " + workingDir)]
  {
    ShebangSkipped();
    EchoSkipped(" \"Starting local execution at $(date)\"");
    CdKept(workingDir);
    OnlyFourthRuns("#!/bin/bash", "", StartEcho, "cd " + workingDir, "");
  }

  /** Nothing after the commands is extracted. */
  lemma TailExtracted()
    ensures CommandsOf(LocalTail + [""]) == []
  {
    EchoSkipped(" \"Execution completed at $(date)\"");
    CommandsOfNone(LocalTail + [""]);
  }

  lemma HeadSingle(workingDir: string)
    requires '\n' !in workingDir
    ensures SingleLines(LocalHead(workingDir))
  {
    assert '\n' !in StartEcho;
    assert '\n' !in "cd " + workingDir;
    assert '\n' !in "#!/bin/bash";
  }

  lemma TailSingle()
    ensures SingleLines(LocalTail)
  {
    assert '\n' !in DoneEcho;
  }

  lemma SingleLinesConcat(a: seq<string>, b: seq<string>)
    requires SingleLines(a) && SingleLines(b)
    ensures SingleLines(a + b)
  {
    assert forall i :: 0 <= i < |b| ==> (a + b)[|a| + i] == b[i];
  }

  /** The split of a script whose lines hold no newline: its lines, then "" after the last "\n". */
  lemma LocalSplit(workingDir: string, commands: seq<string>)
    requires '\n' !in workingDir
    requires SingleLines(commands)
    ensures Split(LocalScript(workingDir, commands), "\n") == LocalHead(workingDir) + commands + (LocalTail + [""])
  {
    HeadSingle(workingDir);
    TailSingle();
    SingleLinesConcat(LocalHead(workingDir), commands);
    SingleLinesConcat(LocalHead(workingDir) + commands, LocalTail);
    SplitUnlines(LocalLines(workingDir, commands));
  }

  /**
   * Reading the generated script back yields the change to the working
   * directory, then exactly the commands, when these are stripped, runnable
   * lines and the directory holds no newline.
   */
  lemma LocalRoundTrip(workingDir: string, commands: seq<string>)
    requires '\n' !in workingDir
    requires forall k :: 0 <= k < |commands| ==> CleanCommand(commands[k])
    ensures ExtractCommands(LocalScript(workingDir, commands)) == [Strip("cd " + workingDir)] + commands
  {
    assert SingleLines(commands);
    LocalSplit(workingDir, commands);
    CommandsOfAppend(LocalHead(workingDir) + commands, LocalTail + [""]);
    CommandsOfAppend(LocalHead(workingDir), commands);
    HeadExtracted(workingDir);
    TailExtracted();
    CommandsOfClean(commands);
  }

  /** The loop of lines 27-31. */
  method ExtractLoop(script: string) returns (commands: seq<string>)
    ensures commands == ExtractCommands(script)
  {
    var lines := Split(script, "\n");
    commands := [];
    var i := 0;
    while i < |lines|
      invariant 0 <= i <= |lines|
      invariant commands == CommandsOf(lines[..i])
    {
      assert lines[..i + 1][..i] == lines[..i];
      var line := Strip(lines[i]);
      if line != "" && !StartsWith(line, "#") && !StartsWith(line, Echo) {
        commands := commands + [line];
      }
      i := i + 1;
    }
    assert lines[..i] == lines;
  }

  // ---------------------------------------------------------------
  // Running the commands
  // ---------------------------------------------------------------

  /** One entry of the `results` list. */
  datatype CommandResult = CommandResult(command: string, code: int, stdout: string, stderr: string)

  /**
   * What `submit_job` returns: the normal path, or the exception path with
   * only "success" (False), "error" and "job_id" (None).
   */
  datatype LocalReply =
    | Executed(success: bool, jobId: string, output: string, error: string, results: seq<CommandResult>)
    | ExecFailed(error: string)

  /** What the `i`-th `subprocess.run(cmd, shell=True)` returns, or the exception it raises. */
  type Shell = (nat, string) -> Result<Completed>

  /** The results of running the first `n` commands, or the first exception. */
  function RunUpTo(commands: seq<string>, shell: Shell, n: nat): (r: Result<seq<CommandResult>>)
    requires n <= |commands|
    ensures r.Ok? ==> |r.value| == n
  {
    if n == 0 then Ok([])
    else match RunUpTo(commands, shell, n - 1)
      case Err(e) => Err(e)
      case Ok(rs) =>
        match shell(n - 1, commands[n - 1])
        case Err(e) => Err(e)
        case Ok(c) => Ok(rs + [CommandResult(commands[n - 1], c.code, c.stdout, c.stderr)])
  }

  /**
   * The run succeeds exactly when no command raises; then result `i` is
   * command `i` with what it returned. Otherwise the exception is the one of
   * the first command that raised.
   */
  lemma {:induction false} RunUpToCases(commands: seq<string>, shell: Shell, n: nat)
    requires n <= |commands|
    ensures RunUpTo(commands, shell, n).Ok? <==> forall i :: 0 <= i < n ==> shell(i, commands[i]).Ok?
    ensures RunUpTo(commands, shell, n).Ok? ==> forall i :: 0 <= i < n ==>
      RunUpTo(commands, shell, n).value[i] ==
        CommandResult(commands[i], shell(i, commands[i]).value.code, shell(i, commands[i]).value.stdout,
                      shell(i, commands[i]).value.stderr)
    ensures forall j :: 0 <= j < n && shell(j, commands[j]).Err? && (forall i :: 0 <= i < j ==> shell(i, commands[i]).Ok?) ==>
      RunUpTo(commands, shell, n) == Err(shell(j, commands[j]).exc)
    decreases n
  {
    if n > 0 {
      RunUpToCases(commands, shell, n - 1);
    }
  }

  predicate AllZero(rs: seq<CommandResult>)
  {
    forall i :: 0 <= i < |rs| ==> rs[i].code == 0
  }

  function Stdouts(rs: seq<CommandResult>): (r: seq<string>)
    ensures |r| == |rs| && forall i :: 0 <= i < |rs| ==> r[i] == rs[i].stdout
  {
    seq(|rs|, i requires 0 <= i < |rs| => rs[i].stdout)
  }

  function Stderrs(rs: seq<CommandResult>): (r: seq<string>)
    ensures |r| == |rs| && forall i :: 0 <= i < |rs| ==> r[i] == rs[i].stderr
  {
    seq(|rs|, i requires 0 <= i < |rs| => rs[i].stderr)
  }

  /** `submit_job(script_content)`. */
  function LocalSubmit(script: string, shell: Shell): LocalReply
  {
    var commands := ExtractCommands(script);
    match RunUpTo(commands, shell, |commands|)
    case Err(e) => ExecFailed(e.message)
    case Ok(rs) => Executed(AllZero(rs), "local_execution", Join("\n", Stdouts(rs)), Join("\n", Stderrs(rs)), rs)
  }

  /**
   * On the normal path the job id is "local_execution", there is one result
   * per extracted command in order, success holds exactly when every command
   * returned 0, and output and error join the streams with "\n"; when a
   * command raises, the reply carries that exception's message.
   */
  lemma LocalSubmitCases(script: string, shell: Shell)
    ensures var commands := ExtractCommands(script);
      var r := LocalSubmit(script, shell);
      (r.Executed? <==> forall i :: 0 <= i < |commands| ==> shell(i, commands[i]).Ok?) &&
      (r.Executed? ==>
         r.jobId == "local_execution" && |r.results| == |commands| &&
         (forall i :: 0 <= i < |commands| ==>
            r.results[i].command == commands[i] && r.results[i].code == shell(i, commands[i]).value.code) &&
         (r.success <==> forall i :: 0 <= i < |commands| ==> shell(i, commands[i]).value.code == 0) &&
         r.output == Join("\n", Stdouts(r.results)) && r.error == Join("\n", Stderrs(r.results))) &&
      (r.ExecFailed? ==> exists j :: 0 <= j < |commands| && shell(j, commands[j]).Err? &&
                                    r.error == shell(j, commands[j]).exc.message)
  {
    var commands := ExtractCommands(script);
    RunUpToCases(commands, shell, |commands|);
    var r := RunUpTo(commands, shell, |commands|);
    if r.Err? {
      var j := FirstErr(commands, shell, |commands|);
    }
  }

  /** Where the first exception happens, when there is one. */
  lemma {:induction false} FirstErr(commands: seq<string>, shell: Shell, n: nat) returns (j: nat)
    requires n <= |commands|
    requires RunUpTo(commands, shell, n).Err?
    ensures j < n && shell(j, commands[j]).Err? && RunUpTo(commands, shell, n).exc == shell(j, commands[j]).exc
    decreases n
  {
    if RunUpTo(commands, shell, n - 1).Err? {
      j := FirstErr(commands, shell, n - 1);
    } else {
      j := n - 1;
    }
  }

  /** A script with nothing to run succeeds, vacuously, with empty output. */
  lemma NothingToRun(script: string, shell: Shell)
    requires ExtractCommands(script) == []
    ensures LocalSubmit(script, shell) == Executed(true, "local_execution", "", "", [])
  {
  }

  /** `submit_job`: extract, run each command in turn, then gather the results. */
  method SubmitJob(script: string, shell: Shell) returns (r: LocalReply)
    ensures r == LocalSubmit(script, shell)
  {
    var commands := ExtractLoop(script);
    var results: seq<CommandResult> := [];
    var i := 0;
    while i < |commands|
      invariant 0 <= i <= |commands|
      invariant RunUpTo(commands, shell, i) == Ok(results)
    {
      var run := shell(i, commands[i]);
      if run.Err? {
        StaysErr(commands, shell, i + 1);
        return ExecFailed(run.exc.message);
      }
      results := results + [CommandResult(commands[i], run.value.code, run.value.stdout, run.value.stderr)];
      i := i + 1;
    }
    var success := AllReturnedZero(results);
    r := Executed(success, "local_execution", Join("\n", Stdouts(results)), Join("\n", Stderrs(results)), results);
  }

  /** `all(r["returncode"] == 0 for r in results)`. */
  method AllReturnedZero(results: seq<CommandResult>) returns (success: bool)
    ensures success <==> AllZero(results)
  {
    success := true;
    var k := 0;
    while k < |results|
      invariant 0 <= k <= |results|
      invariant success <==> AllZero(results[..k])
    {
      assert results[..k + 1] == results[..k] + [results[k]];
      success := success && results[k].code == 0;
      k := k + 1;
    }
    assert results[..k] == results;
  }

  /** Once a command raises, every longer run raises the same exception. */
  lemma {:induction false} StaysErr(commands: seq<string>, shell: Shell, n: nat)
    requires n <= |commands|
    requires RunUpTo(commands, shell, n).Err?
    ensures RunUpTo(commands, shell, |commands|) == RunUpTo(commands, shell, n)
    decreases |commands| - n
  {
    if n < |commands| {
      StaysErr(commands, shell, n + 1);
    }
  }
}
