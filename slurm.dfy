// `SlurmScheduler` of schedulers/slurm.py: the `#SBATCH` job script built
// from the scheduler settings, and the reply of `sbatch` turned into a
// submission result. The settings are fields of `BaseScheduler`, which is
// not part of this model; they come in as one record.

module Slurm {
  import opened PyStr
  import opened PyDict
  import opened Json
  import opened PyErr
  import opened JobText

  /** The `BaseScheduler` fields the Slurm script reads. */
  datatype Settings = Settings(
    workingDir: string, jobName: Value, nodes: int, cores: int, time: Value, partition: Value,
    memory: Value, account: Value, email: Value, emailEvents: Value, extraParams: Dict<string, Value>)

  /** Python's `a // b`: the quotient rounded toward negative infinity. */
  function FloorDiv(a: int, b: int): (q: int)
    requires b != 0
    ensures b > 0 ==> q * b <= a < q * b + b
    ensures b < 0 ==> q * b + b < a <= q * b
  {
    if b > 0 then a / b
    else
      var q := (-a) / (-b);
      assert q * (-b) == -(q * b);
      q
  }

  /** `ZeroDivisionError` from `cores // nodes` with zero nodes. */
  const ZeroNodes := Exc("ZeroDivisionError", "integer division or modulo by zero")

  /** The job script template, filled in. */
  function HeaderLines(s: Settings): (r: seq<string>)
    requires s.nodes != 0
  {
    ["#!/bin/bash -l",
     "#SBATCH --job-name=" + Show(s.jobName),
     "#SBATCH --nodes=" + IntToString(s.nodes),
     "#SBATCH --ntasks-per-node=" + IntToString(FloorDiv(s.cores, s.nodes)),
     "#SBATCH --time=" + Show(s.time),
     "#SBATCH --partition=" + Show(s.partition),
     "#SBATCH --output=" + Show(s.jobName) + ".%j.out",
     "#SBATCH --error=" + Show(s.jobName) + ".%j.err"]
  }

  const MemHead := "#SBATCH --mem="
  const AccountHead := "#SBATCH --account="
  const MailUserHead := "#SBATCH --mail-user="
  const MailTypeHead := "#SBATCH --mail-type="

  /** The optional directives, each present when its setting is truthy. */
  function OptionLines(s: Settings): seq<string>
  {
    (if Truthy(s.memory) then [MemHead + Show(s.memory)] else []) +
    (if Truthy(s.account) then [AccountHead + Show(s.account)] else []) +
    (if Truthy(s.email) then [MailUserHead + Show(s.email), MailTypeHead + Show(s.emailEvents)] else [])
  }

  /** The place of an optional directive in the fixed order mem, account, mail-user, mail-type (4: none of them). */
  function OptionRank(line: string): (n: nat)
    ensures n <= 4
  {
    if StartsWith(line, MemHead) then 0
    else if StartsWith(line, AccountHead) then 1
    else if StartsWith(line, MailUserHead) then 2
    else if StartsWith(line, MailTypeHead) then 3
    else 4
  }

  lemma RankMem(v: string)
    ensures OptionRank(MemHead + v) == 0
  {
    StartsWithConcat(MemHead, v);
  }

  lemma RankAccount(v: string)
    ensures OptionRank(AccountHead + v) == 1
  {
    StartsWithConcat(AccountHead, v);
    DiffersAt(AccountHead + v, MemHead, AccountHead, 10);
  }

  lemma RankMailUser(v: string)
    ensures OptionRank(MailUserHead + v) == 2
  {
    StartsWithConcat(MailUserHead, v);
    DiffersAt(MailUserHead + v, MemHead, MailUserHead, 11);
    DiffersAt(MailUserHead + v, AccountHead, MailUserHead, 10);
  }

  lemma RankMailType(v: string)
    ensures OptionRank(MailTypeHead + v) == 3
  {
    StartsWithConcat(MailTypeHead, v);
    DiffersAt(MailTypeHead + v, MemHead, MailTypeHead, 11);
    DiffersAt(MailTypeHead + v, AccountHead, MailTypeHead, 10);
    DiffersAt(MailTypeHead + v, MailUserHead, MailTypeHead, 15);
  }

  /** Blocks of ranked lines, each present or not, come in rank order. */
  lemma RankedBlocksOrder(a: bool, b: bool, c: bool, l0: string, l1: string, l2: string, l3: string)
    requires OptionRank(l0) == 0 && OptionRank(l1) == 1 && OptionRank(l2) == 2 && OptionRank(l3) == 3
    ensures var r := (if a then [l0] else []) + (if b then [l1] else []) + (if c then [l2, l3] else []);
      |r| <= 4 &&
      (forall i, j :: 0 <= i < j < |r| ==> OptionRank(r[i]) < OptionRank(r[j])) &&
      (forall i :: 0 <= i < |r| ==> OptionRank(r[i]) < 4)
  {
    var r := (if a then [l0] else []) + (if b then [l1] else []) + (if c then [l2, l3] else []);
    var ranks := (if a then [0] else []) + (if b then [1] else []) + (if c then [2, 3] else []);
    assert |r| == |ranks| && forall i :: 0 <= i < |r| ==> OptionRank(r[i]) == ranks[i];
  }

  /** Each block's rank occurs exactly when the block is present. */
  lemma RankedBlocksPresence(a: bool, b: bool, c: bool, l0: string, l1: string, l2: string, l3: string)
    requires OptionRank(l0) == 0 && OptionRank(l1) == 1 && OptionRank(l2) == 2 && OptionRank(l3) == 3
    ensures var r := (if a then [l0] else []) + (if b then [l1] else []) + (if c then [l2, l3] else []);
      ((exists i :: 0 <= i < |r| && OptionRank(r[i]) == 0) <==> a) &&
      ((exists i :: 0 <= i < |r| && OptionRank(r[i]) == 1) <==> b) &&
      ((exists i :: 0 <= i < |r| && OptionRank(r[i]) == 2) <==> c) &&
      ((exists i :: 0 <= i < |r| && OptionRank(r[i]) == 3) <==> c)
  {
    var r := (if a then [l0] else []) + (if b then [l1] else []) + (if c then [l2, l3] else []);
    var ranks := (if a then [0] else []) + (if b then [1] else []) + (if c then [2, 3] else []);
    assert |r| == |ranks| && forall i :: 0 <= i < |r| ==> OptionRank(r[i]) == ranks[i];
    var ia := if a then 1 else 0;
    var ib := ia + (if b then 1 else 0);
    if a {
      assert OptionRank(r[0]) == 0;
    }
    if b {
      assert OptionRank(r[ia]) == 1;
    }
    if c {
      assert OptionRank(r[ib]) == 2 && OptionRank(r[ib + 1]) == 3;
    }
  }

  /**
   * The optional directives come in the order mem, account, mail-user,
   * mail-type; each appears exactly when its setting is truthy, and the two
   * mail lines appear together, both when an email is set.
   */
  lemma OptionOrder(s: Settings)
    ensures var r := OptionLines(s);
      |r| <= 4 &&
      (forall i, j :: 0 <= i < j < |r| ==> OptionRank(r[i]) < OptionRank(r[j])) &&
      (forall i :: 0 <= i < |r| ==> OptionRank(r[i]) < 4) &&
      ((exists i :: 0 <= i < |r| && OptionRank(r[i]) == 0) <==> Truthy(s.memory)) &&
      ((exists i :: 0 <= i < |r| && OptionRank(r[i]) == 1) <==> Truthy(s.account)) &&
      ((exists i :: 0 <= i < |r| && OptionRank(r[i]) == 2) <==> Truthy(s.email)) &&
      ((exists i :: 0 <= i < |r| && OptionRank(r[i]) == 3) <==> Truthy(s.email))
  {
    var l0, l1 := MemHead + Show(s.memory), AccountHead + Show(s.account);
    var l2, l3 := MailUserHead + Show(s.email), MailTypeHead + Show(s.emailEvents);
    RankMem(Show(s.memory));
    RankAccount(Show(s.account));
    RankMailUser(Show(s.email));
    RankMailType(Show(s.emailEvents));
    RankedBlocksOrder(Truthy(s.memory), Truthy(s.account), Truthy(s.email), l0, l1, l2, l3);
    RankedBlocksPresence(Truthy(s.memory), Truthy(s.account), Truthy(s.email), l0, l1, l2, l3);
  }

  const SbatchKey := "sbatch_"

  /** An `extra_params` entry that becomes a directive. */
  predicate IsSbatch(e: (string, Value))
  {
    StartsWith(e.0, SbatchKey)
  }

  /** The `extra_params` entries whose key starts with "sbatch_", in order. */
  function SbatchEntries(p: Dict<string, Value>): (r: Dict<string, Value>)
    ensures |r| <= |p|
  {
    if |p| == 0 then []
    else SbatchEntries(p[..|p| - 1]) + (if IsSbatch(p[|p| - 1]) then [p[|p| - 1]] else [])
  }

  /** An entry is passed on exactly when it is in `extra_params` with a "sbatch_" key. */
  lemma {:induction false} SbatchEntriesExactly(p: Dict<string, Value>, e: (string, Value))
    ensures e in SbatchEntries(p) <==> e in p && IsSbatch(e)
    decreases |p|
  {
    if |p| > 0 {
      SbatchEntriesExactly(p[..|p| - 1], e);
      assert p == p[..|p| - 1] + [p[|p| - 1]];
    }
  }

  /** `#SBATCH <key with every "sbatch_" replaced by "--">=<value>`. */
  function ExtraLine(e: (string, Value)): string
  {
    "#SBATCH " + ReplaceAll(e.0, SbatchKey, "--") + "=" + Show(e.1)
  }

  function ExtraLines(p: Dict<string, Value>): (r: seq<string>)
    ensures |r| == |SbatchEntries(p)|
    ensures forall i :: 0 <= i < |r| ==> r[i] == ExtraLine(SbatchEntries(p)[i])
  {
    seq(|SbatchEntries(p)|, i requires 0 <= i < |SbatchEntries(p)| => ExtraLine(SbatchEntries(p)[i]))
  }

  /**
   * A "sbatch_<name>" key becomes the option "--<name>", with any further
   * "sbatch_" inside the name also replaced; a name without one is kept as is.
   */
  lemma ExtraLineOption(name: string, v: Value)
    ensures ExtraLine((SbatchKey + name, v)) == "#SBATCH " + ("--" + ReplaceAll(name, SbatchKey, "--")) + "=" + Show(v)
    ensures !Contains(name, SbatchKey) ==> ExtraLine((SbatchKey + name, v)) == "#SBATCH " + ("--" + name) + "=" + Show(v)
  {
    var k := SbatchKey + name;
    KeyRename(name);
    if !Contains(name, SbatchKey) {
      ReplaceCountAbsent(name, SbatchKey, "--", 0);
    }
  }

  lemma KeyRename(name: string)
    ensures ReplaceAll(SbatchKey + name, SbatchKey, "--") == "--" + ReplaceAll(name, SbatchKey, "--")
  {
    var k := SbatchKey + name;
    StartsWithConcat(SbatchKey, name);
    FindFirst(k, SbatchKey, 0);
    assert k[|SbatchKey|..] == name;
  }

  /** The loop over `extra_params` after `i` entries, extended by entry `i`. */
  lemma ExtraStep(p: Dict<string, Value>, i: nat)
    requires i < |p|
    ensures ExtraLines(p[..i + 1]) == ExtraLines(p[..i]) + (if IsSbatch(p[i]) then [ExtraLine(p[i])] else [])
  {
    assert p[..i + 1][..i] == p[..i];
  }

  const SetupLines := ["", "# Environment setup", "echo \"Starting job at $(date)\"",
                       "echo \"Working directory: $(pwd)\"", "echo \"Job ID: $SLURM_JOB_ID\"", "", "# Job commands"]
  const CleanupLines := ["", "# Cleanup", "echo \"Job completed at $(date)\""]

  /** The directive part of the script: template, optional directives, extra parameters. */
  function DirectiveLines(s: Settings): seq<string>
    requires s.nodes != 0
  {
    HeaderLines(s) + OptionLines(s) + ExtraLines(s.extraParams)
  }

  /** The lines of the generated script. */
  function SlurmLines(s: Settings, commands: seq<string>): seq<string>
    requires s.nodes != 0
  {
    DirectiveLines(s) + SetupLines + commands + CleanupLines
  }

  /** `generate_script(commands)`; zero nodes fail on the division. */
  function SlurmScript(s: Settings, commands: seq<string>): (r: Result<string>)
    ensures r.Err? <==> s.nodes == 0
  {
    if s.nodes == 0 then Err(ZeroNodes) else Ok(Unlines(SlurmLines(s, commands)))
  }

  /**
   * The script opens with the filled template, then come the optional
   * directives and one line per "sbatch_" entry.
   */
  lemma SlurmDirectivesLayout(s: Settings, commands: seq<string>)
    requires s.nodes != 0
    ensures var lines := SlurmLines(s, commands);
      var o := |OptionLines(s)|;
      var x := |SbatchEntries(s.extraParams)|;
      8 + o + x <= |lines| &&
      lines[..8] == HeaderLines(s) &&
      lines[8..8 + o] == OptionLines(s) &&
      lines[8 + o..8 + o + x] == ExtraLines(s.extraParams)
  {
    Layout(HeaderLines(s), OptionLines(s), ExtraLines(s.extraParams), SetupLines, commands, CleanupLines);
  }

  /**
   * The template has 8 lines, opens with the shell line, and its task count
   * per node (floor division) times the node count never exceeds the cores
   * for a positive node count.
   */
  lemma TemplateLines(s: Settings)
    requires s.nodes != 0
    ensures var h := HeaderLines(s);
      |h| == 8 && h[0] == "#!/bin/bash -l" &&
      h[3] == "#SBATCH --ntasks-per-node=" + IntToString(FloorDiv(s.cores, s.nodes)) &&
      (s.nodes > 0 ==> FloorDiv(s.cores, s.nodes) * s.nodes <= s.cores)
  {
  }

  /** Where the blocks of a script made of a header of 8 lines and further blocks sit. */
  lemma Layout(h: seq<string>, op: seq<string>, ex: seq<string>, a: seq<string>, b: seq<string>, c: seq<string>)
    requires |h| == 8
    ensures var lines := h + op + ex + a + b + c;
      8 + |op| + |ex| <= |lines| && lines[..8] == h &&
      lines[8..8 + |op|] == op && lines[8 + |op|..8 + |op| + |ex|] == ex
  {
  }

  /**
   * The commands appear one per line and in order between the
   * "# Job commands" line and the "# Cleanup" block that ends the script.
   */
  lemma SlurmCommandsBlock(s: Settings, commands: seq<string>)
    requires s.nodes != 0
    ensures var lines := SlurmLines(s, commands);
      var m := |lines| - |commands| - 4;
      m >= 0 && lines[m] == "# Job commands" && lines[m + 1..m + 1 + |commands|] == commands &&
      lines[m + 1 + |commands|..] == CleanupLines
  {
    var lines := SlurmLines(s, commands);
    var d := DirectiveLines(s) + SetupLines;
    assert lines == d + commands + CleanupLines;
    assert |d| == |DirectiveLines(s)| + 7 && d[|d| - 1] == SetupLines[6];
  }

  /**
   * The script text ends with the "# Job commands" line, the commands one
   * per line, and the cleanup block.
   */
  lemma SlurmCommandsText(s: Settings, commands: seq<string>)
    requires s.nodes != 0
    ensures EndsWith(SlurmScript(s, commands).value, Unlines(["# Job commands"] + commands + CleanupLines))
  {
    var d := DirectiveLines(s) + SetupLines[..6];
    var tail := ["# Job commands"] + commands + CleanupLines;
    assert SlurmLines(s, commands) == d + tail;
    UnlinesSuffix(d, tail);
  }

  /**
   * `generate_script`, growing the script text as the source does; the
   * fixed blocks of lines 56-59 and 66-67 are appended as their lines.
   */
  method GenerateScript(s: Settings, commands: seq<string>) returns (r: Result<string>)
    ensures r == SlurmScript(s, commands)
  {
    if s.nodes == 0 {
      return Err(ZeroNodes);
    }
    var script := Unlines(HeaderLines(s));
    var opt := OptionText(s);
    var extra := ExtraText(s.extraParams);
    var body := LinesText(commands);
    script := script + opt + extra + Unlines(SetupLines) + body + Unlines(CleanupLines);
    UnlinesAppend(HeaderLines(s), OptionLines(s));
    UnlinesAppend(HeaderLines(s) + OptionLines(s), ExtraLines(s.extraParams));
    UnlinesAppend(DirectiveLines(s), SetupLines);
    UnlinesAppend(DirectiveLines(s) + SetupLines, commands);
    UnlinesAppend(DirectiveLines(s) + SetupLines + commands, CleanupLines);
    r := Ok(script);
  }

  /** Lines 38-48: the optional directives, one line each, in the order of the `if` blocks. */
  method OptionText(s: Settings) returns (text: string)
    ensures text == Unlines(OptionLines(s))
  {
    var opts: seq<string> := [];
    if Truthy(s.memory) {
      opts := opts + [MemHead + Show(s.memory)];
    }
    if Truthy(s.account) {
      opts := opts + [AccountHead + Show(s.account)];
    }
    if Truthy(s.email) {
      opts := opts + [MailUserHead + Show(s.email), MailTypeHead + Show(s.emailEvents)];
    }
    assert opts == OptionLines(s);
    text := Unlines(opts);
  }

  /** Lines 51-54: the loop over `extra_params`. */
  method ExtraText(p: Dict<string, Value>) returns (text: string)
    ensures text == Unlines(ExtraLines(p))
  {
    text := "";
    var i := 0;
    while i < |p|
      invariant 0 <= i <= |p|
      invariant text == Unlines(ExtraLines(p[..i]))
    {
      ExtraTextStep(p, i);
      if StartsWith(p[i].0, SbatchKey) {
        var paramName := ReplaceAll(p[i].0, SbatchKey, "--");
        var line := "#SBATCH " + paramName + "=" + Show(p[i].1);
        text := text + (line + "\n");
      }
      i := i + 1;
    }
    assert p[..i] == p;
  }

  /** The text of the `extra_params` loop after `i` entries, extended by entry `i`. */
  lemma ExtraTextStep(p: Dict<string, Value>, i: nat)
    requires i < |p|
    ensures Unlines(ExtraLines(p[..i + 1])) ==
      Unlines(ExtraLines(p[..i])) + (if IsSbatch(p[i]) then ExtraLine(p[i]) + "\n" else "")
  {
    ExtraStep(p, i);
    if IsSbatch(p[i]) {
      UnlinesSnoc(ExtraLines(p[..i]), ExtraLine(p[i]));
    } else {
      assert ExtraLines(p[..i]) + [] == ExtraLines(p[..i]);
    }
  }

  // ---------------------------------------------------------------
  // Submission
  // ---------------------------------------------------------------

  /** What the command run returned: `returncode`/exit status, stdout and stderr. */
  datatype Completed = Completed(code: int, stdout: string, stderr: string)

  /**
   * The dictionary a submission returns. `code` is the "returncode" (local
   * `sbatch`) or "exit_code" (over SSH) entry present on failure;
   * `scriptPath` the "remote_script_path" entry of a remote success.
   * `SubmitFailed` is the exception path: only "success" (False), "error"
   * and "job_id" (None).
   */
  datatype Submission =
    | Submitted(success: bool, jobId: Option<string>, output: string, error: string,
                code: Option<int>, scriptPath: Option<string>)
    | SubmitFailed(error: string)

  const SubmittedPhrase := "Submitted batch job"

  /** `output.split()[-1]` when the output contains "Submitted batch job", else None. */
  function JobIdOf(output: string): (r: Option<string>)
    ensures r.Some? <==> Contains(output, SubmittedPhrase)
    ensures r.Some? ==> r.value != "" && forall k :: 0 <= k < |r.value| ==> !IsSpace(r.value[k])
  {
    if Contains(output, SubmittedPhrase) then
      var i := Find(output, SubmittedPhrase);
      assert output[i..i + |SubmittedPhrase|][0] == output[i];
      Some(LastWord(output))
    else None
  }

  /** The phrase holds a space after "Submitted". */
  lemma PhraseSpace(s: string, i: int)
    requires OccursAt(s, SubmittedPhrase, i)
    ensures i + 9 < |s| && IsSpace(s[i + 9])
  {
    assert s[i..i + |SubmittedPhrase|][9] == s[i + 9];
  }

  /** In text that ends with a non-space, the last word ends the text and follows a space or starts it. */
  lemma LastWordOfTrimmed(t: string)
    requires t != "" && !IsSpace(t[|t| - 1])
    ensures EndsWith(t, LastWord(t))
    ensures |LastWord(t)| < |t| ==> IsSpace(t[|t| - |LastWord(t)| - 1])
  {
    assert TrimEnd(t, 0, |t|) == |t|;
  }

  /**
   * On stripped output the job id is the last word: it ends the output and
   * whitespace comes right before it.
   */
  lemma JobIdIsLastWord(stdout: string)
    requires Contains(Strip(stdout), SubmittedPhrase)
    ensures var out := Strip(stdout);
      var id := JobIdOf(out).value;
      EndsWith(out, id) && |id| < |out| && IsSpace(out[|out| - |id| - 1])
  {
    var out := Strip(stdout);
    var i := Find(out, SubmittedPhrase);
    PhraseSpace(out, i);
    LastWordOfTrimmed(out);
    var id := LastWord(out);
  }

  /** The reply to a submission: Err is an exception on the way (file, chmod or process). */
  function SubmitReply(run: Result<Completed>, scriptPath: Option<string>): (r: Submission)
  {
    match run
    case Err(e) => SubmitFailed(e.message)
    case Ok(c) =>
      var output := Strip(c.stdout);
      var error := Strip(c.stderr);
      if c.code == 0 then Submitted(true, JobIdOf(output), output, error, None, scriptPath)
      else Submitted(false, None, output, error, Some(c.code), None)
  }

  /**
   * Success exactly when the command ran and returned 0; only a success
   * carries a job id, found exactly when the stripped output mentions
   * "Submitted batch job"; a failure carries the exit status.
   */
  lemma SubmitReplyCases(run: Result<Completed>, scriptPath: Option<string>)
    ensures var r := SubmitReply(run, scriptPath);
      (r.Submitted? <==> run.Ok?) &&
      (r.Submitted? ==> (r.success <==> run.value.code == 0)) &&
      (r.Submitted? && r.success ==> (r.jobId.Some? <==> Contains(Strip(run.value.stdout), SubmittedPhrase))) &&
      (r.Submitted? && !r.success ==> r.jobId.None? && r.code == Some(run.value.code)) &&
      (r.Submitted? ==> r.output == Strip(run.value.stdout) && r.error == Strip(run.value.stderr)) &&
      (r.SubmitFailed? ==> r.error == run.exc.message)
  {
  }

  /** `submit_job` of the local scheduler: `sbatch <temp file>` in the working directory. */
  method SubmitJob(run: Result<Completed>) returns (r: Submission)
    ensures r == SubmitReply(run, None)
    ensures r.Submitted? && r.success ==> r.jobId == JobIdOf(Strip(run.value.stdout))
  {
    if run.Err? {
      return SubmitFailed(run.exc.message);
    }
    var output := Strip(run.value.stdout);
    var error := Strip(run.value.stderr);
    if run.value.code == 0 {
      var jobId := None;
      if Contains(output, SubmittedPhrase) {
        jobId := Some(LastWord(output));
      }
      r := Submitted(true, jobId, output, error, None, None);
    } else {
      r := Submitted(false, None, output, error, Some(run.value.code), None);
    }
  }
}
