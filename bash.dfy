// The bash job-script writer: a shebang, the environment block, the
// command and the block placed after it, joined by newlines into
// `<script_dir>/.job_file`, and run with `bash .job_file`.

module BashScheduler {
  import opened PyStr
  import opened PyDict
  import opened Json
  import opened PyErr
  import opened FileSys
  import opened SchedBase

  /** The `lines` list of `write_script`; the post block may hold a non-string value. */
  function BashLines(s: Scheduler): seq<Value>
  {
    [VStr("#!/bin/bash"), VStr("")] +
    (if s.configScript != "" then [VStr(s.configScript), VStr("")] else []) +
    [VStr(s.command), VStr("")] +
    (if Truthy(s.postScript) then [s.postScript] else [])
  }

  /** The same lines as strings, for a post block that is a string or falsy. */
  function BashStrLines(s: Scheduler): seq<string>
  {
    ["#!/bin/bash", ""] +
    (if s.configScript != "" then [s.configScript, ""] else []) +
    [s.command, ""] +
    (if Truthy(s.postScript) && s.postScript.VStr? then [s.postScript.s] else [])
  }

  /** `"\n".join(lines)`, which fails on a truthy non-string post block. */
  function ScriptText(s: Scheduler): Result<string>
  {
    JoinLines("\n", BashLines(s))
  }

  /** `os.path.join(script_dir, job_file)`. */
  function JobPath(s: Scheduler): string
  {
    PathJoin(s.scriptDir, s.jobFile)
  }

  /** The script is written exactly when the post block is a string or falsy, and then it is the joined string lines. */
  lemma ScriptTextOk(s: Scheduler)
    ensures ScriptText(s).Ok? <==> !Truthy(s.postScript) || s.postScript.VStr?
    ensures ScriptText(s).Ok? ==> ScriptText(s).value == Join("\n", BashStrLines(s))
  {
    var ls := BashLines(s);
    if !Truthy(s.postScript) || s.postScript.VStr? {
      assert IsStrList(ls);
      assert StrItems(ls) == BashStrLines(s);
    } else {
      assert ls[|ls| - 1] == s.postScript;
    }
  }

  /** The lines up to the command line: the shebang, a blank line, and the environment block with its blank line when it is non-empty. */
  function HeadLines(s: Scheduler): seq<string>
  {
    ["#!/bin/bash", ""] + (if s.configScript != "" then [s.configScript, ""] else []) + [s.command]
  }

  /**
   * The text is the head lines, then a newline ending the command line and
   * the blank line after it; a post block follows that blank line, and
   * without one the text ends right after the command's newline.
   */
  lemma ScriptLayout(s: Scheduler)
    requires ScriptText(s).Ok?
    ensures StartsWith(ScriptText(s).value, Join("\n", HeadLines(s)) + "\n")
    ensures !Truthy(s.postScript) ==> ScriptText(s).value == Join("\n", HeadLines(s)) + "\n"
    ensures Truthy(s.postScript) ==> s.postScript.VStr? && ScriptText(s).value == Join("\n", HeadLines(s)) + "\n" + "\n" + s.postScript.s
  {
    ScriptTextOk(s);
    var h := HeadLines(s);
    var t := ScriptText(s).value;
    if !Truthy(s.postScript) {
      assert BashStrLines(s) == h + [""];
      JoinAppend("\n", h, "");
      assert t == Join("\n", h) + "\n";
    } else {
      assert BashStrLines(s) == h + ["", s.postScript.s];
      JoinConcat("\n", h, ["", s.postScript.s]);
      assert Join("\n", ["", s.postScript.s]) == "" + "\n" + s.postScript.s by {
        JoinCons("\n", "", [s.postScript.s]);
      }
      assert t == Join("\n", h) + "\n" + ("" + "\n" + s.postScript.s);
      assert t == (Join("\n", h) + "\n") + ("\n" + s.postScript.s);
    }
    StartsWithConcat(Join("\n", h) + "\n", t[|Join("\n", h) + "\n"|..]);
    assert t == (Join("\n", h) + "\n") + t[|Join("\n", h) + "\n"|..];
  }

  /** The script begins with the shebang line and a blank line. */
  lemma ScriptStartsWithShebang(s: Scheduler)
    requires ScriptText(s).Ok?
    ensures StartsWith(ScriptText(s).value, "#!/bin/bash" + "\n" + "" + "\n")
  {
    ScriptLayout(s);
    var h := HeadLines(s);
    var rest := (if s.configScript != "" then [s.configScript, ""] else []) + [s.command];
    assert h == ["#!/bin/bash"] + ([""] + rest);
    JoinCons("\n", "#!/bin/bash", [""] + rest);
    JoinCons("\n", "", rest);
    var t := ScriptText(s).value;
    var p := "#!/bin/bash" + "\n" + "" + "\n";
    assert Join("\n", h) + "\n" == p + (Join("\n", rest) + "\n");
    assert t[..|p|] == p;
  }

  /** Without a post block the text ends with the command and one newline; with one it ends with a newline and that block. */
  lemma ScriptEnd(s: Scheduler)
    requires ScriptText(s).Ok?
    ensures !Truthy(s.postScript) ==> EndsWith(ScriptText(s).value, s.command + "\n")
    ensures Truthy(s.postScript) ==> s.postScript.VStr? && EndsWith(ScriptText(s).value, "\n" + s.postScript.s)
  {
    ScriptLayout(s);
    var h := HeadLines(s);
    var front := ["#!/bin/bash", ""] + (if s.configScript != "" then [s.configScript, ""] else []);
    assert h == front + [s.command];
    JoinAppend("\n", front, s.command);
    if !Truthy(s.postScript) {
      assert ScriptText(s).value == (Join("\n", front) + "\n") + (s.command + "\n");
      EndsWithConcat(Join("\n", front) + "\n", s.command + "\n");
    } else {
      assert s.postScript.VStr?;
      assert ScriptText(s).value == (Join("\n", h) + "\n") + ("\n" + s.postScript.s);
      EndsWithConcat(Join("\n", h) + "\n", "\n" + s.postScript.s);
    }
  }

  /** `write_script`: build `lines` by appends, then write their join (the file is left empty when the join fails). */
  method WriteScript(s: Scheduler, fs: FileStore) returns (outcome: Outcome)
    modifies fs
    ensures fs.files == old(fs.files)[JobPath(s) := if ScriptText(s).Ok? then ScriptText(s).value else ""]
    ensures outcome == if ScriptText(s).Ok? then Done else Raised(ScriptText(s).exc)
  {
    var lines := [VStr("#!/bin/bash"), VStr("")];
    if s.configScript != "" {
      lines := lines + [VStr(s.configScript)];
      lines := lines + [VStr("")];
    }
    lines := lines + [VStr(s.command)];
    lines := lines + [VStr("")];
    if Truthy(s.postScript) {
      lines := lines + [s.postScript];
    }
    assert lines == BashLines(s);
    var text := JoinLines("\n", lines);
    if text.Err? {
      fs.Write(PathJoin(s.scriptDir, s.jobFile), "");
      return Raised(text.exc);
    }
    fs.Write(PathJoin(s.scriptDir, s.jobFile), text.value);
    outcome := Done;
  }

  /** `submit_command()`: "bash " and the job file name. */
  function SubmitCommand(s: Scheduler): string
  {
    "bash " + s.jobFile
  }
}
