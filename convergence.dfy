// The convergence readers of the Espresso calculator in
// xespresso/xespresso.py: `read_convergence` classifies a pw.x output file
// by the first marked line among its last lines, and
// `read_convergence_post` looks for "JOB DONE." in the output of a
// post-processing code. Files are given as a map from path to the list
// `readlines()` returns (each line keeps its newline).

module Convergence {
  import opened PyStr
  import opened PyErr

  /** What `read_convergence` returns: a status code and a message. */
  datatype Status = Status(code: int, message: string)

  const TooManyBands := "too many bands are not converged"
  const NotAchieved := "convergence NOT achieved after"
  const CpuTime := "Maximum CPU time exceeded"
  const JobDone := "JOB DONE."

  /** How many trailing lines each reader looks at. */
  const ScfWindow := 200
  const PostWindow := 100

  /** The status a single line decides, with the markers tested in the source's order. */
  function Mark(line: string): Option<Status>
  {
    if Contains(line, TooManyBands) || Contains(line, NotAchieved) then Some(Status(1, "Reason: " + line))
    else if Contains(line, CpuTime) then Some(Status(2, "Reason: " + line))
    else if Contains(line, JobDone) then Some(Status(0, line))
    else None
  }

  /** A marked line decides one of the codes 0, 1 and 2, and each code has its own marker. */
  lemma MarkCodes(line: string)
    ensures Mark(line).Some? ==> Mark(line).value.code in {0, 1, 2}
    ensures Mark(line).Some? && Mark(line).value.code == 1 <==> Contains(line, TooManyBands) || Contains(line, NotAchieved)
    ensures Mark(line).Some? && Mark(line).value.code == 0 <==>
      Contains(line, JobDone) && !Contains(line, TooManyBands) && !Contains(line, NotAchieved) && !Contains(line, CpuTime)
  {
  }

  /**
   * `lines[-n:-1]` with `n = min(width, len(lines))`: the last `n` lines
   * but the very last one.
   */
  function Window(lines: seq<string>, width: nat): (w: seq<string>)
    requires |lines| >= 1 && width >= 1
    ensures |w| == (if width < |lines| then width else |lines|) - 1
    ensures forall i :: 0 <= i < |w| ==> w[i] == lines[|lines| - 1 - |w| + i]
  {
    var n := if width < |lines| then width else |lines|;
    lines[|lines| - n..|lines| - 1]
  }

  /** The status of the first marked line, scanning in order. */
  function FirstMark(w: seq<string>): Option<Status>
  {
    if w == [] then None
    else if Mark(w[0]).Some? then Mark(w[0])
    else FirstMark(w[1..])
  }

  /** The first marked line decides, and nothing is decided when no line is marked. */
  lemma {:induction false} FirstMarkDecides(w: seq<string>)
    ensures FirstMark(w).None? <==> forall i :: 0 <= i < |w| ==> Mark(w[i]).None?
    ensures forall i :: 0 <= i < |w| && Mark(w[i]).Some? && (forall j :: 0 <= j < i ==> Mark(w[j]).None?) ==>
      FirstMark(w) == Mark(w[i])
  {
    if w != [] {
      FirstMarkDecides(w[1..]);
      assert forall i :: 1 <= i < |w| ==> w[i] == w[1..][i - 1];
    }
  }

  /** The classification once line 2 is a proper header: the first marked line of `lines[-n:-1]`, else 4. */
  function Scanned(lines: seq<string>): Status
    requires |lines| >= 2
  {
    var w := Window(lines, ScfWindow);
    match FirstMark(w)
    case Some(s) => s
    case None => Status(4, Last(w))
  }

  /**
   * The first marked line among `lines[-n:-1]` decides the code and the
   * message; with no marked line the code is 4 with the second-to-last
   * line of the file.
   */
  lemma ScannedDecides(lines: seq<string>)
    requires |lines| >= 2
    ensures var w := Window(lines, ScfWindow);
      forall i :: 0 <= i < |w| && Mark(w[i]).Some? && (forall j :: 0 <= j < i ==> Mark(w[j]).None?) ==>
        Scanned(lines) == Mark(w[i]).value
    ensures var w := Window(lines, ScfWindow);
      (forall i :: 0 <= i < |w| ==> Mark(w[i]).None?) <==> Scanned(lines) == Status(4, lines[|lines| - 2])
  {
    var w := Window(lines, ScfWindow);
    FirstMarkDecides(w);
    forall i | 0 <= i < |w| && Mark(w[i]).Some?
      ensures Scanned(lines) != Status(4, lines[|lines| - 2])
    {
      MarkCodes(w[i]);
      if FirstMark(w).Some? {
        FirstMarkCode(w);
      }
    }
  }

  /** A decided status carries one of the codes of a marked line. */
  lemma {:induction false} FirstMarkCode(w: seq<string>)
    requires FirstMark(w).Some?
    ensures FirstMark(w).value.code in {0, 1, 2}
  {
    MarkCodes(w[0]);
    if Mark(w[0]).None? {
      FirstMarkCode(w[1..]);
    }
  }

  /** `read_convergence` on the output file `<label>.pwo`. */
  function ReadSpec(lab: string, files: map<string, seq<string>>): (r: Result<Status>)
  {
    var output := lab + ".pwo";
    if output !in files then Ok(Status(3, "No pwo output file"))
    else
      var lines := files[output];
      if |lines| == 0 then Ok(Status(1, "pwo file has nothing"))
      // `lines[1].split('starts on')[1]` raises unless line 2 holds the marker.
      else if |lines| < 2 || |Split(lines[1], "starts on")| < 2 then Err(Exc("IndexError", "list index out of range"))
      else Ok(Scanned(lines))
  }

  /** `str.split` yields a second piece exactly when the separator occurs. */
  lemma SplitHasSecond(s: string, sep: string)
    requires sep != ""
    ensures |Split(s, sep)| >= 2 <==> Contains(s, sep)
  {
  }

  /**
   * The outcome of `read_convergence`: 3 exactly for a missing file, 1 with
   * "pwo file has nothing" for an empty one, IndexError exactly when there
   * is no second line holding "starts on", and otherwise the scan.
   */
  lemma ReadCases(lab: string, files: map<string, seq<string>>)
    ensures var r := ReadSpec(lab, files);
      (r.Ok? && r.value.code == 3 <==> lab + ".pwo" !in files) &&
      (lab + ".pwo" !in files ==> r == Ok(Status(3, "No pwo output file")))
    ensures var r := ReadSpec(lab, files);
      lab + ".pwo" in files && files[lab + ".pwo"] == [] ==> r == Ok(Status(1, "pwo file has nothing"))
    ensures var r := ReadSpec(lab, files);
      r.Err? <==> (lab + ".pwo" in files && files[lab + ".pwo"] != [] &&
        (|files[lab + ".pwo"]| < 2 || !Contains(files[lab + ".pwo"][1], "starts on")))
    ensures var r := ReadSpec(lab, files);
      lab + ".pwo" in files && |files[lab + ".pwo"]| >= 2 && Contains(files[lab + ".pwo"][1], "starts on") ==>
        r == Ok(Scanned(files[lab + ".pwo"]))
  {
    var output := lab + ".pwo";
    if output in files {
      var lines := files[output];
      if |lines| >= 2 {
        SplitHasSecond(lines[1], "starts on");
        if Contains(lines[1], "starts on") {
          var w := Window(lines, ScfWindow);
          if FirstMark(w).Some? {
            FirstMarkCode(w);
          }
        }
      }
    }
  }

  /**
   * The final line is never examined: once line 2 is a proper header and
   * the file has a third line, replacing its last line changes nothing.
   */
  lemma LastLineIgnored(lab: string, files: map<string, seq<string>>, other: string)
    requires lab + ".pwo" in files && |files[lab + ".pwo"]| >= 3
    ensures var lines := files[lab + ".pwo"];
      ReadSpec(lab, files) == ReadSpec(lab, files[lab + ".pwo" := lines[..|lines| - 1] + [other]])
  {
    var lines := files[lab + ".pwo"];
    var lines' := lines[..|lines| - 1] + [other];
    assert lines'[1] == lines[1];
    assert Window(lines', ScfWindow) == Window(lines, ScfWindow);
  }

  /** The scan over `lines[-n:-1]`, as the loop it is. */
  method ScanWindow(w: seq<string>) returns (r: Option<Status>)
    ensures r == FirstMark(w)
  {
    var i := 0;
    while i < |w|
      invariant 0 <= i <= |w|
      invariant FirstMark(w) == FirstMark(w[i..])
    {
      assert w[i..][1..] == w[i + 1..];
      var line := w[i];
      if Contains(line, TooManyBands) {
        return Some(Status(1, "Reason: " + line));
      }
      if Contains(line, NotAchieved) {
        return Some(Status(1, "Reason: " + line));
      }
      if Contains(line, CpuTime) {
        return Some(Status(2, "Reason: " + line));
      }
      if Contains(line, JobDone) {
        return Some(Status(0, line));
      }
      i := i + 1;
    }
    r := None;
  }

  /** `read_convergence`, statement by statement. */
  method ReadConvergence(lab: string, files: map<string, seq<string>>) returns (r: Result<Status>)
    ensures r == ReadSpec(lab, files)
  {
    var output := lab + ".pwo";
    if output !in files {
      return Ok(Status(3, "No pwo output file"));
    }
    var lines := files[output];
    if |lines| == 0 {
      return Ok(Status(1, "pwo file has nothing"));
    }
    if |lines| < 2 || |Split(lines[1], "starts on")| < 2 {
      return Err(Exc("IndexError", "list index out of range"));
    }
    var n := if ScfWindow < |lines| then ScfWindow else |lines|;
    var lastLines := lines[|lines| - n..|lines| - 1];
    var found := ScanWindow(lastLines);
    if found.Some? {
      return Ok(found.value);
    }
    r := Ok(Status(4, lastLines[|lastLines| - 1]));
  }

  /** What `read_convergence_post` returns: whether the job is done, and a message. */
  datatype PostStatus = PostStatus(done: bool, message: string)

  /** The first line holding "JOB DONE.", if any. */
  function FirstDone(w: seq<string>): Option<string>
  {
    if w == [] then None
    else if Contains(w[0], JobDone) then Some(w[0])
    else FirstDone(w[1..])
  }

  /** Some line holds "JOB DONE.". */
  predicate DoneIn(w: seq<string>)
  {
    exists i :: 0 <= i < |w| && Contains(w[i], JobDone)
  }

  /** `FirstDone` finds a line exactly when one holds the marker, and returns the earliest. */
  lemma {:induction false} FirstDoneFinds(w: seq<string>)
    ensures FirstDone(w).None? <==> forall i :: 0 <= i < |w| ==> !Contains(w[i], JobDone)
    ensures forall i :: 0 <= i < |w| && Contains(w[i], JobDone) && (forall j :: 0 <= j < i ==> !Contains(w[j], JobDone)) ==>
      FirstDone(w) == Some(w[i])
  {
    if w != [] {
      FirstDoneFinds(w[1..]);
      assert forall i :: 1 <= i < |w| ==> w[i] == w[1..][i - 1];
    }
  }

  /**
   * `read_convergence_post(package)` on `<label>.<package>o`. With a
   * one-line file the loop never binds `line`, so the final `return`
   * raises UnboundLocalError.
   */
  function PostSpec(lab: string, package: string, files: map<string, seq<string>>): (r: Result<PostStatus>)
  {
    var output := lab + "." + package + "o";
    if output !in files then Ok(PostStatus(false, "No pwo output file"))
    else
      var lines := files[output];
      if |lines| == 0 then Ok(PostStatus(false, "pwo file has nothing"))
      else
        var w := Window(lines, PostWindow);
        match FirstDone(w)
        case Some(line) => Ok(PostStatus(true, line))
        case None =>
          if w == [] then Err(Exc("UnboundLocalError", "cannot access local variable 'line' where it is not associated with a value"))
          else Ok(PostStatus(false, Last(w)))
  }

  /**
   * The post-processing output is done exactly when "JOB DONE." occurs in
   * `lines[-n:-1]` with `n = min(100, len(lines))`; a missing or an empty
   * file is not done, and the call raises only for a one-line file without
   * that marker in a line it reads, that is, for every one-line file.
   */
  lemma PostCases(lab: string, package: string, files: map<string, seq<string>>)
    ensures var output := lab + "." + package + "o";
      var r := PostSpec(lab, package, files);
      (output !in files ==> r == Ok(PostStatus(false, "No pwo output file"))) &&
      (output in files && files[output] == [] ==> r == Ok(PostStatus(false, "pwo file has nothing"))) &&
      (r.Err? <==> output in files && |files[output]| == 1) &&
      (output in files && files[output] != [] ==>
        (r.Ok? && r.value.done <==> DoneIn(Window(files[output], PostWindow))))
  {
    var output := lab + "." + package + "o";
    if output in files && files[output] != [] {
      var w := Window(files[output], PostWindow);
      FirstDoneFinds(w);
    }
  }

  /** `read_convergence_post`, statement by statement. */
  method ReadConvergencePost(lab: string, package: string, files: map<string, seq<string>>)
    returns (r: Result<PostStatus>)
    ensures r == PostSpec(lab, package, files)
  {
    var output := lab + "." + package + "o";
    if output !in files {
      return Ok(PostStatus(false, "No pwo output file"));
    }
    var lines := files[output];
    if |lines| == 0 {
      return Ok(PostStatus(false, "pwo file has nothing"));
    }
    var n := if PostWindow < |lines| then PostWindow else |lines|;
    var lastLines := lines[|lines| - n..|lines| - 1];
    var line: Option<string> := None;
    var i := 0;
    while i < |lastLines|
      invariant 0 <= i <= |lastLines|
      invariant FirstDone(lastLines) == FirstDone(lastLines[i..])
      invariant line == if i == 0 then None else Some(lastLines[i - 1])
    {
      assert lastLines[i..][1..] == lastLines[i + 1..];
      line := Some(lastLines[i]);
      if Contains(lastLines[i], JobDone) {
        return Ok(PostStatus(true, lastLines[i]));
      }
      i := i + 1;
    }
    if line.None? {
      return Err(Exc("UnboundLocalError", "cannot access local variable 'line' where it is not associated with a value"));
    }
    r := Ok(PostStatus(false, line.value));
  }
}
