// What the remote job managers (xespresso/remote_job_manager.py and its
// three older copies) share: the local job directory they read, the
// `{user}` template of the remote base directory, and the search for the
// first `.pwi` input in the directory listing.

module JobDirs {
  import opened PyStr
  import opened PyErr
  import opened PyDict
  import opened Json

  /** The local record of a submission. */
  const InfoName := ".remote_info.json"

  /**
   * The local job directory: its listing (None when it does not exist),
   * the text of its regular files by path, and the parsed submission
   * record when `.remote_info.json` exists.
   */
  datatype Disk = Disk(entries: Option<seq<string>>, files: map<string, string>, info: Option<Dict<string, Value>>)

  /** `os.listdir` on a directory that does not exist. */
  function NoDir(dir: string): Exc
  {
    Exc("FileNotFoundError", "[Errno 2] No such file or directory: '" + dir + "'")
  }

  predicate HasBrace(s: string)
  {
    '{' in s || '}' in s
  }

  /**
   * `template.format(user=user)`, for templates whose only replacement
   * field is `{user}`; any other brace is refused.
   */
  function FormatUser(template: string, user: string): Result<string>
  {
    if HasBrace(ReplaceAll(template, "{user}", "")) then
      Err(Exc("ValueError", "unsupported replacement field in " + template))
    else Ok(ReplaceAll(template, "{user}", user))
  }

  /** Text that holds a `{user}` holds a brace. */
  lemma FieldHasBrace(s: string)
    ensures Contains(s, "{user}") ==> '{' in s
  {
    if Contains(s, "{user}") {
      var i := Find(s, "{user}");
      assert s[i..i + 6][0] == '{';
      assert s[i] in s;
    }
  }

  lemma NoBraceConcat(a: string, b: string)
    requires !HasBrace(a) && !HasBrace(b)
    ensures !HasBrace(a + b)
  {
  }

  /** A template without braces is kept as it is. */
  lemma FormatUserPlain(template: string, user: string)
    requires !HasBrace(template)
    ensures FormatUser(template, user) == Ok(template)
  {
    FieldHasBrace(template);
    ReplaceCountAbsent(template, "{user}", "", 0);
    ReplaceCountAbsent(template, "{user}", user, 0);
  }

  /** A single `{user}` between brace-free text is replaced by the user name: `/home/{user}/jobs` becomes `/home/<user>/jobs`. */
  lemma FormatUserOf(a: string, b: string, user: string)
    requires !HasBrace(a) && !HasBrace(b)
    ensures FormatUser(a + "{user}" + b, user) == Ok(a + user + b)
  {
    var t := a + "{user}" + b;
    assert OccursAt(t, "{user}", |a|) by {
      assert t[|a|..|a| + 6] == "{user}";
    }
    FindFirst(t, "{user}", |a|);
    forall j | 0 <= j < |a|
      ensures !OccursAt(t, "{user}", j)
    {
      assert t[j] == a[j];
      assert a[j] in a;
    }
    assert Find(t, "{user}") == |a|;
    assert t[..|a|] == a;
    assert t[|a| + 6..] == b;
    FieldHasBrace(b);
    ReplaceCountAbsent(b, "{user}", user, 0);
    ReplaceCountAbsent(b, "{user}", "", 0);
    NoBraceConcat(a, b);
  }

  /** The first entry of the listing that ends in ".pwi". */
  function FirstPwi(entries: seq<string>): (r: Option<string>)
    ensures r.Some? ==> r.value in entries && EndsWith(r.value, ".pwi")
    ensures r.None? <==> forall i :: 0 <= i < |entries| ==> !EndsWith(entries[i], ".pwi")
  {
    if entries == [] then None
    else if EndsWith(entries[0], ".pwi") then Some(entries[0])
    else FirstPwi(entries[1..])
  }

  /** The loop that scans the listing for the first `.pwi` entry and stops there. */
  method FindPwi(entries: seq<string>) returns (r: Option<string>)
    ensures r == FirstPwi(entries)
  {
    var i := 0;
    while i < |entries|
      invariant 0 <= i <= |entries|
      invariant FirstPwi(entries) == FirstPwi(entries[i..])
    {
      assert entries[i..][1..] == entries[i + 1..];
      if EndsWith(entries[i], ".pwi") {
        return Some(entries[i]);
      }
      i := i + 1;
    }
    r := None;
  }

  /** The listing without `x`. */
  function Without(xs: seq<string>, x: string): (r: seq<string>)
    ensures forall y :: y in r <==> y in xs && y != x
  {
    if xs == [] then [] else (if xs[0] == x then [] else [xs[0]]) + Without(xs[1..], x)
  }

  /** `os.remove` of the record. */
  function RemoveInfo(d: Disk): (r: Disk)
    ensures r.info.None? && r.files == d.files && r.entries.Some? == d.entries.Some?
    ensures d.entries.Some? ==> r.entries.Some? && InfoName !in r.entries.value
  {
    d.(info := None, entries := if d.entries.Some? then Some(Without(d.entries.value, InfoName)) else None)
  }

  /** The record written as `.remote_info.json`. */
  function WriteInfo(d: Disk, rec: Dict<string, Value>): (r: Disk)
    ensures r.info == Some(rec) && r.files == d.files
  {
    d.(info := Some(rec), entries := if d.entries.Some? && InfoName !in d.entries.value then Some(d.entries.value + [InfoName]) else d.entries)
  }

  // ---------------------------------------------------------------
  // The run commands of the older copies
  // ---------------------------------------------------------------

  function Sbatch(rd: string, jobFile: string): string
  {
    "cd " + rd + " && sbatch " + jobFile
  }

  function Bash(rd: string, jobFile: string): string
  {
    "cd " + rd + " && bash " + jobFile
  }

  /** pw.x reads the prefix and writes the file named like it with ".pwi" turned into ".pwo". */
  function PwX(rd: string, prefix: string): string
  {
    "cd " + rd + " && pw.x < " + prefix + " > " + ReplaceAll(prefix, ".pwi", ".pwo")
  }

  /** The three commands differ, whatever the directory, job file and prefix. */
  lemma CommandsDiffer(rd: string, jobFile: string, prefix: string)
    ensures Sbatch(rd, jobFile) != Bash(rd, jobFile)
    ensures Sbatch(rd, jobFile) != PwX(rd, prefix)
    ensures Bash(rd, jobFile) != PwX(rd, prefix)
  {
    var k := |"cd " + rd + " && "|;
    assert Sbatch(rd, jobFile)[k] == 's';
    assert Bash(rd, jobFile)[k] == 'b';
    assert PwX(rd, prefix)[k] == 'p';
  }

  /** In `<p>.pwi`, with no ".pwi" inside `p`, the first ".pwi" is the extension. */
  lemma FindExtension(p: string)
    requires !Contains(p, ".pwi")
    ensures Find(p + ".pwi", ".pwi") == |p|
  {
    var s := p + ".pwi";
    assert OccursAt(s, ".pwi", |p|) by {
      assert s[|p|..|p| + 4] == ".pwi";
    }
    FindFirst(s, ".pwi", |p|);
    ContainsIff(p, ".pwi");
    forall j | 0 <= j < |p|
      ensures !OccursAt(s, ".pwi", j)
    {
      if j + 4 <= |p| {
        assert s[j..j + 4] == p[j..j + 4];
        assert !OccursAt(p, ".pwi", j);
      } else {
        var k := |p| - j;
        assert s[j..j + 4][k] == '.';
        assert ".pwi"[k] != '.';
      }
    }
  }

  /** An input named `<p>.pwi`, with no other ".pwi" in it, writes its output to `<p>.pwo`. */
  lemma PwXOutput(rd: string, p: string)
    requires !Contains(p, ".pwi")
    ensures PwX(rd, p + ".pwi") == "cd " + rd + " && pw.x < " + p + ".pwi > " + p + ".pwo"
  {
    var s := p + ".pwi";
    FindExtension(p);
    assert s[..|p|] == p;
    assert s[|p| + 4..] == "";
    ReplaceCountAbsent("", ".pwi", ".pwo", 0);
    assert ReplaceAll(s, ".pwi", ".pwo") == p + ".pwo";
  }
}
