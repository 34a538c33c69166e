// The codes manager: where the Quantum ESPRESSO executables of a machine
// are looked for, how each one is found (through a shell whose answers are
// given), the version pw.x prints, the configuration built from what was
// found, and that configuration saved to and loaded from the codes
// directory.

module CodesManager {
  import opened PyStr
  import opened PyErr
  import opened PyDict
  import opened Json
  import opened Codes
  import ConfigStore
  import Migration

  /** The executables looked for, without their ".x". */
  const CommonCodes: seq<string> := [
    "pw", "ph", "pp", "projwfc", "dos", "bands", "neb", "hp", "dynmat", "matdyn", "q2r",
    "pwcond", "turbo_lanczos", "turbo_davidson"]

  /** What a shell command did: its exit status and output, or an exception (a timeout, a failed spawn). */
  datatype Ran = Ran(code: int, stdout: string, stderr: string) | Failed

  /**
   * The machine as the detection sees it: the answer of each shell command
   * (a command without an answer raises), the paths that exist and the
   * paths the user may execute.
   */
  datatype Shell = Shell(answers: map<string, Ran>, present: set<string>, executable: set<string>)

  function Answer(sh: Shell, cmd: string): Ran
  {
    if cmd in sh.answers then sh.answers[cmd] else Failed
  }

  /** The stripped output of a command that exited with status 0, when it is not empty. */
  function Printed(r: Ran): (p: Option<string>)
    ensures p.Some? <==> r.Ran? && r.code == 0 && Strip(r.stdout) != ""
    ensures p.Some? ==> p.value == Strip(r.stdout)
  {
    if r.Ran? && r.code == 0 && Strip(r.stdout) != "" then Some(Strip(r.stdout)) else None
  }

  // ---------------------------------------------------------------
  // Search paths and the module command
  // ---------------------------------------------------------------

  /** A list of search paths the caller passes and keeps. */
  class PathList {
    var items: seq<string>

    constructor (xs: seq<string>)
      ensures items == xs
    {
      items := xs;
    }
  }

  /** A truthy `qe_prefix`: given and not empty. */
  predicate HasPrefix(prefix: Option<string>)
  {
    prefix.Some? && prefix.value != ""
  }

  /**
   * The search paths `detect_codes` uses: the prefix in front of the given
   * paths, or the given paths, or PATH split on ":" (PATH missing counts as
   * empty).
   */
  function SearchPathsOf(given: seq<string>, prefix: Option<string>, pathEnv: Option<string>): seq<string>
  {
    if HasPrefix(prefix) then [prefix.value] + given
    else if given != [] then given
    else Split(if pathEnv.Some? then pathEnv.value else "", ":")
  }

  /** With neither paths nor a prefix, the search paths joined back with ":" are PATH. */
  lemma SearchPathsFromPath(pathEnv: string)
    ensures Join(":", SearchPathsOf([], None, Some(pathEnv))) == pathEnv
  {
    JoinSplit(pathEnv, ":");
  }

  /** A prefix is always the first search path, followed by the given ones in order. */
  lemma PrefixFirst(given: seq<string>, prefix: Option<string>, pathEnv: Option<string>)
    requires HasPrefix(prefix)
    ensures var r := SearchPathsOf(given, prefix, pathEnv);
      |r| == |given| + 1 && r[0] == prefix.value && r[1..] == given
  {
  }

  /**
   * The search-path step of `detect_codes`: a truthy prefix is inserted at
   * the front of the caller's list when that list is not empty (an empty or
   * missing list is replaced by a new one); the caller's list is otherwise
   * left alone.
   */
  method SearchPaths(given: PathList?, prefix: Option<string>, pathEnv: Option<string>) returns (paths: seq<string>)
    modifies given
    ensures paths == SearchPathsOf(if given == null then [] else old(given.items), prefix, pathEnv)
    ensures given != null ==>
      given.items == if HasPrefix(prefix) && old(given.items) != [] then paths else old(given.items)
  {
    if HasPrefix(prefix) {
      if given == null || given.items == [] {
        paths := [prefix.value];
      } else {
        given.items := [prefix.value] + given.items;
        paths := given.items;
      }
    } else if given != null && given.items != [] {
      paths := given.items;
    } else {
      paths := Split(if pathEnv.Some? then pathEnv.value else "", ":");
    }
  }

  /** The load lines of the modules, `str()` of each. */
  function LoadLines(modules: seq<Value>): (r: seq<string>)
    ensures |r| == |modules| && forall i :: 0 <= i < |r| ==> r[i] == "module load " + Show(modules[i])
  {
    if |modules| == 0 then [] else ["module load " + Show(modules[0])] + LoadLines(modules[1..])
  }

  /** `module_cmd`: the load lines joined by " && " with a final " && ", or "" without modules. */
  function ModuleCommand(modules: seq<Value>): string
  {
    if |modules| == 0 then "" else Join(" && ", LoadLines(modules)) + " && "
  }

  /** One "module load m && " per module, in order. */
  function LoadPrefix(modules: seq<Value>): string
  {
    if |modules| == 0 then "" else "module load " + Show(modules[0]) + " && " + LoadPrefix(modules[1..])
  }

  /** The module command is one "module load m && " per module, in order. */
  lemma {:induction false} ModuleCommandIsPrefix(modules: seq<Value>)
    ensures ModuleCommand(modules) == LoadPrefix(modules)
  {
    if |modules| > 1 {
      var lines := LoadLines(modules);
      assert lines[1..] == LoadLines(modules[1..]);
      ModuleCommandIsPrefix(modules[1..]);
      calc {
        ModuleCommand(modules);
        Join(" && ", lines) + " && ";
        lines[0] + " && " + Join(" && ", lines[1..]) + " && ";
        lines[0] + " && " + ModuleCommand(modules[1..]);
      }
    }
  }

  // ---------------------------------------------------------------
  // Finding one executable
  // ---------------------------------------------------------------

  /** Everything the detection of one executable depends on. */
  datatype Search = Search(sh: Shell, paths: seq<string>, moduleCmd: string, ssh: Dict<string, Value>, user: Value)

  /** A path the manual search accepts: it exists and is executable. */
  predicate Usable(sh: Shell, p: string)
  {
    p in sh.present && p in sh.executable
  }

  /** The `which` answer `_detect_local` accepts: status 0 and a stripped output naming an existing path. */
  function LocalWhich(sh: Shell, moduleCmd: string, exe: string): (r: Option<string>)
  {
    var p := Printed(Answer(sh, moduleCmd + "which " + exe));
    if p.Some? && p.value in sh.present then p else None
  }

  /** The first search path holding a usable `exe`. */
  function ManualSearch(sh: Shell, paths: seq<string>, exe: string): Option<string>
  {
    if |paths| == 0 then None
    else if Usable(sh, PathJoin(paths[0], exe)) then Some(PathJoin(paths[0], exe))
    else ManualSearch(sh, paths[1..], exe)
  }

  /** The manual search returns the first search path whose join with `exe` is usable, and nothing when there is none. */
  lemma {:induction false} ManualFirst(sh: Shell, paths: seq<string>, exe: string)
    ensures var r := ManualSearch(sh, paths, exe);
      (r.None? <==> forall i :: 0 <= i < |paths| ==> !Usable(sh, PathJoin(paths[i], exe))) &&
      (r.Some? ==> exists i :: 0 <= i < |paths| && r.value == PathJoin(paths[i], exe) && Usable(sh, r.value) &&
                              forall j :: 0 <= j < i ==> !Usable(sh, PathJoin(paths[j], exe)))
  {
    if |paths| > 0 && !Usable(sh, PathJoin(paths[0], exe)) {
      var tail := paths[1..];
      ManualFirst(sh, tail, exe);
      var r := ManualSearch(sh, paths, exe);
      assert r == ManualSearch(sh, tail, exe);
      if r.None? {
        forall i | 0 <= i < |paths|
          ensures !Usable(sh, PathJoin(paths[i], exe))
        {
          if i > 0 {
            assert paths[i] == tail[i - 1];
          }
        }
      } else {
        var i :| 0 <= i < |tail| && r.value == PathJoin(tail[i], exe) && Usable(sh, r.value) &&
                 forall j :: 0 <= j < i ==> !Usable(sh, PathJoin(tail[j], exe));
        assert paths[i + 1] == tail[i];
        forall j | 0 <= j < i + 1
          ensures !Usable(sh, PathJoin(paths[j], exe))
        {
          if j > 0 {
            assert paths[j] == tail[j - 1];
          }
        }
      }
    }
  }

  /** `_detect_local`: the `which` answer, else the manual search. */
  function LocalFind(sh: Shell, paths: seq<string>, moduleCmd: string, exe: string): Option<string>
  {
    var w := LocalWhich(sh, moduleCmd, exe);
    if w.Some? then w else ManualSearch(sh, paths, exe)
  }

  /** `user@host` of the SSH connection, `str()` of each (None when missing). */
  function Login(ssh: Dict<string, Value>, user: Value): string
  {
    Show(GetOr(ssh, "username", user)) + "@" + Show(GetOr(ssh, "host", VNone))
  }

  function RemoteWhich(login: string, moduleCmd: string, exe: string): string
  {
    "ssh " + login + " '" + moduleCmd + "which " + exe + "'"
  }

  function RemoteTest(login: string, full: string): string
  {
    "ssh " + login + " 'test -x " + full + " && echo " + full + "'"
  }

  /** The remote manual search: each path tested in turn; an exception ends the whole detection with nothing. */
  function RemoteSearch(sh: Shell, login: string, paths: seq<string>, exe: string): Option<string>
  {
    if |paths| == 0 then None
    else
      var r := Answer(sh, RemoteTest(login, PathJoin(paths[0], exe)));
      if r.Failed? then None
      else if Printed(r).Some? then Printed(r)
      else RemoteSearch(sh, login, paths[1..], exe)
  }

  /** The answer of the test of the `i`-th search path. */
  function TestAnswer(sh: Shell, login: string, paths: seq<string>, exe: string, i: nat): Ran
    requires i < |paths|
  {
    Answer(sh, RemoteTest(login, PathJoin(paths[i], exe)))
  }

  /** The test of the `i`-th path ran and printed nothing. */
  predicate Quiet(sh: Shell, login: string, paths: seq<string>, exe: string, i: nat)
    requires i < |paths|
  {
    TestAnswer(sh, login, paths, exe, i).Ran? && Printed(TestAnswer(sh, login, paths, exe, i)).None?
  }

  /** Every test before the `i`-th ran and printed nothing. */
  predicate QuietBefore(sh: Shell, login: string, paths: seq<string>, exe: string, i: nat)
    requires i <= |paths|
  {
    forall j :: 0 <= j < i ==> Quiet(sh, login, paths, exe, j)
  }

  /** The tests of the paths after the first are those of the remaining paths, one position earlier. */
  lemma QuietShift(sh: Shell, login: string, paths: seq<string>, exe: string, i: nat)
    requires i < |paths| - 1
    ensures TestAnswer(sh, login, paths[1..], exe, i) == TestAnswer(sh, login, paths, exe, i + 1)
    ensures QuietBefore(sh, login, paths, exe, i + 1) <==>
            Quiet(sh, login, paths, exe, 0) && QuietBefore(sh, login, paths[1..], exe, i)
  {
    var tail := paths[1..];
    assert forall j :: 0 <= j < |tail| ==> tail[j] == paths[j + 1];
    assert forall j :: 0 <= j < |tail| ==>
      TestAnswer(sh, login, tail, exe, j) == TestAnswer(sh, login, paths, exe, j + 1);
    if Quiet(sh, login, paths, exe, 0) && QuietBefore(sh, login, tail, exe, i) {
      forall j | 0 <= j < i + 1 ensures Quiet(sh, login, paths, exe, j) {
        if j > 0 {
          assert Quiet(sh, login, tail, exe, j - 1);
        }
      }
    }
    if QuietBefore(sh, login, paths, exe, i + 1) {
      forall j | 0 <= j < i ensures Quiet(sh, login, tail, exe, j) {
        assert Quiet(sh, login, paths, exe, j + 1);
      }
    }
  }

  /**
   * The remote search returns the output of the first path test that
   * prints something once every earlier test ran quietly, and finds
   * something only in that case.
   */
  lemma {:induction false} RemoteFirst(sh: Shell, login: string, paths: seq<string>, exe: string)
    ensures forall i :: 0 <= i < |paths| && QuietBefore(sh, login, paths, exe, i) ==>
      Printed(TestAnswer(sh, login, paths, exe, i)).Some? ==>
        RemoteSearch(sh, login, paths, exe) == Printed(TestAnswer(sh, login, paths, exe, i))
    ensures RemoteSearch(sh, login, paths, exe).Some? ==>
      exists i :: 0 <= i < |paths| && QuietBefore(sh, login, paths, exe, i) &&
                  RemoteSearch(sh, login, paths, exe) == Printed(TestAnswer(sh, login, paths, exe, i))
  {
    if |paths| > 0 {
      var tail := paths[1..];
      RemoteFirst(sh, login, tail, exe);
      assert TestAnswer(sh, login, paths, exe, 0) == Answer(sh, RemoteTest(login, PathJoin(paths[0], exe)));
      forall i | 0 <= i < |tail|
        ensures TestAnswer(sh, login, tail, exe, i) == TestAnswer(sh, login, paths, exe, i + 1)
        ensures QuietBefore(sh, login, paths, exe, i + 1) <==>
                Quiet(sh, login, paths, exe, 0) && QuietBefore(sh, login, tail, exe, i)
      {
        QuietShift(sh, login, paths, exe, i);
      }
      var r := RemoteSearch(sh, login, paths, exe);
      forall i | 0 <= i < |paths| && QuietBefore(sh, login, paths, exe, i) && Printed(TestAnswer(sh, login, paths, exe, i)).Some?
        ensures r == Printed(TestAnswer(sh, login, paths, exe, i))
      {
        if i > 0 {
          assert Quiet(sh, login, paths, exe, 0) && QuietBefore(sh, login, tail, exe, i - 1);
        }
      }
      if r.Some? && Quiet(sh, login, paths, exe, 0) {
        var i :| 0 <= i < |tail| && QuietBefore(sh, login, tail, exe, i) &&
                 r == Printed(TestAnswer(sh, login, tail, exe, i));
        assert QuietBefore(sh, login, paths, exe, i + 1);
      } else if r.Some? {
        assert QuietBefore(sh, login, paths, exe, 0);
      }
    }
  }

  /** `_detect_remote`: the remote `which` answer, else the remote manual search; an exception gives nothing. */
  function RemoteFind(sh: Shell, login: string, paths: seq<string>, moduleCmd: string, exe: string): Option<string>
  {
    var w := Answer(sh, RemoteWhich(login, moduleCmd, exe));
    if w.Failed? then None
    else if Printed(w).Some? then Printed(w)
    else RemoteSearch(sh, login, paths, exe)
  }

  /** The path found for `exe`: remotely when an SSH connection is given (a non-empty dict), locally otherwise. */
  function Find(s: Search, exe: string): Option<string>
  {
    if |s.ssh| > 0 then RemoteFind(s.sh, Login(s.ssh, s.user), s.paths, s.moduleCmd, exe)
    else LocalFind(s.sh, s.paths, s.moduleCmd, exe)
  }

  /** `_detect_local` as the program runs it: the `which` call, then the loop over the search paths. */
  method DetectLocal(sh: Shell, exe: string, paths: seq<string>, moduleCmd: string) returns (found: Option<string>)
    ensures found == LocalFind(sh, paths, moduleCmd, exe)
  {
    found := LocalWhich(sh, moduleCmd, exe);
    if found.Some? {
      return;
    }
    var i := 0;
    while i < |paths|
      invariant 0 <= i <= |paths|
      invariant ManualSearch(sh, paths, exe) == ManualSearch(sh, paths[i..], exe)
    {
      var full := PathJoin(paths[i], exe);
      if full in sh.present && full in sh.executable {
        return Some(full);
      }
      assert paths[i..][1..] == paths[i + 1..];
      i := i + 1;
    }
    found := None;
  }

  /** `_detect_remote` as the program runs it: the `which` call, then one test per search path. */
  method DetectRemote(sh: Shell, exe: string, paths: seq<string>, moduleCmd: string, login: string)
    returns (found: Option<string>)
    ensures found == RemoteFind(sh, login, paths, moduleCmd, exe)
  {
    var w := Answer(sh, RemoteWhich(login, moduleCmd, exe));
    if w.Failed? {
      return None;
    }
    if w.code == 0 && Strip(w.stdout) != "" {
      return Some(Strip(w.stdout));
    }
    var i := 0;
    while i < |paths|
      invariant 0 <= i <= |paths|
      invariant RemoteSearch(sh, login, paths, exe) == RemoteSearch(sh, login, paths[i..], exe)
    {
      var r := Answer(sh, RemoteTest(login, PathJoin(paths[i], exe)));
      if r.Failed? {
        return None;
      }
      if r.code == 0 && Strip(r.stdout) != "" {
        return Some(Strip(r.stdout));
      }
      assert paths[i..][1..] == paths[i + 1..];
      i := i + 1;
    }
    found := None;
  }

  // ---------------------------------------------------------------
  // detect_codes
  // ---------------------------------------------------------------

  /** The detected table, one name after another: a name is added when its path is found and not empty. */
  function DetectedFrom(s: Search, names: seq<string>, acc: Dict<string, string>): Dict<string, string>
  {
    if |names| == 0 then acc
    else
      var found := Find(s, names[0] + ".x");
      var next := if found.Some? && found.value != "" then Put(acc, names[0], found.value) else acc;
      DetectedFrom(s, names[1..], next)
  }

  /** The path `detect_codes` records for `name`, if any. */
  function FoundFor(s: Search, name: string): Option<string>
  {
    var found := Find(s, name + ".x");
    if found.Some? && found.value != "" then found else None
  }

  /**
   * A name of `names` maps to the path found for it when one was found;
   * every other name keeps what the accumulator held.
   */
  lemma {:induction false} DetectedGet(s: Search, names: seq<string>, acc: Dict<string, string>, k: string)
    requires Distinct(names)
    ensures Get(DetectedFrom(s, names, acc), k) ==
      if k in names && FoundFor(s, k).Some? then FoundFor(s, k)
      else if k in names then Get(acc, k) else Get(acc, k)
  {
    if |names| > 0 {
      var found := FoundFor(s, names[0]);
      var next := if found.Some? then Put(acc, names[0], found.value) else acc;
      assert Distinct(names[1..]) by {
        forall a, b | 0 <= a < b < |names| - 1 ensures names[1..][a] != names[1..][b] {
          assert names[1..][a] == names[a + 1] && names[1..][b] == names[b + 1];
        }
      }
      assert names[0] !in names[1..] by {
        forall j | 0 <= j < |names| - 1 ensures names[1..][j] != names[0] {
          assert names[1..][j] == names[j + 1];
        }
      }
      assert DetectedFrom(s, names, acc) == DetectedFrom(s, names[1..], next);
      DetectedGet(s, names[1..], next, k);
      if found.Some? {
        PutGet(acc, names[0], found.value, k);
      }
      assert k in names <==> k == names[0] || k in names[1..];
    }
  }

  lemma CommonCodesDistinct()
    ensures Distinct(CommonCodes)
  {
  }

  /** The table `detect_codes` returns for the search `s`. */
  function Detected(s: Search): Dict<string, string>
  {
    DetectedFrom(s, CommonCodes, [])
  }

  /**
   * The detected table maps exactly the common codes whose executable
   * "<name>.x" was found to the path found; no other name is a key.
   */
  lemma DetectedExactly(s: Search, k: string)
    ensures Get(Detected(s), k) == if k in CommonCodes then FoundFor(s, k) else None
  {
    CommonCodesDistinct();
    DetectedGet(s, CommonCodes, [], k);
  }

  /**
   * `detect_codes`: the search paths (the caller's list gains the prefix
   * when it is not empty), the module command, then one detection per
   * common code, locally or over SSH.
   */
  method DetectCodes(given: PathList?, prefix: Option<string>, modules: seq<Value>, ssh: Dict<string, Value>,
                     user: Value, pathEnv: Option<string>, sh: Shell)
    returns (detected: Dict<string, string>)
    modifies given
    ensures var paths := SearchPathsOf(if given == null then [] else old(given.items), prefix, pathEnv);
      detected == Detected(Search(sh, paths, ModuleCommand(modules), ssh, user))
    ensures given != null ==>
      given.items == if HasPrefix(prefix) && old(given.items) != [] then [prefix.value] + old(given.items)
                     else old(given.items)
  {
    var paths := SearchPaths(given, prefix, pathEnv);
    detected := DetectAll(Search(sh, paths, ModuleCommand(modules), ssh, user));
  }

  /** The loop of `detect_codes` over the common codes. */
  method DetectAll(s: Search) returns (detected: Dict<string, string>)
    ensures detected == Detected(s)
  {
    detected := [];
    var i := 0;
    while i < |CommonCodes|
      invariant 0 <= i <= |CommonCodes|
      invariant Detected(s) == DetectedFrom(s, CommonCodes[i..], detected)
    {
      var name := CommonCodes[i];
      var found := FindOne(s, name + ".x");
      if found.Some? && found.value != "" {
        detected := Put(detected, name, found.value);
      }
      assert CommonCodes[i..][1..] == CommonCodes[i + 1..];
      i := i + 1;
    }
  }

  /** One detection, over SSH when a connection is given, locally otherwise. */
  method FindOne(s: Search, exe: string) returns (found: Option<string>)
    ensures found == Find(s, exe)
  {
    if |s.ssh| > 0 {
      found := DetectRemote(s.sh, exe, s.paths, s.moduleCmd, Login(s.ssh, s.user));
    } else {
      found := DetectLocal(s.sh, exe, s.paths, s.moduleCmd);
    }
  }

  // ---------------------------------------------------------------
  // detect_qe_version
  // ---------------------------------------------------------------

  /** The end of the run of digits starting at `i`. */
  function DigitsEnd(s: string, i: nat): (j: nat)
    requires i <= |s|
    ensures i <= j <= |s| && (j == |s| || !IsDigit(s[j]))
    ensures forall k :: i <= k < j ==> IsDigit(s[k])
    decreases |s| - i
  {
    if i < |s| && IsDigit(s[i]) then DigitsEnd(s, i + 1) else i
  }

  /** The match of `\d+\.\d+` starting at `i`, greedy on both digit runs. */
  function VersionAt(s: string, i: nat): (r: Option<string>)
    requires i <= |s|
  {
    if i < |s| && IsDigit(s[i]) then
      var j := DigitsEnd(s, i);
      if j + 1 < |s| && s[j] == '.' && IsDigit(s[j + 1]) then Some(s[i..DigitsEnd(s, j + 1)]) else None
    else None
  }

  /** The first position from `i` on where a match starts, or the end of the text. */
  function VersionStart(s: string, i: nat): (a: nat)
    requires i <= |s|
    ensures i <= a <= |s|
    ensures a < |s| ==> VersionAt(s, a).Some?
    decreases |s| - i
  {
    if i == |s| || VersionAt(s, i).Some? then i else VersionStart(s, i + 1)
  }

  /** `re.search(r'(\d+\.\d+)', s).group(1)`: the leftmost match, if any. */
  function FirstVersion(s: string): Option<string>
  {
    VersionAt(s, VersionStart(s, 0))
  }

  /** Digits, a dot, digits: what `\d+\.\d+` matches. */
  predicate IsVersion(t: string)
  {
    exists p :: 0 < p < |t| - 1 && t[p] == '.' && IsDigits(t[..p]) && IsDigits(t[p + 1..])
  }

  /** A run of digits that ends at a non-digit ends where `DigitsEnd` says. */
  lemma {:induction false} DigitsEndAt(s: string, i: nat, k: nat)
    requires i <= k < |s| && !IsDigit(s[k]) && forall m :: i <= m < k ==> IsDigit(s[m])
    ensures DigitsEnd(s, i) == k
    decreases k - i
  {
    if i < k {
      DigitsEndAt(s, i + 1, k);
    }
  }

  /** `VersionAt` finds a match at `i` exactly when some version text starts there, and then a greedy one. */
  lemma VersionAtExactly(s: string, i: nat)
    requires i <= |s|
    ensures VersionAt(s, i).None? <==> forall n :: i <= n <= |s| ==> !IsVersion(s[i..n])
    ensures VersionAt(s, i).Some? ==>
      var v := VersionAt(s, i).value;
      IsVersion(v) && i + |v| <= |s| && s[i..i + |v|] == v && (i + |v| == |s| || !IsDigit(s[i + |v|]))
  {
    if VersionAt(s, i).Some? {
      VersionAtShape(s, i);
    } else {
      forall n | i <= n <= |s| ensures !IsVersion(s[i..n]) {
        if IsVersion(s[i..n]) {
          VersionHere(s, i, n);
        }
      }
    }
  }

  /** A match found at `i` is version text starting at `i`, followed by no digit. */
  lemma VersionAtShape(s: string, i: nat)
    requires i <= |s| && VersionAt(s, i).Some?
    ensures var v := VersionAt(s, i).value;
      IsVersion(v) && i + |v| <= |s| && s[i..i + |v|] == v && (i + |v| == |s| || !IsDigit(s[i + |v|]))
  {
    var j := DigitsEnd(s, i);
    var e := DigitsEnd(s, j + 1);
    var v := s[i..e];
    assert v[j - i] == '.' && v[..j - i] == s[i..j] && v[j - i + 1..] == s[j + 1..e];
    assert IsDigits(v[..j - i]) && IsDigits(v[j - i + 1..]);
  }

  /** Version text starting at `i` makes `VersionAt` find a match there. */
  lemma VersionHere(s: string, i: nat, n: nat)
    requires i <= n <= |s| && IsVersion(s[i..n])
    ensures VersionAt(s, i).Some?
  {
    var t := s[i..n];
    var p :| 0 < p < |t| - 1 && t[p] == '.' && IsDigits(t[..p]) && IsDigits(t[p + 1..]);
    assert forall m :: i <= m < i + p ==> IsDigit(s[m]) by {
      forall m | i <= m < i + p ensures IsDigit(s[m]) {
        assert t[..p][m - i] == s[m];
      }
    }
    assert s[i + p] == '.';
    assert IsDigit(s[i + p + 1]) by {
      var rest := t[p + 1..];
      assert IsDigit(rest[0]);
      assert rest[0] == t[p + 1] == s[i + p + 1];
    }
    DigitsEndAt(s, i, i + p);
  }

  /** No match starts between `i` and the first match position. */
  lemma {:induction false} NoneBeforeStart(s: string, i: nat)
    requires i <= |s|
    ensures forall a, b :: i <= a < VersionStart(s, i) && a <= b <= |s| ==> !IsVersion(s[a..b])
    decreases |s| - i
  {
    if i < |s| && VersionAt(s, i).None? {
      VersionAtExactly(s, i);
      NoneBeforeStart(s, i + 1);
    }
  }

  /**
   * The version found is the leftmost text of the form digits-dot-digits,
   * taken greedily, and no earlier position starts one; none found means
   * the text holds none.
   */
  lemma VersionLeftmost(s: string)
    ensures FirstVersion(s).None? <==> forall a, b :: 0 <= a <= b <= |s| ==> !IsVersion(s[a..b])
    ensures FirstVersion(s).Some? ==>
      var a := VersionStart(s, 0);
      var v := FirstVersion(s).value;
      IsVersion(v) && a + |v| <= |s| && s[a..a + |v|] == v && (a + |v| == |s| || !IsDigit(s[a + |v|])) &&
      forall a', b :: 0 <= a' < a && a' <= b <= |s| ==> !IsVersion(s[a'..b])
  {
    NoneBeforeStart(s, 0);
    if FirstVersion(s).None? {
      NoVersionAnywhere(s);
    } else {
      VersionAtShape(s, VersionStart(s, 0));
    }
  }

  /** Without a match, no position starts version text. */
  lemma NoVersionAnywhere(s: string)
    requires FirstVersion(s).None?
    ensures forall a, b :: 0 <= a <= b <= |s| ==> !IsVersion(s[a..b])
  {
    var a := VersionStart(s, 0);
    NoneBeforeStart(s, 0);
    assert a == |s|;
    forall a', b | 0 <= a' <= b <= |s| ensures !IsVersion(s[a'..b]) {
      if a' == a {
        assert s[a'..b] == [];
      }
    }
  }

  /** The command that prints the version: pw.x run locally or through SSH, its first five lines. */
  function VersionCommand(pwPath: string, ssh: Dict<string, Value>, user: Value): string
  {
    if |ssh| > 0 then "ssh " + Login(ssh, user) + " '" + pwPath + " --version 2>&1 | head -5'"
    else pwPath + " --version 2>&1 | head -5"
  }

  /**
   * `detect_qe_version`: the leftmost version in stdout followed by stderr,
   * read when the command succeeded or wrote to stderr; nothing when it
   * raised.
   */
  function DetectVersion(sh: Shell, pwPath: string, ssh: Dict<string, Value>, user: Value): Option<string>
  {
    match Answer(sh, VersionCommand(pwPath, ssh, user))
    case Failed => None
    case Ran(code, out, err) => if code == 0 || err != "" then FirstVersion(out + err) else None
  }

  /** A version is only read from a command that ran and either succeeded or wrote to stderr. */
  lemma VersionNeedsOutput(sh: Shell, pwPath: string, ssh: Dict<string, Value>, user: Value)
    ensures var r := Answer(sh, VersionCommand(pwPath, ssh, user));
      DetectVersion(sh, pwPath, ssh, user).Some? ==>
        r.Ran? && (r.code == 0 || r.stderr != "") && IsVersion(DetectVersion(sh, pwPath, ssh, user).value)
  {
    var r := Answer(sh, VersionCommand(pwPath, ssh, user));
    if r.Ran? {
      VersionLeftmost(r.stdout + r.stderr);
    }
  }

  // ---------------------------------------------------------------
  // create_config
  // ---------------------------------------------------------------

  /** The code `create_config` makes for a detected entry. */
  function CodeOf(name: string, path: string, version: Value): Code
  {
    Code(name, VStr(path), version, VNone, VNone)
  }

  /** The codes table after adding the code of each detected entry in turn. */
  function CreatedCodes(detected: Dict<string, string>, version: Value): Dict<string, Code>
  {
    if |detected| == 0 then []
    else
      var last := detected[|detected| - 1];
      Put(CreatedCodes(detected[..|detected| - 1], version), last.0, CodeOf(last.0, last.1, version))
  }

  /** The codes of the detected entries, entry by entry. */
  function CodesOfDetected(detected: Dict<string, string>, version: Value): (r: Dict<string, Code>)
    ensures |r| == |detected|
    ensures forall i :: 0 <= i < |r| ==> r[i] == (detected[i].0, CodeOf(detected[i].0, detected[i].1, version))
  {
    seq(|detected|, i requires 0 <= i < |detected| => (detected[i].0, CodeOf(detected[i].0, detected[i].1, version)))
  }

  /**
   * With distinct detected names, the codes table has the detected names
   * as keys, in order, each with the detected path and the version.
   */
  lemma {:induction false} CreatedExactly(detected: Dict<string, string>, version: Value)
    requires UniqueKeys(detected)
    ensures CreatedCodes(detected, version) == CodesOfDetected(detected, version)
    decreases |detected|
  {
    if |detected| > 0 {
      var n := |detected| - 1;
      var front := detected[..n];
      var k := detected[n].0;
      assert UniqueKeys(front) by {
        forall i, j | 0 <= i < j < |front| ensures front[i].0 != front[j].0 {
          assert front[i] == detected[i] && front[j] == detected[j];
        }
      }
      CreatedExactly(front, version);
      var before := CodesOfDetected(front, version);
      assert !HasKey(before, k) by {
        forall i | 0 <= i < |before| ensures before[i].0 != k {
          assert before[i].0 == detected[i].0;
        }
      }
      CodesOfDetectedSnoc(detected, version);
    }
  }

  /** The codes of the detected entries grow by one code per entry. */
  lemma CodesOfDetectedSnoc(detected: Dict<string, string>, version: Value)
    requires |detected| > 0
    ensures var n := |detected| - 1;
      CodesOfDetected(detected, version) ==
        CodesOfDetected(detected[..n], version) + [(detected[n].0, CodeOf(detected[n].0, detected[n].1, version))]
  {
  }

  /** The configuration `create_config` builds. */
  function CreatedSettings(machineName: Value, detected: Dict<string, string>, version: Value, prefix: Value,
                           modules: Value, environment: Value): Settings
  {
    Settings(machineName, CreatedCodes(detected, version), prefix, version, modules, environment)
  }

  /** `create_config`: a configuration without codes, then `add_code` once per detected entry. */
  method CreateConfig(machineName: Value, detected: Dict<string, string>, version: Value, prefix: Value,
                      modules: Value, environment: Value)
    returns (config: CodesConfig)
    ensures fresh(config)
    ensures config.State() == CreatedSettings(machineName, detected, version, prefix, modules, environment)
  {
    config := new CodesConfig(Settings(machineName, [], prefix, version, modules, environment));
    var i := 0;
    while i < |detected|
      invariant 0 <= i <= |detected|
      invariant config.State() == Settings(machineName, CreatedCodes(detected[..i], version), prefix, version, modules,
                                           environment)
      modifies config
    {
      config.AddCode(CodeOf(detected[i].0, detected[i].1, version));
      assert detected[..i + 1][..i] == detected[..i];
      i := i + 1;
    }
    assert detected[..|detected|] == detected;
  }

  // ---------------------------------------------------------------
  // save_config and load_config
  // ---------------------------------------------------------------

  /** The file name: the one given, else "<machine_name>.json". */
  function ConfigFileName(s: Settings, filename: Option<string>): string
  {
    if filename.Some? && filename.value != "" then filename.value else Show(s.machineName) + ".json"
  }

  /**
   * `save_config`: the output directory is made, then `to_dict` is written
   * as JSON to the file in it; the path written, or the exception.
   */
  function SaveConfig(disk: ConfigStore.Disk, s: Settings, outputDir: string, filename: Option<string>)
    : Result<(string, ConfigStore.Disk)>
  {
    match Migration.MakeDirs(disk, outputDir)
    case Err(e) => Err(e)
    case Ok(made) =>
      var f := ConfigFileName(s, filename);
      match Migration.Save(made, outputDir, f, VDict(SettingsToDict(s)))
      case Err(e) => Err(e)
      case Ok(saved) => Ok((PathJoin(outputDir, f), saved))
  }

  /**
   * A saved configuration is at `output_dir/<machine_name>.json` (or the
   * given name) and reads back as its `to_dict`; nothing else changes.
   */
  lemma SavedAt(disk: ConfigStore.Disk, s: Settings, outputDir: string, filename: Option<string>)
    ensures var r := SaveConfig(disk, s, outputDir, filename);
      r.Ok? ==>
        r.value.0 == PathJoin(outputDir, if filename.Some? && filename.value != "" then filename.value
                                         else Show(s.machineName) + ".json") &&
        ConfigStore.ReadJson(r.value.1, r.value.0) == Ok(VDict(SettingsToDict(s))) &&
        forall p :: p != r.value.0 ==> (p in r.value.1.files <==> p in disk.files) &&
                                       (p in disk.files ==> r.value.1.files[p] == disk.files[p])
  {
    var r := SaveConfig(disk, s, outputDir, filename);
    if r.Ok? {
      var made := Migration.MakeDirs(disk, outputDir).value;
      var f := ConfigFileName(s, filename);
      var saved := Migration.Save(made, outputDir, f, VDict(SettingsToDict(s)));
      assert r == Ok((PathJoin(outputDir, f), saved.value));
      assert saved.value.files == disk.files[PathJoin(outputDir, f) := ConfigStore.Parsed(VDict(SettingsToDict(s)))];
    }
  }

  /** The configuration saved under the machine's name can be written exactly when the directory and the file can. */
  lemma SaveFails(disk: ConfigStore.Disk, s: Settings, outputDir: string, filename: Option<string>)
    requires outputDir in disk.dirs
    ensures var p := PathJoin(outputDir, ConfigFileName(s, filename));
      SaveConfig(disk, s, outputDir, filename).Err? <==> p in disk.dirs || p in disk.denied
  {
  }

  /**
   * `load_config`: the file "<machine_name>.json" in the codes directory,
   * read as JSON and given to `from_dict`; nothing when it is missing or
   * when anything raises.
   */
  function LoadConfig(disk: ConfigStore.Disk, machineName: string, codesDir: string): Option<Settings>
  {
    var p := PathJoin(codesDir, machineName + ".json");
    if !ConfigStore.Exists(disk, p) then None
    else
      match ConfigStore.ReadJson(disk, p)
      case Err(_) => None
      case Ok(doc) =>
        match SettingsFromDict(doc)
        case Err(_) => None
        case Ok(s) => Some(s)
  }

  /**
   * Saving a configuration without a file name and loading it back by its
   * machine name gives the configuration with falsy optional fields as
   * None, provided every code has a path.
   */
  lemma SaveThenLoad(disk: ConfigStore.Disk, s: Settings, name: string, dir: string)
    requires s.machineName == VStr(name) && PathsSet(s.codes)
    requires SaveConfig(disk, s, dir, None).Ok?
    ensures LoadConfig(SaveConfig(disk, s, dir, None).value.1, name, dir) == Some(Normalized(s))
  {
    var saved := SaveConfig(disk, s, dir, None).value;
    SavedAt(disk, s, dir, None);
    assert saved.0 == PathJoin(dir, name + ".json");
    SettingsRoundTrip(s);
    LoadReads(saved.1, name, dir, SettingsToDict(s), Normalized(s));
  }

  /** A file that reads as a dict `from_dict` accepts loads as that configuration. */
  lemma LoadReads(disk: ConfigStore.Disk, name: string, dir: string, d: Dict<string, Value>, s: Settings)
    requires ConfigStore.ReadJson(disk, PathJoin(dir, name + ".json")) == Ok(VDict(d))
    requires SettingsFromDict(VDict(d)) == Ok(s)
    ensures LoadConfig(disk, name, dir) == Some(s)
  {
  }

  /** `load_config` as an object: a new configuration, or none. */
  method LoadConfigObject(disk: ConfigStore.Disk, machineName: string, codesDir: string) returns (config: CodesConfig?)
    ensures config == null <==> LoadConfig(disk, machineName, codesDir).None?
    ensures config != null ==> fresh(config) && config.State() == LoadConfig(disk, machineName, codesDir).value
  {
    var loaded := LoadConfig(disk, machineName, codesDir);
    if loaded.Some? {
      config := new CodesConfig(loaded.value);
    } else {
      config := null;
    }
  }

  // ---------------------------------------------------------------
  // detect_qe_codes and create_codes_config
  // ---------------------------------------------------------------

  /** `qe_prefix` and `modules` as the configuration stores them. */
  function PrefixValue(prefix: Option<string>): Value
  {
    if prefix.Some? then VStr(prefix.value) else VNone
  }

  function ModulesValue(modules: Option<seq<Value>>): Value
  {
    if modules.Some? then VList(modules.value) else VNone
  }

  function ModuleList(modules: Option<seq<Value>>): seq<Value>
  {
    if modules.Some? then modules.value else []
  }

  /** The version `detect_qe_codes` records: the one pw.x prints, when pw was detected. */
  function PwVersion(detected: Dict<string, string>, sh: Shell, ssh: Dict<string, Value>, user: Value): Value
  {
    if HasKey(detected, "pw") then
      match DetectVersion(sh, Get(detected, "pw").value, ssh, user)
      case Some(v) => VStr(v)
      case None => VNone
    else VNone
  }

  /** The configuration `detect_qe_codes` returns for a detected table. */
  function QeCodesSettings(machineName: Value, detected: Dict<string, string>, prefix: Option<string>,
                           modules: Option<seq<Value>>, sh: Shell, ssh: Dict<string, Value>, user: Value): Settings
  {
    if |detected| == 0 then Settings(machineName, [], VNone, VNone, VNone, VNone)
    else
      CreatedSettings(machineName, detected, PwVersion(detected, sh, ssh, user), PrefixValue(prefix),
                      ModulesValue(modules), VNone)
  }

  /**
   * Without detected codes the configuration holds only the machine name;
   * otherwise its codes are the detected ones, each with the version pw.x
   * printed (None when pw was not detected).
   */
  lemma QeCodesCases(machineName: Value, detected: Dict<string, string>, prefix: Option<string>,
                     modules: Option<seq<Value>>, sh: Shell, ssh: Dict<string, Value>, user: Value)
    requires UniqueKeys(detected)
    ensures var s := QeCodesSettings(machineName, detected, prefix, modules, sh, ssh, user);
      s.machineName == machineName &&
      (|detected| == 0 ==> s.codes == [] && s.qePrefix == VNone && s.qeVersion == VNone && s.modules == VNone) &&
      (|detected| > 0 ==>
         s.codes == CodesOfDetected(detected, s.qeVersion) &&
         (!HasKey(detected, "pw") ==> s.qeVersion == VNone) &&
         s.qePrefix == PrefixValue(prefix) && s.modules == ModulesValue(modules))
  {
    if |detected| > 0 {
      CreatedExactly(detected, PwVersion(detected, sh, ssh, user));
    }
  }

  /** `detect_qe_codes`: detection, then the version from pw.x, then `create_config`. */
  method DetectQeCodes(machineName: Value, prefix: Option<string>, given: PathList?, modules: Option<seq<Value>>,
                       ssh: Dict<string, Value>, user: Value, pathEnv: Option<string>, sh: Shell)
    returns (config: CodesConfig)
    modifies given
    ensures fresh(config)
    ensures var paths := SearchPathsOf(if given == null then [] else old(given.items), prefix, pathEnv);
      var detected := Detected(Search(sh, paths, ModuleCommand(ModuleList(modules)), ssh, user));
      config.State() == QeCodesSettings(machineName, detected, prefix, modules, sh, ssh, user)
  {
    var detected := DetectCodes(given, prefix, ModuleList(modules), ssh, user, pathEnv, sh);
    if |detected| == 0 {
      config := new CodesConfig(Settings(machineName, [], VNone, VNone, VNone, VNone));
      return;
    }
    var version := PwVersion(detected, sh, ssh, user);
    config := CreateConfig(machineName, detected, version, PrefixValue(prefix), ModulesValue(modules), VNone);
  }

  /**
   * `create_codes_config`: `detect_qe_codes`, then, when asked to and when
   * codes were found, `save_config` to the output directory under the
   * machine's name; a failed save raises.
   */
  method CreateCodesConfig(machineName: Value, prefix: Option<string>, given: PathList?, modules: Option<seq<Value>>,
                           ssh: Dict<string, Value>, user: Value, pathEnv: Option<string>, sh: Shell, save: bool,
                           outputDir: string, disk: ConfigStore.Disk)
    returns (r: Result<CodesConfig>, disk': ConfigStore.Disk)
    modifies given
    ensures r.Ok? ==> fresh(r.value)
    ensures var paths := SearchPathsOf(if given == null then [] else old(given.items), prefix, pathEnv);
      var detected := Detected(Search(sh, paths, ModuleCommand(ModuleList(modules)), ssh, user));
      var s := QeCodesSettings(machineName, detected, prefix, modules, sh, ssh, user);
      if save && |s.codes| > 0 then
        var saved := SaveConfig(disk, s, outputDir, None);
        (r.Ok? <==> saved.Ok?) && (r.Ok? ==> r.value.State() == s && disk' == saved.value.1) &&
        (r.Err? ==> r.exc == saved.exc && disk' == disk)
      else r.Ok? && r.value.State() == s && disk' == disk
  {
    var config := DetectQeCodes(machineName, prefix, given, modules, ssh, user, pathEnv, sh);
    disk' := disk;
    if save && |config.codes| > 0 {
      var saved := SaveConfig(disk, config.State(), outputDir, None);
      if saved.Err? {
        return Err(saved.exc), disk;
      }
      disk' := saved.value.1;
    }
    r := Ok(config);
  }
}
