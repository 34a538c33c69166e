// The machine loader: finding a machine by name in the machines directory
// (one `<name>.json` file per machine) or in the single machines.json file,
// the configured default machine, the retry prompt, and the sorted list of
// every machine either place defines.

module MachineLoader {
  import opened PyStr
  import opened PyErr
  import opened PyDict
  import opened Json
  import opened ConfigStore
  import opened StrOrder
  import opened Machines

  /** The name that asks for the configured default machine. */
  const DefaultMachineName := "local_desktop"

  /** What `load_machine` hands back. */
  datatype Loaded =
    | AsMachine(machine: Settings)
    | AsQueue(queue: Dict<string, Value>)
    | NoMachine(warning: Option<string>)

  // ---------------------------------------------------------------
  // Machine.from_file
  // ---------------------------------------------------------------

  /** The position of the last "." in `s`, or -1. */
  function LastDot(s: string): (r: int)
    ensures -1 <= r < |s|
    ensures r >= 0 ==> s[r] == '.'
    ensures forall k :: r < k < |s| ==> s[k] != '.'
  {
    if |s| == 0 then -1
    else if s[|s| - 1] == '.' then |s| - 1
    else LastDot(s[..|s| - 1])
  }

  predicate AllDots(s: string)
  {
    forall i :: 0 <= i < |s| ==> s[i] == '.'
  }

  /** `os.path.splitext(b)[0]` for a base name: the text before the last ".", unless only dots precede it. */
  function ExtRoot(b: string): (r: string)
    ensures StartsWith(b, r)
  {
    var d := LastDot(b);
    if d <= 0 || AllDots(b[..d]) then b else b[..d]
  }

  /** A name holding some character other than "." loses exactly its added ".json". */
  lemma ExtRootJson(n: string)
    requires !AllDots(n)
    ensures ExtRoot(n + ".json") == n
  {
    var b := n + ".json";
    assert b[|n|] == '.';
    assert forall k :: |n| < k < |b| ==> b[k] != '.';
    assert LastDot(b) == |n|;
    assert b[..|n|] == n;
  }

  /** `Machine.from_file(path)`: the file's dict, named after the file when it carries no "name". */
  function FromFile(path: string, disk: Disk): (r: Result<Settings>)
    ensures r.Ok? <==>
      var p := ExpandUser(path, disk.home);
      Document(disk, p).Some? && Document(disk, p).value.VDict? &&
      FromDict(ExtRoot(BaseName(p)), Document(disk, p).value.entries).Ok?
    ensures r.Ok? ==>
      var p := ExpandUser(path, disk.home);
      r == FromDict(ExtRoot(BaseName(p)), Document(disk, p).value.entries)
  {
    var p := ExpandUser(path, disk.home);
    if !Exists(disk, p) then Err(Exc("FileNotFoundError", "Machine config file not found: " + p))
    else
      match ReadJson(disk, p)
      case Err(e) => Err(e)
      case Ok(config) =>
        if !config.VDict? then Err(NoAttribute(config, "get"))
        else FromDict(ExtRoot(BaseName(p)), config.entries)
  }

  // ---------------------------------------------------------------
  // The two places a machine can be defined
  // ---------------------------------------------------------------

  /** The path of a machine's own file. */
  function MachineFile(name: Value, dir: string): string
  {
    PathJoin(dir, Show(name) + ".json")
  }

  /** `_load_from_individual_file`: every failure is logged and becomes None. */
  function IndividualFile(name: Value, dir: string, disk: Disk): (r: Option<Settings>)
    ensures r.Some? ==> Exists(disk, MachineFile(name, dir)) && FromFile(MachineFile(name, dir), disk) == Ok(r.value)
    ensures r.None? ==> !Exists(disk, MachineFile(name, dir)) || FromFile(MachineFile(name, dir), disk).Err?
  {
    var file := MachineFile(name, dir);
    if !Exists(disk, file) then None
    else
      match FromFile(file, disk)
      case Ok(s) => Some(s)
      case Err(_) => None
  }

  /**
   * `_load_from_machines_json`: the entry stored under the name, which only
   * a string name can match; every failure is logged and becomes None.
   */
  function MachinesJson(name: Value, configPath: string, disk: Disk): (r: Option<Settings>)
    ensures r.Some? <==>
      name.VStr? && MachinesTable(configPath, disk).Some? &&
      HasKey(MachinesTable(configPath, disk).value, name.s) &&
      Get(MachinesTable(configPath, disk).value, name.s).value.VDict? &&
      FromDict(name.s, Get(MachinesTable(configPath, disk).value, name.s).value.entries).Ok?
  {
    match MachinesTable(configPath, disk)
    case None => None
    case Some(m) =>
      if !name.VStr? || !HasKey(m, name.s) then None
      else
        match Get(m, name.s).value
        case VDict(entry) =>
          (match FromDict(name.s, entry)
           case Ok(s) => Some(s)
           case Err(_) => None)
        case _ => None
  }

  /** The truthy "default" of the JSON dict at `p`, if there is one. */
  function DefaultIn(disk: Disk, p: string): (r: Option<Value>)
    ensures r.Some? <==>
      Document(disk, p).Some? && Document(disk, p).value.VDict? &&
      Truthy(GetOr(Document(disk, p).value.entries, "default", VNone))
    ensures r.Some? ==> r.value == GetOr(Document(disk, p).value.entries, "default", VNone)
  {
    match Document(disk, p)
    case Some(VDict(config)) =>
      var d := GetOr(config, "default", VNone);
      if Truthy(d) then Some(d) else None
    case _ => None
  }

  /** `_get_default_machine_name`: machines.json first, then default.json in the machines directory. */
  function DefaultName(configPath: string, dir: string, disk: Disk): (r: Option<Value>)
    ensures r.Some? ==> Truthy(r.value)
    ensures DefaultIn(disk, configPath).Some? ==> r == DefaultIn(disk, configPath)
    ensures DefaultIn(disk, configPath).None? ==> r == DefaultIn(disk, PathJoin(dir, "default.json"))
  {
    match DefaultIn(disk, configPath)
    case Some(d) => Some(d)
    case None => DefaultIn(disk, PathJoin(dir, "default.json"))
  }

  // ---------------------------------------------------------------
  // list_machines
  // ---------------------------------------------------------------

  /** A directory entry that names a machine. */
  predicate IsMachineFile(f: string)
  {
    EndsWith(f, ".json") && f != "default.json"
  }

  /** The entry without its ".json" (`filename[:-5]`). */
  function Stem(f: string): string
    requires IsMachineFile(f)
  {
    f[..|f| - 5]
  }

  /** The machine names the directory entries give, in listing order. */
  function DirNames(entries: seq<string>): seq<string>
  {
    if |entries| == 0 then []
    else if IsMachineFile(entries[0]) then [Stem(entries[0])] + DirNames(entries[1..])
    else DirNames(entries[1..])
  }

  lemma {:induction false} DirNamesSnoc(entries: seq<string>, f: string)
    ensures DirNames(entries + [f]) == DirNames(entries) + (if IsMachineFile(f) then [Stem(f)] else [])
  {
    if |entries| > 0 {
      assert (entries + [f])[1..] == entries[1..] + [f];
      DirNamesSnoc(entries[1..], f);
    } else {
      assert [f][1..] == [];
    }
  }

  /** Every listed machine comes from some entry, and every machine entry is listed. */
  lemma {:induction false} DirNamesMembers(entries: seq<string>, y: string)
    ensures y in DirNames(entries) <==>
      exists k :: 0 <= k < |entries| && IsMachineFile(entries[k]) && Stem(entries[k]) == y
  {
    if |entries| > 0 {
      DirNamesMembers(entries[1..], y);
      if exists k :: 0 <= k < |entries| && IsMachineFile(entries[k]) && Stem(entries[k]) == y {
        var k :| 0 <= k < |entries| && IsMachineFile(entries[k]) && Stem(entries[k]) == y;
        if k > 0 {
          assert entries[1..][k - 1] == entries[k];
        }
      }
      if exists k :: 0 <= k < |entries[1..]| && IsMachineFile(entries[1..][k]) && Stem(entries[1..][k]) == y {
        var k :| 0 <= k < |entries[1..]| && IsMachineFile(entries[1..][k]) && Stem(entries[1..][k]) == y;
        assert entries[k + 1] == entries[1..][k];
      }
    }
  }

  /** The machine names the directory contributes; none when it is missing or not a directory. */
  function DirMachines(dir: string, disk: Disk): seq<string>
  {
    match Listing(disk, dir)
    case Some(entries) => DirNames(entries)
    case None => []
  }

  /** `list_machines`: the sorted set of both sources' names. */
  function MachineList(configPath: string, dir: string, disk: Disk): seq<string>
  {
    SortedSet(DirMachines(dir, disk) + MachineNames(configPath, disk))
  }

  /** The list is strictly increasing (so duplicate-free) and holds exactly the two sources' names. */
  lemma MachineListMembers(configPath: string, dir: string, disk: Disk, y: string)
    ensures Sorted(MachineList(configPath, dir, disk))
    ensures y in MachineList(configPath, dir, disk) <==>
      (dir in disk.dirs &&
       exists k :: 0 <= k < |disk.dirs[dir]| && IsMachineFile(disk.dirs[dir][k]) && Stem(disk.dirs[dir][k]) == y) ||
      (MachinesTable(configPath, disk).Some? && HasKey(MachinesTable(configPath, disk).value, y))
  {
    if dir in disk.dirs {
      DirNamesMembers(disk.dirs[dir], y);
    }
    if MachinesTable(configPath, disk).Some? {
      var m := MachinesTable(configPath, disk).value;
      assert y in Keys(m) <==> HasKey(m, y);
    }
  }

  /** `list_machines` as written: one loop over the directory, one over the machines.json keys. */
  method ListMachines(configPath: string, dir: string, disk: Disk) returns (names: seq<string>)
    ensures names == MachineList(configPath, dir, disk)
  {
    names := [];
    if Exists(disk, dir) && dir in disk.dirs {
      var entries := disk.dirs[dir];
      for i := 0 to |entries|
        invariant Sorted(names)
        invariant forall y :: y in names <==> y in DirNames(entries[..i])
      {
        DirNamesSnoc(entries[..i], entries[i]);
        assert entries[..i + 1] == entries[..i] + [entries[i]];
        if IsMachineFile(entries[i]) {
          names := Insert(names, Stem(entries[i]));
        }
      }
      assert entries[..|entries|] == entries;
    }
    var fromDir := DirMachines(dir, disk);
    var keys := MachineNames(configPath, disk);
    for j := 0 to |keys|
      invariant Sorted(names)
      invariant forall y :: y in names <==> y in fromDir || y in keys[..j]
    {
      assert keys[..j + 1] == keys[..j] + [keys[j]];
      names := Insert(names, keys[j]);
    }
    assert keys[..|keys|] == keys;
    SortedUnique(names, MachineList(configPath, dir, disk));
  }

  // ---------------------------------------------------------------
  // load_machine
  // ---------------------------------------------------------------

  /** The warning issued when neither place defines any machine. */
  function NothingConfigured(configPath: string, dir: string): string
  {
    "No machine configurations found.\nChecked:\n - " + configPath + "\n - " + dir +
    "\nTo create one, run:\n from xespresso.machines.config.creator import create_machine\n create_machine(path='" +
    configPath + "')\nReturning None."
  }

  const EndOfInput := Exc("EOFError", "EOF when reading a line")

  /** The name actually looked up: the configured default replaces "local_desktop" when there is one. */
  function Resolve(configPath: string, name: Value, dir: string, disk: Disk): Value
  {
    if name == VStr(DefaultMachineName) && DefaultName(configPath, dir, disk).Some? then
      DefaultName(configPath, dir, disk).value
    else name
  }

  /** The machine's own file first, machines.json second. */
  function Find(configPath: string, name: Value, dir: string, disk: Disk): (r: Option<Settings>)
    ensures IndividualFile(name, dir, disk).Some? ==> r == IndividualFile(name, dir, disk)
    ensures IndividualFile(name, dir, disk).None? ==> r == MachinesJson(name, configPath, disk)
  {
    match IndividualFile(name, dir, disk)
    case Some(s) => Some(s)
    case None => MachinesJson(name, configPath, disk)
  }

  /** The Machine itself, or its `to_queue()` whose errors propagate. */
  function Deliver(s: Settings, returnObject: bool): Result<Loaded>
  {
    if returnObject then Ok(AsMachine(s))
    else
      match Queue(s)
      case Ok(q) => Ok(AsQueue(q))
      case Err(e) => Err(e)
  }

  /**
   * `load_machine` once the name is resolved. `answers` are the successive
   * lines typed at the retry prompt; running out of them is end of input.
   */
  function LoadAs(configPath: string, name: Value, dir: string, returnObject: bool, disk: Disk,
                  answers: seq<string>): Result<Loaded>
    decreases |answers|, 1
  {
    match Find(configPath, name, dir, disk)
    case Some(s) => Deliver(s, returnObject)
    case None =>
      var available := MachineList(configPath, dir, disk);
      if |available| == 0 then Ok(NoMachine(Some(NothingConfigured(configPath, dir))))
      else if |answers| == 0 then Err(EndOfInput)
      else
        var retry := Strip(answers[0]);
        if retry != "" && retry in available then
          LoadMachine(configPath, VStr(retry), dir, returnObject, disk, answers[1..])
        else Ok(NoMachine(None))
  }

  /** `load_machine(config_path, machine_name, machines_dir, return_object)`. */
  function LoadMachine(configPath: string, name: Value, dir: string, returnObject: bool, disk: Disk,
                       answers: seq<string>): Result<Loaded>
    decreases |answers|, 2
  {
    LoadAs(configPath, Resolve(configPath, name, dir, disk), dir, returnObject, disk, answers)
  }

  // ---------------------------------------------------------------
  // What load_machine promises
  // ---------------------------------------------------------------

  /** A truthy "default" in machines.json decides the default machine, whatever default.json says. */
  lemma DefaultFromMachinesJson(configPath: string, dir: string, returnObject: bool, disk: Disk,
                                answers: seq<string>, v: Value)
    requires DefaultIn(disk, configPath) == Some(v)
    ensures LoadMachine(configPath, VStr(DefaultMachineName), dir, returnObject, disk, answers) ==
            LoadAs(configPath, v, dir, returnObject, disk, answers)
  {
  }

  /** Without one, a truthy "default" in default.json decides it. */
  lemma DefaultFromDefaultJson(configPath: string, dir: string, returnObject: bool, disk: Disk,
                               answers: seq<string>, v: Value)
    requires DefaultIn(disk, configPath).None?
    requires DefaultIn(disk, PathJoin(dir, "default.json")) == Some(v)
    ensures LoadMachine(configPath, VStr(DefaultMachineName), dir, returnObject, disk, answers) ==
            LoadAs(configPath, v, dir, returnObject, disk, answers)
  {
    assert Resolve(configPath, VStr(DefaultMachineName), dir, disk) == v;
  }

  /** Any other name, and "local_desktop" without a configured default, is looked up as given. */
  lemma NoDefaultLookup(configPath: string, name: Value, dir: string, returnObject: bool, disk: Disk,
                        answers: seq<string>)
    requires name != VStr(DefaultMachineName) || DefaultName(configPath, dir, disk).None?
    ensures LoadMachine(configPath, name, dir, returnObject, disk, answers) ==
            LoadAs(configPath, name, dir, returnObject, disk, answers)
  {
  }

  /** The machine's own file wins over machines.json; the Machine or its queue is returned. */
  lemma IndividualFileWins(configPath: string, name: Value, dir: string, returnObject: bool, disk: Disk,
                           answers: seq<string>, s: Settings)
    requires IndividualFile(name, dir, disk) == Some(s)
    ensures returnObject ==> LoadAs(configPath, name, dir, returnObject, disk, answers) == Ok(AsMachine(s))
    ensures !returnObject && Queue(s).Ok? ==>
      LoadAs(configPath, name, dir, returnObject, disk, answers) == Ok(AsQueue(Queue(s).value))
    ensures !returnObject && Queue(s).Err? ==>
      LoadAs(configPath, name, dir, returnObject, disk, answers) == Err(Queue(s).exc)
  {
  }

  /** Without its own file, the machines.json entry is used. */
  lemma MachinesJsonFallback(configPath: string, name: Value, dir: string, returnObject: bool, disk: Disk,
                             answers: seq<string>, s: Settings)
    requires IndividualFile(name, dir, disk).None? && MachinesJson(name, configPath, disk) == Some(s)
    ensures LoadAs(configPath, name, dir, returnObject, disk, answers) == Deliver(s, returnObject)
  {
  }

  /** With no machine anywhere the loader warns and returns None, without prompting. */
  lemma NothingAnywhere(configPath: string, name: Value, dir: string, returnObject: bool, disk: Disk,
                        answers: seq<string>)
    requires Find(configPath, name, dir, disk).None?
    requires DirMachines(dir, disk) == [] && MachineNames(configPath, disk) == []
    ensures LoadAs(configPath, name, dir, returnObject, disk, answers) ==
            Ok(NoMachine(Some(NothingConfigured(configPath, dir))))
  {
    EmptyTogether(MachineList(configPath, dir, disk), DirMachines(dir, disk) + MachineNames(configPath, disk));
  }

  /** A listed answer is loaded as if it had been asked for; anything else aborts with None. */
  lemma RetryPrompt(configPath: string, name: Value, dir: string, returnObject: bool, disk: Disk,
                    answers: seq<string>)
    requires Find(configPath, name, dir, disk).None?
    requires |MachineList(configPath, dir, disk)| > 0
    ensures |answers| == 0 ==> LoadAs(configPath, name, dir, returnObject, disk, answers) == Err(EndOfInput)
    ensures |answers| > 0 && Strip(answers[0]) in MachineList(configPath, dir, disk) && Strip(answers[0]) != "" ==>
      LoadAs(configPath, name, dir, returnObject, disk, answers) ==
      LoadMachine(configPath, VStr(Strip(answers[0])), dir, returnObject, disk, answers[1..])
    ensures |answers| > 0 && (Strip(answers[0]) !in MachineList(configPath, dir, disk) || Strip(answers[0]) == "") ==>
      LoadAs(configPath, name, dir, returnObject, disk, answers) == Ok(NoMachine(None))
  {
  }

  /** A machine read from its own file is named by the file when the file carries no "name". */
  lemma IndividualFileName(name: string, dir: string, disk: Disk, s: Settings)
    requires IndividualFile(VStr(name), dir, disk) == Some(s)
    requires !StartsWith(MachineFile(VStr(name), dir), "~")
    requires !AllDots(name) && '/' !in name
    ensures MachineFile(VStr(name), dir) in disk.files
    ensures var config := disk.files[MachineFile(VStr(name), dir)].doc;
      config.VDict? &&
      s.name == if HasKey(config.entries, "name") then Get(config.entries, "name").value else VStr(name)
  {
    var file := MachineFile(VStr(name), dir);
    FileStem(name, dir);
    assert ExpandUser(file, disk.home) == file;
    var config := disk.files[file].doc;
    FromDictName(name, config.entries);
  }

  /** The file a name is looked up in gives that name back as its stem. */
  lemma FileStem(name: string, dir: string)
    requires !AllDots(name) && '/' !in name
    ensures ExtRoot(BaseName(MachineFile(VStr(name), dir))) == name
  {
    var b := name + ".json";
    assert '/' !in b && b[0] in b;
    PathJoinSeparated(dir, b);
    BaseNameSuffix(MachineFile(VStr(name), dir), b);
    ExtRootJson(name);
  }

  /** The base name of a path ending in a slash-free text that follows a "/" (or is the whole path) is that text. */
  lemma BaseNameSuffix(p: string, t: string)
    requires EndsWith(p, t) && '/' !in t
    requires |p| == |t| || p[|p| - |t| - 1] == '/'
    ensures BaseName(p) == t
  {
    var i := AfterLastSlash(p);
    var start := |p| - |t|;
    assert p[start..] == t;
    assert forall k :: start <= k < |p| ==> p[k] == t[k - start];
    assert forall k :: start <= k < |p| ==> p[k] != '/';
  }

  /** Joining a relative part puts a "/" (or nothing at all) right before it. */
  lemma PathJoinSeparated(a: string, b: string)
    requires !StartsWith(b, "/")
    ensures EndsWith(PathJoin(a, b), b)
    ensures |PathJoin(a, b)| == |b| || PathJoin(a, b)[|PathJoin(a, b)| - |b| - 1] == '/'
  {
    PathJoinEnds(a, b);
    if a != "" && EndsWith(a, "/") {
      assert PathJoin(a, b) == a + b;
      assert (a + b)[|a| - 1] == a[|a| - 1];
    }
  }
}
