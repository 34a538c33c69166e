// Moving the machine blocks of one machines.json into one file per machine
// (`migrate_machines`), and removing such files again
// (`rollback_migration`). The file system is a `Disk` value the operations
// take and hand back changed; each operation is a method whose loop builds
// the report the way the source appends to its result lists, proved equal
// to a specification function about which the properties are stated.

module Migration {
  import opened PyStr
  import opened PyErr
  import opened PyDict
  import opened Json
  import opened ConfigStore
  import JobDirs

  /** The result dict of `migrate_machines`. */
  datatype Report = Report(
    success: bool,
    migrated: seq<string>,
    skipped: seq<string>,
    failed: seq<string>,
    errors: Dict<string, string>,
    default: Value)

  /** The result dict of `rollback_migration`. */
  datatype Removal = Removal(
    success: bool,
    removed: seq<string>,
    failed: seq<string>,
    errors: Dict<string, string>)

  const Fresh := Report(false, [], [], [], [], VNone)
  const NothingRemoved := Removal(false, [], [], [])

  const NoMachinesMessage := "No machines found in machines.json"

  function NotFoundMessage(p: string): string
  {
    "machines.json not found at " + p
  }

  /** `str(e)`: the message of the exception. */
  function Str(e: Exc): string
  {
    e.message
  }

  /** The file name a machine is stored under. */
  function FileOf(name: string): string
  {
    name + ".json"
  }

  /** `filename[:-5]`: the name a removed file is reported under. */
  function StemOf(f: string): (r: string)
    ensures EndsWith(f, ".json") ==> f == FileOf(r)
  {
    if |f| >= 5 then
      assert EndsWith(f, ".json") ==> f[|f| - 5..] == ".json";
      f[..|f| - 5]
    else ""
  }

  // ---------------------------------------------------------------
  // The file-system operations involved
  // ---------------------------------------------------------------

  /** The listing of `dir` with `f` added as a new entry. */
  function Listed(dirs: map<string, seq<string>>, dir: string, f: string): map<string, seq<string>>
  {
    if dir in dirs && f !in dirs[dir] && '/' !in f then dirs[dir := dirs[dir] + [f]] else dirs
  }

  /** `json.dump(doc, open(os.path.join(dir, f), "w"))`. */
  function Save(disk: Disk, dir: string, f: string, doc: Value): (r: Result<Disk>)
    ensures var p := PathJoin(dir, f);
      (r.Err? <==> p in disk.dirs || p in disk.denied) &&
      (r.Ok? ==> r.value.files == disk.files[p := Parsed(doc)] && ReadJson(r.value, p) == Ok(doc) &&
                 r.value.home == disk.home && r.value.denied == disk.denied &&
                 r.value.dirs.Keys == disk.dirs.Keys)
  {
    var p := PathJoin(dir, f);
    if p in disk.dirs then Err(IsADirectory(p))
    else if p in disk.denied then Err(PermissionDenied(p))
    else Ok(disk.(files := disk.files[p := Parsed(doc)], dirs := Listed(disk.dirs, dir, f)))
  }

  /** `os.remove(os.path.join(dir, f))` of an existing path. */
  function Delete(disk: Disk, dir: string, f: string): (r: Result<Disk>)
    ensures var p := PathJoin(dir, f);
      (r.Err? <==> p in disk.dirs || p in disk.denied) &&
      (r.Ok? ==> r.value.files == disk.files - {p} && r.value.home == disk.home &&
                 r.value.denied == disk.denied && r.value.dirs.Keys == disk.dirs.Keys)
  {
    var p := PathJoin(dir, f);
    if p in disk.dirs then Err(IsADirectory(p))
    else if p in disk.denied then Err(PermissionDenied(p))
    else
      var dirs := if dir in disk.dirs then disk.dirs[dir := JobDirs.Without(disk.dirs[dir], f)] else disk.dirs;
      Ok(disk.(files := disk.files - {p}, dirs := dirs))
  }

  /** `os.makedirs(dir, exist_ok=True)`; missing parents are not modelled. */
  function MakeDirs(disk: Disk, dir: string): (r: Result<Disk>)
    ensures r.Ok? <==> dir in disk.dirs || (dir !in disk.files && dir !in disk.denied)
    ensures r.Ok? ==> dir in r.value.dirs && r.value.files == disk.files && r.value.denied == disk.denied
    ensures dir in disk.dirs ==> r == Ok(disk)
  {
    if dir in disk.dirs then Ok(disk)
    else if dir in disk.files then Err(Exc("FileExistsError", "[Errno 17] File exists: '" + dir + "'"))
    else if dir in disk.denied then Err(PermissionDenied(dir))
    else Ok(disk.(dirs := disk.dirs[dir := []]))
  }

  // ---------------------------------------------------------------
  // migrate_machines
  // ---------------------------------------------------------------

  /**
   * `{name: machines[name] for name in names if name in machines}`: the
   * named blocks in the order of `names`, a repeated name stored once.
   */
  function Selected(machines: Value, names: seq<string>, acc: Dict<string, Value>): Result<Dict<string, Value>>
    decreases |names|
  {
    if |names| == 0 then Ok(acc)
    else
      match In(machines, names[0])
      case Err(e) => Err(e)
      case Ok(found) =>
        if !found then Selected(machines, names[1..], acc)
        else
          match Index(machines, names[0])
          case Err(e) => Err(e)
          case Ok(v) => Selected(machines, names[1..], Put(acc, names[0], v))
  }

  /** The blocks to migrate: all of them, or those named when names are given. */
  function Chosen(machines: Value, names: Option<seq<string>>): Result<Value>
  {
    if names.Some? && |names.value| > 0 then
      match Selected(machines, names.value, [])
      case Err(e) => Err(e)
      case Ok(d) => Ok(VDict(d))
    else Ok(machines)
  }

  /** One machine: skipped when its file exists and may not be replaced, otherwise written. */
  function Step(disk: Disk, dir: string, name: string, block: Value, overwrite: bool, rep: Report): (Report, Disk)
  {
    if Exists(disk, PathJoin(dir, FileOf(name))) && !overwrite then
      (rep.(skipped := rep.skipped + [name]), disk)
    else
      match Save(disk, dir, FileOf(name), block)
      case Ok(after) => (rep.(migrated := rep.migrated + [name]), after)
      case Err(e) => (rep.(failed := rep.failed + [name], errors := Put(rep.errors, name, Str(e))), disk)
  }

  /** The loop over the blocks to migrate, in order. */
  function MigrateLoop(disk: Disk, dir: string, todo: Dict<string, Value>, overwrite: bool, rep: Report): (Report, Disk)
    decreases |todo|
  {
    if |todo| == 0 then (rep, disk)
    else
      var next := Step(disk, dir, todo[0].0, todo[0].1, overwrite, rep);
      MigrateLoop(next.1, dir, todo[1..], overwrite, next.0)
  }

  /** `os.path.join(dir, "default.json")` pointing to the default machine; a failure is ignored. */
  function WriteDefault(disk: Disk, dir: string, default: Value): Disk
  {
    match Save(disk, dir, "default.json", VDict([("default", default)]))
    case Ok(after) => after
    case Err(_) => disk
  }

  /** The success rule of the report. */
  predicate Succeeded(rep: Report)
  {
    |rep.migrated| > 0 || (|rep.skipped| > 0 && |rep.failed| == 0)
  }

  lemma {:induction false} LoopKeepsDefault(disk: Disk, dir: string, todo: Dict<string, Value>, overwrite: bool, rep: Report)
    ensures MigrateLoop(disk, dir, todo, overwrite, rep).0.default == rep.default
    decreases |todo|
  {
    if |todo| > 0 {
      var next := Step(disk, dir, todo[0].0, todo[0].1, overwrite, rep);
      LoopKeepsDefault(next.1, dir, todo[1..], overwrite, next.0);
    }
  }

  /** The part of `migrate_machines` after the blocks to migrate are known. */
  function Finish(disk: Disk, dir: string, todo: Value, overwrite: bool, rep: Report): (Result<Report>, Disk)
  {
    match MakeDirs(disk, dir)
    case Err(e) => (Err(e), disk)
    case Ok(made) =>
      if !todo.VDict? then (Err(NoAttribute(todo, "items")), made)
      else
        var done := MigrateLoop(made, dir, todo.entries, overwrite, rep);
        var after := if Truthy(rep.default) then WriteDefault(done.1, dir, rep.default) else done.1;
        (Ok(done.0.(success := Succeeded(done.0))), after)
  }

  /**
   * `migrate_machines`: the report, or the exception that escapes it, and
   * the file system afterwards. Paths are expanded with the disk's home.
   */
  function MigrateSpec(disk: Disk, jsonPath: string, outputDir: string, names: Option<seq<string>>, overwrite: bool)
    : (Result<Report>, Disk)
  {
    var source := ExpandUser(jsonPath, disk.home);
    var dir := ExpandUser(outputDir, disk.home);
    if !Exists(disk, source) then
      (Ok(Fresh.(errors := [("file_not_found", NotFoundMessage(source))])), disk)
    else
      match ReadJson(disk, source)
      case Err(e) => (Ok(Fresh.(errors := [("load_error", Str(e))])), disk)
      case Ok(config) =>
        match GetField(config, "machines", VDict([]))
        case Err(e) => (Err(e), disk)
        case Ok(machines) =>
          var default := GetOr(config.entries, "default", VNone);
          var rep := if Truthy(default) then Fresh.(default := default) else Fresh;
          if !Truthy(machines) then (Ok(rep.(errors := [("no_machines", NoMachinesMessage)])), disk)
          else
            match Chosen(machines, names)
            case Err(e) => (Err(e), disk)
            case Ok(todo) => Finish(disk, dir, todo, overwrite, rep)
  }

  /** The loop of `migrate_machines`, appending to the result lists one machine at a time. */
  method RunMigration(disk: Disk, dir: string, todo: Dict<string, Value>, overwrite: bool, start: Report)
    returns (rep: Report, after: Disk)
    ensures (rep, after) == MigrateLoop(disk, dir, todo, overwrite, start)
  {
    var migrated, skipped, failed, errors := start.migrated, start.skipped, start.failed, start.errors;
    after := disk;
    var i := 0;
    while i < |todo|
      invariant 0 <= i <= |todo|
      invariant MigrateLoop(disk, dir, todo, overwrite, start) ==
        MigrateLoop(after, dir, todo[i..], overwrite, start.(migrated := migrated, skipped := skipped,
                                                                failed := failed, errors := errors))
    {
      var name := todo[i].0;
      assert todo[i..][1..] == todo[i + 1..];
      if Exists(after, PathJoin(dir, FileOf(name))) && !overwrite {
        skipped := skipped + [name];
      } else {
        var saved := Save(after, dir, FileOf(name), todo[i].1);
        if saved.Ok? {
          after := saved.value;
          migrated := migrated + [name];
        } else {
          failed := failed + [name];
          errors := Put(errors, name, Str(saved.exc));
        }
      }
      i := i + 1;
    }
    rep := start.(migrated := migrated, skipped := skipped, failed := failed, errors := errors);
  }

  /** `migrate_machines`. */
  method Migrate(disk: Disk, jsonPath: string, outputDir: string, names: Option<seq<string>>, overwrite: bool)
    returns (r: Result<Report>, after: Disk)
    ensures (r, after) == MigrateSpec(disk, jsonPath, outputDir, names, overwrite)
  {
    var source := ExpandUser(jsonPath, disk.home);
    var dir := ExpandUser(outputDir, disk.home);
    after := disk;
    if !Exists(disk, source) {
      r := Ok(Fresh.(errors := [("file_not_found", NotFoundMessage(source))]));
      return;
    }
    var loaded := ReadJson(disk, source);
    if loaded.Err? {
      r := Ok(Fresh.(errors := [("load_error", Str(loaded.exc))]));
      return;
    }
    var config := loaded.value;
    var machines := GetField(config, "machines", VDict([]));
    if machines.Err? {
      r := Err(machines.exc);
      return;
    }
    var default := GetOr(config.entries, "default", VNone);
    var rep := Fresh;
    if Truthy(default) {
      rep := rep.(default := default);
    }
    if !Truthy(machines.value) {
      r := Ok(rep.(errors := [("no_machines", NoMachinesMessage)]));
      return;
    }
    var todo := Chosen(machines.value, names);
    if todo.Err? {
      r := Err(todo.exc);
      return;
    }
    var made := MakeDirs(disk, dir);
    if made.Err? {
      r := Err(made.exc);
      return;
    }
    after := made.value;
    if !todo.value.VDict? {
      r := Err(NoAttribute(todo.value, "items"));
      return;
    }
    var start := rep;
    rep, after := RunMigration(after, dir, todo.value.entries, overwrite, rep);
    if Truthy(rep.default) {
      after := WriteDefault(after, dir, rep.default);
    }
    r := Ok(rep.(success := Succeeded(rep)));
    assert MigrateLoop(made.value, dir, todo.value.entries, overwrite, start).0.default == start.default by {
      LoopKeepsDefault(made.value, dir, todo.value.entries, overwrite, start);
    }
    assert (r, after) == Finish(disk, dir, todo.value, overwrite, start);
  }

  // ---------------------------------------------------------------
  // rollback_migration
  // ---------------------------------------------------------------

  /** One file: left alone when absent, otherwise removed or reported as failed. */
  function RemoveStep(disk: Disk, dir: string, f: string, rep: Removal): (Removal, Disk)
  {
    if !Exists(disk, PathJoin(dir, f)) then (rep, disk)
    else
      match Delete(disk, dir, f)
      case Ok(after) => (rep.(removed := rep.removed + [StemOf(f)]), after)
      case Err(e) => (rep.(failed := rep.failed + [f], errors := Put(rep.errors, f, Str(e))), disk)
  }

  function RemoveLoop(disk: Disk, dir: string, targets: seq<string>, rep: Removal): (Removal, Disk)
    decreases |targets|
  {
    if |targets| == 0 then (rep, disk)
    else
      var next := RemoveStep(disk, dir, targets[0], rep);
      RemoveLoop(next.1, dir, targets[1..], next.0)
  }

  /** The ".json" entries of a listing, in listing order. */
  function JsonFiles(entries: seq<string>): (r: seq<string>)
    ensures forall f :: f in r <==> f in entries && EndsWith(f, ".json")
  {
    if |entries| == 0 then []
    else (if EndsWith(entries[0], ".json") then [entries[0]] else []) + JsonFiles(entries[1..])
  }

  function FilesOf(names: seq<string>): (r: seq<string>)
    ensures |r| == |names| && forall i :: 0 <= i < |r| ==> r[i] == FileOf(names[i])
  {
    if |names| == 0 then [] else [FileOf(names[0])] + FilesOf(names[1..])
  }

  /** The files to remove: those of the named machines, or every ".json" entry of the directory. */
  function Targets(disk: Disk, dir: string, names: Option<seq<string>>): Result<seq<string>>
  {
    if names.Some? && |names.value| > 0 then Ok(FilesOf(names.value))
    else if dir in disk.dirs then Ok(JsonFiles(disk.dirs[dir]))
    else Err(Exc("NotADirectoryError", "[Errno 20] Not a directory: '" + dir + "'"))
  }

  /** `rollback_migration`: the report, or the exception that escapes it, and the file system afterwards. */
  function RollbackSpec(disk: Disk, outputDir: string, names: Option<seq<string>>): (Result<Removal>, Disk)
  {
    var dir := ExpandUser(outputDir, disk.home);
    if !Exists(disk, dir) then (Ok(NothingRemoved), disk)
    else
      match Targets(disk, dir, names)
      case Err(e) => (Err(e), disk)
      case Ok(targets) =>
        var done := RemoveLoop(disk, dir, targets, NothingRemoved);
        (Ok(done.0.(success := |done.0.removed| > 0)), done.1)
  }

  /** `rollback_migration`. */
  method Rollback(disk: Disk, outputDir: string, names: Option<seq<string>>) returns (r: Result<Removal>, after: Disk)
    ensures (r, after) == RollbackSpec(disk, outputDir, names)
  {
    var dir := ExpandUser(outputDir, disk.home);
    after := disk;
    if !Exists(disk, dir) {
      r := Ok(NothingRemoved);
      return;
    }
    var targets := Targets(disk, dir, names);
    if targets.Err? {
      r := Err(targets.exc);
      return;
    }
    var fs := targets.value;
    var removed, failed, errors := [], [], [];
    var i := 0;
    while i < |fs|
      invariant 0 <= i <= |fs|
      invariant RemoveLoop(disk, dir, fs, NothingRemoved) ==
        RemoveLoop(after, dir, fs[i..], Removal(false, removed, failed, errors))
    {
      assert fs[i..][1..] == fs[i + 1..];
      var f := fs[i];
      if Exists(after, PathJoin(dir, f)) {
        var gone := Delete(after, dir, f);
        if gone.Ok? {
          after := gone.value;
          removed := removed + [StemOf(f)];
        } else {
          failed := failed + [f];
          errors := Put(errors, f, Str(gone.exc));
        }
      }
      i := i + 1;
    }
    r := Ok(Removal(|removed| > 0, removed, failed, errors));
  }

  // ---------------------------------------------------------------
  // What migrate_machines promises
  // ---------------------------------------------------------------

  /** A missing machines.json is reported under "file_not_found" and nothing is written. */
  lemma MissingSource(disk: Disk, jsonPath: string, outputDir: string, names: Option<seq<string>>, overwrite: bool)
    requires !Exists(disk, ExpandUser(jsonPath, disk.home))
    ensures MigrateSpec(disk, jsonPath, outputDir, names, overwrite) ==
      (Ok(Report(false, [], [], [], [("file_not_found", "machines.json not found at " + ExpandUser(jsonPath, disk.home))],
                 VNone)), disk)
  {
  }

  /** An unreadable machines.json is reported under "load_error" with the exception's text. */
  lemma UnreadableSource(disk: Disk, jsonPath: string, outputDir: string, names: Option<seq<string>>, overwrite: bool)
    requires Exists(disk, ExpandUser(jsonPath, disk.home))
    requires ReadJson(disk, ExpandUser(jsonPath, disk.home)).Err?
    ensures MigrateSpec(disk, jsonPath, outputDir, names, overwrite) ==
      (Ok(Report(false, [], [], [], [("load_error", ReadJson(disk, ExpandUser(jsonPath, disk.home)).exc.message)],
                 VNone)), disk)
  {
  }

  /**
   * A config whose "machines" entry is missing or empty is reported under
   * "no_machines", with the default already recorded, and nothing is written.
   */
  lemma NoMachines(disk: Disk, jsonPath: string, outputDir: string, names: Option<seq<string>>, overwrite: bool,
                   config: Dict<string, Value>)
    requires Document(disk, ExpandUser(jsonPath, disk.home)) == Some(VDict(config))
    requires !Truthy(GetOr(config, "machines", VDict([])))
    ensures var r := MigrateSpec(disk, jsonPath, outputDir, names, overwrite);
      var default := GetOr(config, "default", VNone);
      r.1 == disk && r.0.Ok? && !r.0.value.success && r.0.value.errors == [("no_machines", NoMachinesMessage)] &&
      r.0.value.migrated == r.0.value.skipped == r.0.value.failed == [] &&
      r.0.value.default == (if Truthy(default) then default else VNone)
  {
  }

  /** The report's success flag follows the rule: something migrated, or something skipped and nothing failed. */
  lemma SuccessRule(disk: Disk, jsonPath: string, outputDir: string, names: Option<seq<string>>, overwrite: bool)
    requires MigrateSpec(disk, jsonPath, outputDir, names, overwrite).0.Ok?
    ensures var rep := MigrateSpec(disk, jsonPath, outputDir, names, overwrite).0.value;
      rep.success <==> |rep.migrated| > 0 || (|rep.skipped| > 0 && |rep.failed| == 0)
  {
  }

  /** With names given, exactly the named blocks the table has are chosen, with their values. */
  lemma {:induction false} SelectedEntries(m: Dict<string, Value>, names: seq<string>, acc: Dict<string, Value>)
    requires forall k :: HasKey(acc, k) ==> Get(acc, k) == Get(m, k)
    ensures Selected(VDict(m), names, acc).Ok?
    ensures var r := Selected(VDict(m), names, acc).value;
      (forall k :: HasKey(r, k) <==> HasKey(acc, k) || (k in names && HasKey(m, k))) &&
      (forall k :: HasKey(r, k) ==> Get(r, k) == Get(m, k))
    decreases |names|
  {
    if |names| > 0 {
      var n := names[0];
      var next := if HasKey(m, n) then Put(acc, n, Get(m, n).value) else acc;
      if HasKey(m, n) {
        forall k ensures HasKey(next, k) ==> Get(next, k) == Get(m, k) {
          PutGet(acc, n, Get(m, n).value, k);
        }
        forall k ensures HasKey(next, k) <==> k == n || HasKey(acc, k) {
          PutKeys(acc, n, Get(m, n).value, k);
        }
      }
      assert Selected(VDict(m), names, acc) == Selected(VDict(m), names[1..], next);
      SelectedEntries(m, names[1..], next);
      assert forall k :: k in names <==> k == n || k in names[1..];
    }
  }

  /** The loop leaves the directories, the denied paths and the home directory as they were. */
  lemma {:induction false} LoopFrame(disk: Disk, dir: string, todo: Dict<string, Value>, overwrite: bool, rep: Report)
    ensures var after := MigrateLoop(disk, dir, todo, overwrite, rep).1;
      after.dirs.Keys == disk.dirs.Keys && after.denied == disk.denied && after.home == disk.home
    decreases |todo|
  {
    if |todo| > 0 {
      var next := Step(disk, dir, todo[0].0, todo[0].1, overwrite, rep);
      LoopFrame(next.1, dir, todo[1..], overwrite, next.0);
    }
  }

  /** Every block to migrate is appended to exactly one of the three lists, once per occurrence. */
  lemma {:induction false} LoopPartition(disk: Disk, dir: string, todo: Dict<string, Value>, overwrite: bool, rep: Report)
    ensures var r := MigrateLoop(disk, dir, todo, overwrite, rep).0;
      Tally(r) == Tally(rep) + multiset(Keys(todo))
    decreases |todo|
  {
    if |todo| > 0 {
      var next := Step(disk, dir, todo[0].0, todo[0].1, overwrite, rep);
      StepTally(disk, dir, todo[0].0, todo[0].1, overwrite, rep);
      LoopPartition(next.1, dir, todo[1..], overwrite, next.0);
      assert Keys(todo) == [todo[0].0] + Keys(todo[1..]);
    }
  }

  /** The names in the three lists of a report, with repetitions. */
  function Tally(rep: Report): multiset<string>
  {
    multiset(rep.migrated) + multiset(rep.skipped) + multiset(rep.failed)
  }

  /** One machine adds its name to exactly one list, and a failure records its message. */
  lemma StepTally(disk: Disk, dir: string, name: string, block: Value, overwrite: bool, rep: Report)
    ensures var next := Step(disk, dir, name, block, overwrite, rep).0;
      Tally(next) == Tally(rep) + multiset{name} &&
      ((next.failed == rep.failed && next.errors == rep.errors) ||
       (next.failed == rep.failed + [name] && HasKey(next.errors, name) &&
        forall n :: HasKey(rep.errors, n) ==> HasKey(next.errors, n)))
  {
    var p := PathJoin(dir, FileOf(name));
    if !(Exists(disk, p) && !overwrite) && Save(disk, dir, FileOf(name), block).Err? {
      var text := Str(Save(disk, dir, FileOf(name), block).exc);
      forall n ensures HasKey(Put(rep.errors, name, text), n) <==> n == name || HasKey(rep.errors, n) {
        PutKeys(rep.errors, name, text, n);
      }
    }
  }

  /** Every failed machine has a message under its name. */
  predicate Explained(rep: Report)
  {
    forall n :: n in rep.failed ==> HasKey(rep.errors, n)
  }

  /** One machine keeps every failure explained. */
  lemma StepExplained(disk: Disk, dir: string, name: string, block: Value, overwrite: bool, rep: Report)
    requires Explained(rep)
    ensures Explained(Step(disk, dir, name, block, overwrite, rep).0)
  {
    var next := Step(disk, dir, name, block, overwrite, rep).0;
    StepTally(disk, dir, name, block, overwrite, rep);
    forall n | n in next.failed
      ensures HasKey(next.errors, n)
    {
      if next.failed != rep.failed {
        assert n in rep.failed || n == name;
      }
    }
  }

  /** Every failure has its message under the machine's name in the errors. */
  lemma {:induction false} FailuresExplained(disk: Disk, dir: string, todo: Dict<string, Value>, overwrite: bool,
                                             rep: Report)
    requires Explained(rep)
    ensures Explained(MigrateLoop(disk, dir, todo, overwrite, rep).0)
    decreases |todo|
  {
    if |todo| > 0 {
      var next := Step(disk, dir, todo[0].0, todo[0].1, overwrite, rep);
      StepExplained(disk, dir, todo[0].0, todo[0].1, overwrite, rep);
      FailuresExplained(next.1, dir, todo[1..], overwrite, next.0);
      assert MigrateLoop(disk, dir, todo, overwrite, rep) == MigrateLoop(next.1, dir, todo[1..], overwrite, next.0);
    }
  }

  /** Without overwrite, no file that existed before the loop is touched by it. */
  lemma {:induction false} KeepsExisting(disk: Disk, dir: string, todo: Dict<string, Value>, rep: Report)
    ensures var after := MigrateLoop(disk, dir, todo, false, rep).1;
      forall p :: p in disk.files ==> p in after.files && after.files[p] == disk.files[p]
    decreases |todo|
  {
    if |todo| > 0 {
      var next := Step(disk, dir, todo[0].0, todo[0].1, false, rep);
      KeepsExisting(next.1, dir, todo[1..], next.0);
    }
  }

  /**
   * One machine: an existing file without overwrite is skipped and left as
   * it is; otherwise the file is written and reads back as the block, or the
   * write fails, the machine is listed as failed and nothing changes.
   */
  lemma StepOutcome(disk: Disk, dir: string, name: string, block: Value, overwrite: bool, rep: Report)
    ensures var p := PathJoin(dir, FileOf(name));
      var r := Step(disk, dir, name, block, overwrite, rep);
      (Exists(disk, p) && !overwrite ==> r.1 == disk && r.0.skipped == rep.skipped + [name] &&
                                         r.0.migrated == rep.migrated && r.0.failed == rep.failed) &&
      (!(Exists(disk, p) && !overwrite) && p !in disk.dirs && p !in disk.denied ==>
         ReadJson(r.1, p) == Ok(block) && r.0.migrated == rep.migrated + [name] &&
         r.0.skipped == rep.skipped && r.0.failed == rep.failed) &&
      (!(Exists(disk, p) && !overwrite) && (p in disk.dirs || p in disk.denied) ==>
         r.1 == disk && r.0.failed == rep.failed + [name] && HasKey(r.0.errors, name) &&
         r.0.migrated == rep.migrated && r.0.skipped == rep.skipped)
  {
    var p := PathJoin(dir, FileOf(name));
    if !(Exists(disk, p) && !overwrite) && (p in disk.dirs || p in disk.denied) {
      PutKeys(rep.errors, name, Str(Save(disk, dir, FileOf(name), block).exc), name);
    }
  }

  /**
   * A configured default is reported, and once the blocks have been
   * migrated default.json names it, unless that path is a directory or may
   * not be written.
   */
  lemma DefaultRecorded(disk: Disk, dir: string, todo: Dict<string, Value>, overwrite: bool, default: Value)
    requires Truthy(default)
    requires MakeDirs(disk, dir).Ok?
    requires PathJoin(dir, "default.json") !in disk.dirs && PathJoin(dir, "default.json") !in disk.denied
    requires PathJoin(dir, "default.json") != dir
    ensures var r := Finish(disk, dir, VDict(todo), overwrite, Fresh.(default := default));
      r.0.Ok? && r.0.value.default == default &&
      ReadJson(r.1, PathJoin(dir, "default.json")) == Ok(VDict([("default", default)]))
  {
    var made := MakeDirs(disk, dir).value;
    assert made.dirs.Keys <= disk.dirs.Keys + {dir} && made.denied == disk.denied by {
      if dir !in disk.dirs {
        assert made.dirs == disk.dirs[dir := []];
      }
    }
    LoopFrame(made, dir, todo, overwrite, Fresh.(default := default));
    LoopKeepsDefault(made, dir, todo, overwrite, Fresh.(default := default));
  }

  /** A default found in the config is recorded in the report on every path past the load. */
  lemma DefaultReported(disk: Disk, jsonPath: string, outputDir: string, names: Option<seq<string>>, overwrite: bool,
                        config: Dict<string, Value>)
    requires Document(disk, ExpandUser(jsonPath, disk.home)) == Some(VDict(config))
    requires Truthy(GetOr(config, "default", VNone))
    requires MigrateSpec(disk, jsonPath, outputDir, names, overwrite).0.Ok?
    ensures MigrateSpec(disk, jsonPath, outputDir, names, overwrite).0.value.default == GetOr(config, "default", VNone)
  {
    var default := GetOr(config, "default", VNone);
    var machines := GetOr(config, "machines", VDict([]));
    var todo := Chosen(machines, names);
    if Truthy(machines) && todo.Ok? && todo.value.VDict? && MakeDirs(disk, ExpandUser(outputDir, disk.home)).Ok? {
      LoopKeepsDefault(MakeDirs(disk, ExpandUser(outputDir, disk.home)).value, ExpandUser(outputDir, disk.home),
                       todo.value.entries, overwrite, Fresh.(default := default));
    }
  }

  /** Every block to migrate lands in exactly one of migrated, skipped and failed. */
  lemma ExactlyOne(disk: Disk, dir: string, todo: Dict<string, Value>, overwrite: bool, default: Value, k: string)
    requires UniqueKeys(todo)
    ensures var r := MigrateLoop(disk, dir, todo, overwrite, Fresh.(default := default)).0;
      multiset(r.migrated)[k] + multiset(r.skipped)[k] + multiset(r.failed)[k] == if HasKey(todo, k) then 1 else 0
  {
    var start := Fresh.(default := default);
    LoopPartition(disk, dir, todo, overwrite, start);
    assert Tally(start) == multiset{};
    KeyCount(todo, k);
    var r := MigrateLoop(disk, dir, todo, overwrite, start).0;
    assert Tally(r) == multiset(Keys(todo));
    assert Tally(r)[k] == multiset(r.migrated)[k] + multiset(r.skipped)[k] + multiset(r.failed)[k];
  }

  /** In a dict with distinct keys each key is listed once. */
  lemma KeyCount(d: Dict<string, Value>, k: string)
    requires UniqueKeys(d)
    ensures multiset(Keys(d))[k] == if HasKey(d, k) then 1 else 0
  {
    var ks := Keys(d);
    assert Distinct(ks);
    DistinctCount(ks, k);
    if HasKey(d, k) {
      var i :| 0 <= i < |d| && d[i].0 == k;
      assert ks[i] == k;
    }
  }

  lemma {:induction false} DistinctCount(ks: seq<string>, k: string)
    requires Distinct(ks)
    ensures multiset(ks)[k] == if k in ks then 1 else 0
  {
    if |ks| > 0 {
      assert ks == [ks[0]] + ks[1..];
      assert Distinct(ks[1..]);
      DistinctCount(ks[1..], k);
      assert ks[0] !in ks[1..];
    }
  }

  // ---------------------------------------------------------------
  // What rollback_migration promises
  // ---------------------------------------------------------------

  /** A missing output directory gives an unsuccessful report and removes nothing. */
  lemma RollbackMissingDir(disk: Disk, outputDir: string, names: Option<seq<string>>)
    requires !Exists(disk, ExpandUser(outputDir, disk.home))
    ensures RollbackSpec(disk, outputDir, names) == (Ok(Removal(false, [], [], [])), disk)
  {
  }

  /** A path the loop may remove: an existing regular file that is not protected. */
  predicate Removable(disk: Disk, p: string)
  {
    p in disk.files && p !in disk.dirs && p !in disk.denied
  }

  /** The loop only removes files: every file left is one that was there, with its contents. */
  lemma {:induction false} RemoveFrame(disk: Disk, dir: string, targets: seq<string>, rep: Removal)
    ensures var after := RemoveLoop(disk, dir, targets, rep).1;
      (forall p :: p in after.files ==> p in disk.files && after.files[p] == disk.files[p]) &&
      after.dirs.Keys == disk.dirs.Keys && after.denied == disk.denied
    decreases |targets|
  {
    if |targets| > 0 {
      var next := RemoveStep(disk, dir, targets[0], rep);
      RemoveFrame(next.1, dir, targets[1..], next.0);
    }
  }

  /** Every target that could be removed is gone afterwards. */
  lemma {:induction false} RemovesTargets(disk: Disk, dir: string, targets: seq<string>, rep: Removal)
    ensures var after := RemoveLoop(disk, dir, targets, rep).1;
      forall f :: f in targets && PathJoin(dir, f) !in disk.dirs && PathJoin(dir, f) !in disk.denied ==>
        PathJoin(dir, f) !in after.files
    decreases |targets|
  {
    if |targets| > 0 {
      var next := RemoveStep(disk, dir, targets[0], rep);
      RemovesTargets(next.1, dir, targets[1..], next.0);
      RemoveFrame(next.1, dir, targets[1..], next.0);
      assert next.1.dirs.Keys == disk.dirs.Keys && next.1.denied == disk.denied;
      assert forall f :: f in targets <==> f == targets[0] || f in targets[1..];
    }
  }

  /**
   * One target: either nothing is recorded, or its stem is appended after
   * its file, removable at that point, is removed; a removable target is
   * always removed.
   */
  lemma RemoveStepFacts(disk: Disk, dir: string, f: string, rep: Removal)
    ensures var next := RemoveStep(disk, dir, f, rep);
      var p := PathJoin(dir, f);
      (next.0.removed == rep.removed || (next.0.removed == rep.removed + [StemOf(f)] && Removable(disk, p))) &&
      (Removable(disk, p) ==> next.0.removed == rep.removed + [StemOf(f)])
  {
  }

  /** One target removes at most its own file: no other path changes whether it is removable. */
  lemma RemoveStepKeeps(disk: Disk, dir: string, f: string, rep: Removal, q: string)
    ensures var after := RemoveStep(disk, dir, f, rep).1;
      (Removable(after, q) ==> Removable(disk, q)) &&
      (q != PathJoin(dir, f) ==> (Removable(after, q) <==> Removable(disk, q)))
  {
  }

  /** The names already reported stay in front: the loop only appends to them. */
  lemma {:induction false} RemovedPrefix(disk: Disk, dir: string, targets: seq<string>, rep: Removal)
    ensures rep.removed <= RemoveLoop(disk, dir, targets, rep).0.removed
    decreases |targets|
  {
    if |targets| > 0 {
      var next := RemoveStep(disk, dir, targets[0], rep);
      RemoveStepFacts(disk, dir, targets[0], rep);
      RemovedPrefix(next.1, dir, targets[1..], next.0);
    }
  }

  /**
   * Removed names, both ways: every name reported is a ".json" target whose
   * file could be removed, with ".json" dropped; and every target whose file
   * could be removed is reported, under its own stem or under that of an
   * earlier target naming the same path, which removed the file first.
   */
  lemma RemovedNames(disk: Disk, dir: string, targets: seq<string>, rep: Removal)
    requires forall f :: f in targets ==> EndsWith(f, ".json")
    ensures var r := RemoveLoop(disk, dir, targets, rep).0;
      forall n :: n in r.removed ==> n in rep.removed || (FileOf(n) in targets && Removable(disk, PathJoin(dir, FileOf(n))))
    ensures var r := RemoveLoop(disk, dir, targets, rep).0;
      forall f :: f in targets && Removable(disk, PathJoin(dir, f)) ==>
        exists g :: g in targets && PathJoin(dir, g) == PathJoin(dir, f) && StemOf(g) in r.removed
  {
    RemovedFromTargets(disk, dir, targets, rep);
    TargetsReported(disk, dir, targets, rep);
  }

  /** With targets naming distinct paths, a target is reported exactly when its file could be removed. */
  lemma RemovedEach(disk: Disk, dir: string, targets: seq<string>, rep: Removal)
    requires forall f :: f in targets ==> EndsWith(f, ".json")
    requires forall f, g :: f in targets && g in targets && PathJoin(dir, f) == PathJoin(dir, g) ==> f == g
    ensures var r := RemoveLoop(disk, dir, targets, rep).0;
      forall f :: f in targets ==> (StemOf(f) in r.removed <==> StemOf(f) in rep.removed || Removable(disk, PathJoin(dir, f)))
  {
    RemovedNames(disk, dir, targets, rep);
    RemovedPrefix(disk, dir, targets, rep);
    var r := RemoveLoop(disk, dir, targets, rep).0;
    forall f | f in targets
      ensures StemOf(f) in r.removed <==> StemOf(f) in rep.removed || Removable(disk, PathJoin(dir, f))
    {
      assert FileOf(StemOf(f)) == f;
    }
  }

  /**
   * Two targets joining to the same path report it once: "a.json" and
   * "/d/a.json" in "/d" remove "/d/a.json" under "a", and the second target,
   * its file already gone, is skipped, so "/d/a" is never reported.
   */
  lemma SamePathReportedOnce(disk: Disk)
    requires Removable(disk, "/d/a.json")
    ensures var r := RemoveLoop(disk, "/d", ["a.json", "/d/a.json"], NothingRemoved).0;
      Removable(disk, PathJoin("/d", "/d/a.json")) && r.removed == ["a"] && StemOf("/d/a.json") !in r.removed
  {
    var targets := ["a.json", "/d/a.json"];
    assert PathJoin("/d", "a.json") == "/d/a.json";
    assert PathJoin("/d", "/d/a.json") == "/d/a.json" by {
      assert "/d/a.json"[0] == '/';
    }
    assert StemOf("a.json") == "a";
    assert StemOf("/d/a.json") == "/d/a";
    var first := RemoveStep(disk, "/d", "a.json", NothingRemoved);
    assert first.0.removed == ["a"];
    assert !Exists(first.1, "/d/a.json");
    var second := RemoveStep(first.1, "/d", "/d/a.json", first.0);
    assert second.0 == first.0;
    assert targets[1..][1..] == [];
    assert RemoveLoop(disk, "/d", targets, NothingRemoved) == RemoveLoop(second.1, "/d", [], second.0);
  }

  /** Every name the loop reports comes from a ".json" target whose file could be removed. */
  lemma {:induction false} RemovedFromTargets(disk: Disk, dir: string, targets: seq<string>, rep: Removal)
    requires forall f :: f in targets ==> EndsWith(f, ".json")
    ensures var r := RemoveLoop(disk, dir, targets, rep).0;
      forall n :: n in r.removed ==> n in rep.removed || (FileOf(n) in targets && Removable(disk, PathJoin(dir, FileOf(n))))
    decreases |targets|
  {
    if |targets| > 0 {
      var t := targets[0];
      var next := RemoveStep(disk, dir, t, rep);
      var r := RemoveLoop(disk, dir, targets, rep).0;
      assert r == RemoveLoop(next.1, dir, targets[1..], next.0).0;
      RemoveStepFacts(disk, dir, t, rep);
      RemovedFromTargets(next.1, dir, targets[1..], next.0);
      assert FileOf(StemOf(t)) == t;
      forall n | n in r.removed && n !in rep.removed
        ensures FileOf(n) in targets && Removable(disk, PathJoin(dir, FileOf(n)))
      {
        if n !in next.0.removed {
          assert FileOf(n) in targets[1..];
          RemoveStepKeeps(disk, dir, t, rep, PathJoin(dir, FileOf(n)));
        }
      }
    }
  }

  /** Some target naming path `p` is reported among `removed`. */
  predicate ReportedUnder(dir: string, targets: seq<string>, removed: seq<string>, p: string)
  {
    exists g :: g in targets && PathJoin(dir, g) == p && StemOf(g) in removed
  }

  /** A report found among the later targets is a report among all of them. */
  lemma ReportedWiden(dir: string, targets: seq<string>, removed: seq<string>, p: string)
    requires |targets| > 0 && ReportedUnder(dir, targets[1..], removed, p)
    ensures ReportedUnder(dir, targets, removed, p)
  {
    var g :| g in targets[1..] && PathJoin(dir, g) == p && StemOf(g) in removed;
    assert g in targets;
  }

  /** Every target that could be removed is reported, under the stem of a target naming its path. */
  lemma {:induction false} TargetsReported(disk: Disk, dir: string, targets: seq<string>, rep: Removal)
    ensures var r := RemoveLoop(disk, dir, targets, rep).0;
      forall f :: f in targets && Removable(disk, PathJoin(dir, f)) ==> ReportedUnder(dir, targets, r.removed, PathJoin(dir, f))
    decreases |targets|
  {
    if |targets| > 0 {
      var t := targets[0];
      var next := RemoveStep(disk, dir, t, rep);
      var r := RemoveLoop(disk, dir, targets, rep).0;
      assert r == RemoveLoop(next.1, dir, targets[1..], next.0).0;
      RemoveStepFacts(disk, dir, t, rep);
      RemovedPrefix(next.1, dir, targets[1..], next.0);
      TargetsReported(next.1, dir, targets[1..], next.0);
      forall f | f in targets && Removable(disk, PathJoin(dir, f))
        ensures ReportedUnder(dir, targets, r.removed, PathJoin(dir, f))
      {
        if PathJoin(dir, f) == PathJoin(dir, t) {
          assert Removable(disk, PathJoin(dir, t));
          assert next.0.removed == rep.removed + [StemOf(t)];
          assert StemOf(t) in next.0.removed;
          assert StemOf(t) in r.removed;
        } else {
          RemoveStepKeeps(disk, dir, t, rep, PathJoin(dir, f));
          assert f in targets[1..];
          ReportedWiden(dir, targets, r.removed, PathJoin(dir, f));
        }
      }
    }
  }

  /** The loop never forgets a removal. */
  lemma {:induction false} RemovedGrows(disk: Disk, dir: string, targets: seq<string>, rep: Removal)
    ensures |RemoveLoop(disk, dir, targets, rep).0.removed| >= |rep.removed|
    decreases |targets|
  {
    if |targets| > 0 {
      var next := RemoveStep(disk, dir, targets[0], rep);
      RemovedGrows(next.1, dir, targets[1..], next.0);
    }
  }

  /** Something is removed exactly when some target is a removable file. */
  lemma {:induction false} RemovesSome(disk: Disk, dir: string, targets: seq<string>, rep: Removal)
    ensures |RemoveLoop(disk, dir, targets, rep).0.removed| > |rep.removed| <==>
      exists f :: f in targets && Removable(disk, PathJoin(dir, f))
    decreases |targets|
  {
    if |targets| > 0 {
      var f := targets[0];
      var next := RemoveStep(disk, dir, f, rep);
      assert forall g :: g in targets <==> g == f || g in targets[1..];
      if Removable(disk, PathJoin(dir, f)) {
        RemovedGrows(next.1, dir, targets[1..], next.0);
      } else {
        assert next.1 == disk && next.0.removed == rep.removed;
        RemovesSome(disk, dir, targets[1..], next.0);
      }
    }
  }

  /** The rollback succeeds exactly when one of its target files could be removed. */
  lemma RollbackSuccess(disk: Disk, outputDir: string, names: Option<seq<string>>)
    requires Exists(disk, ExpandUser(outputDir, disk.home))
    requires RollbackSpec(disk, outputDir, names).0.Ok?
    ensures var dir := ExpandUser(outputDir, disk.home);
      Targets(disk, dir, names).Ok? &&
      (RollbackSpec(disk, outputDir, names).0.value.success <==>
       exists f :: f in Targets(disk, dir, names).value && Removable(disk, PathJoin(dir, f)))
  {
    var dir := ExpandUser(outputDir, disk.home);
    RemovesSome(disk, dir, Targets(disk, dir, names).value, NothingRemoved);
  }
}
