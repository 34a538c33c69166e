// The shared part of every job-script writer: the scheduler record built
// from a calculator, a queue and a resolved command, with the environment
// block placed before the command and the block placed after it.

module SchedBase {
  import opened PyStr
  import opened PyDict
  import opened Json
  import opened PyErr

  /** Python's `sep.join(items)`: every item must be a string. */
  function JoinLines(sep: string, items: seq<Value>): (r: Result<string>)
    ensures r.Ok? <==> IsStrList(items)
    ensures r.Ok? ==> r.value == Join(sep, StrItems(items))
  {
    if IsStrList(items) then Ok(Join(sep, StrItems(items)))
    else Err(Exc("TypeError", "sequence item: expected str instance"))
  }

  /** One `module load <m>` line per module, in order. */
  function ModuleLoads(mods: seq<Value>): (r: seq<Value>)
    ensures |r| == |mods| && IsStrList(r)
    ensures forall i :: 0 <= i < |mods| ==> r[i] == VStr("module load " + Show(mods[i]))
  {
    seq(|mods|, i requires 0 <= i < |mods| => VStr("module load " + Show(mods[i])))
  }

  /** The modules to load: `queue["modules"]` when `use_modules` is truthy and that value is a list. */
  function ModuleList(q: Dict<string, Value>): seq<Value>
  {
    if Truthy(GetOr(q, "use_modules", VBool(false))) then
      match GetOr(q, "modules", VList([]))
      case VList(ms) => ms
      case _ => []
    else []
  }

  /** "module purge" and the loads, or nothing for an empty module list. */
  function ModuleBlock(q: Dict<string, Value>): seq<Value>
  {
    var ms := ModuleList(q);
    if ms == [] then [] else [VStr("module purge")] + ModuleLoads(ms)
  }

  /** The "prepend" entry, verbatim and whatever its value. */
  function PrependBlock(q: Dict<string, Value>): seq<Value>
  {
    match Get(q, "prepend")
    case Some(v) => [v]
    case None => []
  }

  /** The text of `$HOME/<xespressorc>` when the key is truthy and that file exists. */
  function RcBlock(q: Dict<string, Value>, files: map<string, string>, home: string): Result<seq<Value>>
  {
    var name := GetOr(q, "xespressorc", VNone);
    if !Truthy(name) then Ok([])
    else if !name.VStr? then Err(Exc("TypeError", "join() argument must be str, bytes, or os.PathLike object"))
    else if PathJoin(home, name.s) in files then Ok([VStr(files[PathJoin(home, name.s)])])
    else Ok([])
  }

  /** The list `_load_config_script` builds before joining it. */
  function ConfigLines(q: Dict<string, Value>, files: map<string, string>, home: string): Result<seq<Value>>
  {
    match RcBlock(q, files, home)
    case Err(e) => Err(e)
    case Ok(rc) => Ok(PrependBlock(q) + ModuleBlock(q) + rc)
  }

  /** `_load_config_script()`: the "\n"-joined environment block. */
  function ConfigScript(q: Dict<string, Value>, files: map<string, string>, home: string): Result<string>
  {
    match ConfigLines(q, files, home)
    case Err(e) => Err(e)
    case Ok(ls) => JoinLines("\n", ls)
  }

  /** The prepend entry comes first whenever the key exists, even when it is empty or not a string. */
  lemma ConfigPrependFirst(q: Dict<string, Value>, files: map<string, string>, home: string)
    requires ConfigLines(q, files, home).Ok? && HasKey(q, "prepend")
    ensures ConfigLines(q, files, home).value[0] == Get(q, "prepend").value
  {
    var ls := ConfigLines(q, files, home).value;
    var pre := PrependBlock(q);
    assert pre == [Get(q, "prepend").value];
    assert ls == pre + (ModuleBlock(q) + RcBlock(q, files, home).value);
  }

  /**
   * The three blocks in order: the prepend entry (when the key exists), then
   * the module lines, then the rc-file text, with nothing in between.
   */
  lemma ConfigBlocks(q: Dict<string, Value>, files: map<string, string>, home: string)
    requires ConfigLines(q, files, home).Ok?
    ensures var ls := ConfigLines(q, files, home).value;
      var p := |PrependBlock(q)|;
      var m := |ModuleBlock(q)|;
      |ls| == p + m + |RcBlock(q, files, home).value| &&
      ls[..p] == PrependBlock(q) && ls[p..p + m] == ModuleBlock(q) && ls[p + m..] == RcBlock(q, files, home).value
  {
    var pre, mb, rc := PrependBlock(q), ModuleBlock(q), RcBlock(q, files, home).value;
    var ls := ConfigLines(q, files, home).value;
    assert ls == pre + mb + rc;
    assert ls[..|pre|] == pre;
    assert ls[|pre|..|pre| + |mb|] == mb;
    assert ls[|pre| + |mb|..] == rc;
  }

  /**
   * The module lines: none for an empty module list, otherwise "module
   * purge" followed by one load per module, in the order of the list.
   */
  lemma ModuleBlockShape(q: Dict<string, Value>)
    ensures ModuleBlock(q) == [] <==> ModuleList(q) == []
    ensures ModuleList(q) != [] ==>
      |ModuleBlock(q)| == |ModuleList(q)| + 1 && ModuleBlock(q)[0] == VStr("module purge") &&
      forall i :: 0 <= i < |ModuleList(q)| ==> ModuleBlock(q)[i + 1] == VStr("module load " + Show(ModuleList(q)[i]))
  {
    var ms := ModuleList(q);
    if ms != [] {
      var mb := ModuleBlock(q);
      assert mb == [VStr("module purge")] + ModuleLoads(ms);
      forall i | 0 <= i < |ms|
        ensures mb[i + 1] == VStr("module load " + Show(ms[i]))
      {
        assert mb[i + 1] == ModuleLoads(ms)[i];
      }
    }
  }

  /** `use_modules` truthy with a non-list or an empty list gives no module line. */
  lemma ModuleListCases(q: Dict<string, Value>)
    ensures ModuleList(q) != [] <==>
      Truthy(GetOr(q, "use_modules", VBool(false))) && GetOr(q, "modules", VList([])).VList? &&
      GetOr(q, "modules", VList([])).items != []
  {
  }

  /** With `use_modules` falsy there are no module lines at all: the prepend entry, then the rc-file text. */
  lemma ConfigNoModules(q: Dict<string, Value>, files: map<string, string>, home: string)
    requires ConfigLines(q, files, home).Ok? && !Truthy(GetOr(q, "use_modules", VBool(false)))
    ensures ConfigLines(q, files, home).value == PrependBlock(q) + RcBlock(q, files, home).value
  {
    assert ModuleBlock(q) == [];
  }

  /** A non-string prepend makes the join fail. */
  lemma ConfigPrependNotString(q: Dict<string, Value>, files: map<string, string>, home: string)
    requires Get(q, "prepend").Some? && !Get(q, "prepend").value.VStr?
    requires RcBlock(q, files, home).Ok?
    ensures ConfigScript(q, files, home).Err?
  {
    var ls := ConfigLines(q, files, home).value;
    assert ls[0] == Get(q, "prepend").value;
  }

  /** `_load_post_script()`: the "postpend" entry, or "" when absent. */
  function PostScript(q: Dict<string, Value>): (r: Value)
    ensures HasKey(q, "postpend") ==> Some(r) == Get(q, "postpend")
    ensures !HasKey(q, "postpend") ==> r == VStr("")
  {
    GetOr(q, "postpend", VStr(""))
  }

  /** The fields set by `Scheduler.__init__`. */
  datatype Scheduler = Scheduler(scriptDir: string, queue: Dict<string, Value>, command: string,
                                 jobFile: string, configScript: string, postScript: Value)

  /** `Scheduler(calc, queue, command)` for a calculator whose directory is `directory`. */
  function NewScheduler(directory: string, q: Dict<string, Value>, command: string,
                        files: map<string, string>, home: string): (r: Result<Scheduler>)
    ensures r.Ok? <==> ConfigScript(q, files, home).Ok?
    ensures r.Ok? ==>
      r.value.jobFile == ".job_file" && r.value.scriptDir == directory &&
      r.value.queue == q && r.value.command == command &&
      r.value.configScript == ConfigScript(q, files, home).value &&
      r.value.postScript == PostScript(q)
  {
    match ConfigScript(q, files, home)
    case Err(e) => Err(e)
    case Ok(cfg) => Ok(Scheduler(directory, q, command, ".job_file", cfg, PostScript(q)))
  }

  /** The `module load` appends, one per module in order. */
  method AppendLoads(mods: seq<Value>) returns (lines: seq<Value>)
    ensures lines == ModuleLoads(mods)
  {
    lines := [];
    var i := 0;
    while i < |mods|
      invariant 0 <= i <= |mods|
      invariant lines == ModuleLoads(mods[..i])
    {
      assert ModuleLoads(mods[..i + 1]) == ModuleLoads(mods[..i]) + [VStr("module load " + Show(mods[i]))];
      lines := lines + [VStr("module load " + Show(mods[i]))];
      i := i + 1;
    }
    assert mods[..i] == mods;
  }

  /** The module-loading part of `_load_config_script`: "module purge", then the loads. */
  method LoadModules(q: Dict<string, Value>) returns (lines: seq<Value>)
    ensures lines == ModuleBlock(q)
  {
    lines := [];
    if Truthy(GetOr(q, "use_modules", VBool(false))) {
      var modules := GetOr(q, "modules", VList([]));
      if modules.VList? && modules.items != [] {
        var loads := AppendLoads(modules.items);
        lines := [VStr("module purge")] + loads;
      }
    }
  }

  /** `_load_config_script`: prepend, modules and rc text appended to `lines`, then joined. */
  method LoadConfigScript(q: Dict<string, Value>, files: map<string, string>, home: string)
    returns (r: Result<string>)
    ensures r == ConfigScript(q, files, home)
  {
    var lines: seq<Value> := [];
    if HasKey(q, "prepend") {
      lines := lines + [Get(q, "prepend").value];
    }
    assert lines == PrependBlock(q);
    var mods := LoadModules(q);
    lines := lines + mods;
    ghost var before := lines;
    var configName := GetOr(q, "xespressorc", VNone);
    if Truthy(configName) {
      if !configName.VStr? {
        return Err(Exc("TypeError", "join() argument must be str, bytes, or os.PathLike object"));
      }
      var homePath := PathJoin(home, configName.s);
      if homePath in files {
        lines := lines + [VStr(files[homePath])];
      }
    }
    assert lines == before + RcBlock(q, files, home).value;
    r := JoinLines("\n", lines);
  }

  /** `Scheduler.__init__`: the job file, the script directory and the two blocks. */
  method Init(directory: string, q: Dict<string, Value>, command: string,
              files: map<string, string>, home: string) returns (r: Result<Scheduler>)
    ensures r == NewScheduler(directory, q, command, files, home)
  {
    var config := LoadConfigScript(q, files, home);
    if config.Err? {
      return Err(config.exc);
    }
    r := Ok(Scheduler(directory, q, command, ".job_file", config.value, PostScript(q)));
  }
}
