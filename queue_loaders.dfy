// The dictionary-style machine loaders, which read one machine block of
// machines.json straight into the scheduler's queue dictionary without
// building a Machine. Three generations share the same shape and differ in
// details, kept apart by `Style`:
//   Legacy    -- key or password authentication, script blocks copied as given
//   Launching -- key authentication with a port, normalised script blocks,
//                and the launcher and process count
//   Plain     -- as Launching but without launcher and process count, and
//                with a retry prompt instead of a KeyError

module QueueLoaders {
  import opened PyStr
  import opened PyErr
  import opened PyDict
  import opened Json
  import opened ConfigStore
  import Machines

  datatype Style = Legacy | Launching | Plain

  /** The entries every queue starts with, in order. */
  const SchedulerKeys: seq<string> :=
    ["execution", "scheduler", "use_modules", "modules", "resources", "prepend", "postpend"]

  /** The entries only the Launching style adds after them. */
  const LaunchKeys: seq<string> := ["launcher", "nprocs"]

  function BaseKeys(style: Style): seq<string>
  {
    if style == Launching then SchedulerKeys + LaunchKeys else SchedulerKeys
  }

  /** What `load_machine` hands back: the queue, or None with or without a warning. */
  datatype Loaded = Queue(queue: Dict<string, Value>) | NotLoaded(warning: Option<string>)

  // ---------------------------------------------------------------
  // One machine block into a queue
  // ---------------------------------------------------------------

  /** A prepend/postpend entry: copied as given (default []) by Legacy, normalised by the others. */
  function Script(m: Dict<string, Value>, key: string, style: Style): (r: Result<Value>)
    ensures style == Legacy ==> r == Ok(GetOr(m, key, VList([])))
    ensures style != Legacy ==> r == Machines.Normalize(GetOr(m, key, VNone))
  {
    if style == Legacy then Ok(GetOr(m, key, VList([])))
    else Machines.Normalize(GetOr(m, key, VNone))
  }

  /** The values of the leading entries, with the loaders' defaults. */
  function BaseValues(m: Dict<string, Value>, prepend: Value, postpend: Value, style: Style): (r: seq<Value>)
    ensures |r| == |BaseKeys(style)|
  {
    [GetOr(m, "execution", VStr("local")), GetOr(m, "scheduler", VStr("direct")),
     GetOr(m, "use_modules", VBool(false)), GetOr(m, "modules", VList([])),
     GetOr(m, "resources", VDict([])), prepend, postpend] +
    (if style == Launching then [GetOr(m, "launcher", VStr("mpirun -np {nprocs}")), GetOr(m, "nprocs", VInt(1))]
     else [])
  }

  /** The `remote_auth` entry built from the block's "auth" value. */
  function RemoteAuth(auth: Value, style: Style): (r: Result<Value>)
  {
    match GetField(auth, "method", VStr("key"))
    case Err(e) => Err(e)
    case Ok(scheme) =>
      if style == Legacy then
        if scheme == VStr("key") then
          Ok(VDict([("method", VStr("key")), ("ssh_key", GetOr(auth.entries, "ssh_key", VStr(Machines.DefaultSshKey)))]))
        else if scheme == VStr("password") then
          Ok(VDict([("method", VStr("password")), ("password", GetOr(auth.entries, "password", VStr("")))]))
        else Err(Exc("ValueError", "Unsupported auth method: " + Show(scheme)))
      else if scheme != VStr("key") then
        Err(Exc("ValueError", "Unsupported authentication method: " + Show(scheme)))
      else
        Ok(VDict([("method", VStr("key")),
                  ("ssh_key", GetOr(auth.entries, "ssh_key", VStr(Machines.DefaultSshKey))),
                  ("port", GetOr(auth.entries, "port", VInt(22)))]))
  }

  /** The values of the remote entries; host, username and workdir are looked up with `[]`. */
  function RemoteValues(m: Dict<string, Value>, style: Style): (r: Result<seq<Value>>)
    ensures r.Ok? ==> |r.value| == 4
  {
    match Index(VDict(m), "host")
    case Err(e) => Err(e)
    case Ok(host) =>
      match Index(VDict(m), "username")
      case Err(e) => Err(e)
      case Ok(user) =>
        match RemoteAuth(GetOr(m, "auth", VDict([])), style)
        case Err(e) => Err(e)
        case Ok(auth) =>
          match Index(VDict(m), "workdir")
          case Err(e) => Err(e)
          case Ok(workdir) => Ok([host, user, auth, workdir])
  }

  /** The leading entries, built with the script blocks before anything else is looked at. */
  function Leading(m: Dict<string, Value>, style: Style): (r: Result<Dict<string, Value>>)
    ensures r.Ok? <==> Script(m, "prepend", style).Ok? && Script(m, "postpend", style).Ok?
    ensures r.Ok? ==> |r.value| == |BaseKeys(style)|
  {
    match Script(m, "prepend", style)
    case Err(e) => Err(e)
    case Ok(pre) =>
      match Script(m, "postpend", style)
      case Err(e) => Err(e)
      case Ok(post) => Ok(Zip(BaseKeys(style), BaseValues(m, pre, post, style)))
  }

  /** The entries that depend on the execution mode. */
  function Trailing(m: Dict<string, Value>, style: Style): (r: Result<Dict<string, Value>>)
  {
    var execution := GetOr(m, "execution", VStr("local"));
    if execution == VStr("local") then Ok([("local_dir", GetOr(m, "workdir", VStr("./")))])
    else if execution == VStr("remote") then
      match RemoteValues(m, style)
      case Err(e) => Err(e)
      case Ok(vs) => Ok(Zip(Machines.RemoteQueueKeys, vs))
    else Ok([])
  }

  /** The queue dictionary for one machine block; the first failure, in evaluation order, is raised. */
  function QueueOf(machine: Value, style: Style): (r: Result<Dict<string, Value>>)
    ensures r.Ok? <==> machine.VDict? && Leading(machine.entries, style).Ok? && Trailing(machine.entries, style).Ok?
    ensures r.Ok? ==> r.value == Leading(machine.entries, style).value + Trailing(machine.entries, style).value
  {
    if !machine.VDict? then Err(NoAttribute(machine, "get"))
    else
      match Leading(machine.entries, style)
      case Err(e) => Err(e)
      case Ok(base) =>
        match Trailing(machine.entries, style)
        case Err(e) => Err(e)
        case Ok(tail) => Ok(base + tail)
  }

  // ---------------------------------------------------------------
  // load_machine and list_machines
  // ---------------------------------------------------------------

  /** The modules the "missing config" warnings point to for `create_machine`. */
  const LegacyCreator := "xespresso.machines.machine_config"
  const UtilsCreator := "xespresso.utils.machine_config"
  const OldLoaderCreator := "xespresso.utils.machines.config.creator"

  /** The warning of the strict loaders when the config file is missing. */
  function MissingConfig(configPath: string, creator: string): string
  {
    "Machine config file not found at " + configPath + ".\nTo create one, make sure to import and call:\n    from " +
    creator + " import create_machine\n    create_machine(path='" + configPath + "')\nReturning None."
  }

  /** The prompting loader's warning when the config file is missing. */
  function MissingConfigRun(configPath: string): string
  {
    "Machine config file not found at " + configPath + ".\nTo create one, run:\n from " + OldLoaderCreator +
    " import create_machine\n create_machine(path='" + configPath + "')\nReturning None."
  }

  function UnknownMachine(name: string): Exc
  {
    Exc("KeyError", "Machine '" + name + "' not found in config")
  }

  const EndOfInput := Exc("EOFError", "EOF when reading a line")

  function AsLoaded(q: Result<Dict<string, Value>>): Result<Loaded>
  {
    match q
    case Ok(d) => Ok(Queue(d))
    case Err(e) => Err(e)
  }

  /**
   * `load_machine` of the Legacy and Launching loaders: a missing file warns
   * and gives None; an unreadable file, a missing "machines" table or a
   * missing name raise.
   */
  function StrictLoad(configPath: string, name: string, disk: Disk, style: Style, creator: string): Result<Loaded>
  {
    if !Exists(disk, configPath) then Ok(NotLoaded(Some(MissingConfig(configPath, creator))))
    else
      match ReadJson(disk, configPath)
      case Err(e) => Err(e)
      case Ok(config) =>
        match In(config, "machines")
        case Err(e) => Err(e)
        case Ok(hasTable) =>
          if !hasTable then Err(UnknownMachine(name))
          else
            match Index(config, "machines")
            case Err(e) => Err(e)
            case Ok(table) =>
              match In(table, name)
              case Err(e) => Err(e)
              case Ok(hasName) =>
                if !hasName then Err(UnknownMachine(name))
                else
                  match Index(table, name)
                  case Err(e) => Err(e)
                  case Ok(machine) => AsLoaded(QueueOf(machine, style))
  }

  /** The block stored under `name`, turned into a queue (Plain style). */
  function Pick(table: Value, name: string): Result<Loaded>
  {
    match Index(table, name)
    case Err(e) => Err(e)
    case Ok(machine) => AsLoaded(QueueOf(machine, Plain))
  }

  /**
   * `load_machine` of the prompting loader: a missing file warns and gives
   * None, an unreadable one gives None, and an unknown name asks once for
   * another (`answer` is the line typed, None at end of input).
   */
  function PromptLoad(configPath: string, name: string, disk: Disk, answer: Option<string>): Result<Loaded>
  {
    if !Exists(disk, configPath) then Ok(NotLoaded(Some(MissingConfigRun(configPath))))
    else
      match ReadJson(disk, configPath)
      case Err(_) => Ok(NotLoaded(None))
      case Ok(config) =>
        match GetField(config, "machines", VDict([]))
        case Err(e) => Err(e)
        case Ok(table) =>
          match In(table, name)
          case Err(e) => Err(e)
          case Ok(found) =>
            if found then Pick(table, name)
            else if answer.None? then Err(EndOfInput)
            else
              var retry := Strip(answer.value);
              if retry == "" then Ok(NotLoaded(None))
              else
                match In(table, retry)
                case Err(e) => Err(e)
                case Ok(known) => if known then Pick(table, retry) else Ok(NotLoaded(None))
  }

  /** `list_machines` of the prompting loader: the "machines" keys in file order, [] when unreadable. */
  function ListMachines(configPath: string, disk: Disk): (r: seq<string>)
    ensures Document(disk, configPath).None? ==> r == []
    ensures MachinesTable(configPath, disk).Some? ==> r == Keys(MachinesTable(configPath, disk).value)
    ensures forall k :: k in r <==> MachinesTable(configPath, disk).Some? && HasKey(MachinesTable(configPath, disk).value, k)
  {
    if !Exists(disk, configPath) then []
    else
      var r := MachineNames(configPath, disk);
      assert MachinesTable(configPath, disk).Some? ==>
        forall k :: k in r <==> HasKey(MachinesTable(configPath, disk).value, k);
      r
  }

  // ---------------------------------------------------------------
  // What the loaders promise
  // ---------------------------------------------------------------

  /** A block with no entries gets every default: local execution in "./" through the direct scheduler. */
  lemma EmptyBlockDefaults(style: Style)
    ensures QueueOf(VDict([]), style).Ok?
    ensures var q := QueueOf(VDict([]), style).value;
      var n := |BaseKeys(style)|;
      |q| == n + 1 &&
      q[0] == ("execution", VStr("local")) && q[1] == ("scheduler", VStr("direct")) &&
      q[2] == ("use_modules", VBool(false)) && q[3] == ("modules", VList([])) &&
      q[4] == ("resources", VDict([])) &&
      q[5] == ("prepend", if style == Legacy then VList([]) else VStr("")) &&
      q[6] == ("postpend", if style == Legacy then VList([]) else VStr("")) &&
      (style == Launching ==> q[7] == ("launcher", VStr("mpirun -np {nprocs}")) && q[8] == ("nprocs", VInt(1))) &&
      q[n] == ("local_dir", VStr("./"))
  {
    var none: Dict<string, Value> := [];
    EmptyScripts(style);
    LeadingEntries(none, style);
    LocalEntries(none, style);
    QueueParts(none, style);
  }

  lemma EmptyScripts(style: Style)
    ensures Script([], "prepend", style) == Script([], "postpend", style)
    ensures Script([], "prepend", style) == Ok(if style == Legacy then VList([]) else VStr(""))
  {
    assert GetOr<string, Value>([], "prepend", VNone) == VNone;
    assert GetOr<string, Value>([], "postpend", VNone) == VNone;
  }

  /** The queue is the leading entries followed by the trailing ones. */
  lemma QueueParts(m: Dict<string, Value>, style: Style)
    requires QueueOf(VDict(m), style).Ok?
    ensures var q := QueueOf(VDict(m), style).value;
      var lead := Leading(m, style).value;
      var tail := Trailing(m, style).value;
      |q| == |lead| + |tail| &&
      (forall i :: 0 <= i < |lead| ==> q[i] == lead[i]) &&
      (forall j :: 0 <= j < |tail| ==> q[|lead| + j] == tail[j])
  {
  }

  /** The leading entries: the block's values or the defaults, script blocks as `Script` gives them. */
  lemma LeadingEntries(m: Dict<string, Value>, style: Style)
    requires Leading(m, style).Ok?
    ensures var q := Leading(m, style).value;
      |q| == |BaseKeys(style)| &&
      q[0] == ("execution", GetOr(m, "execution", VStr("local"))) &&
      q[1] == ("scheduler", GetOr(m, "scheduler", VStr("direct"))) &&
      q[2] == ("use_modules", GetOr(m, "use_modules", VBool(false))) &&
      q[3] == ("modules", GetOr(m, "modules", VList([]))) &&
      q[4] == ("resources", GetOr(m, "resources", VDict([]))) &&
      q[5] == ("prepend", Script(m, "prepend", style).value) &&
      q[6] == ("postpend", Script(m, "postpend", style).value) &&
      (style == Launching ==>
        q[7] == ("launcher", GetOr(m, "launcher", VStr("mpirun -np {nprocs}"))) &&
        q[8] == ("nprocs", GetOr(m, "nprocs", VInt(1))))
  {
    var ks := BaseKeys(style);
    var vs := BaseValues(m, Script(m, "prepend", style).value, Script(m, "postpend", style).value, style);
    assert Leading(m, style).value == Zip(ks, vs);
    assert ks[..7] == SchedulerKeys;
    assert style == Launching ==> ks[7..] == LaunchKeys;
  }

  /** Every leading entry is named by the style's key list, in order. */
  lemma LeadingKeys(m: Dict<string, Value>, style: Style)
    requires Leading(m, style).Ok?
    ensures var q := Leading(m, style).value;
      forall i :: 0 <= i < |q| ==> q[i].0 == BaseKeys(style)[i]
  {
  }

  /** After them, a local machine has only `local_dir`, the block's workdir or "./". */
  lemma LocalEntries(m: Dict<string, Value>, style: Style)
    requires GetOr(m, "execution", VStr("local")) == VStr("local")
    ensures Trailing(m, style) == Ok([("local_dir", GetOr(m, "workdir", VStr("./")))])
  {
  }

  /** A remote machine has the four remote entries, taken from host, username, auth and workdir. */
  lemma RemoteEntries(m: Dict<string, Value>, style: Style)
    requires Trailing(m, style).Ok?
    requires GetOr(m, "execution", VStr("local")) == VStr("remote")
    ensures var q := Trailing(m, style).value;
      |q| == 4 && HasKey(m, "host") && HasKey(m, "username") && HasKey(m, "workdir") &&
      q[0] == ("remote_host", Get(m, "host").value) &&
      q[1] == ("remote_user", Get(m, "username").value) &&
      q[2] == ("remote_auth", RemoteAuth(GetOr(m, "auth", VDict([])), style).value) &&
      q[3] == ("remote_dir", Get(m, "workdir").value)
  {
    RemoteValuesOk(m, style);
    assert Trailing(m, style).value == Zip(Machines.RemoteQueueKeys, RemoteValues(m, style).value);
  }

  /** Any other execution mode adds nothing after the leading entries. */
  lemma OtherEntries(m: Dict<string, Value>, style: Style)
    requires GetOr(m, "execution", VStr("local")) != VStr("local")
    requires GetOr(m, "execution", VStr("local")) != VStr("remote")
    ensures Trailing(m, style) == Ok([])
  {
  }

  /** Every trailing entry is `local_dir` or one of the four remote entries. */
  lemma TrailingKeys(m: Dict<string, Value>, style: Style)
    requires Trailing(m, style).Ok?
    ensures var q := Trailing(m, style).value;
      forall i :: 0 <= i < |q| ==> q[i].0 in ["local_dir"] + Machines.RemoteQueueKeys
  {
    var q := Trailing(m, style).value;
    if GetOr(m, "execution", VStr("local")) == VStr("remote") {
      assert q == Zip(Machines.RemoteQueueKeys, RemoteValues(m, style).value);
      assert forall i :: 0 <= i < |q| ==> q[i].0 == Machines.RemoteQueueKeys[i];
    }
  }

  /** The remote values are the block's host, username, authentication entry and workdir. */
  lemma RemoteValuesOk(m: Dict<string, Value>, style: Style)
    requires RemoteValues(m, style).Ok?
    ensures HasKey(m, "host") && HasKey(m, "username") && HasKey(m, "workdir")
    ensures RemoteValues(m, style).value ==
      [Get(m, "host").value, Get(m, "username").value, RemoteAuth(GetOr(m, "auth", VDict([])), style).value,
       Get(m, "workdir").value]
  {
  }

  /** A remote block lacking host, username or workdir raises KeyError for the first one missing. */
  lemma RemoteRequired(m: Dict<string, Value>, style: Style)
    requires GetOr(m, "execution", VStr("local")) == VStr("remote")
    ensures !HasKey(m, "host") ==> Trailing(m, style) == Err(Exc("KeyError", "'host'"))
    ensures HasKey(m, "host") && !HasKey(m, "username") ==> Trailing(m, style) == Err(Exc("KeyError", "'username'"))
    ensures HasKey(m, "host") && HasKey(m, "username") && RemoteAuth(GetOr(m, "auth", VDict([])), style).Ok? &&
            !HasKey(m, "workdir") ==>
      Trailing(m, style) == Err(Exc("KeyError", "'workdir'"))
  {
  }

  /** Only the Launching style has a launcher or a process count entry. */
  lemma NoLauncherUnlessLaunching(m: Dict<string, Value>, style: Style)
    requires QueueOf(VDict(m), style).Ok? && style != Launching
    ensures forall i :: 0 <= i < |QueueOf(VDict(m), style).value| ==>
      QueueOf(VDict(m), style).value[i].0 != "launcher" && QueueOf(VDict(m), style).value[i].0 != "nprocs"
  {
    var lead := Leading(m, style).value;
    var tail := Trailing(m, style).value;
    LeadingKeys(m, style);
    TrailingKeys(m, style);
    var q := QueueOf(VDict(m), style).value;
    assert q == lead + tail;
    forall i | 0 <= i < |q| ensures q[i].0 != "launcher" && q[i].0 != "nprocs" {
      if i < |lead| {
        assert q[i] == lead[i];
        assert q[i].0 in SchedulerKeys;
      } else {
        assert q[i] == tail[i - |lead|];
        assert q[i].0 in ["local_dir"] + Machines.RemoteQueueKeys;
      }
    }
  }

  /** Authentication: Legacy takes "key" or "password"; the others take only "key" and add the port. */
  lemma AuthCases(auth: Dict<string, Value>, style: Style)
    ensures var scheme := GetOr(auth, "method", VStr("key"));
      (style == Legacy && scheme == VStr("key") ==>
        RemoteAuth(VDict(auth), style) ==
        Ok(VDict([("method", VStr("key")), ("ssh_key", GetOr(auth, "ssh_key", VStr("~/.ssh/id_rsa")))]))) &&
      (style == Legacy && scheme == VStr("password") ==>
        RemoteAuth(VDict(auth), style) ==
        Ok(VDict([("method", VStr("password")), ("password", GetOr(auth, "password", VStr("")))]))) &&
      (style == Legacy && scheme != VStr("key") && scheme != VStr("password") ==>
        RemoteAuth(VDict(auth), style) == Err(Exc("ValueError", "Unsupported auth method: " + Show(scheme)))) &&
      (style != Legacy && scheme != VStr("key") ==>
        RemoteAuth(VDict(auth), style) ==
        Err(Exc("ValueError", "Unsupported authentication method: " + Show(scheme)))) &&
      (style != Legacy && scheme == VStr("key") ==>
        RemoteAuth(VDict(auth), style) ==
        Ok(VDict([("method", VStr("key")), ("ssh_key", GetOr(auth, "ssh_key", VStr("~/.ssh/id_rsa"))),
                  ("port", GetOr(auth, "port", VInt(22)))])))
  {
  }

  /** The strict loaders: a missing file warns, a table without the name raises KeyError. */
  lemma StrictCases(configPath: string, name: string, disk: Disk, style: Style, creator: string)
    ensures !Exists(disk, configPath) ==>
      StrictLoad(configPath, name, disk, style, creator) == Ok(NotLoaded(Some(MissingConfig(configPath, creator))))
    ensures Document(disk, configPath).Some? && Document(disk, configPath).value.VDict? &&
            !HasKey(Document(disk, configPath).value.entries, "machines") ==>
      StrictLoad(configPath, name, disk, style, creator) == Err(UnknownMachine(name))
    ensures MachinesTable(configPath, disk).Some? &&
            HasKey(Document(disk, configPath).value.entries, "machines") &&
            !HasKey(MachinesTable(configPath, disk).value, name) ==>
      StrictLoad(configPath, name, disk, style, creator) == Err(UnknownMachine(name))
    ensures MachinesTable(configPath, disk).Some? && HasKey(MachinesTable(configPath, disk).value, name) ==>
      StrictLoad(configPath, name, disk, style, creator) ==
      AsLoaded(QueueOf(Get(MachinesTable(configPath, disk).value, name).value, style))
  {
    if MachinesTable(configPath, disk).Some? && HasKey(Document(disk, configPath).value.entries, "machines") {
      var config := Document(disk, configPath).value;
      assert GetOr(config.entries, "machines", VDict([])) == Get(config.entries, "machines").value;
    }
  }

  /** The prompting loader: a missing file warns, an unreadable one gives None, a listed answer is loaded. */
  lemma PromptCases(configPath: string, name: string, disk: Disk, answer: Option<string>)
    ensures !Exists(disk, configPath) ==>
      PromptLoad(configPath, name, disk, answer) == Ok(NotLoaded(Some(MissingConfigRun(configPath))))
    ensures Exists(disk, configPath) && Document(disk, configPath).None? ==>
      PromptLoad(configPath, name, disk, answer) == Ok(NotLoaded(None))
    ensures MachinesTable(configPath, disk).Some? && Exists(disk, configPath) ==>
      var table := MachinesTable(configPath, disk).value;
      (HasKey(table, name) ==> PromptLoad(configPath, name, disk, answer) == AsLoaded(QueueOf(Get(table, name).value, Plain))) &&
      (!HasKey(table, name) && answer.None? ==> PromptLoad(configPath, name, disk, answer) == Err(EndOfInput)) &&
      (!HasKey(table, name) && answer.Some? && Strip(answer.value) != "" && HasKey(table, Strip(answer.value)) ==>
        PromptLoad(configPath, name, disk, answer) ==
        AsLoaded(QueueOf(Get(table, Strip(answer.value)).value, Plain))) &&
      (!HasKey(table, name) && answer.Some? && (Strip(answer.value) == "" || !HasKey(table, Strip(answer.value))) ==>
        PromptLoad(configPath, name, disk, answer) == Ok(NotLoaded(None)))
  {
  }
}
