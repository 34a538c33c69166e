// The configuration files the machine loaders read and write: a snapshot
// of the file system holding parsed JSON documents, and the Python
// operators (`in`, `[]`, `.get`) the loaders apply to parsed values whose
// type they never check.

module ConfigStore {
  import opened PyStr
  import opened PyErr
  import opened PyDict
  import opened Json

  /** A regular file: its parsed JSON document, or the decoder's complaint. */
  datatype Parsed = Parsed(doc: Value) | Garbled(complaint: string)

  /**
   * The file system as the loaders see it: regular files by path,
   * directories with their `os.listdir` entries in listing order, the home
   * directory `~` expands to, and the paths where opening for writing or
   * removing fails with a permission error.
   */
  datatype Disk = Disk(
    files: map<string, Parsed>,
    dirs: map<string, seq<string>>,
    home: string,
    denied: set<string>)

  /** `os.path.exists(p)`. */
  predicate Exists(disk: Disk, p: string)
  {
    p in disk.files || p in disk.dirs
  }

  function NotFound(p: string): Exc
  {
    Exc("FileNotFoundError", "[Errno 2] No such file or directory: '" + p + "'")
  }

  function IsADirectory(p: string): Exc
  {
    Exc("IsADirectoryError", "[Errno 21] Is a directory: '" + p + "'")
  }

  function PermissionDenied(p: string): Exc
  {
    Exc("PermissionError", "[Errno 13] Permission denied: '" + p + "'")
  }

  /** `json.load(open(p))`. */
  function ReadJson(disk: Disk, p: string): (r: Result<Value>)
    ensures r.Ok? <==> p in disk.files && disk.files[p].Parsed?
    ensures r.Ok? ==> r.value == disk.files[p].doc
    ensures !Exists(disk, p) ==> r == Err(NotFound(p))
  {
    if p in disk.files then
      match disk.files[p]
      case Parsed(v) => Ok(v)
      case Garbled(m) => Err(Exc("JSONDecodeError", m))
    else if p in disk.dirs then Err(IsADirectory(p))
    else Err(NotFound(p))
  }

  /** The document at `p` when `json.load` succeeds, None whenever it would raise. */
  function Document(disk: Disk, p: string): (r: Option<Value>)
    ensures r.Some? <==> ReadJson(disk, p).Ok?
    ensures r.Some? ==> r.value == ReadJson(disk, p).value
  {
    if p in disk.files && disk.files[p].Parsed? then Some(disk.files[p].doc) else None
  }

  /** The entries `os.listdir(p)` returns; None where it raises. */
  function Listing(disk: Disk, p: string): (r: Option<seq<string>>)
    ensures r.Some? <==> p in disk.dirs
  {
    if p in disk.dirs then Some(disk.dirs[p]) else None
  }

  /** Python's `key in container` for a string key. */
  function In(container: Value, key: string): (r: Result<bool>)
    ensures container.VDict? ==> r == Ok(HasKey(container.entries, key))
    ensures r.Err? <==> !(container.VDict? || container.VList? || container.VStr?)
  {
    match container
    case VDict(d) => Ok(HasKey(d, key))
    case VList(xs) => Ok(VStr(key) in xs)
    case VStr(s) => Ok(Contains(s, key))
    case _ => Err(Exc("TypeError", "argument of type '" + TypeName(container) + "' is not iterable"))
  }

  /** Python's `container[key]` for a string key. */
  function Index(container: Value, key: string): (r: Result<Value>)
    ensures r.Ok? <==> container.VDict? && HasKey(container.entries, key)
    ensures r.Ok? ==> Some(r.value) == Get(container.entries, key)
    ensures container.VDict? && !HasKey(container.entries, key) ==> r == Err(Exc("KeyError", "'" + key + "'"))
  {
    match container
    case VDict(d) =>
      if HasKey(d, key) then Ok(Get(d, key).value) else Err(Exc("KeyError", "'" + key + "'"))
    case VList(_) => Err(Exc("TypeError", "list indices must be integers or slices, not str"))
    case VStr(_) => Err(Exc("TypeError", "string indices must be integers, not 'str'"))
    case _ => Err(Exc("TypeError", "'" + TypeName(container) + "' object is not subscriptable"))
  }

  /** The AttributeError a missing method raises. */
  function NoAttribute(v: Value, attribute: string): Exc
  {
    Exc("AttributeError", "'" + TypeName(v) + "' object has no attribute '" + attribute + "'")
  }

  /** Python's `v.get(key, default)`, which only dicts have. */
  function GetField(v: Value, key: string, default: Value): (r: Result<Value>)
    ensures r.Ok? <==> v.VDict?
    ensures r.Ok? ==> r.value == GetOr(v.entries, key, default)
    ensures r.Err? ==> r.exc == NoAttribute(v, "get")
  {
    if v.VDict? then Ok(GetOr(v.entries, key, default)) else Err(NoAttribute(v, "get"))
  }

  /** The "machines" table of machines.json, when the file holds a dict whose "machines" entry is a dict. */
  function MachinesTable(configPath: string, disk: Disk): Option<Dict<string, Value>>
  {
    match Document(disk, configPath)
    case Some(VDict(config)) =>
      (match GetOr(config, "machines", VDict([]))
       case VDict(m) => Some(m)
       case _ => None)
    case _ => None
  }

  /** The keys of the "machines" table of machines.json, in file order; none when it cannot be read. */
  function MachineNames(configPath: string, disk: Disk): seq<string>
  {
    match MachinesTable(configPath, disk)
    case Some(m) => Keys(m)
    case None => []
  }
}
