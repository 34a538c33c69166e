// The `Machine` description of where and how calculations run: keyword
// binding with defaults, validation, the `to_dict` serialisation and the
// `to_queue` translation into the dictionary the schedulers consume.

module Machines {
  import opened PyStr
  import opened PyErr
  import opened PyDict
  import opened Json

  /** The parameters `to_dict` writes for every machine, in its order. */
  const CommonKeys: seq<string> :=
    ["name", "execution", "scheduler", "workdir", "use_modules", "modules", "resources",
     "prepend", "postpend", "launcher", "nprocs"]

  /** The connection parameters, written by `to_dict` for remote machines only. */
  const RemoteKeys: seq<string> := ["host", "username", "auth", "port"]

  /** The named parameters of `Machine.__init__`; every other keyword lands in `_extra`. */
  const Params: seq<string> := CommonKeys + RemoteKeys

  /** The keys `to_queue` writes for every machine, in its order. */
  const QueueKeys: seq<string> :=
    ["execution", "scheduler", "use_modules", "modules", "resources", "prepend", "postpend",
     "launcher", "nprocs"]

  /** The keys `to_queue` adds for a remote machine. */
  const RemoteQueueKeys: seq<string> := ["remote_host", "remote_user", "remote_auth", "remote_dir"]

  lemma KeysDistinct()
    ensures Distinct(CommonKeys) && Distinct(RemoteKeys) && Distinct(QueueKeys) && Distinct(RemoteQueueKeys)
    ensures forall i, j :: 0 <= i < |CommonKeys| && 0 <= j < |RemoteKeys| ==> CommonKeys[i] != RemoteKeys[j]
    ensures forall i, j :: 0 <= i < |QueueKeys| && 0 <= j < |RemoteQueueKeys| ==> QueueKeys[i] != RemoteQueueKeys[j]
    ensures forall i :: 0 <= i < |QueueKeys| ==> QueueKeys[i] != "local_dir"
    ensures forall j :: 0 <= j < |RemoteQueueKeys| ==> RemoteQueueKeys[j] != "local_dir"
  {
  }

  const DefaultSshKey := "~/.ssh/id_rsa"

  /**
   * The attributes of a constructed Machine. Python does not check the
   * declared parameter types, so every attribute is an arbitrary value.
   */
  datatype Settings = Settings(
    name: Value, execution: Value, scheduler: Value, workdir: Value,
    useModules: Value, modules: Value, resources: Value,
    prepend: Value, postpend: Value, launcher: Value, nprocs: Value,
    host: Value, username: Value, auth: Value, port: Value,
    extra: Dict<string, Value>)

  /** Python's `v or fallback`. */
  function Or(v: Value, fallback: Value): (r: Value)
    ensures Truthy(v) ==> r == v
    ensures !Truthy(v) ==> r == fallback
  {
    if Truthy(v) then v else fallback
  }

  /** The keyword arguments that match no named parameter, in the order given. */
  function Extras(kwargs: Dict<string, Value>): (r: Dict<string, Value>)
    ensures forall i :: 0 <= i < |r| ==> r[i].0 !in Params
    ensures forall e :: e in r <==> e in kwargs && e.0 !in Params
  {
    if |kwargs| == 0 then []
    else if kwargs[0].0 in Params then Extras(kwargs[1..])
    else [kwargs[0]] + Extras(kwargs[1..])
  }

  /** Binding `Machine(**kwargs)`'s arguments to its parameters, with the `or` defaults of lines 97-116. */
  function Bind(kwargs: Dict<string, Value>): Result<Settings>
  {
    if !HasKey(kwargs, "name") then
      Err(Exc("TypeError", "Machine.__init__() missing 1 required positional argument: 'name'"))
    else
      Ok(Settings(
        Get(kwargs, "name").value,
        GetOr(kwargs, "execution", VStr("local")),
        GetOr(kwargs, "scheduler", VStr("direct")),
        GetOr(kwargs, "workdir", VStr("./")),
        GetOr(kwargs, "use_modules", VBool(false)),
        Or(GetOr(kwargs, "modules", VNone), VList([])),
        Or(GetOr(kwargs, "resources", VNone), VDict([])),
        Or(GetOr(kwargs, "prepend", VNone), VList([])),
        Or(GetOr(kwargs, "postpend", VNone), VList([])),
        GetOr(kwargs, "launcher", VStr("mpirun -np {nprocs}")),
        GetOr(kwargs, "nprocs", VInt(1)),
        GetOr(kwargs, "host", VNone),
        GetOr(kwargs, "username", VNone),
        Or(GetOr(kwargs, "auth", VNone), VDict([])),
        GetOr(kwargs, "port", VInt(22)),
        Extras(kwargs)))
  }

  /** `auth.get(k, default)`, which fails on an auth value that is not a dict. */
  function AuthGet(auth: Value, k: string, default: Value): Result<Value>
  {
    if auth.VDict? then Ok(GetOr(auth.entries, k, default))
    else Err(Exc("AttributeError", "'" + TypeName(auth) + "' object has no attribute 'get'"))
  }

  function ValueError(message: string): Exc
  {
    Exc("ValueError", message)
  }

  /** `_validate`: the first complaint, if any. */
  function Validate(s: Settings): Option<Exc>
  {
    if s.execution != VStr("local") && s.execution != VStr("remote") then
      Some(ValueError("Invalid execution mode: " + Show(s.execution)))
    else if s.execution == VStr("remote") then
      if !Truthy(s.host) then Some(ValueError("Remote execution requires 'host' parameter"))
      else if !Truthy(s.username) then Some(ValueError("Remote execution requires 'username' parameter"))
      else
        match AuthGet(s.auth, "method", VStr("key"))
        case Err(e) => Some(e)
        case Ok(m) =>
          if m != VStr("key") then Some(ValueError("Only key-based authentication is supported, got: " + Show(m)))
          else None
    else None
  }

  /** `Machine(**kwargs)`: binding, then validation. */
  function New(kwargs: Dict<string, Value>): Result<Settings>
  {
    match Bind(kwargs)
    case Err(e) => Err(e)
    case Ok(s) => if Validate(s).Some? then Err(Validate(s).value) else Ok(s)
  }

  predicate IsRemote(s: Settings)
  {
    s.execution == VStr("remote")
  }

  predicate IsLocal(s: Settings)
  {
    s.execution == VStr("local")
  }

  /** A machine that passed `_validate`: local, or remote with host, user and key authentication. */
  predicate Valid(s: Settings)
  {
    (IsLocal(s) || IsRemote(s)) &&
    (IsRemote(s) ==>
      Truthy(s.host) && Truthy(s.username) && s.auth.VDict? &&
      GetOr(s.auth.entries, "method", VStr("key")) == VStr("key"))
  }

  /** Validation accepts exactly the valid machines, and names the first rule broken. */
  lemma ValidateCases(s: Settings)
    ensures Validate(s).None? <==> Valid(s)
    ensures !IsLocal(s) && !IsRemote(s) ==>
      Validate(s) == Some(ValueError("Invalid execution mode: " + Show(s.execution)))
    ensures IsRemote(s) && !Truthy(s.host) ==>
      Validate(s) == Some(ValueError("Remote execution requires 'host' parameter"))
    ensures IsRemote(s) && Truthy(s.host) && !Truthy(s.username) ==>
      Validate(s) == Some(ValueError("Remote execution requires 'username' parameter"))
    ensures IsRemote(s) && Truthy(s.host) && Truthy(s.username) && s.auth.VDict? &&
            GetOr(s.auth.entries, "method", VStr("key")) != VStr("key") ==>
      Validate(s) == Some(ValueError("Only key-based authentication is supported, got: " +
                                     Show(GetOr(s.auth.entries, "method", VStr("key")))))
  {
  }

  /** A constructed machine is valid, so it is local or remote and never both. */
  lemma NewValid(kwargs: Dict<string, Value>)
    requires New(kwargs).Ok?
    ensures Valid(New(kwargs).value)
    ensures IsLocal(New(kwargs).value) != IsRemote(New(kwargs).value)
  {
    ValidateCases(Bind(kwargs).value);
  }

  /** What a keyword does to the constructed machine: given values win, defaults fill the rest. */
  lemma BindFields(kwargs: Dict<string, Value>)
    requires HasKey(kwargs, "name")
    ensures var s := Bind(kwargs).value;
      s.name == Get(kwargs, "name").value &&
      (!HasKey(kwargs, "execution") ==> s.execution == VStr("local")) &&
      (!HasKey(kwargs, "scheduler") ==> s.scheduler == VStr("direct")) &&
      (!HasKey(kwargs, "workdir") ==> s.workdir == VStr("./")) &&
      (!HasKey(kwargs, "launcher") ==> s.launcher == VStr("mpirun -np {nprocs}")) &&
      (!HasKey(kwargs, "nprocs") ==> s.nprocs == VInt(1)) &&
      (!HasKey(kwargs, "port") ==> s.port == VInt(22)) &&
      (HasKey(kwargs, "execution") ==> s.execution == Get(kwargs, "execution").value) &&
      (!Truthy(GetOr(kwargs, "modules", VNone)) ==> s.modules == VList([])) &&
      (!Truthy(GetOr(kwargs, "prepend", VNone)) ==> s.prepend == VList([])) &&
      (!Truthy(GetOr(kwargs, "auth", VNone)) ==> s.auth == VDict([])) &&
      (forall e :: e in s.extra <==> e in kwargs && e.0 !in Params)
  {
  }

  /** `Machine.from_dict`: the config's own "name" wins; the caller's dict is copied, never changed. */
  function FromDict(name: string, config: Dict<string, Value>): Result<Settings>
  {
    New(if HasKey(config, "name") then config else config + [("name", VStr(name))])
  }

  lemma FromDictName(name: string, config: Dict<string, Value>)
    requires FromDict(name, config).Ok?
    ensures FromDict(name, config).value.name ==
      if HasKey(config, "name") then Get(config, "name").value else VStr(name)
  {
    if !HasKey(config, "name") {
      var c := config + [("name", VStr(name))];
      GetConcat(config, [("name", VStr(name))], "name");
    }
  }

  // ---------------------------------------------------------------
  // to_dict
  // ---------------------------------------------------------------

  /** The entries `to_dict` writes for every machine. */
  function CommonDict(s: Settings): Dict<string, Value>
  {
    Zip(CommonKeys, [s.name, s.execution, s.scheduler, s.workdir, s.useModules, s.modules, s.resources,
                     s.prepend, s.postpend, s.launcher, s.nprocs])
  }

  /** The entries `to_dict` adds for a remote machine. */
  function RemoteDict(s: Settings): Dict<string, Value>
  {
    if IsRemote(s) then Zip(RemoteKeys, [s.host, s.username, s.auth, s.port]) else []
  }

  /** The dict `to_dict` builds before merging the extras: remote fields only for remote machines. */
  function BaseDict(s: Settings): Dict<string, Value>
  {
    CommonDict(s) + RemoteDict(s)
  }

  /** `d.update(e)`: each entry of `e` in turn, as `d[k] = v`. */
  function Update(d: Dict<string, Value>, e: Dict<string, Value>): Dict<string, Value>
    decreases |e|
  {
    if |e| == 0 then d else Update(Put(d, e[0].0, e[0].1), e[1..])
  }

  /** `to_dict()`. */
  function DictOf(s: Settings): Dict<string, Value>
  {
    Update(BaseDict(s), s.extra)
  }

  /** The extras are merged last: they answer for their own keys, the base dict for the rest. */
  lemma {:induction false} UpdateGet(d: Dict<string, Value>, e: Dict<string, Value>, k: string)
    ensures Get(Update(d, e), k) == if HasKey(e, k) then Get(Reverse(e), k) else Get(d, k)
    decreases |e|
  {
    if |e| > 0 {
      UpdateGet(Put(d, e[0].0, e[0].1), e[1..], k);
      PutGet(d, e[0].0, e[0].1, k);
      assert Reverse(e) == Reverse(e[1..]) + [e[0]];
      GetConcat(Reverse(e[1..]), [e[0]], k);
      ReverseKeys(e[1..], k);
      if HasKey(e, k) && !HasKey(e[1..], k) {
        assert e[0].0 == k;
      }
      if HasKey(e[1..], k) {
        var i :| 0 <= i < |e[1..]| && e[1..][i].0 == k;
        assert e[i + 1].0 == k;
      }
    }
  }

  function Reverse(e: Dict<string, Value>): (r: Dict<string, Value>)
    ensures |r| == |e|
  {
    if |e| == 0 then [] else Reverse(e[1..]) + [e[0]]
  }

  lemma {:induction false} ReverseKeys(e: Dict<string, Value>, k: string)
    ensures HasKey(Reverse(e), k) <==> HasKey(e, k)
  {
    if |e| > 0 {
      ReverseKeys(e[1..], k);
      var r := Reverse(e[1..]);
      if HasKey(e[1..], k) {
        var i :| 0 <= i < |e[1..]| && e[1..][i].0 == k;
        assert e[i + 1].0 == k;
      }
      if HasKey(r, k) {
        var i :| 0 <= i < |r| && r[i].0 == k;
        assert Reverse(e)[i].0 == k;
      }
      if HasKey(Reverse(e), k) {
        var i :| 0 <= i < |Reverse(e)| && Reverse(e)[i].0 == k;
        if i < |r| {
          assert r[i].0 == k;
        }
      }
      if HasKey(e, k) && !HasKey(e[1..], k) {
        assert e[0].0 == k;
        assert Reverse(e)[|r|].0 == k;
      }
    }
  }

  /** With keys the base dict does not have and no key twice, `update` just appends. */
  lemma {:induction false} UpdateAppends(d: Dict<string, Value>, e: Dict<string, Value>)
    requires UniqueKeys(e)
    requires forall i :: 0 <= i < |e| ==> !HasKey(d, e[i].0)
    ensures Update(d, e) == d + e
    decreases |e|
  {
    if |e| > 0 {
      var d' := d + [e[0]];
      forall i | 0 <= i < |e[1..]|
        ensures !HasKey(d', e[1..][i].0)
      {
        assert e[1..][i] == e[i + 1];
      }
      UpdateAppends(d', e[1..]);
      assert d' + e[1..] == d + e;
    } else {
      assert d + e == d;
    }
  }

  /** The base keys of `to_dict`: host, username, auth and port appear only for a remote machine. */
  lemma BaseDictKeys(s: Settings)
    ensures HasKey(BaseDict(s), "host") <==> IsRemote(s)
    ensures HasKey(BaseDict(s), "port") <==> IsRemote(s)
    ensures forall k :: HasKey(BaseDict(s), k) ==> k in Params
  {
    var b := BaseDict(s);
    if IsRemote(s) {
      assert b[11].0 == "host" && b[14].0 == "port";
    }
    forall k | HasKey(b, k)
      ensures k in Params
    {
      var i :| 0 <= i < |b| && b[i].0 == k;
    }
  }

  /**
   * `to_dict` answers a lookup from the extras when they hold the key and
   * from the base dict otherwise; host, username, auth and port are in it
   * for a remote machine and absent otherwise (unless an extra adds them).
   */
  lemma DictOfGet(s: Settings, k: string)
    ensures Get(DictOf(s), k) == if HasKey(s.extra, k) then Get(Reverse(s.extra), k) else Get(BaseDict(s), k)
    ensures !HasKey(s.extra, k) && k in ["host", "port"] ==> (HasKey(DictOf(s), k) <==> IsRemote(s))
  {
    UpdateGet(BaseDict(s), s.extra, k);
    BaseDictKeys(s);
  }

  /** A machine whose extras came from keyword binding serialises to the base dict followed by the extras. */
  lemma DictOfAppends(s: Settings)
    requires UniqueKeys(s.extra)
    requires forall i :: 0 <= i < |s.extra| ==> s.extra[i].0 !in Params
    ensures DictOf(s) == BaseDict(s) + s.extra
  {
    BaseDictKeys(s);
    UpdateAppends(BaseDict(s), s.extra);
  }

  /** What reloading a serialised machine gives: the remote fields of a local machine fall back to their defaults. */
  function Reloaded(s: Settings): Settings
  {
    if IsRemote(s) then s else s.(host := VNone, username := VNone, auth := VDict([]), port := VInt(22))
  }

  lemma ExtrasUnique(kwargs: Dict<string, Value>)
    requires UniqueKeys(kwargs)
    ensures UniqueKeys(Extras(kwargs))
  {
    if |kwargs| > 0 {
      ExtrasUnique(kwargs[1..]);
      var r := Extras(kwargs);
      if kwargs[0].0 !in Params {
        forall i | 1 <= i < |r|
          ensures r[i].0 != kwargs[0].0
        {
          assert r[i] in Extras(kwargs[1..]);
          var j :| 0 <= j < |kwargs[1..]| && kwargs[1..][j] == r[i];
          assert kwargs[j + 1] == r[i];
        }
      }
    }
  }

  lemma {:induction false} ExtrasOfExtras(e: Dict<string, Value>)
    requires forall i :: 0 <= i < |e| ==> e[i].0 !in Params
    ensures Extras(e) == e
  {
    if |e| > 0 {
      ExtrasOfExtras(e[1..]);
    }
  }

  lemma {:induction false} ExtrasConcat(a: Dict<string, Value>, b: Dict<string, Value>)
    ensures Extras(a + b) == Extras(a) + Extras(b)
  {
    if |a| > 0 {
      assert (a + b)[1..] == a[1..] + b;
      ExtrasConcat(a[1..], b);
    } else {
      assert a + b == b;
    }
  }

  /** Looking a parameter up in the serialised dict reaches the base dict, never an extra. */
  lemma ParamLookup(s: Settings, k: string)
    requires forall i :: 0 <= i < |s.extra| ==> s.extra[i].0 !in Params
    requires k in Params
    ensures Get(BaseDict(s) + s.extra, k) == Get(BaseDict(s), k)
  {
    GetConcat(BaseDict(s), s.extra, k);
  }

  /** The base dict looked up by each parameter shared by local and remote machines. */
  lemma BaseLookups(s: Settings)
    ensures var b := BaseDict(s);
      Get(b, "name") == Some(s.name) && Get(b, "execution") == Some(s.execution) &&
      Get(b, "scheduler") == Some(s.scheduler) && Get(b, "workdir") == Some(s.workdir) &&
      Get(b, "use_modules") == Some(s.useModules) && Get(b, "modules") == Some(s.modules) &&
      Get(b, "resources") == Some(s.resources) && Get(b, "prepend") == Some(s.prepend) &&
      Get(b, "postpend") == Some(s.postpend) && Get(b, "launcher") == Some(s.launcher) &&
      Get(b, "nprocs") == Some(s.nprocs)
  {
    var vs := [s.name, s.execution, s.scheduler, s.workdir, s.useModules, s.modules, s.resources,
               s.prepend, s.postpend, s.launcher, s.nprocs];
    KeysDistinct();
    var c := CommonDict(s);
    assert forall k :: k in CommonKeys ==> HasKey(c, k) by {
      forall k | k in CommonKeys
        ensures HasKey(c, k)
      {
        var i :| 0 <= i < |CommonKeys| && CommonKeys[i] == k;
        assert c[i].0 == k;
      }
    }
    forall k | k in CommonKeys
      ensures Get(BaseDict(s), k) == Get(c, k)
    {
      GetConcat(c, RemoteDict(s), k);
    }
    ZipGet(CommonKeys, vs, 0); ZipGet(CommonKeys, vs, 1); ZipGet(CommonKeys, vs, 2); ZipGet(CommonKeys, vs, 3);
    ZipGet(CommonKeys, vs, 4); ZipGet(CommonKeys, vs, 5); ZipGet(CommonKeys, vs, 6); ZipGet(CommonKeys, vs, 7);
    ZipGet(CommonKeys, vs, 8); ZipGet(CommonKeys, vs, 9); ZipGet(CommonKeys, vs, 10);
  }

  /** The base dict looked up by the connection parameters: present exactly for a remote machine. */
  lemma RemoteLookups(s: Settings)
    ensures var b := BaseDict(s);
      Get(b, "host") == (if IsRemote(s) then Some(s.host) else None) &&
      Get(b, "username") == (if IsRemote(s) then Some(s.username) else None) &&
      Get(b, "auth") == (if IsRemote(s) then Some(s.auth) else None) &&
      Get(b, "port") == (if IsRemote(s) then Some(s.port) else None)
  {
    var vs := [s.host, s.username, s.auth, s.port];
    KeysDistinct();
    var cs := [s.name, s.execution, s.scheduler, s.workdir, s.useModules, s.modules,
               s.resources, s.prepend, s.postpend, s.launcher, s.nprocs];
    forall i | 0 <= i < |RemoteKeys|
      ensures Get(BaseDict(s), RemoteKeys[i]) == Get(RemoteDict(s), RemoteKeys[i])
    {
      GetConcat(CommonDict(s), RemoteDict(s), RemoteKeys[i]);
      ZipMissing(CommonKeys, cs, RemoteKeys[i]);
    }
    assert RemoteKeys[0] == "host" && RemoteKeys[1] == "username" && RemoteKeys[2] == "auth" && RemoteKeys[3] == "port";
    if IsRemote(s) {
      ZipGet(RemoteKeys, vs, 0); ZipGet(RemoteKeys, vs, 1); ZipGet(RemoteKeys, vs, 2); ZipGet(RemoteKeys, vs, 3);
    }
  }

  /** The attributes that `Machine(**kwargs)` passes through `or`, which a second `or` leaves as they are. */
  predicate Defaulted(s: Settings)
  {
    Or(s.modules, VList([])) == s.modules && Or(s.resources, VDict([])) == s.resources &&
    Or(s.prepend, VList([])) == s.prepend && Or(s.postpend, VList([])) == s.postpend &&
    Or(s.auth, VDict([])) == s.auth
  }

  /** `d` answers every parameter as the serialised form of `s` does. */
  predicate Answers(d: Dict<string, Value>, s: Settings)
  {
    Get(d, "name") == Some(s.name) && Get(d, "execution") == Some(s.execution) &&
    Get(d, "scheduler") == Some(s.scheduler) && Get(d, "workdir") == Some(s.workdir) &&
    Get(d, "use_modules") == Some(s.useModules) && Get(d, "modules") == Some(s.modules) &&
    Get(d, "resources") == Some(s.resources) && Get(d, "prepend") == Some(s.prepend) &&
    Get(d, "postpend") == Some(s.postpend) && Get(d, "launcher") == Some(s.launcher) &&
    Get(d, "nprocs") == Some(s.nprocs) &&
    Get(d, "host") == (if IsRemote(s) then Some(s.host) else None) &&
    Get(d, "username") == (if IsRemote(s) then Some(s.username) else None) &&
    Get(d, "auth") == (if IsRemote(s) then Some(s.auth) else None) &&
    Get(d, "port") == (if IsRemote(s) then Some(s.port) else None)
  }

  /** Binding a dict that answers every parameter as the serialised machine does rebuilds the machine. */
  lemma BindSerialised(s: Settings, d: Dict<string, Value>)
    requires Defaulted(s)
    requires Answers(d, s)
    requires Extras(d) == s.extra
    ensures Bind(d) == Ok(Reloaded(s))
  {
  }

  /** The serialised dict answers every parameter from its base part and keeps the extras as they were. */
  lemma SerialisedParts(s: Settings)
    requires UniqueKeys(s.extra)
    requires forall i :: 0 <= i < |s.extra| ==> s.extra[i].0 !in Params
    ensures Answers(DictOf(s), s)
    ensures Extras(DictOf(s)) == s.extra
  {
    DictOfAppends(s);
    BaseLookups(s);
    RemoteLookups(s);
    ParamLookup(s, "name"); ParamLookup(s, "execution"); ParamLookup(s, "scheduler"); ParamLookup(s, "workdir");
    ParamLookup(s, "use_modules"); ParamLookup(s, "modules"); ParamLookup(s, "resources");
    ParamLookup(s, "prepend"); ParamLookup(s, "postpend"); ParamLookup(s, "launcher"); ParamLookup(s, "nprocs");
    ParamLookup(s, "host"); ParamLookup(s, "username"); ParamLookup(s, "auth"); ParamLookup(s, "port");
    ExtrasConcat(BaseDict(s), s.extra);
    ExtrasOfExtras(s.extra);
    BaseDictKeys(s);
    ExtrasOfParams(BaseDict(s));
  }

  /** A dict holding parameters only has no extras. */
  lemma {:induction false} ExtrasOfParams(d: Dict<string, Value>)
    requires forall k :: HasKey(d, k) ==> k in Params
    ensures Extras(d) == []
  {
    if |d| > 0 {
      assert HasKey(d, d[0].0);
      forall k | HasKey(d[1..], k)
        ensures k in Params
      {
        var i :| 0 <= i < |d[1..]| && d[1..][i].0 == k;
        assert d[i + 1].0 == k;
      }
      ExtrasOfParams(d[1..]);
    }
  }

  /**
   * `from_dict(name, m.to_dict())` rebuilds `m`: every attribute comes
   * back, except that a local machine's host, username, auth and port
   * return to their defaults because `to_dict` leaves them out.
   */
  lemma RoundTrip(kwargs: Dict<string, Value>, name: string)
    requires UniqueKeys(kwargs)
    requires New(kwargs).Ok?
    ensures FromDict(name, DictOf(New(kwargs).value)) == Ok(Reloaded(New(kwargs).value))
  {
    var s := New(kwargs).value;
    NewValid(kwargs);
    ExtrasUnique(kwargs);
    SerialisedParts(s);
    assert HasKey(DictOf(s), "name");
    BindSerialised(s, DictOf(s));
    ValidateCases(Reloaded(s));
  }

  /** The attributes the round trip is known for keep their values on every machine. */
  lemma RoundTripFields(kwargs: Dict<string, Value>, name: string)
    requires UniqueKeys(kwargs)
    requires New(kwargs).Ok?
    ensures var s := New(kwargs).value;
      var t := FromDict(name, DictOf(s));
      t.Ok? && t.value.name == s.name && t.value.execution == s.execution &&
      t.value.scheduler == s.scheduler && t.value.workdir == s.workdir && t.value.nprocs == s.nprocs
  {
    RoundTrip(kwargs, name);
  }

  // ---------------------------------------------------------------
  // to_queue
  // ---------------------------------------------------------------

  /** The first position of a non-string item, as `str.join` reports it. */
  function FirstNonStr(xs: seq<Value>): (i: nat)
    requires !IsStrList(xs)
    ensures i < |xs| && !xs[i].VStr? && IsStrList(xs[..i])
  {
    if !xs[0].VStr? then 0
    else
      var j := FirstNonStr(xs[1..]);
      assert xs[..j + 1] == [xs[0]] + xs[1..][..j];
      j + 1
  }

  /** `normalize_script_block`: a list is joined with newlines, any other value falls back to "" when falsy. */
  function Normalize(block: Value): Result<Value>
  {
    if block.VList? then
      if IsStrList(block.items) then Ok(VStr(Join("\n", StrItems(block.items))))
      else
        var i := FirstNonStr(block.items);
        Err(Exc("TypeError", "sequence item " + NatToString(i) + ": expected str instance, " +
                             TypeName(block.items[i]) + " found"))
    else Ok(Or(block, VStr("")))
  }

  /** A list of strings becomes one newline-joined string, a falsy value "", and a non-empty string stays. */
  lemma NormalizeCases(block: Value)
    ensures block.VList? && IsStrList(block.items) ==>
      Normalize(block) == Ok(VStr(Join("\n", StrItems(block.items))))
    ensures block.VList? && !IsStrList(block.items) ==> Normalize(block).Err?
    ensures !block.VList? && !Truthy(block) ==> Normalize(block) == Ok(VStr(""))
    ensures block.VStr? && block.s != "" ==> Normalize(block) == Ok(block)
    ensures Normalize(block).Ok? ==> Normalize(block).value.VStr? || !block.VList?
  {
  }

  /** The scheduler-facing part of the queue, common to local and remote machines. */
  function QueueBase(s: Settings, prepend: Value, postpend: Value): Dict<string, Value>
  {
    Zip(QueueKeys, [s.execution, s.scheduler, s.useModules, s.modules, s.resources, prepend, postpend,
                    s.launcher, s.nprocs])
  }

  /** The connection part of a remote queue. */
  function RemoteAuth(s: Settings): Result<Value>
  {
    match AuthGet(s.auth, "method", VStr("key"))
    case Err(e) => Err(e)
    case Ok(m) =>
      Ok(VDict([("method", m),
                ("ssh_key", GetOr(s.auth.entries, "ssh_key", VStr(DefaultSshKey))),
                ("port", GetOr(s.auth.entries, "port", s.port))]))
  }

  /** The keys a remote queue adds, with the connection settings. */
  function RemoteQueue(s: Settings, auth: Value): Dict<string, Value>
  {
    Zip(RemoteQueueKeys, [s.host, s.username, auth, s.workdir])
  }

  /** `to_queue()`. */
  function Queue(s: Settings): Result<Dict<string, Value>>
  {
    match Normalize(s.prepend)
    case Err(e) => Err(e)
    case Ok(pre) =>
      match Normalize(s.postpend)
      case Err(e) => Err(e)
      case Ok(post) =>
        var q := QueueBase(s, pre, post);
        if IsLocal(s) then Ok(q + [("local_dir", s.workdir)])
        else if IsRemote(s) then
          match RemoteAuth(s)
          case Err(e) => Err(e)
          case Ok(a) => Ok(q + RemoteQueue(s, a))
        else Ok(q)
  }

  /** For a valid machine the queue fails only on a script block that is a list holding a non-string. */
  lemma QueueOk(s: Settings)
    requires Valid(s)
    ensures Queue(s).Ok? <==> Normalize(s.prepend).Ok? && Normalize(s.postpend).Ok?
  {
  }

  /** The queue carries the normalised script blocks and the launch settings as the machine has them. */
  lemma QueueScripts(s: Settings)
    requires Queue(s).Ok?
    ensures var q := Queue(s).value;
      Get(q, "execution") == Some(s.execution) && Get(q, "scheduler") == Some(s.scheduler) &&
      Get(q, "prepend") == Some(Normalize(s.prepend).value) &&
      Get(q, "postpend") == Some(Normalize(s.postpend).value) &&
      Get(q, "launcher") == Some(s.launcher) && Get(q, "nprocs") == Some(s.nprocs)
  {
    var pre, post := Normalize(s.prepend).value, Normalize(s.postpend).value;
    var vs := [s.execution, s.scheduler, s.useModules, s.modules, s.resources, pre, post, s.launcher, s.nprocs];
    var q := Queue(s).value;
    var b := QueueBase(s, pre, post);
    KeysDistinct();
    assert q[..|b|] == b;
    GetConcat(b, q[|b|..], "execution"); GetConcat(b, q[|b|..], "scheduler");
    GetConcat(b, q[|b|..], "prepend"); GetConcat(b, q[|b|..], "postpend");
    GetConcat(b, q[|b|..], "launcher"); GetConcat(b, q[|b|..], "nprocs");
    assert q == b + q[|b|..];
    ZipGet(QueueKeys, vs, 0); ZipGet(QueueKeys, vs, 1); ZipGet(QueueKeys, vs, 5); ZipGet(QueueKeys, vs, 6);
    ZipGet(QueueKeys, vs, 7); ZipGet(QueueKeys, vs, 8);
  }

  /** The keys only a remote queue has are neither common queue keys nor "local_dir". */
  lemma RemoteOnly(j: nat)
    requires j < |RemoteQueueKeys|
    ensures RemoteQueueKeys[j] !in QueueKeys && RemoteQueueKeys[j] != "local_dir"
  {
    KeysDistinct();
  }

  /** "local_dir" is not a common queue key. */
  lemma LocalNotCommon()
    ensures "local_dir" !in QueueKeys
  {
    KeysDistinct();
  }

  /** A key missing from a dict literal and different from an appended key is missing from both. */
  lemma ZipTailMissing<K, V>(ks: seq<K>, vs: seq<V>, t: (K, V), k: K)
    requires |ks| == |vs| && k !in ks && k != t.0
    ensures !HasKey(Zip(ks, vs) + [t], k)
  {
    ZipMissing(ks, vs, k);
    GetConcat(Zip(ks, vs), [t], k);
  }

  /** A key appended after a dict literal that lacks it is found with its value. */
  lemma ZipTailGet<K, V>(ks: seq<K>, vs: seq<V>, t: (K, V))
    requires |ks| == |vs| && t.0 !in ks
    ensures Get(Zip(ks, vs) + [t], t.0) == Some(t.1)
  {
    ZipMissing(ks, vs, t.0);
    GetConcat(Zip(ks, vs), [t], t.0);
  }

  /** A remote-only key is absent from a queue made of the common part and a local tail. */
  lemma LocalTailMissing(vs: seq<Value>, workdir: Value, j: nat)
    requires |vs| == |QueueKeys| && j < |RemoteQueueKeys|
    ensures !HasKey(Zip(QueueKeys, vs) + [("local_dir", workdir)], RemoteQueueKeys[j])
  {
    RemoteOnly(j);
    ZipTailMissing(QueueKeys, vs, ("local_dir", workdir), RemoteQueueKeys[j]);
  }

  /** Lookups in a queue made of the common part and a local tail. */
  lemma LocalTail(vs: seq<Value>, workdir: Value)
    requires |vs| == |QueueKeys|
    ensures var q := Zip(QueueKeys, vs) + [("local_dir", workdir)];
      Get(q, "local_dir") == Some(workdir) &&
      !HasKey(q, "remote_host") && !HasKey(q, "remote_user") &&
      !HasKey(q, "remote_auth") && !HasKey(q, "remote_dir")
  {
    LocalNotCommon();
    ZipTailGet(QueueKeys, vs, ("local_dir", workdir));
    LocalTailMissing(vs, workdir, 0);
    LocalTailMissing(vs, workdir, 1);
    LocalTailMissing(vs, workdir, 2);
    LocalTailMissing(vs, workdir, 3);
  }

  /** Lookups in a queue made of the common part and a remote tail. */
  lemma RemoteTail(vs: seq<Value>, rs: seq<Value>)
    requires |vs| == |QueueKeys| && |rs| == |RemoteQueueKeys|
    ensures var q := Zip(QueueKeys, vs) + Zip(RemoteQueueKeys, rs);
      !HasKey(q, "local_dir") &&
      Get(q, "remote_host") == Some(rs[0]) && Get(q, "remote_user") == Some(rs[1]) &&
      Get(q, "remote_auth") == Some(rs[2]) && Get(q, "remote_dir") == Some(rs[3])
  {
    var b := Zip(QueueKeys, vs);
    var tail := Zip(RemoteQueueKeys, rs);
    KeysDistinct();
    ZipMissing(QueueKeys, vs, "local_dir"); ZipMissing(RemoteQueueKeys, rs, "local_dir");
    GetConcat(b, tail, "local_dir");
    forall j | 0 <= j < |RemoteQueueKeys|
      ensures Get(b + tail, RemoteQueueKeys[j]) == Some(rs[j])
    {
      ZipMissing(QueueKeys, vs, RemoteQueueKeys[j]);
      GetConcat(b, tail, RemoteQueueKeys[j]);
      ZipGet(RemoteQueueKeys, rs, j);
    }
    assert RemoteQueueKeys[0] == "remote_host" && RemoteQueueKeys[1] == "remote_user";
    assert RemoteQueueKeys[2] == "remote_auth" && RemoteQueueKeys[3] == "remote_dir";
  }

  /** A local queue has `local_dir = workdir` and none of the remote keys. */
  lemma QueueLocal(s: Settings)
    requires IsLocal(s) && Queue(s).Ok?
    ensures var q := Queue(s).value;
      Get(q, "local_dir") == Some(s.workdir) &&
      !HasKey(q, "remote_host") && !HasKey(q, "remote_user") &&
      !HasKey(q, "remote_auth") && !HasKey(q, "remote_dir")
  {
    var pre, post := Normalize(s.prepend).value, Normalize(s.postpend).value;
    var vs := [s.execution, s.scheduler, s.useModules, s.modules, s.resources, pre, post, s.launcher, s.nprocs];
    assert Queue(s).value == Zip(QueueKeys, vs) + [("local_dir", s.workdir)];
    LocalTail(vs, s.workdir);
  }

  /**
   * A remote queue has no `local_dir`, and carries host, user and
   * directory with `remote_auth` whose method is "key" (the only one
   * validation lets through), whose key defaults to ~/.ssh/id_rsa and
   * whose port defaults to the machine's port.
   */
  lemma QueueRemote(s: Settings)
    requires Valid(s) && IsRemote(s) && Queue(s).Ok?
    ensures var q := Queue(s).value;
      !HasKey(q, "local_dir") &&
      Get(q, "remote_host") == Some(s.host) && Get(q, "remote_user") == Some(s.username) &&
      Get(q, "remote_dir") == Some(s.workdir) &&
      Get(q, "remote_auth") == Some(VDict([
        ("method", VStr("key")),
        ("ssh_key", GetOr(s.auth.entries, "ssh_key", VStr(DefaultSshKey))),
        ("port", GetOr(s.auth.entries, "port", s.port))]))
  {
    var pre, post := Normalize(s.prepend).value, Normalize(s.postpend).value;
    var vs := [s.execution, s.scheduler, s.useModules, s.modules, s.resources, pre, post, s.launcher, s.nprocs];
    var a := RemoteAuth(s).value;
    assert a == VDict([
        ("method", VStr("key")),
        ("ssh_key", GetOr(s.auth.entries, "ssh_key", VStr(DefaultSshKey))),
        ("port", GetOr(s.auth.entries, "port", s.port))]);
    var rs := [s.host, s.username, a, s.workdir];
    assert Queue(s).value == Zip(QueueKeys, vs) + Zip(RemoteQueueKeys, rs);
    RemoteTail(vs, rs);
  }

  // ---------------------------------------------------------------
  // The object
  // ---------------------------------------------------------------

  /** A constructed Machine: its attributes are fields, `_extra` among them. */
  class Machine {
    var name: Value
    var execution: Value
    var scheduler: Value
    var workdir: Value
    var useModules: Value
    var modules: Value
    var resources: Value
    var prepend: Value
    var postpend: Value
    var launcher: Value
    var nprocs: Value
    var host: Value
    var username: Value
    var auth: Value
    var port: Value
    var extra: Dict<string, Value>

    function State(): Settings
      reads this
    {
      Settings(name, execution, scheduler, workdir, useModules, modules, resources,
               prepend, postpend, launcher, nprocs, host, username, auth, port, extra)
    }

    /** `__init__` without the validation: every attribute set from the bound arguments. */
    constructor Assign(s: Settings)
      ensures State() == s
    {
      name, execution, scheduler, workdir := s.name, s.execution, s.scheduler, s.workdir;
      useModules, modules, resources := s.useModules, s.modules, s.resources;
      prepend, postpend, launcher, nprocs := s.prepend, s.postpend, s.launcher, s.nprocs;
      host, username, auth, port := s.host, s.username, s.auth, s.port;
      extra := s.extra;
    }

    /** `to_dict()`: the base dict, then `config.update(self._extra)` entry by entry. */
    method ToDict() returns (config: Dict<string, Value>)
      ensures config == DictOf(State())
    {
      config := BaseDict(State());
      var i := 0;
      while i < |extra|
        invariant 0 <= i <= |extra|
        invariant Update(config, extra[i..]) == DictOf(State())
      {
        assert extra[i..][1..] == extra[i + 1..];
        config := Put(config, extra[i].0, extra[i].1);
        i := i + 1;
      }
    }
  }

  /** `Machine(**kwargs)`: the attributes are set, then `_validate` may raise. */
  method Create(kwargs: Dict<string, Value>) returns (r: Result<Machine>)
    ensures r.Ok? <==> New(kwargs).Ok?
    ensures r.Ok? ==> fresh(r.value) && r.value.State() == New(kwargs).value
    ensures r.Err? ==> New(kwargs) == Err(r.exc)
  {
    var bound := Bind(kwargs);
    if bound.Err? {
      return Err(bound.exc);
    }
    var m := new Machine.Assign(bound.value);
    var complaint := Validate(m.State());
    if complaint.Some? {
      return Err(complaint.value);
    }
    return Ok(m);
  }
}
