// The pooled `RemoteExecutionMixin` of schedulers/test.py: one connected
// `RemoteAuth` per (remote_host, remote_user), kept in a dictionary shared
// by every scheduler that uses the mixin, and reused by later runs. The
// remote working directory is `join(remote_dir, calc.directory)`, written
// to an instance attribute that shadows the shared `_last_remote_path`.

module PooledMixin {
  import opened PyStr
  import opened PyDict
  import opened Json
  import opened PyErr
  import opened Auth
  import opened MixinRun
  import opened PlainMixin

  /** `(queue["remote_host"], queue["remote_user"])`. */
  type Key = (Value, Value)

  /** A tuple holding a list or a dict cannot be a dictionary key. */
  predicate Hashable(v: Value)
  {
    !v.VList? && !v.VDict?
  }

  /** The pool key of a queue: the host entry is read first; an unhashable part raises TypeError. */
  function KeyOf(queue: Dict<string, Value>): Result<Key>
  {
    match Get(queue, "remote_host")
    case None => Err(KeyErr("remote_host"))
    case Some(host) =>
      match Get(queue, "remote_user")
      case None => Err(KeyErr("remote_user"))
      case Some(user) =>
        if !Hashable(host) then Err(Exc("TypeError", "unhashable type: '" + TypeName(host) + "'"))
        else if !Hashable(user) then Err(Exc("TypeError", "unhashable type: '" + TypeName(user) + "'"))
        else Ok((host, user))
  }

  /** `os.path.join(queue["remote_dir"], calc.directory)`; the entry must be text. */
  function RemotePathOf(queue: Dict<string, Value>, directory: string): Result<string>
  {
    var d: Option<Value> := Get(queue, "remote_dir");
    if d.None? then Err(KeyErr("remote_dir"))
    else if d.value.VStr? then Ok(PathJoin(d.value.s, directory))
    else Err(Exc("TypeError", "expected str, bytes or os.PathLike object, not " + TypeName(d.value)))
  }

  /** The requests of a run: `<prefix>.<package>i` and the job file go up, `<prefix>.<package>o` comes back. */
  function PooledPlan(remotePath: string, directory: string, prefix: string, package: string, jobFile: string,
                      submit: string): Plan
  {
    var input := prefix + "." + package + "i";
    var output := prefix + "." + package + "o";
    Plan(PathJoin(directory, input), remotePath + "/" + input, PathJoin(directory, jobFile),
         remotePath + "/" + jobFile, "cd " + remotePath + " && " + submit, remotePath + "/" + output,
         PathJoin(directory, output))
  }

  /**
   * A run on a pooled session that is already connected makes no new
   * handshake: a run that completes adds exactly the four requests, in
   * order, and returns the output of `cd <remote_path> && <submit>`.
   */
  lemma PooledRunOrder(s: Settings, st: Session, remotePath: string, directory: string, prefix: string,
                       package: string, jobFile: string, submit: string, t: Transport)
    requires st.client && st.sftp
    ensures var p := PooledPlan(remotePath, directory, prefix, package, jobFile, submit);
      var (st1, r) := Perform(s, st, p, t);
      r.Ok? ==> st1.trace == st.trace + Requests(p) && Handshakes(st1.trace) == Handshakes(st.trace) &&
                r.value == t.exec("cd " + remotePath + " && " + submit).value
  {
    var p := PooledPlan(remotePath, directory, prefix, package, jobFile, submit);
    PerformCases(s, st, p, t);
    var st1 := Perform(s, st, p, t).0;
    if Perform(s, st, p, t).1.Ok? {
      var rs := Requests(p);
      HandshakesSnoc(st.trace, rs[0]);
      HandshakesSnoc(st.trace + [rs[0]], rs[1]);
      HandshakesSnoc(st.trace + [rs[0], rs[1]], rs[2]);
      HandshakesSnoc(st.trace + [rs[0], rs[1], rs[2]], rs[3]);
      assert st.trace + [rs[0]] + [rs[1]] == st.trace + [rs[0], rs[1]];
      assert st.trace + [rs[0], rs[1]] + [rs[2]] == st.trace + [rs[0], rs[1], rs[2]];
      assert st.trace + [rs[0], rs[1], rs[2]] + [rs[3]] == st.trace + rs;
    }
  }

  /** The settings of the new session for a key not in the pool, if it is built and connects. */
  function OpenSpec(queue: Dict<string, Value>, key: Key, home: string, t: Transport): Result<Settings>
  {
    match Get(queue, "remote_auth")
    case None => Err(KeyErr("remote_auth"))
    case Some(config) =>
      match ConfigureFrom(key.1, key.0, config, home)
      case Err(e) => Err(e)
      case Ok(s) =>
        match ConnectSpec(s, Fresh, t).1
        case Raised(e) => Err(e)
        case Done => Ok(s)
  }

  /** `_setup_remote` builds and adds a new session. */
  predicate Opens(queue: Dict<string, Value>, pooled: set<Key>, home: string, t: Transport)
  {
    KeyOf(queue).Ok? && KeyOf(queue).value !in pooled && OpenSpec(queue, KeyOf(queue).value, home, t).Ok?
  }

  /** What `_setup_remote` raises, if anything, given the keys already pooled. */
  function SetupOutcome(queue: Dict<string, Value>, directory: string, pooled: set<Key>, home: string,
                        t: Transport): Outcome
  {
    match KeyOf(queue)
    case Err(e) => Raised(e)
    case Ok(k) =>
      if k !in pooled && OpenSpec(queue, k, home, t).Err? then Raised(OpenSpec(queue, k, home, t).exc)
      else match RemotePathOf(queue, directory)
        case Err(e) => Raised(e)
        case Ok(_) => Done
  }

  /** A new session is connected only once it is built; a failed handshake is reported wrapped. */
  lemma OpenFailure(queue: Dict<string, Value>, key: Key, home: string, t: Transport)
    requires HasKey(queue, "remote_auth") && ConfigureFrom(key.1, key.0, Get(queue, "remote_auth").value, home).Ok?
    ensures var s := ConfigureFrom(key.1, key.0, Get(queue, "remote_auth").value, home).value;
      (OpenSpec(queue, key, home, t).Ok? <==> t.handshake.Done?) &&
      (t.handshake.Raised? ==> OpenSpec(queue, key, home, t).exc == Wrap(ConnectPrefix(s), t.handshake.exc))
  {
  }

  /** Builds and connects the session for a new key. */
  method Open(queue: Dict<string, Value>, key: Key, home: string, t: Transport) returns (r: Result<RemoteAuth>)
    ensures r.Ok? <==> OpenSpec(queue, key, home, t).Ok?
    ensures r.Err? ==> r.exc == OpenSpec(queue, key, home, t).exc
    ensures r.Ok? ==>
      fresh(r.value) && r.value.settings == OpenSpec(queue, key, home, t).value &&
      r.value.State() == ConnectSpec(r.value.settings, Fresh, t).0
  {
    var config := Get(queue, "remote_auth");
    if config.None? {
      return Err(KeyErr("remote_auth"));
    }
    var a := NewRemoteAuth(key.1, key.0, config.value, home);
    if a.Err? {
      return Err(a.exc);
    }
    var c := a.value.Connect(t);
    if c.Raised? {
      return Err(c.exc);
    }
    r := a;
  }

  /** The class attributes of the mixin, shared by all its instances. */
  class Pool {
    /** `_remote_sessions`. */
    var sessions: map<Key, RemoteAuth>
    /** The keys of `_remote_sessions` in insertion order. */
    var order: seq<Key>
    /** `_last_remote_path` of the class itself. */
    var lastPath: Option<string>
    /** The keys for which a session was built and connected, in order. */
    var built: seq<Key>

    /**
     * The order lists each key once; distinct keys hold distinct sessions;
     * the class-level `_last_remote_path` stays None, since instances only
     * ever write their own attribute.
     */
    ghost predicate Valid()
      reads this
    {
      (forall k :: k in sessions <==> k in order) &&
      (forall i, j :: 0 <= i < j < |order| ==> order[i] != order[j]) &&
      (forall k1, k2 :: k1 in sessions && k2 in sessions && k1 != k2 ==> sessions[k1] != sessions[k2]) &&
      lastPath.None?
    }

    constructor()
      ensures Valid() && sessions == map[] && order == [] && built == []
    {
      sessions := map[];
      order := [];
      lastPath := None;
      built := [];
    }

    /** `_remote_sessions[key] = remote` for a key that is not there yet. */
    method Add(key: Key, a: RemoteAuth)
      requires Valid() && key !in sessions && a !in sessions.Values
      modifies this
      ensures Valid()
      ensures sessions == old(sessions)[key := a] && order == old(order) + [key] && built == old(built) + [key]
    {
      sessions := sessions[key := a];
      order := order + [key];
      built := built + [key];
    }

    /**
     * `close_all_connections`: every session is closed, in insertion order,
     * with the transport of its own host; then the dictionary is emptied
     * and `_last_remote_path` is None. A close that raises stops the loop
     * and leaves the dictionary as it was.
     */
    method CloseAll(hosts: Key -> Transport) returns (o: Outcome)
      requires Valid()
      modifies this, sessions.Values
      ensures Valid()
      ensures o.Done? ==>
        sessions == map[] && order == [] && lastPath.None? && built == old(built) &&
        forall k :: k in old(sessions) ==> old(sessions)[k].State() == CloseSpec(old(sessions[k].State()), hosts(k)).0
      ensures o.Raised? ==> sessions == old(sessions) && order == old(order) && built == old(built)
    {
      var i := 0;
      while i < |order|
        invariant 0 <= i <= |order|
        invariant Valid() && sessions == old(sessions) && order == old(order) && built == old(built)
        invariant forall j :: 0 <= j < i ==>
          sessions[order[j]].State() == CloseSpec(old(sessions[order[j]].State()), hosts(order[j])).0
        invariant forall j :: i <= j < |order| ==> sessions[order[j]].State() == old(sessions[order[j]].State())
      {
        var a := sessions[order[i]];
        o := a.Close(hosts(order[i]));
        if o.Raised? {
          return;
        }
        i := i + 1;
      }
      forall k | k in old(sessions)
        ensures old(sessions)[k].State() == CloseSpec(old(sessions[k].State()), hosts(k)).0
      {
        var j :| 0 <= j < |order| && order[j] == k;
      }
      sessions := map[];
      order := [];
      lastPath := None;
      o := Done;
    }
  }

  /** A scheduler using the pooled mixin. */
  class PooledScheduler {
    const pool: Pool
    const queue: Dict<string, Value>
    /** `calc.directory`, `calc.prefix`, `calc.package`. */
    const directory: string
    const prefix: string
    const package: string
    const jobFile: string
    /** The text `submit_command()` returns. */
    const submit: string
    var remote: RemoteAuth?
    /** `self.remote_path`, None until set. */
    var remotePath: Option<string>
    /** The instance's own `_last_remote_path`, None until written. */
    var lastPath: Option<string>

    ghost predicate Valid()
      reads this, pool
    {
      pool.Valid() && (lastPath.Some? ==> remotePath == lastPath)
    }

    constructor(pool: Pool, queue: Dict<string, Value>, directory: string, prefix: string, package: string,
                jobFile: string, submit: string)
      requires pool.Valid()
      ensures Valid() && this.pool == pool && this.queue == queue && this.directory == directory
      ensures this.prefix == prefix && this.package == package && this.jobFile == jobFile && this.submit == submit
      ensures remote == null && remotePath.None? && lastPath.None?
    {
      this.pool := pool;
      this.queue := queue;
      this.directory := directory;
      this.prefix := prefix;
      this.package := package;
      this.jobFile := jobFile;
      this.submit := submit;
      remote := null;
      remotePath := None;
      lastPath := None;
    }

    /**
     * `_setup_remote`: a key already in the pool reuses its session as it
     * is, with no new session and no handshake; a new key gets a new session
     * that is connected and then added, and a failure on the way adds
     * nothing. Afterwards the remote path is `join(remote_dir, calc.directory)`.
     */
    method SetupRemote(home: string, t: Transport) returns (o: Outcome)
      requires Valid()
      modifies this, pool
      ensures Valid()
      ensures o == SetupOutcome(queue, directory, old(pool.sessions.Keys), home, t)
      ensures KeyOf(queue).Ok? && KeyOf(queue).value in old(pool.sessions) ==>
        pool.sessions == old(pool.sessions) && pool.built == old(pool.built) &&
        remote == pool.sessions[KeyOf(queue).value]
      ensures Opens(queue, old(pool.sessions.Keys), home, t) ==>
        var k := KeyOf(queue).value;
        remote != null && fresh(remote) && pool.sessions == old(pool.sessions)[k := remote] &&
        pool.built == old(pool.built) + [k] && remote.settings == OpenSpec(queue, k, home, t).value &&
        remote.State() == ConnectSpec(remote.settings, Fresh, t).0
      ensures KeyOf(queue).Err? || (KeyOf(queue).value !in old(pool.sessions) && !Opens(queue, old(pool.sessions.Keys), home, t)) ==>
        pool.sessions == old(pool.sessions) && pool.built == old(pool.built)
      ensures o.Done? ==>
        remotePath == Some(RemotePathOf(queue, directory).value)
    {
      o := Attach(home, t);
      if o.Raised? {
        return;
      }
      var current := RemotePathOf(queue, directory);
      if current.Err? {
        return Raised(current.exc);
      }
      var last := if lastPath.Some? then lastPath else pool.lastPath;
      if Some(current.value) != last {
        remotePath := Some(current.value);
        lastPath := Some(current.value);
      }
      o := Done;
    }

    /**
     * The session part of `_setup_remote`: the session pooled under the
     * key, built, connected and added first when the key is new; a failure
     * on the way adds nothing.
     */
    method Attach(home: string, t: Transport) returns (o: Outcome)
      requires Valid()
      modifies this, pool
      ensures Valid() && remotePath == old(remotePath) && lastPath == old(lastPath)
      ensures o.Raised? <==> KeyOf(queue).Err? || (KeyOf(queue).value !in old(pool.sessions) &&
                                                  OpenSpec(queue, KeyOf(queue).value, home, t).Err?)
      ensures o.Raised? ==>
        o.exc == if KeyOf(queue).Err? then KeyOf(queue).exc else OpenSpec(queue, KeyOf(queue).value, home, t).exc
      ensures o.Done? ==> KeyOf(queue).Ok? && KeyOf(queue).value in pool.sessions && remote == pool.sessions[KeyOf(queue).value]
      ensures KeyOf(queue).Ok? && KeyOf(queue).value in old(pool.sessions) ==>
        pool.sessions == old(pool.sessions) && pool.built == old(pool.built)
      ensures Opens(queue, old(pool.sessions.Keys), home, t) ==>
        var k := KeyOf(queue).value;
        remote != null && fresh(remote) && pool.sessions == old(pool.sessions)[k := remote] &&
        pool.built == old(pool.built) + [k] && remote.settings == OpenSpec(queue, k, home, t).value &&
        remote.State() == ConnectSpec(remote.settings, Fresh, t).0
      ensures KeyOf(queue).Err? || (KeyOf(queue).value !in old(pool.sessions) && !Opens(queue, old(pool.sessions.Keys), home, t)) ==>
        pool.sessions == old(pool.sessions) && pool.built == old(pool.built)
    {
      var key := KeyOf(queue);
      if key.Err? {
        return Raised(key.exc);
      }
      if key.value !in pool.sessions {
        var a := Open(queue, key.value, home, t);
        if a.Err? {
          return Raised(a.exc);
        }
        pool.Add(key.value, a.value);
      }
      remote := pool.sessions[key.value];
      o := Done;
    }

    /**
     * `run`: outside remote execution nothing is touched; otherwise the
     * pooled session for the key runs the four requests, and the reply is
     * the output of the submit command or the first exception.
     */
    method Run(home: string, t: Transport) returns (r: Reply)
      requires Valid()
      modifies this, pool, pool.sessions.Values
      ensures Valid()
      ensures !IsRemote(queue) ==> r == Delegated && pool.sessions == old(pool.sessions) && remote == old(remote)
      ensures IsRemote(queue) && SetupOutcome(queue, directory, old(pool.sessions.Keys), home, t).Raised? ==>
        r == RunFailed(SetupOutcome(queue, directory, old(pool.sessions.Keys), home, t).exc)
      ensures IsRemote(queue) && SetupOutcome(queue, directory, old(pool.sessions.Keys), home, t).Done? ==>
        r != Delegated && KeyOf(queue).Ok? && RemotePathOf(queue, directory).Ok? &&
        KeyOf(queue).value in pool.sessions && remote == pool.sessions[KeyOf(queue).value] &&
        var p := PooledPlan(RemotePathOf(queue, directory).value, directory, prefix, package, jobFile, submit);
        var before := if KeyOf(queue).value in old(pool.sessions) then old(pool.sessions[KeyOf(queue).value].State())
                      else ConnectSpec(remote.settings, Fresh, t).0;
        (remote.State(), if r.Returned? then Ok((r.stdout, r.stderr)) else Err(r.exc)) ==
          Perform(remote.settings, before, p, t)
      ensures forall k :: k in old(pool.sessions) && (KeyOf(queue).Err? || k != KeyOf(queue).value) ==>
        old(pool.sessions)[k].State() == old(pool.sessions[k].State())
    {
      if !IsRemote(queue) {
        return Delegated;
      }
      var o := SetupRemote(home, t);
      if o.Raised? {
        return RunFailed(o.exc);
      }
      ghost var key := KeyOf(queue).value;
      ghost var mid := pool.sessions;
      var p := PooledPlan(remotePath.value, directory, prefix, package, jobFile, submit);
      var out := Execute(remote, p, t);
      forall k | k in old(pool.sessions) && k != key
        ensures old(pool.sessions)[k].State() == old(pool.sessions[k].State())
      {
        assert old(pool.sessions)[k] == mid[k] && mid[k] != remote;
      }
      if out.Err? {
        return RunFailed(out.exc);
      }
      r := Returned(out.value.0, out.value.1);
    }
  }
}
