// `RemoteAuth` of utils/auth.py: one SSH session with its SFTP channel,
// opened lazily by `connect` and used to run commands and move files. The
// remote side is an input (`Transport`): how the handshake ends and what
// each request returns. The session records every request it makes, in
// order, so that "one handshake per session" and "nothing before the
// handshake" can be stated about it.

module Auth {
  import opened PyStr
  import opened PyDict
  import opened Json
  import opened PyErr

  const DefaultKey := "~/.ssh/id_rsa"

  /** What the constructor keeps: login name, host, port and the expanded key path. */
  datatype Settings = Settings(username: Value, host: Value, port: Value, sshKey: string)

  /**
   * The constructor: port (default 22), method (default "key") and key
   * path (default "~/.ssh/id_rsa", expanded against `home`) are read in
   * that order, then any method other than "key" is refused.
   */
  function Configure(username: Value, host: Value, config: Dict<string, Value>, home: string): Result<Settings>
  {
    var port := GetOr(config, "port", VInt(22));
    var scheme := GetOr(config, "method", VStr("key"));
    var key := GetOr(config, "ssh_key", VStr(DefaultKey));
    if !key.VStr? then
      Err(Exc("TypeError", "expected str, bytes or os.PathLike object, not " + TypeName(key)))
    else if scheme != VStr("key") then
      Err(Exc("ValueError", "Unsupported authentication method: " + Show(scheme)))
    else Ok(Settings(username, host, port, ExpandUser(key.s, home)))
  }

  /** The constructor given any value as `auth_config`: only a dict has the `get` it calls. */
  function ConfigureFrom(username: Value, host: Value, config: Value, home: string): Result<Settings>
  {
    match config
    case VDict(d) => Configure(username, host, d, home)
    case _ => Err(Exc("AttributeError", "'" + TypeName(config) + "' object has no attribute 'get'"))
  }

  /**
   * A session is configured exactly when the key path is text and the
   * method is "key"; the defaults are port 22 and "~/.ssh/id_rsa" under the
   * home directory, and a refused method is named in the ValueError.
   */
  lemma ConfigureCases(username: Value, host: Value, config: Dict<string, Value>, home: string)
    ensures var r := Configure(username, host, config, home);
      (r.Ok? <==> GetOr(config, "ssh_key", VStr(DefaultKey)).VStr? &&
                  GetOr(config, "method", VStr("key")) == VStr("key")) &&
      (r.Ok? && !HasKey(config, "port") ==> r.value.port == VInt(22)) &&
      (r.Ok? && !HasKey(config, "ssh_key") ==> r.value.sshKey == RStripSlash(home) + "/.ssh/id_rsa") &&
      (r.Ok? ==> r.value.username == username && r.value.host == host) &&
      (GetOr(config, "ssh_key", VStr(DefaultKey)).VStr? && GetOr(config, "method", VStr("key")) != VStr("key") ==>
         r == Err(Exc("ValueError", "Unsupported authentication method: " + Show(GetOr(config, "method", VStr("key"))))))
  {
    ExpandUserHome(DefaultKey, home);
    assert DefaultKey[1..] == "/.ssh/id_rsa";
  }

  // ---------------------------------------------------------------
  // The session and the remote side
  // ---------------------------------------------------------------

  /** A request made to the remote host. */
  datatype Event =
    | Handshake
    | Exec(command: string)
    | Put(localPath: string, remotePath: string)
    | Fetch(remotePath: string, localPath: string)
    | CloseSftp
    | CloseClient

  /** How the remote side answers each request. */
  datatype Transport = Transport(
    handshake: Outcome,
    exec: string -> Result<(string, string)>,
    put: (string, string) -> Outcome,
    get: (string, string) -> Outcome,
    closeSftp: Outcome,
    closeClient: Outcome)

  /** `client`/`sftp` are set, and the requests made so far. */
  datatype Session = Session(client: bool, sftp: bool, trace: seq<Event>)

  const Fresh := Session(false, false, [])

  /** The number of handshakes among the requests. */
  function Handshakes(trace: seq<Event>): nat
  {
    if trace == [] then 0 else Handshakes(trace[..|trace| - 1]) + (if Last(trace) == Handshake then 1 else 0)
  }

  lemma HandshakesSnoc(trace: seq<Event>, e: Event)
    ensures Handshakes(trace + [e]) == Handshakes(trace) + (if e == Handshake then 1 else 0)
  {
    assert (trace + [e])[..|trace|] == trace;
  }

  /**
   * The session invariant: at most one handshake ever, made exactly when
   * the client is set; the first request is that handshake; an SFTP channel
   * only on a client.
   */
  predicate Valid(st: Session)
  {
    Handshakes(st.trace) <= 1 && (st.client <==> Handshakes(st.trace) == 1) &&
    (st.trace != [] ==> st.trace[0] == Handshake) && (st.sftp ==> st.client)
  }

  /** A request after the handshake keeps the invariant. */
  lemma RequestKeeps(st: Session, e: Event)
    requires Valid(st) && st.client && e != Handshake
    ensures Valid(st.(trace := st.trace + [e]))
  {
    HandshakesSnoc(st.trace, e);
  }

  /** The message of an exception re-raised as RuntimeError with a prefix. */
  function Wrap(prefix: string, e: Exc): Exc
  {
    Exc("RuntimeError", prefix + e.message)
  }

  function ConnectPrefix(s: Settings): string
  {
    "Failed to connect to " + Show(s.username) + "@" + Show(s.host) + ":" + Show(s.port) + ": "
  }

  /** What calling a method of the SFTP channel raises when it was never opened. */
  function NoChannel(name: string): Exc
  {
    Exc("AttributeError", "'NoneType' object has no attribute '" + name + "'")
  }

  /**
   * `connect`: nothing when a client is set; otherwise the client is set
   * first, then the handshake, then the SFTP channel is opened.
   */
  function ConnectSpec(s: Settings, st: Session, t: Transport): (Session, Outcome)
  {
    if st.client then (st, Done)
    else
      var st1 := st.(client := true, trace := st.trace + [Handshake]);
      match t.handshake
      case Raised(e) => (st1, Raised(Wrap(ConnectPrefix(s), e)))
      case Done => (st1.(sftp := true), Done)
  }

  /** Connecting keeps the invariant and leaves the client set, whether or not the handshake succeeds. */
  lemma ConnectKeeps(s: Settings, st: Session, t: Transport)
    requires Valid(st)
    ensures Valid(ConnectSpec(s, st, t).0) && ConnectSpec(s, st, t).0.client
  {
    HandshakesSnoc(st.trace, Handshake);
    HandshakesFirst(st.trace);
  }

  /** A trace that starts with the handshake holds at least one. */
  lemma {:induction false} HandshakesFirst(trace: seq<Event>)
    ensures trace != [] && trace[0] == Handshake ==> Handshakes(trace) >= 1
    decreases |trace|
  {
    if |trace| > 1 {
      HandshakesFirst(trace[..|trace| - 1]);
    }
  }

  /**
   * Once `connect` has run, a second `connect` makes no request and changes
   * nothing, however the first handshake ended.
   */
  lemma ConnectOnce(s: Settings, st: Session, t: Transport, t2: Transport)
    ensures var st1 := ConnectSpec(s, st, t).0;
      ConnectSpec(s, st1, t2) == (st1, Done)
  {
  }

  /** When the handshake fails, the RuntimeError names user@host:port. */
  lemma ConnectFailure(s: Settings, st: Session, t: Transport)
    requires !st.client && !st.sftp && t.handshake.Raised?
    ensures var (st1, o) := ConnectSpec(s, st, t);
      o.Raised? && o.exc.kind == "RuntimeError" &&
      StartsWith(o.exc.message, "Failed to connect to " + Show(s.username) + "@" + Show(s.host) + ":" + Show(s.port)) &&
      st1.client && !st1.sftp
  {
    var head := "Failed to connect to " + Show(s.username) + "@" + Show(s.host) + ":" + Show(s.port);
    assert ConnectPrefix(s) + t.handshake.exc.message == head + (": " + t.handshake.exc.message);
    StartsWithConcat(head, ": " + t.handshake.exc.message);
  }

  function RunPrefix(command: string): string
  {
    "Failed to execute remote command '" + command + "': "
  }

  /** `run_command(command)`: connect, then the command; any failure is re-raised naming the command. */
  function RunSpec(s: Settings, st: Session, command: string, t: Transport): (Session, Result<(string, string)>)
  {
    var (st1, o) := ConnectSpec(s, st, t);
    if o.Raised? then (st1, Err(Wrap(RunPrefix(command), o.exc)))
    else
      var st2 := st1.(trace := st1.trace + [Exec(command)]);
      match t.exec(command)
      case Ok(out) => (st2, Ok(out))
      case Err(e) => (st2, Err(Wrap(RunPrefix(command), e)))
  }

  /**
   * The command runs exactly when the session is connected or the handshake
   * succeeds; then its output is returned as is, and every failure is a
   * RuntimeError whose message starts by naming the command.
   */
  lemma RunCases(s: Settings, st: Session, command: string, t: Transport)
    ensures var (st1, r) := RunSpec(s, st, command, t);
      var ran := st.client || t.handshake.Done?;
      (ran ==> Last(st1.trace) == Exec(command) && (r.Ok? <==> t.exec(command).Ok?)) &&
      (!ran ==> r.Err? && Exec(command) !in st1.trace[|st.trace|..]) &&
      (r.Ok? ==> r.value == t.exec(command).value) &&
      (r.Err? ==> r.exc.kind == "RuntimeError" && StartsWith(r.exc.message, RunPrefix(command)))
  {
    var (st1, r) := RunSpec(s, st, command, t);
    if r.Err? {
      var e :| r.exc == Wrap(RunPrefix(command), e);
      StartsWithConcat(RunPrefix(command), e.message);
    }
  }

  function SendPrefix(localPath: string, remotePath: string): string
  {
    "Failed to send file '" + localPath + "' to '" + remotePath + "': "
  }

  /** `send_file(local_path, remote_path)`: connect, then `sftp.put`. */
  function SendSpec(s: Settings, st: Session, localPath: string, remotePath: string, t: Transport): (Session, Outcome)
  {
    var (st1, o) := ConnectSpec(s, st, t);
    var prefix := SendPrefix(localPath, remotePath);
    if o.Raised? then (st1, Raised(Wrap(prefix, o.exc)))
    else if !st1.sftp then (st1, Raised(Wrap(prefix, NoChannel("put"))))
    else
      var st2 := st1.(trace := st1.trace + [Put(localPath, remotePath)]);
      match t.put(localPath, remotePath)
      case Done => (st2, Done)
      case Raised(e) => (st2, Raised(Wrap(prefix, e)))
  }

  function RetrievePrefix(remotePath: string, localPath: string): string
  {
    "Failed to retrieve file '" + remotePath + "' to '" + localPath + "': "
  }

  /** `retrieve_file(remote_path, local_path)`: connect, then `sftp.get`. */
  function RetrieveSpec(s: Settings, st: Session, remotePath: string, localPath: string, t: Transport): (Session, Outcome)
  {
    var (st1, o) := ConnectSpec(s, st, t);
    var prefix := RetrievePrefix(remotePath, localPath);
    if o.Raised? then (st1, Raised(Wrap(prefix, o.exc)))
    else if !st1.sftp then (st1, Raised(Wrap(prefix, NoChannel("get"))))
    else
      var st2 := st1.(trace := st1.trace + [Fetch(remotePath, localPath)]);
      match t.get(remotePath, localPath)
      case Done => (st2, Done)
      case Raised(e) => (st2, Raised(Wrap(prefix, e)))
  }

  /**
   * A transfer completes exactly when the channel is open after connecting
   * and the remote side accepts it; every failure is a RuntimeError whose
   * message names both paths.
   */
  lemma TransferCases(s: Settings, st: Session, a: string, b: string, t: Transport)
    ensures var (st1, o) := SendSpec(s, st, a, b, t);
      (o.Done? <==> ConnectSpec(s, st, t).0.sftp && ConnectSpec(s, st, t).1.Done? && t.put(a, b).Done?) &&
      (o.Done? ==> Last(st1.trace) == Put(a, b)) &&
      (o.Raised? ==> o.exc.kind == "RuntimeError" && StartsWith(o.exc.message, SendPrefix(a, b)))
    ensures var (st1, o) := RetrieveSpec(s, st, a, b, t);
      (o.Done? <==> ConnectSpec(s, st, t).0.sftp && ConnectSpec(s, st, t).1.Done? && t.get(a, b).Done?) &&
      (o.Done? ==> Last(st1.trace) == Fetch(a, b)) &&
      (o.Raised? ==> o.exc.kind == "RuntimeError" && StartsWith(o.exc.message, RetrievePrefix(a, b)))
  {
    var (st1, o) := SendSpec(s, st, a, b, t);
    if o.Raised? {
      var e :| o.exc == Wrap(SendPrefix(a, b), e);
      StartsWithConcat(SendPrefix(a, b), e.message);
    }
    var (st2, o2) := RetrieveSpec(s, st, a, b, t);
    if o2.Raised? {
      var e :| o2.exc == Wrap(RetrievePrefix(a, b), e);
      StartsWithConcat(RetrievePrefix(a, b), e.message);
    }
  }

  function ShaPrefix(path: string): string
  {
    "Failed to compute SHA256 for '" + path + "': "
  }

  /** What `sha256` makes of the output of `sha256sum <path>`. */
  function DigestOf(out: (string, string)): Result<string>
  {
    if out.1 != "" then Err(Exc("RuntimeError", "Remote error: " + Strip(out.1)))
    else match FirstWord(Strip(out.0))
      case None => Err(Exc("IndexError", "list index out of range"))
      case Some(w) => Ok(w)
  }

  /** `sha256(path)`: connect, `sha256sum <path>` through `run_command`, then the first word of the output. */
  function ShaSpec(s: Settings, st: Session, path: string, t: Transport): (Session, Result<string>)
  {
    var (st1, o) := ConnectSpec(s, st, t);
    if o.Raised? then (st1, Err(Wrap(ShaPrefix(path), o.exc)))
    else
      var (st2, r) := RunSpec(s, st1, "sha256sum " + path, t);
      match r
      case Err(e) => (st2, Err(Wrap(ShaPrefix(path), e)))
      case Ok(out) =>
        match DigestOf(out)
        case Err(e) => (st2, Err(Wrap(ShaPrefix(path), e)))
        case Ok(w) => (st2, Ok(w))
  }

  /**
   * On the usual `sha256sum` reply, "<digest>  <path>\n" with nothing on
   * standard error, the result is the digest; any text on standard error
   * makes it fail.
   */
  lemma DigestOfSumLine(digest: string, path: string, err: string)
    requires digest != "" && forall k :: 0 <= k < |digest| ==> !IsSpace(digest[k])
    ensures DigestOf((digest + "  " + path + "\n", "")) == Ok(digest)
    ensures err != "" ==> DigestOf((digest + "  " + path + "\n", err)).Err?
  {
    var out := digest + "  " + path + "\n";
    assert out == digest + "  " + (path + "\n");
    var p := StripStart(out);
    assert out[0] == digest[0];
    assert SkipSpace(out, 0) == 0;
    var t := Strip(out);
    assert |t| >= |digest| by {
      assert out[|digest| - 1] == digest[|digest| - 1];
      assert TrimEnd(out, 0, |out|) >= |digest|;
    }
    assert t[..|digest|] == digest;
    if t[|digest|..] == "" {
      assert t == digest + "";
      assert FirstWord(t) == Some(digest) by {
        assert SkipSpace(t, 0) == 0;
        assert WordEnd(t, 0) == |digest|;
      }
    } else {
      assert out[|digest|] == ' ';
      assert t[|digest|] == ' ';
      assert t == digest + [' '] + t[|digest| + 1..];
      FirstWordOf(digest, [' '], t[|digest| + 1..]);
    }
  }

  /** `close`: the channel, then the client, are closed; neither is reset, so the session never reconnects. */
  function CloseSpec(st: Session, t: Transport): (Session, Outcome)
  {
    var prefix := "Failed to close remote session: ";
    var st1 := if st.sftp then st.(trace := st.trace + [CloseSftp]) else st;
    if st.sftp && t.closeSftp.Raised? then (st1, Raised(Wrap(prefix, t.closeSftp.exc)))
    else
      var st2 := if st.client then st1.(trace := st1.trace + [CloseClient]) else st1;
      if st.client && t.closeClient.Raised? then (st2, Raised(Wrap(prefix, t.closeClient.exc)))
      else (st2, Done)
  }

  /**
   * Closing keeps `client` and `sftp` as they were, so a later `connect` is
   * still a no-op and makes no second handshake.
   */
  lemma CloseKeepsFields(s: Settings, st: Session, t: Transport, t2: Transport)
    requires Valid(st)
    ensures var st1 := CloseSpec(st, t).0;
      st1.client == st.client && st1.sftp == st.sftp && Valid(st1) &&
      (st.client ==> ConnectSpec(s, st1, t2) == (st1, Done))
  {
    if st.sftp {
      RequestKeeps(st, CloseSftp);
    }
    var st1 := if st.sftp then st.(trace := st.trace + [CloseSftp]) else st;
    if st.client {
      RequestKeeps(st1, CloseClient);
    }
  }

  /** Running a command keeps the session invariant: at most one handshake, and it comes first. */
  lemma RunKeeps(s: Settings, st: Session, command: string, t: Transport)
    requires Valid(st)
    ensures Valid(RunSpec(s, st, command, t).0)
  {
    ConnectKeeps(s, st, t);
    RequestKeeps(ConnectSpec(s, st, t).0, Exec(command));
  }

  /** Transfers keep the session invariant. */
  lemma TransfersKeep(s: Settings, st: Session, a: string, b: string, t: Transport)
    requires Valid(st)
    ensures Valid(SendSpec(s, st, a, b, t).0) && Valid(RetrieveSpec(s, st, a, b, t).0)
  {
    ConnectKeeps(s, st, t);
    RequestKeeps(ConnectSpec(s, st, t).0, Put(a, b));
    RequestKeeps(ConnectSpec(s, st, t).0, Fetch(a, b));
  }

  /** Computing a digest keeps the session invariant. */
  lemma ShaKeeps(s: Settings, st: Session, path: string, t: Transport)
    requires Valid(st)
    ensures Valid(ShaSpec(s, st, path, t).0)
  {
    ConnectKeeps(s, st, t);
    var st1 := ConnectSpec(s, st, t).0;
    if ConnectSpec(s, st, t).1.Done? {
      RunKeeps(s, st1, "sha256sum " + path, t);
    }
  }

  // ---------------------------------------------------------------
  // The class
  // ---------------------------------------------------------------

  class RemoteAuth {
    const settings: Settings
    var client: bool
    var sftp: bool
    var trace: seq<Event>

    function State(): Session
      reads this
    {
      Session(client, sftp, trace)
    }

    constructor(s: Settings)
      ensures settings == s && State() == Fresh
    {
      settings := s;
      client := false;
      sftp := false;
      trace := [];
    }

    method Connect(t: Transport) returns (o: Outcome)
      modifies this
      ensures (State(), o) == ConnectSpec(settings, old(State()), t)
    {
      if client {
        return Done;
      }
      client := true;
      trace := trace + [Handshake];
      if t.handshake.Raised? {
        return Raised(Wrap(ConnectPrefix(settings), t.handshake.exc));
      }
      sftp := true;
      o := Done;
    }

    method RunCommand(command: string, t: Transport) returns (r: Result<(string, string)>)
      modifies this
      ensures (State(), r) == RunSpec(settings, old(State()), command, t)
    {
      var o := Connect(t);
      if o.Raised? {
        return Err(Wrap(RunPrefix(command), o.exc));
      }
      trace := trace + [Exec(command)];
      var out := t.exec(command);
      if out.Err? {
        return Err(Wrap(RunPrefix(command), out.exc));
      }
      r := out;
    }

    method SendFile(localPath: string, remotePath: string, t: Transport) returns (o: Outcome)
      modifies this
      ensures (State(), o) == SendSpec(settings, old(State()), localPath, remotePath, t)
    {
      o := Connect(t);
      if o.Raised? {
        return Raised(Wrap(SendPrefix(localPath, remotePath), o.exc));
      }
      if !sftp {
        return Raised(Wrap(SendPrefix(localPath, remotePath), NoChannel("put")));
      }
      trace := trace + [Put(localPath, remotePath)];
      o := t.put(localPath, remotePath);
      if o.Raised? {
        o := Raised(Wrap(SendPrefix(localPath, remotePath), o.exc));
      }
    }

    method RetrieveFile(remotePath: string, localPath: string, t: Transport) returns (o: Outcome)
      modifies this
      ensures (State(), o) == RetrieveSpec(settings, old(State()), remotePath, localPath, t)
    {
      o := Connect(t);
      if o.Raised? {
        return Raised(Wrap(RetrievePrefix(remotePath, localPath), o.exc));
      }
      if !sftp {
        return Raised(Wrap(RetrievePrefix(remotePath, localPath), NoChannel("get")));
      }
      trace := trace + [Fetch(remotePath, localPath)];
      o := t.get(remotePath, localPath);
      if o.Raised? {
        o := Raised(Wrap(RetrievePrefix(remotePath, localPath), o.exc));
      }
    }

    method Sha256(path: string, t: Transport) returns (r: Result<string>)
      modifies this
      ensures (State(), r) == ShaSpec(settings, old(State()), path, t)
    {
      var o := Connect(t);
      if o.Raised? {
        return Err(Wrap(ShaPrefix(path), o.exc));
      }
      var out := RunCommand("sha256sum " + path, t);
      if out.Err? {
        return Err(Wrap(ShaPrefix(path), out.exc));
      }
      var d := DigestOf(out.value);
      if d.Err? {
        return Err(Wrap(ShaPrefix(path), d.exc));
      }
      r := d;
    }

    method Close(t: Transport) returns (o: Outcome)
      modifies this
      ensures (State(), o) == CloseSpec(old(State()), t)
    {
      var prefix := "Failed to close remote session: ";
      if sftp {
        trace := trace + [CloseSftp];
        if t.closeSftp.Raised? {
          return Raised(Wrap(prefix, t.closeSftp.exc));
        }
      }
      if client {
        trace := trace + [CloseClient];
        if t.closeClient.Raised? {
          return Raised(Wrap(prefix, t.closeClient.exc));
        }
      }
      o := Done;
    }
  }

  /** `RemoteAuth(username, host, auth_config)`: a fresh, unconnected session, or the constructor's error. */
  method NewRemoteAuth(username: Value, host: Value, config: Value, home: string) returns (r: Result<RemoteAuth>)
    ensures r.Ok? <==> ConfigureFrom(username, host, config, home).Ok?
    ensures r.Err? ==> r.exc == ConfigureFrom(username, host, config, home).exc
    ensures r.Ok? ==> fresh(r.value) && r.value.settings == ConfigureFrom(username, host, config, home).value &&
                      r.value.State() == Fresh
  {
    var s := ConfigureFrom(username, host, config, home);
    if s.Err? {
      return Err(s.exc);
    }
    var a := new RemoteAuth(s.value);
    r := Ok(a);
  }
}
