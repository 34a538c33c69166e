// The conversation the remote job managers (xespresso/remote_job_manager.py
// and its three older copies) hold with the cluster through paramiko: the
// requests they make, in order, and the cluster's answers, which are given
// as functions of the login or command number and the request.

module SshSteps {
  import opened PyErr

  /** What a manager asks of the cluster, in order. */
  datatype Event =
    | Login(usingKey: bool)
    | Exec(command: string)
    | OpenSftp
    | Upload(localPath: string, remotePath: string)
    | Download(remotePath: string, localPath: string)
    | CloseSftp
    | Disconnect
    | Sleep(seconds: int)

  /** The cluster's answers: logins are numbered, and so are commands. */
  datatype Host = Host(
    login: nat -> Outcome,
    exec: (nat, string) -> Result<(string, string)>,
    openSftp: Outcome,
    put: (string, string) -> Outcome,
    listdir: string -> Result<seq<string>>,
    get: (string, string) -> Outcome)

  /**
   * The requests made so far by a manager that opens a new `SSHClient`
   * for each step: how many logins and commands, and all requests.
   */
  datatype Wire = Wire(logins: nat, commands: nat, trace: seq<Event>)

  const Silent := Wire(0, 0, [])

  /** `connect` on a new client, with a key file or with the password. */
  function Dial(w: Wire, usingKey: bool, h: Host): (r: (Wire, Outcome))
    ensures r.0.logins == w.logins + 1 && r.0.commands == w.commands && r.0.trace == w.trace + [Login(usingKey)]
    ensures r.1 == h.login(w.logins)
  {
    (w.(logins := w.logins + 1, trace := w.trace + [Login(usingKey)]), h.login(w.logins))
  }

  /** `exec_command` and the reading of both outputs, as they come. */
  function Send(w: Wire, cmd: string, h: Host): (r: (Wire, Result<(string, string)>))
    ensures r.0.commands == w.commands + 1 && r.0.logins == w.logins && r.0.trace == w.trace + [Exec(cmd)]
    ensures r.1 == h.exec(w.commands, cmd)
  {
    (w.(commands := w.commands + 1, trace := w.trace + [Exec(cmd)]), h.exec(w.commands, cmd))
  }

  /** A request that is only recorded: opening or closing a channel or the client. */
  function Note(w: Wire, e: Event): (r: Wire)
    ensures r.logins == w.logins && r.commands == w.commands && r.trace == w.trace + [e]
  {
    w.(trace := w.trace + [e])
  }

  /** The upload requests of a list of (local, remote) pairs. */
  function Transfers(pairs: seq<(string, string)>): (r: seq<Event>)
    ensures |r| == |pairs|
    ensures forall i :: 0 <= i < |pairs| ==> r[i] == Upload(pairs[i].0, pairs[i].1)
  {
    if pairs == [] then [] else [Upload(pairs[0].0, pairs[0].1)] + Transfers(pairs[1..])
  }

  /** `sftp.put` of each pair in turn, stopping at the first that raises. */
  function PutAll(pairs: seq<(string, string)>, h: Host): (seq<Event>, Outcome)
  {
    if pairs == [] then ([], Done)
    else if h.put(pairs[0].0, pairs[0].1).Raised? then ([Upload(pairs[0].0, pairs[0].1)], h.put(pairs[0].0, pairs[0].1))
    else var (es, o) := PutAll(pairs[1..], h); ([Upload(pairs[0].0, pairs[0].1)] + es, o)
  }

  predicate Accepted(pairs: seq<(string, string)>, h: Host)
  {
    forall i :: 0 <= i < |pairs| ==> h.put(pairs[i].0, pairs[i].1).Done?
  }

  /**
   * Every pair is sent when the cluster accepts every one; otherwise the
   * pairs up to and including the first refused one are sent and the
   * loop raises what that one raised.
   */
  lemma {:induction false} PutAllSends(pairs: seq<(string, string)>, h: Host)
    ensures PutAll(pairs, h).1.Done? <==> Accepted(pairs, h)
    ensures Accepted(pairs, h) ==> PutAll(pairs, h).0 == Transfers(pairs)
    ensures !Accepted(pairs, h) ==>
      exists k :: 0 <= k < |pairs| && Accepted(pairs[..k], h) && h.put(pairs[k].0, pairs[k].1).Raised? &&
        PutAll(pairs, h) == (Transfers(pairs[..k + 1]), h.put(pairs[k].0, pairs[k].1))
  {
    if pairs != [] {
      PutAllSends(pairs[1..], h);
      AcceptedCons(pairs, h);
      var p := pairs[0];
      if h.put(p.0, p.1).Raised? {
        assert pairs[..1] == [p];
        assert Transfers(pairs[..1]) == [Upload(p.0, p.1)];
        assert Accepted(pairs[..0], h);
      } else if !Accepted(pairs[1..], h) {
        var k :| 0 <= k < |pairs[1..]| && Accepted(pairs[1..][..k], h) && h.put(pairs[1..][k].0, pairs[1..][k].1).Raised? &&
          PutAll(pairs[1..], h) == (Transfers(pairs[1..][..k + 1]), h.put(pairs[1..][k].0, pairs[1..][k].1));
        PrefixCons(pairs, h, k);
        assert pairs[k + 1] == pairs[1..][k];
      }
    }
  }

  lemma AcceptedCons(pairs: seq<(string, string)>, h: Host)
    requires pairs != []
    ensures Accepted(pairs, h) <==> h.put(pairs[0].0, pairs[0].1).Done? && Accepted(pairs[1..], h)
  {
    if h.put(pairs[0].0, pairs[0].1).Done? && Accepted(pairs[1..], h) {
      forall i | 0 <= i < |pairs|
        ensures h.put(pairs[i].0, pairs[i].1).Done?
      {
        if i > 0 {
          assert pairs[i] == pairs[1..][i - 1];
        }
      }
    }
  }

  /** The first `k + 1` (and `k + 2`) pairs, seen as the head before a prefix of the tail. */
  lemma PrefixCons(pairs: seq<(string, string)>, h: Host, k: nat)
    requires k + 1 < |pairs|
    ensures Accepted(pairs[..k + 1], h) <==> h.put(pairs[0].0, pairs[0].1).Done? && Accepted(pairs[1..][..k], h)
    ensures Transfers(pairs[..k + 2]) == [Upload(pairs[0].0, pairs[0].1)] + Transfers(pairs[1..][..k + 1])
  {
    var q := pairs[..k + 1];
    assert q[0] == pairs[0] && q[1..] == pairs[1..][..k];
    AcceptedCons(q, h);
    var q2 := pairs[..k + 2];
    assert q2[0] == pairs[0] && q2[1..] == pairs[1..][..k + 1];
  }

  /** The upload loop makes upload requests and nothing else. */
  lemma {:induction false} PutAllOnlyUploads(pairs: seq<(string, string)>, h: Host)
    ensures forall e :: e in PutAll(pairs, h).0 ==> e.Upload?
  {
    if pairs != [] {
      PutAllOnlyUploads(pairs[1..], h);
    }
  }

  /** One step of `PutAll` at position `i`. */
  lemma PutAllAt(pairs: seq<(string, string)>, i: nat, h: Host)
    requires i < |pairs|
    ensures var p, rest := pairs[i], PutAll(pairs[i + 1..], h);
      PutAll(pairs[i..], h) ==
        if h.put(p.0, p.1).Raised? then ([Upload(p.0, p.1)], h.put(p.0, p.1))
        else ([Upload(p.0, p.1)] + rest.0, rest.1)
  {
    assert pairs[i..][1..] == pairs[i + 1..];
  }

  /** The upload loop: the requests it makes, in order, and how it ends. */
  method PutEach(pairs: seq<(string, string)>, h: Host) returns (es: seq<Event>, o: Outcome)
    ensures (es, o) == PutAll(pairs, h)
  {
    es := [];
    assert pairs[0..] == pairs;
    var i := 0;
    while i < |pairs|
      invariant 0 <= i <= |pairs|
      invariant PutAll(pairs, h).0 == es + PutAll(pairs[i..], h).0
      invariant PutAll(pairs, h).1 == PutAll(pairs[i..], h).1
    {
      var p := pairs[i];
      PutAllAt(pairs, i, h);
      if h.put(p.0, p.1).Raised? {
        es := es + [Upload(p.0, p.1)];
        return es, h.put(p.0, p.1);
      }
      assert es + ([Upload(p.0, p.1)] + PutAll(pairs[i + 1..], h).0) ==
             (es + [Upload(p.0, p.1)]) + PutAll(pairs[i + 1..], h).0;
      es := es + [Upload(p.0, p.1)];
      i := i + 1;
    }
    assert es + [] == es;
    o := Done;
  }
}
