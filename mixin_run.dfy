// The fixed sequence of requests both `RemoteExecutionMixin` variants make
// for one remote run (schedulers/test.py, schedulers/remote_mixin.py):
// send the input file, send the job file, run the submit command in the
// remote directory, fetch the output file. The first request that fails
// ends the run with its exception.

module MixinRun {
  import opened PyErr
  import opened Auth

  /** The four requests of a run: two uploads, the command, one download. */
  datatype Plan = Plan(localInput: string, remoteInput: string, localJob: string, remoteJob: string,
                       command: string, remoteOutput: string, localOutput: string)

  /** The requests a run makes when each succeeds, in order. */
  function Requests(p: Plan): seq<Event>
  {
    [Put(p.localInput, p.remoteInput), Put(p.localJob, p.remoteJob), Exec(p.command), Fetch(p.remoteOutput, p.localOutput)]
  }

  /** The run on session `st`: each request in turn, stopping at the first exception. */
  function Perform(s: Settings, st: Session, p: Plan, t: Transport): (Session, Result<(string, string)>)
  {
    var (st1, o1) := SendSpec(s, st, p.localInput, p.remoteInput, t);
    if o1.Raised? then (st1, Err(o1.exc))
    else
      var (st2, o2) := SendSpec(s, st1, p.localJob, p.remoteJob, t);
      if o2.Raised? then (st2, Err(o2.exc))
      else
        var (st3, r) := RunSpec(s, st2, p.command, t);
        if r.Err? then (st3, r)
        else
          var (st4, o4) := RetrieveSpec(s, st3, p.remoteOutput, p.localOutput, t);
          if o4.Raised? then (st4, Err(o4.exc)) else (st4, r)
  }

  /** `b` extends the trace `a` without closing the channel or the client. */
  predicate Grows(a: seq<Event>, b: seq<Event>)
  {
    |a| <= |b| && b[..|a|] == a && CloseSftp !in b[|a|..] && CloseClient !in b[|a|..]
  }

  lemma GrowsTrans(a: seq<Event>, b: seq<Event>, c: seq<Event>)
    requires Grows(a, b) && Grows(b, c)
    ensures Grows(a, c)
  {
    assert c[..|b|][..|a|] == c[..|a|];
    assert c[|a|..] == c[|a|..|b|] + c[|b|..];
    assert c[|a|..|b|] == b[|a|..];
  }

  lemma GrowsSnoc(a: seq<Event>, b: seq<Event>, e: Event)
    requires Grows(a, b) && e != CloseSftp && e != CloseClient
    ensures Grows(a, b + [e])
  {
    assert (b + [e])[..|a|] == b[..|a|];
    assert (b + [e])[|a|..] == b[|a|..] + [e];
  }

  lemma GrowsRefl(a: seq<Event>)
    ensures Grows(a, a)
  {
    assert a[|a|..] == [];
  }

  lemma ConnectGrows(s: Settings, st: Session, t: Transport)
    ensures Grows(st.trace, ConnectSpec(s, st, t).0.trace)
  {
    GrowsRefl(st.trace);
    if !st.client {
      GrowsSnoc(st.trace, st.trace, Handshake);
    }
  }

  lemma SendGrows(s: Settings, st: Session, localPath: string, remotePath: string, t: Transport)
    ensures Grows(st.trace, SendSpec(s, st, localPath, remotePath, t).0.trace)
  {
    ConnectGrows(s, st, t);
    var st1 := ConnectSpec(s, st, t).0;
    GrowsSnoc(st.trace, st1.trace, Put(localPath, remotePath));
  }

  lemma RunGrows(s: Settings, st: Session, command: string, t: Transport)
    ensures Grows(st.trace, RunSpec(s, st, command, t).0.trace)
  {
    ConnectGrows(s, st, t);
    var st1 := ConnectSpec(s, st, t).0;
    GrowsSnoc(st.trace, st1.trace, Exec(command));
  }

  lemma RetrieveGrows(s: Settings, st: Session, remotePath: string, localPath: string, t: Transport)
    ensures Grows(st.trace, RetrieveSpec(s, st, remotePath, localPath, t).0.trace)
  {
    ConnectGrows(s, st, t);
    var st1 := ConnectSpec(s, st, t).0;
    GrowsSnoc(st.trace, st1.trace, Fetch(remotePath, localPath));
  }

  /** The handshake the first request makes when the session has no client yet. */
  function Opening(st: Session): seq<Event>
  {
    if st.client then [] else [Handshake]
  }

  /**
   * A run completes exactly when the session is (or gets) connected with an
   * open channel and the remote side accepts all four requests; it then
   * adds exactly the handshake if one was due and the four requests in
   * order, and returns the output of the submit command.
   */
  lemma PerformCases(s: Settings, st: Session, p: Plan, t: Transport)
    requires st.client ==> st.sftp
    ensures var (st1, r) := Perform(s, st, p, t);
      (r.Ok? <==> (st.client || t.handshake.Done?) && t.put(p.localInput, p.remoteInput).Done? &&
                  t.put(p.localJob, p.remoteJob).Done? && t.exec(p.command).Ok? &&
                  t.get(p.remoteOutput, p.localOutput).Done?) &&
      (r.Ok? ==> st1.trace == st.trace + Opening(st) + Requests(p) && r.value == t.exec(p.command).value)
  {
  }

  /** A run that completes leaves the client connected and the channel open. */
  lemma PerformConnected(s: Settings, st: Session, p: Plan, t: Transport)
    ensures var (st1, r) := Perform(s, st, p, t);
      r.Ok? ==> st1.client && st1.sftp
  {
  }

  /** `self.remote.send_file(…)` twice, `run_command`, `retrieve_file`, on the session object `a`. */
  method Execute(a: RemoteAuth, p: Plan, t: Transport) returns (r: Result<(string, string)>)
    modifies a
    ensures (a.State(), r) == Perform(a.settings, old(a.State()), p, t)
  {
    var o := a.SendFile(p.localInput, p.remoteInput, t);
    if o.Raised? {
      return Err(o.exc);
    }
    o := a.SendFile(p.localJob, p.remoteJob, t);
    if o.Raised? {
      return Err(o.exc);
    }
    r := a.RunCommand(p.command, t);
    if r.Err? {
      return;
    }
    o := a.RetrieveFile(p.remoteOutput, p.localOutput, t);
    if o.Raised? {
      return Err(o.exc);
    }
  }
}
