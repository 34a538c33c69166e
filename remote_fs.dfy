// The remote side of an SFTP session as the SSH schedulers see it: a set
// of directories and a map of files, with `ensure_remote_dir`,
// `upload_file` and `upload_directory` (schedulers/ssh_direct.py; the same
// `ensure_remote_dir` is in schedulers/remote.py). `chdir(p)` succeeds
// exactly when `p` itself is a directory: the strings are not normalised.

module RemoteFs {
  import opened PyStr
  import opened PyErr

  // ---------------------------------------------------------------
  // The directories `ensure_remote_dir` visits
  // ---------------------------------------------------------------

  /** The non-empty pieces of `path.split('/')`, in order: the loop skips the empty ones. */
  function Components(parts: seq<string>): (r: seq<string>)
    ensures |r| <= |parts|
  {
    if |parts| == 0 then []
    else Components(parts[..|parts| - 1]) + (if Last(parts) == "" then [] else [Last(parts)])
  }

  lemma {:induction false} ComponentsNonEmpty(parts: seq<string>)
    ensures forall k :: 0 <= k < |Components(parts)| ==> Components(parts)[k] != ""
    decreases |parts|
  {
    if |parts| > 0 {
      ComponentsNonEmpty(parts[..|parts| - 1]);
    }
  }

  /** "/c1/c2/…/cn": what `current_path` holds after the components `cs`. */
  function Rooted(cs: seq<string>): (r: string)
    ensures cs != [] ==> |r| > 0 && r[0] == '/'
  {
    if cs == [] then "" else Rooted(cs[..|cs| - 1]) + "/" + Last(cs)
  }

  /** Every value `current_path` takes, in order. */
  function Prefixes(cs: seq<string>): (r: seq<string>)
    ensures |r| == |cs|
  {
    if cs == [] then [] else Prefixes(cs[..|cs| - 1]) + [Rooted(cs)]
  }

  /** Each prefix is absolute and no longer than the full path of the components. */
  lemma {:induction false} PrefixesRooted(cs: seq<string>)
    ensures forall k :: 0 <= k < |cs| ==>
      |Prefixes(cs)[k]| <= |Rooted(cs)| && |Prefixes(cs)[k]| > 0 && Prefixes(cs)[k][0] == '/'
    decreases |cs|
  {
    if cs != [] {
      PrefixesRooted(cs[..|cs| - 1]);
    }
  }

  /** The absolute prefixes of `path` the loop visits, shortest first. */
  function AbsPrefixes(path: string): seq<string>
  {
    Prefixes(Components(Split(path, "/")))
  }

  function SetOf(ps: seq<string>): set<string>
  {
    set p | p in ps
  }

  /** The prefixes in `ps` that are not yet directories, in order. */
  function Missing(ps: seq<string>, dirs: set<string>): (r: seq<string>)
  {
    if ps == [] then []
    else Missing(ps[..|ps| - 1], dirs) + (if Last(ps) in dirs then [] else [Last(ps)])
  }

  /** The directories after `ensure_remote_dir(path)`. */
  function Ensured(dirs: set<string>, path: string): set<string>
  {
    if path in dirs then dirs else dirs + SetOf(AbsPrefixes(path))
  }

  /** The `mkdir` calls of `ensure_remote_dir(path)`, in order. */
  function Created(dirs: set<string>, path: string): seq<string>
  {
    if path in dirs then [] else Missing(AbsPrefixes(path), dirs)
  }

  /** One more piece of the split path: the components, the prefixes and `current_path` grow together. */
  lemma PrefixStep(parts: seq<string>, i: nat)
    requires i < |parts| && parts[i] != ""
    ensures var cs := Components(parts[..i]);
      Components(parts[..i + 1]) == cs + [parts[i]] &&
      Prefixes(cs + [parts[i]]) == Prefixes(cs) + [Rooted(cs) + "/" + parts[i]] &&
      Rooted(cs) + "/" + parts[i] !in Prefixes(cs)
  {
    assert parts[..i + 1][..i] == parts[..i];
    var cs := Components(parts[..i]);
    assert (cs + [parts[i]])[..|cs|] == cs;
    PrefixesRooted(cs);
  }

  lemma SkipStep(parts: seq<string>, i: nat)
    requires i < |parts| && parts[i] == ""
    ensures Components(parts[..i + 1]) == Components(parts[..i])
  {
    assert parts[..i + 1][..i] == parts[..i];
  }

  /** A prefix longer than all before it is a directory afterwards exactly when it was one before. */
  lemma NewPrefix(dirs: set<string>, ps: seq<string>, p: string)
    requires p !in ps
    ensures (p in dirs + SetOf(ps)) == (p in dirs)
    ensures SetOf(ps + [p]) == SetOf(ps) + {p}
    ensures Missing(ps + [p], dirs) == Missing(ps, dirs) + (if p in dirs then [] else [p])
  {
    assert (ps + [p])[..|ps|] == ps;
  }

  /** Visiting a prefix not seen before: the directories and the `mkdir` calls grow as the prefixes do. */
  lemma NewPrefixState(d0: set<string>, m0: seq<string>, ps: seq<string>, next: string)
    requires next !in ps
    ensures d0 + SetOf(ps) + {next} == d0 + SetOf(ps + [next])
    ensures m0 + Missing(ps, d0) + (if next in d0 + SetOf(ps) then [] else [next]) == m0 + Missing(ps + [next], d0)
  {
    NewPrefix(d0, ps, next);
    var add := if next in d0 then [] else [next];
    assert m0 + Missing(ps, d0) + add == m0 + (Missing(ps, d0) + add);
  }

  /** No directory is made twice: the prefixes are distinct, one strictly longer than the next. */
  lemma {:induction false} PrefixesDistinct(cs: seq<string>)
    requires forall k :: 0 <= k < |cs| ==> cs[k] != ""
    ensures forall i, j :: 0 <= i < j < |cs| ==> Prefixes(cs)[i] != Prefixes(cs)[j]
    decreases |cs|
  {
    if cs != [] {
      var init := cs[..|cs| - 1];
      PrefixesDistinct(init);
      PrefixesRooted(init);
      assert Prefixes(cs) == Prefixes(init) + [Rooted(cs)];
      assert |Rooted(cs)| > |Rooted(init)|;
    }
  }

  lemma {:induction false} MissingNone(ps: seq<string>, dirs: set<string>)
    requires forall k :: 0 <= k < |ps| ==> ps[k] in dirs
    ensures Missing(ps, dirs) == []
    decreases |ps|
  {
    if ps != [] {
      MissingNone(ps[..|ps| - 1], dirs);
    }
  }

  /** Every prefix that is not already a directory is made, and only those. */
  lemma {:induction false} MissingExactly(ps: seq<string>, dirs: set<string>, p: string)
    ensures p in Missing(ps, dirs) <==> p in ps && p !in dirs
    decreases |ps|
  {
    if ps != [] {
      var init := ps[..|ps| - 1];
      MissingExactly(init, dirs, p);
      assert ps == init + [Last(ps)];
    }
  }

  /**
   * After `ensure_remote_dir(path)` on a path that is not a directory yet,
   * every prefix "/c1", "/c1/c2", … of its non-empty components is one;
   * exactly the prefixes that were not directories are made, each once,
   * and nothing that was a directory is dropped.
   */
  lemma EnsureEffect(dirs: set<string>, path: string)
    requires path !in dirs
    ensures dirs <= Ensured(dirs, path)
    ensures forall p :: p in AbsPrefixes(path) ==> p in Ensured(dirs, path)
    ensures forall p :: p in Created(dirs, path) <==> p in AbsPrefixes(path) && p !in dirs
    ensures forall p :: p in Ensured(dirs, path) ==> p in dirs || p in AbsPrefixes(path)
  {
    forall p
      ensures p in Created(dirs, path) <==> p in AbsPrefixes(path) && p !in dirs
    {
      MissingExactly(AbsPrefixes(path), dirs, p);
    }
  }

  /** A path that is already a directory changes nothing. */
  lemma EnsureExisting(dirs: set<string>, path: string)
    requires path in dirs
    ensures Ensured(dirs, path) == dirs && Created(dirs, path) == []
  {
  }

  /** Every directory made is absolute, whether or not `path` is. */
  lemma CreatedRooted(dirs: set<string>, path: string)
    ensures forall k :: 0 <= k < |Created(dirs, path)| ==> StartsWith(Created(dirs, path)[k], "/")
  {
    var c := Created(dirs, path);
    forall k | 0 <= k < |c|
      ensures StartsWith(c[k], "/")
    {
      MissingExactly(AbsPrefixes(path), dirs, c[k]);
      PrefixesRooted(Components(Split(path, "/")));
      var j :| 0 <= j < |AbsPrefixes(path)| && AbsPrefixes(path)[j] == c[k];
      assert c[k][..1] == "/";
    }
  }

  /** A second call makes nothing and changes nothing. */
  lemma EnsureIdempotent(dirs: set<string>, path: string)
    ensures Ensured(Ensured(dirs, path), path) == Ensured(dirs, path)
    ensures Created(Ensured(dirs, path), path) == []
  {
    if path !in dirs {
      var ps := AbsPrefixes(path);
      var d1 := dirs + SetOf(ps);
      assert Ensured(dirs, path) == d1;
      CoveredAfter(dirs, ps);
      if path !in d1 {
        assert Ensured(d1, path) == d1 + SetOf(ps);
        assert Created(d1, path) == Missing(ps, d1);
      }
    }
  }

  /** Once every prefix is a directory, adding them again changes nothing and nothing is missing. */
  lemma CoveredAfter(dirs: set<string>, ps: seq<string>)
    ensures (dirs + SetOf(ps)) + SetOf(ps) == dirs + SetOf(ps)
    ensures Missing(ps, dirs + SetOf(ps)) == []
  {
    MissingNone(ps, dirs + SetOf(ps));
  }

  /** An absolute path without empty components, "/c1/…/cn", is itself the last directory made. */
  lemma EnsureReachesPath(cs: seq<string>)
    requires cs != [] && forall k :: 0 <= k < |cs| ==> cs[k] != "" && '/' !in cs[k]
    ensures Split("/" + Join("/", cs), "/") == [""] + cs
    ensures Last(AbsPrefixes("/" + Join("/", cs))) == "/" + Join("/", cs)
  {
    SplitJoinFree("/", cs);
    var path := "/" + Join("/", cs);
    assert Find(path, "/") == 0 by {
      assert path[0..1] == "/";
    }
    assert path[1..] == Join("/", cs);
    var parts := [""] + cs;
    ComponentsDropEmpty(cs);
    RootedJoin(cs);
  }

  /** Splitting the join of slash-free pieces gives the pieces back. */
  lemma {:induction false} SplitJoinFree(sep: string, cs: seq<string>)
    requires sep == "/"
    requires cs != [] && forall k :: 0 <= k < |cs| ==> '/' !in cs[k]
    ensures Split(Join(sep, cs), sep) == cs
    decreases |cs|
  {
    var c := cs[0];
    NoSlashFind(c);
    if |cs| == 1 {
    } else {
      var rest := cs[1..];
      JoinCons(sep, c, rest);
      var s := c + sep + Join(sep, rest);
      assert OccursAt(s, sep, |c|) by {
        assert s[|c|..|c| + 1] == sep;
      }
      FindFirst(s, sep, |c|);
      assert Find(s, sep) == |c| by {
        assert forall k :: 0 <= k < |c| ==> s[k] == c[k];
      }
      assert s[..|c|] == c;
      assert s[|c| + 1..] == Join(sep, rest);
      SplitJoinFree(sep, rest);
      assert cs == [c] + rest;
    }
  }

  lemma NoSlashFind(c: string)
    requires '/' !in c
    ensures Find(c, "/") == -1
  {
    forall k | 0 <= k < |c|
      ensures !OccursAt(c, "/", k)
    {
      assert c[k..k + 1][0] == c[k];
    }
  }

  lemma {:induction false} ComponentsDropEmpty(cs: seq<string>)
    requires forall k :: 0 <= k < |cs| ==> cs[k] != ""
    ensures Components([""] + cs) == cs
    decreases |cs|
  {
    if cs == [] {
      assert ([""] + cs)[..0] == [];
    } else {
      var init := cs[..|cs| - 1];
      ComponentsDropEmpty(init);
      assert ([""] + cs)[..|cs|] == [""] + init;
      assert cs == init + [Last(cs)];
    }
  }

  lemma {:induction false} RootedJoin(cs: seq<string>)
    requires cs != []
    ensures Rooted(cs) == "/" + Join("/", cs)
    decreases |cs|
  {
    var init := cs[..|cs| - 1];
    if init == [] {
      assert cs == [cs[0]];
    } else {
      RootedJoin(init);
      JoinAppend("/", init, Last(cs));
      assert init + [Last(cs)] == cs;
    }
  }

  // ---------------------------------------------------------------
  // The remote file system
  // ---------------------------------------------------------------

  /** What the remote side holds: directories, files with their text, and the `mkdir` calls made so far. */
  datatype Store = Store(dirs: set<string>, files: map<string, string>, made: seq<string>)

  function EnsureSpec(st: Store, path: string): Store
  {
    Store(Ensured(st.dirs, path), st.files, st.made + Created(st.dirs, path))
  }

  /** `sftp.put` of a local path that does not exist. */
  function NoSuchFile(localPath: string): Exc
  {
    Exc("FileNotFoundError", "[Errno 2] No such file or directory: '" + localPath + "'")
  }

  /** `upload_file`: the parent directory, when `dirname` is not empty, then the put. */
  function UploadSpec(st: Store, local: map<string, string>, localPath: string, remotePath: string): (Store, Outcome)
  {
    var parent := DirName(remotePath);
    var st1 := if parent != "" then EnsureSpec(st, parent) else st;
    if localPath in local then (st1.(files := st1.files[remotePath := local[localPath]]), Done)
    else (st1, Raised(NoSuchFile(localPath)))
  }

  /**
   * The file lands at `remotePath` with the local text, after the parent
   * directory is ensured; a missing local file raises and writes nothing.
   */
  lemma UploadEffect(st: Store, local: map<string, string>, localPath: string, remotePath: string)
    ensures var (st2, o) := UploadSpec(st, local, localPath, remotePath);
      (o.Done? <==> localPath in local) &&
      (o.Done? ==> st2.files == st.files[remotePath := local[localPath]]) &&
      (o.Raised? ==> st2.files == st.files) &&
      (DirName(remotePath) == "" ==> st2.dirs == st.dirs && st2.made == st.made) &&
      (DirName(remotePath) != "" ==> st2.dirs == Ensured(st.dirs, DirName(remotePath)))
  {
  }

  lemma UploadFiles(st: Store, local: map<string, string>, localPath: string, remotePath: string)
    requires UploadSpec(st, local, localPath, remotePath).1.Done?
    ensures UploadSpec(st, local, localPath, remotePath).0.files.Keys == st.files.Keys + {remotePath}
  {
  }

  /** `root.replace(local_dir, remote_dir, 1)`; with an empty `local_dir` Python puts `remote_dir` in front. */
  function RemoteRoot(root: string, localDir: string, remoteDir: string): string
  {
    if localDir == "" then remoteDir + root else ReplaceCount(root, localDir, remoteDir, 1)
  }

  /** A root under `local_dir` is mapped to the same place under `remote_dir`. */
  lemma RemoteRootUnder(root: string, localDir: string, remoteDir: string)
    requires StartsWith(root, localDir)
    ensures RemoteRoot(root, localDir, remoteDir) == remoteDir + root[|localDir|..]
  {
    if localDir != "" {
      assert OccursAt(root, localDir, 0);
      FindFirst(root, localDir, 0);
      var rest := root[|localDir|..];
      assert ReplaceCount(rest, localDir, remoteDir, 0) == rest;
      assert root[..0] == "";
    }
  }

  /** Only the first occurrence is replaced: `local_dir` may occur again further in. */
  lemma RemoteRootFirstOnly()
    ensures RemoteRoot("/a/x/a", "/a", "/r") == "/r/x/a"
  {
    RemoteRootUnder("/a/x/a", "/a", "/r");
    assert "/a/x/a"[2..] == "/x/a";
  }

  /** An entry of `os.walk(local_dir)`: a directory and the names of its files. */
  datatype WalkEntry = WalkEntry(root: string, names: seq<string>)

  /**
   * A loop that stops at the first exception: `step(s, k)` is what
   * iteration `k` does from state `s`.
   */
  type Step = (Store, nat) -> (Store, Outcome)

  /** The state and outcome after the first `n` iterations. */
  function Run(step: Step, st: Store, n: nat): (Store, Outcome)
  {
    if n == 0 then (st, Done)
    else
      var r := Run(step, st, n - 1);
      if r.1.Raised? then r else step(r.0, n - 1)
  }

  /** One more iteration after a completed prefix of the loop. */
  lemma RunNext(step: Step, st: Store, n: nat)
    requires Run(step, st, n).1.Done?
    ensures Run(step, st, n + 1) == step(Run(step, st, n).0, n)
  {
  }

  /** Once an iteration raises, the remaining ones are skipped. */
  lemma {:induction false} RunStops(step: Step, st: Store, n: nat, total: nat)
    requires n <= total
    requires Run(step, st, n).1.Raised?
    ensures Run(step, st, total) == Run(step, st, n)
    decreases total - n
  {
    if n < total {
      RunStops(step, st, n, total - 1);
    }
  }

  /** The union of `adds(k)` for `k < n`. */
  function Union(adds: nat -> set<string>, n: nat): set<string>
  {
    if n == 0 then {} else Union(adds, n - 1) + adds(n - 1)
  }

  /** When every iteration that completes adds exactly the files `adds(k)`, the loop adds their union. */
  lemma {:induction false} RunKeys(step: Step, st: Store, n: nat, adds: nat -> set<string>)
    requires forall s: Store, k: nat :: k < n && step(s, k).1.Done? ==> step(s, k).0.files.Keys == s.files.Keys + adds(k)
    requires Run(step, st, n).1.Done?
    ensures Run(step, st, n).0.files.Keys == st.files.Keys + Union(adds, n)
    decreases n
  {
    if n > 0 {
      RunKeys(step, st, n - 1, adds);
    }
  }

  /** One file of an entry: where it is read and where it is written. */
  datatype Transfer = Transfer(localPath: string, remotePath: string)

  /** `(join(root, file), join(remote_root, file))` for each file of an entry, in order. */
  function Targets(root: string, remoteRoot: string, names: seq<string>): (r: seq<Transfer>)
    ensures |r| == |names|
  {
    seq(|names|, k requires 0 <= k < |names| => Transfer(PathJoin(root, names[k]), PathJoin(remoteRoot, names[k])))
  }

  /** The inner loop over `files`: each transfer in order, stopping at the first raise. */
  function Transfers(st: Store, local: map<string, string>, pairs: seq<Transfer>): (Store, Outcome)
    decreases |pairs|
  {
    if pairs == [] then (st, Done)
    else
      var r := UploadSpec(st, local, pairs[0].localPath, pairs[0].remotePath);
      if r.1.Raised? then r else Transfers(r.0, local, pairs[1..])
  }

  /** The remote paths of a list of transfers. */
  function Remotes(pairs: seq<Transfer>): set<string>
  {
    set t | t in pairs :: t.remotePath
  }

  /** Transfers that all succeed add exactly their remote paths to the files. */
  lemma {:induction false} TransfersKeys(st: Store, local: map<string, string>, pairs: seq<Transfer>)
    requires Transfers(st, local, pairs).1.Done?
    ensures Transfers(st, local, pairs).0.files.Keys == st.files.Keys + Remotes(pairs)
    decreases |pairs|
  {
    if pairs != [] {
      var r := UploadSpec(st, local, pairs[0].localPath, pairs[0].remotePath);
      assert r.1.Done?;
      var t := Transfers(r.0, local, pairs[1..]);
      assert Transfers(st, local, pairs) == t;
      UploadFiles(st, local, pairs[0].localPath, pairs[0].remotePath);
      TransfersKeys(r.0, local, pairs[1..]);
      RemotesCons(pairs);
      UnionStep(st.files.Keys, r.0.files.Keys, t.0.files.Keys, pairs[0].remotePath, Remotes(pairs[1..]));
    }
  }

  lemma RemotesCons(pairs: seq<Transfer>)
    requires pairs != []
    ensures Remotes(pairs) == {pairs[0].remotePath} + Remotes(pairs[1..])
  {
    assert pairs == [pairs[0]] + pairs[1..];
  }

  lemma UnionStep(a: set<string>, b: set<string>, c: set<string>, x: string, rest: set<string>)
    requires b == a + {x} && c == b + rest
    ensures c == a + ({x} + rest)
  {
  }

  /** One walk entry: the mapped directory is ensured, then its files are uploaded in order. */
  function EntrySpec(st: Store, local: map<string, string>, localDir: string, remoteDir: string, e: WalkEntry)
    : (Store, Outcome)
  {
    var rr := RemoteRoot(e.root, localDir, remoteDir);
    Transfers(EnsureSpec(st, rr), local, Targets(e.root, rr, e.names))
  }

  /** Iteration `k` of the outer loop: the walk entry `walk[k]`. */
  function EntryStep(local: map<string, string>, localDir: string, remoteDir: string, walk: seq<WalkEntry>): Step
  {
    (s: Store, k: nat) => if k < |walk| then EntrySpec(s, local, localDir, remoteDir, walk[k]) else (s, Done)
  }

  lemma EntryStepAt(local: map<string, string>, localDir: string, remoteDir: string, walk: seq<WalkEntry>,
                    st: Store, k: nat)
    requires k < |walk|
    ensures EntryStep(local, localDir, remoteDir, walk)(st, k) == EntrySpec(st, local, localDir, remoteDir, walk[k])
  {
  }

  /** `upload_directory(local_dir, remote_dir)` over the walk `walk`. */
  function UploadDirSpec(st: Store, local: map<string, string>, localDir: string, remoteDir: string,
                         walk: seq<WalkEntry>): (Store, Outcome)
  {
    Run(EntryStep(local, localDir, remoteDir, walk), EnsureSpec(st, remoteDir), |walk|)
  }

  /** The remote paths of the files of each walk entry. */
  function EntryTargets(localDir: string, remoteDir: string, walk: seq<WalkEntry>): nat -> set<string>
  {
    (k: nat) => if k < |walk|
      then Remotes(Targets(walk[k].root, RemoteRoot(walk[k].root, localDir, remoteDir), walk[k].names))
      else {}
  }

  /** The files of one entry that completes are exactly its mapped paths added. */
  lemma EntryKeys(st: Store, local: map<string, string>, localDir: string, remoteDir: string, e: WalkEntry)
    requires EntrySpec(st, local, localDir, remoteDir, e).1.Done?
    ensures EntrySpec(st, local, localDir, remoteDir, e).0.files.Keys ==
            st.files.Keys + Remotes(Targets(e.root, RemoteRoot(e.root, localDir, remoteDir), e.names))
  {
    var rr := RemoteRoot(e.root, localDir, remoteDir);
    TransfersKeys(EnsureSpec(st, rr), local, Targets(e.root, rr, e.names));
  }

  /**
   * A directory upload that completes leaves a file at every mapped path
   * `join(remote root, name)` of the walk and adds no other file.
   */
  lemma UploadDirKeys(st: Store, local: map<string, string>, localDir: string, remoteDir: string, walk: seq<WalkEntry>)
    requires UploadDirSpec(st, local, localDir, remoteDir, walk).1.Done?
    ensures UploadDirSpec(st, local, localDir, remoteDir, walk).0.files.Keys ==
            st.files.Keys + Union(EntryTargets(localDir, remoteDir, walk), |walk|)
  {
    var step := EntryStep(local, localDir, remoteDir, walk);
    forall s: Store, k: nat | k < |walk| && step(s, k).1.Done?
      ensures step(s, k).0.files.Keys == s.files.Keys + EntryTargets(localDir, remoteDir, walk)(k)
    {
      EntryKeys(s, local, localDir, remoteDir, walk[k]);
    }
    RunKeys(step, EnsureSpec(st, remoteDir), |walk|, EntryTargets(localDir, remoteDir, walk));
  }

  /** The SFTP session's view of the remote host. */
  class Sftp {
    var dirs: set<string>
    var files: map<string, string>
    var made: seq<string>

    function State(): Store
      reads this
    {
      Store(dirs, files, made)
    }

    constructor(dirs: set<string>, files: map<string, string>)
      ensures State() == Store(dirs, files, [])
    {
      this.dirs := dirs;
      this.files := files;
      this.made := [];
    }

    /** `ensure_remote_dir(path)`: nothing when `chdir(path)` succeeds, else every prefix in turn. */
    method EnsureRemoteDir(path: string)
      modifies this
      ensures State() == EnsureSpec(old(State()), path)
    {
      if path in dirs {
        assert made + [] == made;
        return;
      }
      VisitPrefixes(Split(path, "/"));
    }

    /** The loop of `ensure_remote_dir`: accumulate "/c1/…/ck" over the pieces, making each missing one. */
    method VisitPrefixes(parts: seq<string>)
      modifies this
      ensures dirs == old(dirs) + SetOf(Prefixes(Components(parts)))
      ensures made == old(made) + Missing(Prefixes(Components(parts)), old(dirs))
      ensures files == old(files)
    {
      var current := "";
      ghost var cs: seq<string> := [];
      ghost var ps: seq<string> := [];
      var i := 0;
      assert parts[..0] == [];
      while i < |parts|
        invariant 0 <= i <= |parts|
        invariant cs == Components(parts[..i]) && ps == Prefixes(cs)
        invariant current == Rooted(cs)
        invariant dirs == old(dirs) + SetOf(ps)
        invariant made == old(made) + Missing(ps, old(dirs))
        invariant files == old(files)
      {
        if parts[i] != "" {
          PrefixStep(parts, i);
          var next := current + "/" + parts[i];
          NewPrefixState(old(dirs), old(made), ps, next);
          assert (cs + [parts[i]])[..|cs|] == cs;
          Visit(next);
          cs := cs + [parts[i]];
          ps := ps + [next];
          current := next;
        } else {
          SkipStep(parts, i);
        }
        i := i + 1;
      }
      assert parts[..i] == parts;
    }

    /** `chdir(p)`, and on IOError `mkdir(p)`. */
    method Visit(p: string)
      modifies this
      ensures dirs == old(dirs) + {p}
      ensures made == old(made) + (if p in old(dirs) then [] else [p])
      ensures files == old(files)
    {
      if p !in dirs {
        dirs := dirs + {p};
        made := made + [p];
      } else {
        assert made + [] == made;
        assert dirs + {p} == dirs;
      }
    }

    /** `with sftp.file(path, 'w') as f: f.write(text)`: the file now holds exactly `text`. */
    method WriteFile(path: string, text: string)
      modifies this
      ensures State() == old(State()).(files := old(files)[path := text])
    {
      files := files[path := text];
    }

    /** `upload_file(local_path, remote_path)`; `local` holds the local files' text. */
    method UploadFile(local: map<string, string>, localPath: string, remotePath: string) returns (o: Outcome)
      modifies this
      ensures (State(), o) == UploadSpec(old(State()), local, localPath, remotePath)
    {
      var parent := DirName(remotePath);
      if parent != "" {
        EnsureRemoteDir(parent);
      }
      if localPath !in local {
        return Raised(NoSuchFile(localPath));
      }
      files := files[remotePath := local[localPath]];
      o := Done;
    }

    /** `upload_directory(local_dir, remote_dir)`, `walk` standing for `os.walk(local_dir)`. */
    method UploadDirectory(local: map<string, string>, localDir: string, remoteDir: string, walk: seq<WalkEntry>)
      returns (o: Outcome)
      modifies this
      ensures (State(), o) == UploadDirSpec(old(State()), local, localDir, remoteDir, walk)
    {
      EnsureRemoteDir(remoteDir);
      ghost var step := EntryStep(local, localDir, remoteDir, walk);
      ghost var start := State();
      var n := 0;
      while n < |walk|
        invariant 0 <= n <= |walk|
        invariant Run(step, start, n) == (State(), Done)
      {
        ghost var before := State();
        o := UploadEntry(local, localDir, remoteDir, walk[n]);
        EntryStepAt(local, localDir, remoteDir, walk, before, n);
        RunNext(step, start, n);
        if o.Raised? {
          RunStops(step, start, n + 1, |walk|);
          return;
        }
        n := n + 1;
      }
      o := Done;
    }

    /** The body of the walk loop for one entry: the mapped directory, then its files. */
    method UploadEntry(local: map<string, string>, localDir: string, remoteDir: string, e: WalkEntry)
      returns (o: Outcome)
      modifies this
      ensures (State(), o) == EntrySpec(old(State()), local, localDir, remoteDir, e)
    {
      var remoteRoot := RemoteRoot(e.root, localDir, remoteDir);
      EnsureRemoteDir(remoteRoot);
      o := UploadNames(local, Targets(e.root, remoteRoot, e.names));
    }

    /** The inner loop: `upload_file(local_file, remote_file)` for each file of the entry. */
    method UploadNames(local: map<string, string>, pairs: seq<Transfer>) returns (o: Outcome)
      modifies this
      ensures (State(), o) == Transfers(old(State()), local, pairs)
    {
      var m := 0;
      while m < |pairs|
        invariant 0 <= m <= |pairs|
        invariant Transfers(old(State()), local, pairs) == Transfers(State(), local, pairs[m..])
      {
        assert pairs[m..][0] == pairs[m] && pairs[m..][1..] == pairs[m + 1..];
        o := UploadFile(local, pairs[m].localPath, pairs[m].remotePath);
        if o.Raised? {
          return;
        }
        m := m + 1;
      }
      assert pairs[m..] == [];
      o := Done;
    }
  }
}
