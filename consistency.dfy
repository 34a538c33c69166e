// The machine-configuration consistency tool: the facts it reads off each
// loader's source text (which authentication methods the code tests for,
// what the module docstring claims), the inconsistencies it reports across
// the loaders, and the exit code of its `main`.

module Consistency {
  import opened PyStr
  import opened PyDict
  import opened Json

  /** What `check_auth_methods` reports for one file. */
  datatype AuthInfo = AuthInfo(supportsPassword: bool, supportsKey: bool)

  /** What `check_docstring_consistency` reports: no docstring, or its claims and a short excerpt. */
  datatype DocInfo =
    | NoDocstring
    | Docstring(supportsPassword: bool, supportsKey: bool, excerpt: string)

  /** The three facts `analyze_machine_files` records per loader file. */
  datatype FileReport = FileReport(defaults: Dict<string, Value>, doc: DocInfo, auth: AuthInfo)

  /** An inconsistency's details: the scheduler default per file, or a list of files. */
  datatype Details =
    | PerFile(defaults: Dict<string, Value>)
    | Files(paths: seq<string>)

  datatype Inconsistency = Inconsistency(kind: string, description: string, details: Details)

  const PasswordTest := "method == \"password\""
  const KeyTest := "method == \"key\""
  const KeyGuard := "method != \"key\""

  // ---------------------------------------------------------------
  // check_auth_methods
  // ---------------------------------------------------------------

  /**
   * The methods a file's code tests for: password when it compares the method
   * with "password", key when it compares it with "key" either way. A file
   * that cannot be read (None) supports neither.
   */
  function CheckAuth(content: Option<string>): AuthInfo
  {
    match content
    case None => AuthInfo(false, false)
    case Some(text) => AuthInfo(Contains(text, PasswordTest), Contains(text, KeyTest) || Contains(text, KeyGuard))
  }

  /** `sub` found inside a text is found by `in`. */
  lemma ContainsAt(x: string, sub: string, y: string)
    ensures Contains(x + sub + y, sub)
  {
    var s := x + sub + y;
    assert s[|x|..|x| + |sub|] == sub;
    assert OccursAt(s, sub, |x|);
    ContainsIff(s, sub);
  }

  /** A text holding `a + b` holds `a`. */
  lemma ContainsPrefix(s: string, a: string, b: string)
    requires Contains(s, a + b)
    ensures Contains(s, a)
  {
    ContainsIff(s, a + b);
    var i :| OccursAt(s, a + b, i);
    assert s[i..i + |a|] == s[i..i + |a + b|][..|a|] == (a + b)[..|a|] == a;
    assert OccursAt(s, a, i);
    ContainsIff(s, a);
  }

  /**
   * Code that tests the method against "password" supports password; code
   * that compares it with "key" either way supports key.
   */
  lemma AuthOfTests(x: string, y: string)
    ensures CheckAuth(Some(x + PasswordTest + y)).supportsPassword
    ensures CheckAuth(Some(x + KeyTest + y)).supportsKey
    ensures CheckAuth(Some(x + KeyGuard + y)).supportsKey
  {
    ContainsAt(x, PasswordTest, y);
    ContainsAt(x, KeyTest, y);
    ContainsAt(x, KeyGuard, y);
  }

  /** Code that never mentions `method ` supports neither method. */
  lemma AuthNeedsMethod(text: string)
    requires !Contains(text, "method ")
    ensures CheckAuth(Some(text)) == AuthInfo(false, false)
  {
    if Contains(text, PasswordTest) {
      assert PasswordTest == "method " + "== \"password\"";
      ContainsPrefix(text, "method ", "== \"password\"");
    }
    if Contains(text, KeyTest) {
      assert KeyTest == "method " + "== \"key\"";
      ContainsPrefix(text, "method ", "== \"key\"");
    }
    if Contains(text, KeyGuard) {
      assert KeyGuard == "method " + "!= \"key\"";
      ContainsPrefix(text, "method ", "!= \"key\"");
    }
  }

  // ---------------------------------------------------------------
  // check_docstring_consistency
  // ---------------------------------------------------------------

  /** The first 200 characters and "..." for a long docstring, else all of it. */
  function Excerpt(d: string): (r: string)
    ensures |r| <= 203
    ensures |d| <= 200 ==> r == d
    ensures |d| > 200 ==> |r| == 203 && StartsWith(r, d[..200]) && EndsWith(r, "...")
  {
    if |d| > 200 then d[..200] + "..." else d
  }

  /**
   * The claims of a module docstring, read case-insensitively. An empty or
   * missing docstring, or a file that does not parse (None), gives none.
   */
  function DocCheck(docstring: Option<string>): DocInfo
  {
    if docstring.None? || docstring.value == "" then NoDocstring
    else
      var low := Lower(docstring.value);
      var mentions := Contains(low, "password") && Contains(low, "authentication");
      var deprecated := Contains(low, "no longer supported") && Contains(low, "password");
      Docstring(mentions && !deprecated, Contains(low, "key") && Contains(low, "authentication"),
                Excerpt(docstring.value))
  }

  /** `docstring.get("supports_password", False)`. */
  predicate DocClaimsPassword(doc: DocInfo)
  {
    doc.Docstring? && doc.supportsPassword
  }

  /**
   * A docstring counts as supporting password authentication exactly when it
   * mentions both "password" and "authentication" and never says "no longer
   * supported", in any letter case.
   */
  lemma DocPasswordIff(d: string)
    ensures DocCheck(Some(d)).Docstring? <==> d != ""
    ensures DocClaimsPassword(DocCheck(Some(d)))
            <==> d != "" && Contains(Lower(d), "password") && Contains(Lower(d), "authentication")
                 && !Contains(Lower(d), "no longer supported")
  {
  }

  /**
   * A docstring announcing that password support is gone, in whatever
   * letter case, never counts as supporting it.
   */
  lemma DeprecationWins(x: string, y: string)
    ensures !DocClaimsPassword(DocCheck(Some(x + "No longer supported" + y)))
  {
    var d := x + "No longer supported" + y;
    var phrase := "no longer supported";
    assert Lower("No longer supported") == phrase;
    assert Lower(d) == Lower(x) + phrase + Lower(y);
    ContainsAt(Lower(x), phrase, Lower(y));
  }

  // ---------------------------------------------------------------
  // find_inconsistencies
  // ---------------------------------------------------------------

  /** `data["defaults"].get("scheduler")`. */
  function SchedulerOf(report: FileReport): Value
  {
    GetOr(report.defaults, "scheduler", VNone)
  }

  /** The truthy scheduler default of each file, by file. */
  function SchedulerDefaults(results: Dict<string, FileReport>): Dict<string, Value>
  {
    if |results| == 0 then []
    else
      var last := results[|results| - 1];
      var prev := SchedulerDefaults(results[..|results| - 1]);
      if Truthy(SchedulerOf(last.1)) then Put(prev, last.0, SchedulerOf(last.1)) else prev
  }

  /** `len(set(vals)) > 1`. */
  predicate Disagree(vals: seq<Value>)
  {
    |set x | x in vals| > 1
  }

  /** The files whose code supports password authentication, in order. */
  function PasswordFiles(results: Dict<string, FileReport>): seq<string>
  {
    if |results| == 0 then []
    else
      var last := results[|results| - 1];
      PasswordFiles(results[..|results| - 1]) + if last.1.auth.supportsPassword then [last.0] else []
  }

  /** The files whose docstring claims password authentication, in order. */
  function DocPasswordFiles(results: Dict<string, FileReport>): seq<string>
  {
    if |results| == 0 then []
    else
      var last := results[|results| - 1];
      DocPasswordFiles(results[..|results| - 1]) + if DocClaimsPassword(last.1.doc) then [last.0] else []
  }

  const SchedulerKind := "scheduler_defaults"
  const AuthKind := "auth_support"
  const DocKind := "docstring_auth"

  /** The inconsistencies `find_inconsistencies` reports: scheduler, then auth, then docstring. */
  function Inconsistencies(results: Dict<string, FileReport>): seq<Inconsistency>
  {
    var sd := SchedulerDefaults(results);
    var pw := PasswordFiles(results);
    var dp := DocPasswordFiles(results);
    (if Disagree(Values(sd))
     then [Inconsistency(SchedulerKind, "Different default scheduler values across files", PerFile(sd))]
     else [])
    + (if pw != [] then [Inconsistency(AuthKind, "Some files still support password authentication", Files(pw))]
       else [])
    + (if dp != [] then [Inconsistency(DocKind, "Docstrings mention password authentication", Files(dp))] else [])
  }

  /** The position of each kind in the report. */
  function Rank(kind: string): nat
  {
    if kind == SchedulerKind then 0 else if kind == AuthKind then 1 else 2
  }

  /** At most one entry per kind, in the order scheduler, auth, docstring. */
  lemma InconsistencyOrder(results: Dict<string, FileReport>)
    ensures |Inconsistencies(results)| <= 3
    ensures forall i, j :: 0 <= i < j < |Inconsistencies(results)|
              ==> Rank(Inconsistencies(results)[i].kind) < Rank(Inconsistencies(results)[j].kind)
  {
    assert Rank(SchedulerKind) == 0 && Rank(AuthKind) == 1 && Rank(DocKind) == 2;
  }

  /** Some truthy default is recorded from file `results[k]` exactly when it has one. */
  lemma {:induction false} SchedulerDefaultsKeys(results: Dict<string, FileReport>, f: string)
    ensures HasKey(SchedulerDefaults(results), f) ==> HasKey(results, f)
  {
    if |results| > 0 {
      var init, last := results[..|results| - 1], results[|results| - 1];
      SchedulerDefaultsKeys(init, f);
      if Truthy(SchedulerOf(last.1)) {
        PutKeys(SchedulerDefaults(init), last.0, SchedulerOf(last.1), f);
      }
      if HasKey(init, f) {
        var i :| 0 <= i < |init| && init[i].0 == f;
        assert results[i].0 == f;
      }
    }
  }

  /**
   * With one entry per file, the recorded defaults are exactly the truthy
   * scheduler defaults of the files.
   */
  lemma {:induction false} SchedulerDefaultsValues(results: Dict<string, FileReport>, x: Value)
    requires UniqueKeys(results)
    ensures x in Values(SchedulerDefaults(results))
            <==> exists k :: 0 <= k < |results| && Truthy(SchedulerOf(results[k].1)) && SchedulerOf(results[k].1) == x
  {
    if |results| > 0 {
      var init, last := results[..|results| - 1], results[|results| - 1];
      assert UniqueKeys(init);
      SchedulerDefaultsValues(init, x);
      var prev := SchedulerDefaults(init);
      assert forall k :: 0 <= k < |init| ==> init[k] == results[k];
      if Truthy(SchedulerOf(last.1)) {
        assert !HasKey(init, last.0) by {
          forall i | 0 <= i < |init|
            ensures init[i].0 != last.0
          {
            assert init[i] == results[i];
          }
        }
        SchedulerDefaultsKeys(init, last.0);
        assert Values(Put(prev, last.0, SchedulerOf(last.1))) == Values(prev) + [SchedulerOf(last.1)];
      }
    }
  }

  /** Two values differ in `vals` exactly when its set has more than one element. */
  lemma DisagreeIff(vals: seq<Value>)
    ensures Disagree(vals) <==> exists a, b :: a in vals && b in vals && a != b
  {
    var s := set x | x in vals;
    if exists a, b :: a in vals && b in vals && a != b {
      var a, b :| a in vals && b in vals && a != b;
      assert s == (s - {a}) + {a};
      assert b in s - {a};
      assert |s - {a}| >= 1;
    }
    if |s| > 1 {
      var a :| a in s;
      var rest := s - {a};
      assert |rest| == |s| - 1;
      var b :| b in rest;
    }
  }

  /**
   * The scheduler inconsistency is reported exactly when two files have
   * different truthy scheduler defaults.
   */
  lemma SchedulerReported(results: Dict<string, FileReport>)
    requires UniqueKeys(results)
    ensures Disagree(Values(SchedulerDefaults(results)))
            <==> exists i, j :: 0 <= i < |results| && 0 <= j < |results|
                   && Truthy(SchedulerOf(results[i].1)) && Truthy(SchedulerOf(results[j].1))
                   && SchedulerOf(results[i].1) != SchedulerOf(results[j].1)
  {
    var vals := Values(SchedulerDefaults(results));
    DisagreeIff(vals);
    if Disagree(vals) {
      var a, b :| a in vals && b in vals && a != b;
      SchedulerDefaultsValues(results, a);
      SchedulerDefaultsValues(results, b);
    }
    if exists i, j :: 0 <= i < |results| && 0 <= j < |results|
         && Truthy(SchedulerOf(results[i].1)) && Truthy(SchedulerOf(results[j].1))
         && SchedulerOf(results[i].1) != SchedulerOf(results[j].1) {
      var i, j :| 0 <= i < |results| && 0 <= j < |results|
         && Truthy(SchedulerOf(results[i].1)) && Truthy(SchedulerOf(results[j].1))
         && SchedulerOf(results[i].1) != SchedulerOf(results[j].1);
      SchedulerDefaultsValues(results, SchedulerOf(results[i].1));
      SchedulerDefaultsValues(results, SchedulerOf(results[j].1));
    }
  }

  /** The auth details list exactly the files whose code supports password. */
  lemma {:induction false} PasswordFilesMember(results: Dict<string, FileReport>, f: string)
    ensures f in PasswordFiles(results)
            <==> exists k :: 0 <= k < |results| && results[k].0 == f && results[k].1.auth.supportsPassword
  {
    if |results| > 0 {
      var init := results[..|results| - 1];
      PasswordFilesMember(init, f);
      assert forall k :: 0 <= k < |init| ==> init[k] == results[k];
    }
  }

  /** The docstring details list exactly the files whose docstring claims password. */
  lemma {:induction false} DocPasswordFilesMember(results: Dict<string, FileReport>, f: string)
    ensures f in DocPasswordFiles(results)
            <==> exists k :: 0 <= k < |results| && results[k].0 == f && DocClaimsPassword(results[k].1.doc)
  {
    if |results| > 0 {
      var init := results[..|results| - 1];
      DocPasswordFilesMember(init, f);
      assert forall k :: 0 <= k < |init| ==> init[k] == results[k];
    }
  }

  /** The list is empty exactly when no file qualifies. */
  lemma {:induction false} PasswordFilesEmpty(results: Dict<string, FileReport>)
    ensures PasswordFiles(results) == [] <==> forall k :: 0 <= k < |results| ==> !results[k].1.auth.supportsPassword
  {
    if |results| > 0 {
      var init := results[..|results| - 1];
      PasswordFilesEmpty(init);
      assert forall k :: 0 <= k < |init| ==> init[k] == results[k];
    }
  }

  lemma {:induction false} DocPasswordFilesEmpty(results: Dict<string, FileReport>)
    ensures DocPasswordFiles(results) == [] <==> forall k :: 0 <= k < |results| ==> !DocClaimsPassword(results[k].1.doc)
  {
    if |results| > 0 {
      var init := results[..|results| - 1];
      DocPasswordFilesEmpty(init);
      assert forall k :: 0 <= k < |init| ==> init[k] == results[k];
    }
  }

  /** The scheduler defaults, one file at a time. */
  method CollectSchedulerDefaults(results: Dict<string, FileReport>) returns (sd: Dict<string, Value>)
    ensures sd == SchedulerDefaults(results)
  {
    sd := [];
    var k := 0;
    while k < |results|
      invariant 0 <= k <= |results|
      invariant sd == SchedulerDefaults(results[..k])
    {
      assert results[..k + 1][..k] == results[..k];
      var scheduler := GetOr(results[k].1.defaults, "scheduler", VNone);
      if Truthy(scheduler) {
        sd := Put(sd, results[k].0, scheduler);
      }
      k := k + 1;
    }
    assert results[..k] == results;
  }

  /** The files supporting password, one file at a time. */
  method CollectPasswordFiles(results: Dict<string, FileReport>) returns (files: seq<string>)
    ensures files == PasswordFiles(results)
  {
    files := [];
    var k := 0;
    while k < |results|
      invariant 0 <= k <= |results|
      invariant files == PasswordFiles(results[..k])
    {
      assert results[..k + 1][..k] == results[..k];
      if results[k].1.auth.supportsPassword {
        files := files + [results[k].0];
      }
      k := k + 1;
    }
    assert results[..k] == results;
  }

  /** The files whose docstring claims password, one file at a time. */
  method CollectDocPasswordFiles(results: Dict<string, FileReport>) returns (files: seq<string>)
    ensures files == DocPasswordFiles(results)
  {
    files := [];
    var k := 0;
    while k < |results|
      invariant 0 <= k <= |results|
      invariant files == DocPasswordFiles(results[..k])
    {
      assert results[..k + 1][..k] == results[..k];
      var doc := results[k].1.doc;
      if doc.Docstring? && doc.supportsPassword {
        files := files + [results[k].0];
      }
      k := k + 1;
    }
    assert results[..k] == results;
  }

  /** `find_inconsistencies`: the three checks in turn, each adding at most one entry. */
  method FindInconsistencies(results: Dict<string, FileReport>) returns (incs: seq<Inconsistency>)
    ensures incs == Inconsistencies(results)
  {
    incs := [];
    var sd := CollectSchedulerDefaults(results);
    if |set x | x in Values(sd)| > 1 {
      incs := incs + [Inconsistency(SchedulerKind, "Different default scheduler values across files", PerFile(sd))];
    }
    var pw := CollectPasswordFiles(results);
    if pw != [] {
      incs := incs + [Inconsistency(AuthKind, "Some files still support password authentication", Files(pw))];
    }
    var dp := CollectDocPasswordFiles(results);
    if dp != [] {
      incs := incs + [Inconsistency(DocKind, "Docstrings mention password authentication", Files(dp))];
    }
  }

  // ---------------------------------------------------------------
  // main
  // ---------------------------------------------------------------

  /**
   * `main`'s exit code: 0 when nothing is inconsistent and the loader tests
   * pass, else 1; `loaderTests` is None when the run raised.
   */
  function ExitCode(incs: seq<Inconsistency>, loaderTests: Option<bool>): int
  {
    if loaderTests.None? then 1
    else if incs == [] && loaderTests.value then 0
    else 1
  }

  /**
   * The tool succeeds exactly when the loader tests pass, no two files have
   * different truthy scheduler defaults, no file's code supports password
   * authentication and no docstring claims it; otherwise it exits with 1.
   */
  lemma ExitZeroIff(results: Dict<string, FileReport>, loaderTests: Option<bool>)
    requires UniqueKeys(results)
    ensures ExitCode(Inconsistencies(results), loaderTests) in {0, 1}
    ensures ExitCode(Inconsistencies(results), loaderTests) == 0
            <==> loaderTests == Some(true)
                 && (forall i, j :: 0 <= i < |results| && 0 <= j < |results|
                       && Truthy(SchedulerOf(results[i].1)) && Truthy(SchedulerOf(results[j].1))
                       ==> SchedulerOf(results[i].1) == SchedulerOf(results[j].1))
                 && (forall k :: 0 <= k < |results| ==> !results[k].1.auth.supportsPassword)
                 && (forall k :: 0 <= k < |results| ==> !DocClaimsPassword(results[k].1.doc))
  {
    SchedulerReported(results);
    PasswordFilesEmpty(results);
    DocPasswordFilesEmpty(results);
  }
}
