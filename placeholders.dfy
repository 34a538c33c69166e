// Placeholder substitution in the execution command: the tokens PACKAGE,
// PREFIX and PARALLEL of the command template are replaced by the
// calculator's package name, file prefix and parallel launcher.

module Placeholders {
  import opened PyStr

  const PACKAGE := "PACKAGE"
  const PREFIX := "PREFIX"
  const PARALLEL := "PARALLEL"

  /** The `"pw"` special case: the first PACKAGE becomes `package`, the next two become "pw". */
  function SubstPackagePw(command: string, package: string): string
  {
    if Contains(command, PACKAGE) then
      if Contains(package, "pw") then
        ReplaceCount(ReplaceCount(command, PACKAGE, package, 1), PACKAGE, "pw", 2)
      else ReplaceAll(command, PACKAGE, package)
    else command
  }

  /** Every PACKAGE becomes `package`, with no special case. */
  function SubstPackageAll(command: string, package: string): string
  {
    ReplaceAll(command, PACKAGE, package)
  }

  /** PREFIX, when present, is replaced by the prefix. */
  function SubstPrefix(command: string, prefix: string): string
  {
    if Contains(command, PREFIX) then ReplaceAll(command, PREFIX, prefix) else command
  }

  /** PARALLEL, when present, is replaced by the launcher. */
  function SubstParallel(command: string, parallel: string): string
  {
    if Contains(command, PARALLEL) then ReplaceAll(command, PARALLEL, parallel) else command
  }

  /** PARALLEL is replaced when present; otherwise the launcher is put in front. */
  function SubstParallelOrPrefix(command: string, parallel: string): string
  {
    if Contains(command, PARALLEL) then ReplaceAll(command, PARALLEL, parallel)
    else parallel + " " + command
  }

  /** The resolution shared by the calculator and `scheduler.py`: PACKAGE (pw rule), then PREFIX, then PARALLEL. */
  function Resolve(command: string, package: string, prefix: string, parallel: string): string
  {
    SubstParallel(SubstPrefix(SubstPackagePw(command, package), prefix), parallel)
  }

  /** The `if TOKEN in command: command = command.replace(...)` steps of `set_queue`, in source order. */
  method SubstituteCommand(command: string, package: string, prefix: string, parallel: string)
    returns (c: string)
    ensures c == Resolve(command, package, prefix, parallel)
  {
    c := command;
    if Contains(c, PACKAGE) {
      if Contains(package, "pw") {
        c := ReplaceCount(c, PACKAGE, package, 1);
        c := ReplaceCount(c, PACKAGE, "pw", 2);
      } else {
        c := ReplaceAll(c, PACKAGE, package);
      }
    }
    if Contains(c, PREFIX) {
      c := ReplaceAll(c, PREFIX, prefix);
    }
    if Contains(c, PARALLEL) {
      c := ReplaceAll(c, PARALLEL, parallel);
    }
  }

  // ---------------------------------------------------------------
  // Reference description: the split pieces joined by chosen separators
  // ---------------------------------------------------------------

  /** `parts[0] + seps[0] + parts[1] + ... + parts[n-1]`. */
  function JoinSeps(parts: seq<string>, seps: seq<string>): string
    requires |parts| == |seps| + 1
  {
    if |seps| == 0 then parts[0] else parts[0] + seps[0] + JoinSeps(parts[1..], seps[1..])
  }

  /** The separator that the pw rule puts in place of the k-th PACKAGE (from 0). */
  function PwSeparator(package: string, k: nat): string
  {
    if k == 0 then package else if k <= 2 then "pw" else PACKAGE
  }

  function PwSeps(package: string, from: nat, count: nat): (r: seq<string>)
    ensures |r| == count
    ensures forall k :: 0 <= k < count ==> r[k] == PwSeparator(package, from + k)
    decreases count
  {
    if count == 0 then [] else [PwSeparator(package, from)] + PwSeps(package, from + 1, count - 1)
  }

  function SameSeps(sep: string, count: nat): (r: seq<string>)
    ensures |r| == count
    ensures forall k :: 0 <= k < count ==> r[k] == sep
  {
    if count == 0 then [] else [sep] + SameSeps(sep, count - 1)
  }

  lemma {:induction false} JoinSepsSame(parts: seq<string>, sep: string)
    requires |parts| >= 1
    ensures JoinSeps(parts, SameSeps(sep, |parts| - 1)) == Join(sep, parts)
    decreases |parts|
  {
    if |parts| > 1 {
      JoinSepsSame(parts[1..], sep);
      assert SameSeps(sep, |parts| - 1)[1..] == SameSeps(sep, |parts| - 2);
    }
  }

  // ---------------------------------------------------------------
  // The tokens cannot overlap themselves
  // ---------------------------------------------------------------

  /** A pattern whose first character does not occur again in it. */
  predicate FirstCharUnique(p: string)
  {
    |p| > 0 && forall k :: 1 <= k < |p| ==> p[k] != p[0]
  }

  /**
   * If `x` has no occurrence of `p` and `p`'s first character is unique,
   * the first occurrence of `p` in `x + p + y` is the one just after `x`.
   */
  lemma NoStraddle(x: string, p: string, y: string)
    requires FirstCharUnique(p)
    requires !Contains(x, p)
    ensures Find(x + p + y, p) == |x|
  {
    var t := x + p + y;
    assert OccursAt(t, p, |x|) by {
      assert t[|x|..|x| + |p|] == p;
    }
    FindFirst(t, p, |x|);
    forall j | 0 <= j < |x|
      ensures !OccursAt(t, p, j)
    {
      if j + |p| <= |x| {
        assert x[j..j + |p|] == t[j..j + |p|];
        ContainsIff(x, p);
        assert !OccursAt(x, p, j);
      } else {
        Overlapping(t, p, j, |x|);
      }
    }
  }

  /** Two occurrences of a pattern with a unique first character do not overlap. */
  lemma Overlapping(t: string, p: string, a: int, b: int)
    requires FirstCharUnique(p)
    requires OccursAt(t, p, b) && a < b < a + |p|
    ensures !OccursAt(t, p, a)
  {
    assert t[b..b + |p|][0] == t[b];
  }

  lemma TokensFirstCharUnique()
    ensures FirstCharUnique(PACKAGE) && FirstCharUnique(PREFIX) && FirstCharUnique(PARALLEL)
  {
  }

  // ---------------------------------------------------------------
  // Properties of the PACKAGE rules
  // ---------------------------------------------------------------

  /** Without "pw" in the package name, every PACKAGE becomes the package name. */
  lemma PackageWithoutPw(command: string, package: string)
    requires !Contains(package, "pw")
    ensures SubstPackagePw(command, package) == Join(package, Split(command, PACKAGE))
  {
    ReplaceAllIsJoinSplit(command, PACKAGE, package);
    if !Contains(command, PACKAGE) {
      assert Split(command, PACKAGE) == [command];
    }
  }

  /** The unconditional rule replaces every PACKAGE by the package name. */
  lemma PackageAlways(command: string, package: string)
    ensures SubstPackageAll(command, package) == Join(package, Split(command, PACKAGE))
  {
    ReplaceAllIsJoinSplit(command, PACKAGE, package);
  }

  /**
   * With "pw" in the package name, the k-th PACKAGE (from 0) becomes
   * `PwSeparator(package, k)`: the package, then "pw" twice, then PACKAGE
   * unchanged. This holds as long as putting the package name in place of
   * the first PACKAGE does not spell a new PACKAGE together with the text
   * around it.
   */
  lemma {:induction false} PackageWithPw(command: string, package: string)
    requires Contains(package, "pw")
    requires var parts := Split(command, PACKAGE);
      |parts| >= 2 ==> !Contains(parts[0] + package + parts[1], PACKAGE)
    ensures var parts := Split(command, PACKAGE);
      SubstPackagePw(command, package) == JoinSeps(parts, PwSeps(package, 0, |parts| - 1))
  {
    var parts := Split(command, PACKAGE);
    var P := PACKAGE;
    var i0 := Find(command, P);
    if i0 == -1 {
      assert parts == [command];
    } else {
      var p0 := command[..i0];
      var r1 := command[i0 + |P|..];
      assert parts == [p0] + Split(r1, P);
      FirstReplaced(command, package);
      var i1 := Find(r1, P);
      if i1 == -1 {
        assert Split(r1, P) == [r1];
        var x := p0 + package + r1;
        assert ReplaceCount(x, P, "pw", 2) == x;
        assert PwSeps(package, 0, 1) == [package];
      } else {
        var p1 := r1[..i1];
        var r2 := r1[i1 + |P|..];
        SplitHead(r1);
        assert parts == [p0, p1] + Split(r2, P);
        var x := p0 + package + p1;
        SeqAssoc(p0 + package, p1, P, r2);
        var rest := Split(r2, P);
        assert |parts| - 1 == |rest| + 1;
        assert SubstPackagePw(command, package) == ReplaceCount(x + P + r2, P, "pw", 2);
        SecondReplaced(x, r2);
        PwTail(r2, package);
        assert SubstPackagePw(command, package) == x + "pw" + JoinSeps(rest, PwSeps(package, 2, |rest| - 1));
        JoinSepsPw(p0, p1, rest, package);
      }
    }
  }

  /** Replacing the first PACKAGE once. */
  lemma FirstReplaced(command: string, package: string)
    requires Find(command, PACKAGE) != -1
    ensures var i := Find(command, PACKAGE);
      ReplaceCount(command, PACKAGE, package, 1) == command[..i] + package + command[i + |PACKAGE|..]
  {
    var i := Find(command, PACKAGE);
    assert ReplaceCount(command[i + |PACKAGE|..], PACKAGE, package, 0) == command[i + |PACKAGE|..];
  }

  /** A text around its first PACKAGE. */
  lemma SplitHead(r: string)
    requires Find(r, PACKAGE) != -1
    ensures var i := Find(r, PACKAGE);
      r == r[..i] + PACKAGE + r[i + |PACKAGE|..] &&
      Split(r, PACKAGE) == [r[..i]] + Split(r[i + |PACKAGE|..], PACKAGE)
  {
    var i := Find(r, PACKAGE);
    assert r[i..i + |PACKAGE|] == PACKAGE;
    assert r == r[..i] + r[i..i + |PACKAGE|] + r[i + |PACKAGE|..];
  }

  /** The second replacement pass starts at the PACKAGE that follows `x`. */
  lemma SecondReplaced(x: string, r2: string)
    requires !Contains(x, PACKAGE)
    ensures ReplaceCount(x + PACKAGE + r2, PACKAGE, "pw", 2) == x + "pw" + ReplaceCount(r2, PACKAGE, "pw", 1)
  {
    TokensFirstCharUnique();
    NoStraddle(x, PACKAGE, r2);
    assert (x + PACKAGE + r2)[..|x|] == x;
    assert (x + PACKAGE + r2)[|x| + |PACKAGE|..] == r2;
  }

  lemma JoinSepsPw(p0: string, p1: string, rest: seq<string>, package: string)
    requires |rest| >= 1
    ensures JoinSeps([p0, p1] + rest, PwSeps(package, 0, |rest| + 1)) ==
      p0 + package + p1 + "pw" + JoinSeps(rest, PwSeps(package, 2, |rest| - 1))
  {
    var parts := [p0, p1] + rest;
    var seps := PwSeps(package, 0, |rest| + 1);
    PwSepsSplit(package, 0, |rest| + 1);
    assert seps[1..] == ["pw"] + PwSeps(package, 2, |rest| - 1);
    assert parts[1..] == [p1] + rest;
    assert ([p1] + rest)[1..] == rest;
    assert (["pw"] + PwSeps(package, 2, |rest| - 1))[1..] == PwSeps(package, 2, |rest| - 1);
    assert JoinSeps(parts[1..], seps[1..]) == p1 + "pw" + JoinSeps(rest, PwSeps(package, 2, |rest| - 1));
  }

  lemma PwSepsSplit(package: string, from: nat, count: nat)
    requires count >= 2
    ensures PwSeps(package, from, count) ==
      [PwSeparator(package, from), PwSeparator(package, from + 1)] + PwSeps(package, from + 2, count - 2)
  {
    assert PwSeps(package, from, count)[1..] == PwSeps(package, from + 1, count - 1);
  }

  /** After the package and the first "pw", one more PACKAGE becomes "pw" and the rest stay. */
  lemma PwTail(r2: string, package: string)
    ensures ReplaceCount(r2, PACKAGE, "pw", 1) ==
      JoinSeps(Split(r2, PACKAGE), PwSeps(package, 2, |Split(r2, PACKAGE)| - 1))
  {
    var P := PACKAGE;
    var parts := Split(r2, P);
    var i := Find(r2, P);
    if i == -1 {
      assert parts == [r2];
    } else {
      var rest := r2[i + |P|..];
      assert parts == [r2[..i]] + Split(rest, P);
      assert ReplaceCount(r2, P, "pw", 1) == r2[..i] + "pw" + ReplaceCount(rest, P, "pw", 0);
      assert ReplaceCount(rest, P, "pw", 0) == rest;
      var seps := PwSeps(package, 2, |parts| - 1);
      assert seps[0] == "pw";
      assert seps[1..] == PwSeps(package, 3, |parts| - 2);
      AllPackageSeps(Split(rest, P), package);
      JoinSplit(rest, P);
      assert JoinSeps(parts, seps) == r2[..i] + "pw" + JoinSeps(parts[1..], seps[1..]);
      assert parts[1..] == Split(rest, P);
    }
  }

  /** From the fourth PACKAGE on, every separator is PACKAGE itself. */
  lemma {:induction false} AllPackageSeps(parts: seq<string>, package: string)
    requires |parts| >= 1
    ensures JoinSeps(parts, PwSeps(package, 3, |parts| - 1)) == Join(PACKAGE, parts)
    decreases |parts|
  {
    if |parts| > 1 {
      var seps := PwSeps(package, 3, |parts| - 1);
      assert seps[1..] == PwSeps(package, 4, |parts| - 2);
      AllPackageSepsFrom(parts[1..], package, 4);
      JoinCons(PACKAGE, parts[0], parts[1..]);
      assert [parts[0]] + parts[1..] == parts;
    }
  }

  lemma {:induction false} AllPackageSepsFrom(parts: seq<string>, package: string, from: nat)
    requires |parts| >= 1 && from >= 3
    ensures JoinSeps(parts, PwSeps(package, from, |parts| - 1)) == Join(PACKAGE, parts)
    decreases |parts|
  {
    if |parts| > 1 {
      var seps := PwSeps(package, from, |parts| - 1);
      assert seps[1..] == PwSeps(package, from + 1, |parts| - 2);
      AllPackageSepsFrom(parts[1..], package, from + 1);
      JoinCons(PACKAGE, parts[0], parts[1..]);
      assert [parts[0]] + parts[1..] == parts;
    }
  }

  // ---------------------------------------------------------------
  // PREFIX, PARALLEL and their order
  // ---------------------------------------------------------------

  /** Every PREFIX becomes the prefix and every PARALLEL the launcher. */
  lemma PrefixAndParallel(command: string, prefix: string, parallel: string)
    ensures SubstPrefix(command, prefix) == Join(prefix, Split(command, PREFIX))
    ensures SubstParallel(command, parallel) == Join(parallel, Split(command, PARALLEL))
  {
    ReplaceAllIsJoinSplit(command, PREFIX, prefix);
    ReplaceAllIsJoinSplit(command, PARALLEL, parallel);
  }

  /** Without a PARALLEL token the launcher is put in front of the command. */
  lemma ParallelFallback(command: string, parallel: string)
    ensures SubstParallelOrPrefix(command, parallel) ==
      if Contains(command, PARALLEL) then Join(parallel, Split(command, PARALLEL))
      else parallel + " " + command
  {
    ReplaceAllIsJoinSplit(command, PARALLEL, parallel);
  }

  /** A command without any token is left exactly as it is. */
  lemma NoTokensUnchanged(command: string, package: string, prefix: string, parallel: string)
    requires !Contains(command, PACKAGE) && !Contains(command, PREFIX) && !Contains(command, PARALLEL)
    ensures Resolve(command, package, prefix, parallel) == command
  {
  }

  /** PREFIX is substituted before PARALLEL: a prefix that spells PARALLEL is itself substituted. */
  lemma PrefixBeforeParallel()
    ensures Resolve("PREFIX", "pw", "PARALLEL", "mpirun") == "mpirun"
  {
    var s := "PREFIX";
    assert OccursAt(s, PREFIX, 0);
    FindFirst(s, PREFIX, 0);
    assert ReplaceAll(s, PREFIX, "PARALLEL") == "PARALLEL" by {
      assert s[6..] == "";
      assert ReplaceAll("", PREFIX, "PARALLEL") == "";
    }
    assert !Contains(s, PACKAGE);
    var t := "PARALLEL";
    assert OccursAt(t, PARALLEL, 0);
    FindFirst(t, PARALLEL, 0);
    assert t[8..] == "";
    assert ReplaceAll("", PARALLEL, "mpirun") == "";
  }
}
