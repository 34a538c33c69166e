// schedulers/utils.py: the job id read from `sbatch` output by the pattern
// `Submitted batch job (\d+)`, and the Slurm walltime check by the pattern
// `^(\d+-)?\d{1,2}:\d{2}:\d{2}$`. Both patterns are written out as the
// searches they stand for; `\d` is taken as an ASCII digit.

module SlurmUtils {
  import opened PyStr

  const MatchHead := "Submitted batch job "

  /** The pattern matches at `i`: the phrase and a space, then at least one digit. */
  predicate MatchAt(s: string, i: int)
  {
    OccursAt(s, MatchHead, i) && i + |MatchHead| < |s| && IsDigit(s[i + |MatchHead|])
  }

  /** The leftmost match at or after `from`, or -1: where `re.search` finds one. */
  function FirstMatch(s: string, from: nat): (r: int)
    requires from <= |s|
    ensures r == -1 || (from <= r && MatchAt(s, r))
    ensures r == -1 ==> forall j :: from <= j ==> !MatchAt(s, j)
    ensures r != -1 ==> forall j :: from <= j < r ==> !MatchAt(s, j)
    decreases |s| - from
  {
    if from == |s| then -1
    else if MatchAt(s, from) then from
    else FirstMatch(s, from + 1)
  }

  /** Where the run of digits starting at `i` ends (`\d+` is greedy). */
  function DigitRunEnd(s: string, i: nat): (n: nat)
    requires i <= |s|
    ensures i <= n <= |s|
    ensures forall k :: i <= k < n ==> IsDigit(s[k])
    ensures n < |s| ==> !IsDigit(s[n])
    decreases |s| - i
  {
    if i == |s| || !IsDigit(s[i]) then i else DigitRunEnd(s, i + 1)
  }

  /** `{"job_id": …, "success": True}` or `{"success": False, "raw_output": output}`. */
  datatype Parsed = JobId(jobId: string) | NoJobId(rawOutput: string)

  /**
   * `parse_slurm_output(output)`: the digits of the leftmost match, as many
   * as follow; without a match the output is handed back unchanged.
   */
  function ParseSlurmOutput(output: string): (r: Parsed)
    ensures r.NoJobId? <==> forall i :: !MatchAt(output, i)
    ensures r.NoJobId? ==> r.rawOutput == output
    ensures r.JobId? ==> IsDigits(r.jobId) && Contains(output, MatchHead + r.jobId)
  {
    var i := FirstMatch(output, 0);
    if i == -1 then NoJobId(output)
    else
      var d := i + |MatchHead|;
      var e := DigitRunEnd(output, d);
      var id := output[d..e];
      assert output[i..e] == MatchHead + id by {
        assert output[i..e] == output[i..d] + output[d..e];
      }
      assert OccursAt(output, MatchHead + id, i);
      ContainsIff(output, MatchHead + id);
      JobId(id)
  }

  /**
   * The id is the whole digit run right after the leftmost match: no match
   * starts earlier and no digit follows it.
   */
  lemma ParseLeftmostLongest(output: string)
    requires ParseSlurmOutput(output).JobId?
    ensures var id := ParseSlurmOutput(output).jobId;
      var i := FirstMatch(output, 0);
      var d := i + |MatchHead|;
      MatchAt(output, i) && (forall j :: 0 <= j < i ==> !MatchAt(output, j)) &&
      d + |id| <= |output| && output[d..d + |id|] == id &&
      (d + |id| < |output| ==> !IsDigit(output[d + |id|]))
  {
    var i := FirstMatch(output, 0);
    var d := i + |MatchHead|;
    var e := DigitRunEnd(output, d);
    assert ParseSlurmOutput(output).jobId == output[d..e];
  }

  /** The usual reply "Submitted batch job <digits>" yields exactly those digits. */
  lemma ParseUsualReply(id: string, rest: string)
    requires IsDigits(id)
    requires rest == "" || !IsDigit(rest[0])
    ensures ParseSlurmOutput(MatchHead + id + rest) == JobId(id)
  {
    var s := MatchHead + id + rest;
    assert s[..|MatchHead|] == MatchHead;
    assert s[|MatchHead|] == id[0];
    assert MatchAt(s, 0);
    var e := DigitRunEnd(s, |MatchHead|);
    assert forall k :: |MatchHead| <= k < |MatchHead| + |id| ==> s[k] == id[k - |MatchHead|];
    assert e == |MatchHead| + |id| by {
      DigitRunOver(s, |MatchHead|, |MatchHead| + |id|);
    }
    assert s[|MatchHead|..e] == id;
  }

  lemma {:induction false} DigitRunOver(s: string, i: nat, e: nat)
    requires i <= e <= |s|
    requires forall k :: i <= k < e ==> IsDigit(s[k])
    requires e == |s| || !IsDigit(s[e])
    ensures DigitRunEnd(s, i) == e
    decreases e - i
  {
    if i < e {
      DigitRunOver(s, i + 1, e);
    }
  }

  // ---------------------------------------------------------------
  // Walltime
  // ---------------------------------------------------------------

  /** `\d{1,2}:\d{2}:\d{2}` matching all of `t`. */
  predicate Clock(t: string)
  {
    (|t| == 7 || |t| == 8) &&
    var h := |t| - 6;
    IsDigits(t[..h]) && t[h] == ':' && IsDigit(t[h + 1]) && IsDigit(t[h + 2]) &&
    t[h + 3] == ':' && IsDigit(t[h + 4]) && IsDigit(t[h + 5])
  }

  /** The text the anchored pattern must cover: `$` also matches just before one final "\n". */
  function Body(t: string): (u: string)
    ensures u == t || t == u + "\n"
  {
    if |t| > 0 && t[|t| - 1] == '\n' then t[..|t| - 1] else t
  }

  /**
   * `validate_slurm_time(t)`: the clock time alone, or digits, the first
   * "-" and the clock time.
   */
  function ValidateSlurmTime(t: string): bool
  {
    var u := Body(t);
    var d := Find(u, "-");
    Clock(u) || (d > 0 && IsDigits(u[..d]) && Clock(u[d + 1..]))
  }

  /** A string of the pattern's form: an optional day count and "-", then the clock time. */
  predicate TimeForm(u: string)
  {
    Clock(u) || exists d :: 0 < d < |u| && u[d] == '-' && IsDigits(u[..d]) && Clock(u[d + 1..])
  }

  lemma FindDash(u: string, d: nat)
    requires d < |u| && u[d] == '-' && IsDigits(u[..d])
    ensures Find(u, "-") == d
  {
    assert u[d..d + 1] == "-";
    FindFirst(u, "-", d);
    var r := Find(u, "-");
    assert u[r..r + 1][0] == u[r];
    assert forall k :: 0 <= k < d ==> u[..d][k] == u[k];
  }

  /**
   * The check accepts exactly the strings of the pattern's form, with or
   * without one final "\n".
   */
  lemma ValidateIffForm(t: string)
    ensures ValidateSlurmTime(t) <==> TimeForm(Body(t))
  {
    var u := Body(t);
    var d := Find(u, "-");
    if d > 0 && IsDigits(u[..d]) && Clock(u[d + 1..]) {
      assert u[d..d + 1][0] == u[d];
    }
    if !Clock(u) && exists d' :: 0 < d' < |u| && u[d'] == '-' && IsDigits(u[..d']) && Clock(u[d' + 1..]) {
      var d' :| 0 < d' < |u| && u[d'] == '-' && IsDigits(u[..d']) && Clock(u[d' + 1..]);
      FindDash(u, d');
    }
  }

  /** A day-prefixed walltime passes. */
  lemma WalltimeWithDays()
    ensures ValidateSlurmTime("1-12:00:00")
  {
    FindDash("1-12:00:00", 1);
  }

  /** `HH:MM:SS` with one or two hour digits is a clock time. */
  lemma ClockOf(h: string, m: string, sec: string)
    requires IsDigits(h) && |h| <= 2 && IsDigits(m) && |m| == 2 && IsDigits(sec) && |sec| == 2
    ensures Clock(h + ":" + m + ":" + sec)
  {
    var t := h + ":" + m + ":" + sec;
    assert t[..|h|] == h;
    assert t[|h| + 1] == m[0] && t[|h| + 2] == m[1] && t[|h| + 4] == sec[0] && t[|h| + 5] == sec[1];
  }

  /**
   * Every walltime of the documented forms passes: `HH:MM:SS` (one or two
   * hour digits), with a day count and "-" in front, and with a final newline.
   */
  lemma ValidWalltimes(days: string, h: string, m: string, sec: string)
    requires IsDigits(days) && IsDigits(h) && |h| <= 2 && IsDigits(m) && |m| == 2 && IsDigits(sec) && |sec| == 2
    ensures ValidateSlurmTime(h + ":" + m + ":" + sec)
    ensures ValidateSlurmTime(h + ":" + m + ":" + sec + "\n")
    ensures ValidateSlurmTime(days + "-" + (h + ":" + m + ":" + sec))
  {
    var c := h + ":" + m + ":" + sec;
    ClockOf(h, m, sec);
    assert (c + "\n")[..|c|] == c;
    var u := days + "-" + c;
    assert u[..|days|] == days && u[|days| + 1..] == c;
    FindDash(u, |days|);
    ValidateIffForm(u);
  }

  /** Three hour digits, a missing seconds field and an empty day count fail. */
  lemma WalltimeRejected()
    ensures !ValidateSlurmTime("123:00:00") && !ValidateSlurmTime("12:00") && !ValidateSlurmTime("-12:00:00")
  {
    var a, b, c := "123:00:00", "12:00", "-12:00:00";
    assert Body(a) == a && Body(b) == b && Body(c) == c;
    NoDash(a);
    NoDash(b);
    assert c[0..1] == "-";
    FindFirst(c, "-", 0);
  }

  /** A string without "-" has no place to find one. */
  lemma NoDash(u: string)
    requires forall i :: 0 <= i < |u| ==> u[i] != '-'
    ensures Find(u, "-") == -1
  {
    forall i: int ensures !OccursAt(u, "-", i) {
      if 0 <= i < |u| {
        assert u[i..i + 1][0] == u[i];
      }
    }
  }
}
