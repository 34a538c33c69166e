// `get_scheduler`: the scheduler class chosen by the queue's "scheduler"
// entry, compared case-insensitively, with Slurm as the default.

module Factory {
  import opened PyStr
  import opened PyDict
  import opened Json
  import opened PyErr

  /** The two scheduler classes the factory can construct. */
  datatype SchedulerClass = SlurmClass | BashClass

  /** `queue.get("scheduler", "slurm").lower()`; a non-string value has no `lower`. */
  function SchedulerType(q: Dict<string, Value>): (r: Result<string>)
    ensures !HasKey(q, "scheduler") ==> r == Ok("slurm")
    ensures r.Ok? <==> GetOr(q, "scheduler", VStr("slurm")).VStr?
    ensures r.Ok? ==> r.value == Lower(GetOr(q, "scheduler", VStr("slurm")).s)
  {
    LowerOfLower("slurm");
    match GetOr(q, "scheduler", VStr("slurm"))
    case VStr(s) => Ok(Lower(s))
    case _ => Err(Exc("AttributeError", "object has no attribute 'lower'"))
  }

  /** `get_scheduler(calc, queue, command)`: the class to construct, or the error raised. */
  function GetScheduler(q: Dict<string, Value>): (r: Result<SchedulerClass>)
  {
    match SchedulerType(q)
    case Err(e) => Err(e)
    case Ok(kind) =>
      if kind == "slurm" then Ok(SlurmClass)
      else if kind == "bash" then Ok(BashClass)
      else Err(Exc("ValueError", "Unsupported scheduler: " + kind))
  }

  /**
   * Every queue gives exactly one of three outcomes: Slurm for the kind
   * "slurm", bash for the kind "bash", and ValueError naming the kind for
   * any other string kind.
   */
  lemma GetSchedulerCases(q: Dict<string, Value>)
    requires SchedulerType(q).Ok?
    ensures var kind := SchedulerType(q).value;
      (GetScheduler(q) == Ok(SlurmClass) <==> kind == "slurm") &&
      (GetScheduler(q) == Ok(BashClass) <==> kind == "bash") &&
      (GetScheduler(q).Err? <==> kind != "slurm" && kind != "bash") &&
      (GetScheduler(q).Err? ==> GetScheduler(q).exc == Exc("ValueError", "Unsupported scheduler: " + kind))
  {
  }

  /** Without a "scheduler" entry the factory picks Slurm. */
  lemma MissingKindIsSlurm(q: Dict<string, Value>)
    requires !HasKey(q, "scheduler")
    ensures GetScheduler(q) == Ok(SlurmClass)
  {
  }

  /** The comparison ignores case: any spelling whose lower case is "slurm" selects Slurm. */
  lemma KindIgnoresCase(q: Dict<string, Value>, s: string)
    requires Get(q, "scheduler") == Some(VStr(s))
    ensures GetScheduler(q) == Ok(SlurmClass) <==> Lower(s) == "slurm"
    ensures GetScheduler(q) == Ok(BashClass) <==> Lower(s) == "bash"
  {
  }

  /** "direct" and "pbs" are not among the factory's kinds. */
  lemma DirectAndPbsUnsupported(q: Dict<string, Value>)
    requires Get(q, "scheduler") == Some(VStr("direct")) || Get(q, "scheduler") == Some(VStr("pbs"))
    ensures GetScheduler(q).Err? && GetScheduler(q).exc.kind == "ValueError"
  {
    var s := Get(q, "scheduler").value.s;
    assert |Lower(s)| == |s|;
    assert Lower(s) != "slurm" && Lower(s) != "bash" by {
      if s == "direct" {
        assert Lower(s)[0] == LowerChar('d');
      } else {
        assert Lower(s)[0] == LowerChar('p');
      }
    }
  }

  /** A non-string kind raises AttributeError before any class is chosen. */
  lemma NonStringKind(q: Dict<string, Value>)
    requires HasKey(q, "scheduler") && !Get(q, "scheduler").value.VStr?
    ensures GetScheduler(q).Err? && GetScheduler(q).exc.kind == "AttributeError"
  {
  }
}
