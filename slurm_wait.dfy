// tests/test_scheduler.py: `_wait_for_slurm_completion`, the completion
// poller the tests attach to the Slurm scheduler. It asks `squeue` until
// the job leaves the queue, then asks `sacct` once for the final state.
// Clock readings and command answers are parameters, numbered in the order
// the poller asks for them.

module SlurmWait {
  import opened PyStr
  import opened PyErr
  import opened PyDict
  import opened Json
  import opened SshSteps

  /** The timeout used when the queue has no "job_timeout" entry. */
  const DefaultTimeout := 3600

  /** The seconds slept between two queue queries. */
  const Pause := 10

  /** `queue.get("job_timeout", 3600)`. */
  function TimeoutOf(queue: Dict<string, Value>): (r: Value)
    ensures !HasKey(queue, "job_timeout") ==> r == VInt(DefaultTimeout)
    ensures HasKey(queue, "job_timeout") ==> Some(r) == Get(queue, "job_timeout")
  {
    GetOr(queue, "job_timeout", VInt(DefaultTimeout))
  }

  /** A timeout the float `elapsed` can be compared with: its number of seconds and its `str()`. */
  datatype Limit = Limit(seconds: real, text: string)

  /**
   * The timeout as `elapsed > timeout` sees it: integers, booleans and
   * floats are numbers; comparing the float with any other value raises
   * TypeError. The outcome of the comparison's type check does not depend
   * on the clock, so it is decided once for the whole poll.
   */
  function Deadline(timeout: Value): (r: Result<Limit>)
    ensures r.Err? <==> !(timeout.VInt? || timeout.VBool? || timeout.VNum?)
    ensures r.Ok? ==> r.value.text == Show(timeout)
    ensures timeout.VInt? ==> r.Ok? && r.value.seconds == timeout.i as real
    ensures timeout.VNum? ==> r.Ok? && r.value.seconds == FloatValue(timeout.text)
    ensures r.Err? ==> r.exc.kind == "TypeError"
  {
    match timeout
    case VInt(i) => Ok(Limit(i as real, IntToString(i)))
    case VBool(b) => Ok(if b then Limit(1.0, "True") else Limit(0.0, "False"))
    case VNum(t) => Ok(Limit(FloatValue(t), t))
    case _ => Err(Exc("TypeError", "'>' not supported between instances of 'float' and '" + TypeName(timeout) + "'"))
  }

  /**
   * A whole-number float timeout such as 3600.0 waits exactly as long as
   * the integer 3600; only the text in the timeout message differs.
   */
  lemma WholeFloatTimeout(d: string)
    requires IsDigits(d)
    ensures Deadline(VNum(d + ".0")).Ok? && Deadline(VInt(DigitsValue(d))).Ok?
    ensures Deadline(VNum(d + ".0")).value.seconds == Deadline(VInt(DigitsValue(d))).value.seconds
    ensures Deadline(VNum(d + ".0")).value.text == d + ".0"
  {
    FloatOfWhole(d + ".0", d);
  }

  function QueueQuery(jobId: string): string
  {
    "squeue -j " + jobId + " -h -o '%T'"
  }

  function AccountQuery(jobId: string): string
  {
    "sacct -j " + jobId + " -n -o State --parsable2"
  }

  function TimedOut(jobId: string, limit: Limit): Exc
  {
    Exc("RuntimeError", "Job " + jobId + " timed out after " + limit.text + " seconds")
  }

  function FailedState(jobId: string, state: string): Exc
  {
    Exc("RuntimeError", "Job " + jobId + " failed with state: " + state)
  }

  /** How the poller ends: it returns, it raises, or it is still polling when the fuel runs out. */
  datatype Ending = Finished | Failed(exc: Exc) | Polling

  /** The first line of the stripped `sacct` output. */
  function FinalState(out: string): string
  {
    Split(Strip(out), "\n")[0]
  }

  /** The verdict on the `sacct` output once the job has left the queue. */
  function Verdict(jobId: string, out: string): Ending
  {
    if Strip(out) == "" then Finished
    else if FinalState(out) in ["COMPLETED", "COMPLETING"] then Finished
    else Failed(FailedState(jobId, FinalState(out)))
  }

  /**
   * A blank `sacct` answer returns without any classification; otherwise
   * the call returns exactly when the first line is COMPLETED or
   * COMPLETING, and raises "failed with state: <state>" for any other.
   */
  lemma VerdictCases(jobId: string, out: string)
    ensures Verdict(jobId, out).Polling? == false
    ensures Strip(out) == "" ==> Verdict(jobId, out) == Finished
    ensures Strip(out) != "" ==>
      (Verdict(jobId, out) == Finished <==> FinalState(out) == "COMPLETED" || FinalState(out) == "COMPLETING")
    ensures Verdict(jobId, out).Failed? ==>
      Verdict(jobId, out).exc == FailedState(jobId, FinalState(out)) &&
      FinalState(out) != "COMPLETED" && FinalState(out) != "COMPLETING"
  {
  }

  /**
   * The first line of the `sacct` answer decides: a state word followed by
   * a newline and anything else is classified by that word alone.
   */
  lemma {:induction false} FirstLineDecides(jobId: string, first: string, rest: string)
    requires first != "" && forall k :: 0 <= k < |first| ==> !IsSpace(first[k])
    ensures FinalState(first + "\n" + rest) == first
    ensures Verdict(jobId, first + "\n" + rest) ==
      if first == "COMPLETED" || first == "COMPLETING" then Finished else Failed(FailedState(jobId, first))
  {
    var s := first + ("\n" + rest);
    assert s == first + "\n" + rest;
    StripKeepsHead(first, "\n" + rest);
    var t := Strip(s);
    assert t[..|first|] == first;
    assert StripStart(s) == 0 by {
      assert !IsSpace(s[0]);
    }
    var i := Find(t, "\n");
    if i != -1 {
      assert t[i] == '\n';
      assert i >= |first|;
    }
    if |t| == |first| {
      assert t == first;
      assert i == -1;
    } else {
      assert t[|first|] == s[|first|] == '\n';
      assert OccursAt(t, "\n", |first|);
      FindFirst(t, "\n", |first|);
      assert Split(t, "\n")[0] == t[..|first|];
    }
  }

  /** The poller's counters: clock readings taken and commands run. */
  datatype Poller = Poller(readings: nat, commands: nat)

  /** `self.remote.run_command`, answered by the command's number. */
  function Run(p: Poller, cmd: string, answer: (nat, string) -> Result<(string, string)>)
    : (r: (Poller, Result<(string, string)>))
    ensures r.0 == Poller(p.readings, p.commands + 1)
    ensures r.1 == answer(p.commands, cmd)
  {
    (p.(commands := p.commands + 1), answer(p.commands, cmd))
  }

  /** A poll, or a part of one: the counters after it, the commands and sleeps it made in order, and how it ended. */
  datatype Polled = Polled(after: Poller, events: seq<Event>, ending: Ending)

  /** What one iteration of the loop leads to: the call ends, or it goes round again. */
  datatype Step = Stop(result: Polled) | Again(next: Poller)

  /**
   * The last command was the account query, answered without raising, and
   * the verdict on that answer is to return.
   */
  predicate ReturnedAfter(after: Poller, jobId: string, answer: (nat, string) -> Result<(string, string)>)
  {
    after.commands > 0 && answer(after.commands - 1, AccountQuery(jobId)).Ok? &&
    Verdict(jobId, answer(after.commands - 1, AccountQuery(jobId)).value.0) == Finished
  }

  /** The last clock reading was more than the timeout after the start. */
  predicate LateAt(after: Poller, limit: Limit, start: real, clock: nat -> real)
  {
    after.readings > 0 && clock(after.readings - 1) - start > limit.seconds
  }

  /**
   * One iteration: the clock is read and compared with the timeout, the
   * queue is asked, and either the poller sleeps to go round again or
   * `sacct` is asked once and decides.
   */
  function Round(jobId: string, limit: Limit, start: real, p: Poller, clock: nat -> real,
                 answer: (nat, string) -> Result<(string, string)>): (r: Step)
    ensures r.Again? ==> r.next == Poller(p.readings + 1, p.commands + 1)
    ensures r.Stop? ==> r.result.ending != Polling
    ensures r.Stop? ==>
      r.result.events == [] || r.result.events == [Exec(QueueQuery(jobId))] ||
      r.result.events == [Exec(QueueQuery(jobId)), Exec(AccountQuery(jobId))]
    ensures r.Stop? && r.result.ending == Finished ==>
      r.result.events == [Exec(QueueQuery(jobId)), Exec(AccountQuery(jobId))] &&
      ReturnedAfter(r.result.after, jobId, answer)
    ensures clock(p.readings) - start > limit.seconds <==>
      r == Stop(Polled(Poller(p.readings + 1, p.commands), [], Failed(TimedOut(jobId, limit))))
    ensures r.Stop? && r.result.events == [] ==> LateAt(r.result.after, limit, start, clock)
  {
    var p1 := p.(readings := p.readings + 1);
    if clock(p.readings) - start > limit.seconds then Stop(Polled(p1, [], Failed(TimedOut(jobId, limit))))
    else
      var (p2, q) := Run(p1, QueueQuery(jobId), answer);
      if q.Err? then Stop(Polled(p2, [Exec(QueueQuery(jobId))], Failed(q.exc)))
      else if Strip(q.value.0) != "" then Again(p2)
      else
        var (p3, a) := Run(p2, AccountQuery(jobId), answer);
        var es := [Exec(QueueQuery(jobId)), Exec(AccountQuery(jobId))];
        if a.Err? then Stop(Polled(p3, es, Failed(a.exc))) else Stop(Polled(p3, es, Verdict(jobId, a.value.0)))
  }

  /** The requests of one iteration that goes round again. */
  function Wait(jobId: string): seq<Event>
  {
    [Exec(QueueQuery(jobId)), Sleep(Pause)]
  }

  /**
   * The requests of a poll: rounds of a queue query followed by a sleep,
   * then possibly a last queue query, followed possibly by the one
   * account query. No other command, in particular no cancel, is issued.
   */
  predicate PollTrace(t: seq<Event>, jobId: string)
    decreases |t|
  {
    t == [] || t == [Exec(QueueQuery(jobId))] ||
    t == [Exec(QueueQuery(jobId)), Exec(AccountQuery(jobId))] ||
    (|t| >= 2 && t[..2] == Wait(jobId) && PollTrace(t[2..], jobId))
  }

  /** Every request of a poll is a queue query, an account query or a sleep. */
  lemma {:induction false} PollTraceEvents(t: seq<Event>, jobId: string)
    requires PollTrace(t, jobId)
    ensures forall e :: e in t ==> e == Exec(QueueQuery(jobId)) || e == Exec(AccountQuery(jobId)) || e == Sleep(Pause)
    decreases |t|
  {
    if |t| > 2 {
      PollTraceEvents(t[2..], jobId);
      assert t == t[..2] + t[2..];
    }
  }

  /** The requests `es` made before a (part of a) poll, put in front of its own. */
  function After(es: seq<Event>, x: Polled): Polled
  {
    x.(events := es + x.events)
  }

  /** The `while True` loop from the top of an iteration, for at most `fuel` iterations. */
  function WaitLoop(jobId: string, limit: Limit, start: real, p: Poller, clock: nat -> real,
                    answer: (nat, string) -> Result<(string, string)>, fuel: nat): Polled
    decreases fuel
  {
    if fuel == 0 then Polled(p, [], Polling)
    else
      match Round(jobId, limit, start, p, clock, answer)
      case Stop(x) => x
      case Again(q) => After(Wait(jobId), WaitLoop(jobId, limit, start, q, clock, answer, fuel - 1))
  }

  /** An iteration that ends the call ends the loop with its own result. */
  lemma WaitStop(jobId: string, limit: Limit, start: real, p: Poller, clock: nat -> real,
                 answer: (nat, string) -> Result<(string, string)>, fuel: nat, step: Step)
    requires fuel > 0 && step == Round(jobId, limit, start, p, clock, answer) && step.Stop?
    ensures WaitLoop(jobId, limit, start, p, clock, answer, fuel) == step.result
  {
  }

  /** An iteration that goes round again puts its queue query and sleep in front of the rest of the loop. */
  lemma WaitAgain(jobId: string, limit: Limit, start: real, p: Poller, clock: nat -> real,
                  answer: (nat, string) -> Result<(string, string)>, fuel: nat, step: Step)
    requires fuel > 0 && step == Round(jobId, limit, start, p, clock, answer) && step.Again?
    ensures WaitLoop(jobId, limit, start, p, clock, answer, fuel) ==
      After(Wait(jobId), WaitLoop(jobId, limit, start, step.next, clock, answer, fuel - 1))
  {
  }

  /**
   * How a poll ends: its requests have the shape of a poll; it returns
   * only after the account query, with the verdict on that answer; and
   * when it raises right after a sleep, or before any command, it raises
   * the timeout, and the clock reading it last took is more than the
   * timeout after the start.
   */
  lemma {:induction false} WaitOutcomes(jobId: string, limit: Limit, start: real, p: Poller, clock: nat -> real,
                                        answer: (nat, string) -> Result<(string, string)>, fuel: nat)
    ensures PollTrace(WaitLoop(jobId, limit, start, p, clock, answer, fuel).events, jobId)
    ensures var r := WaitLoop(jobId, limit, start, p, clock, answer, fuel);
      r.ending == Finished ==>
        |r.events| >= 2 && r.events[|r.events| - 1] == Exec(AccountQuery(jobId)) && ReturnedAfter(r.after, jobId, answer)
    ensures var r := WaitLoop(jobId, limit, start, p, clock, answer, fuel);
      r.ending.Failed? && (r.events == [] || r.events[|r.events| - 1] == Sleep(Pause)) ==>
        r.ending == Failed(TimedOut(jobId, limit)) && LateAt(r.after, limit, start, clock)
    decreases fuel
  {
    if fuel > 0 {
      var step := Round(jobId, limit, start, p, clock, answer);
      if step.Stop? {
        WaitStop(jobId, limit, start, p, clock, answer, fuel, step);
      } else {
        WaitAgain(jobId, limit, start, p, clock, answer, fuel, step);
        var rest := WaitLoop(jobId, limit, start, step.next, clock, answer, fuel - 1);
        WaitOutcomes(jobId, limit, start, step.next, clock, answer, fuel - 1);
        var t := Wait(jobId) + rest.events;
        assert t[..2] == Wait(jobId);
        assert t[2..] == rest.events;
        if rest.events != [] {
          assert t[|t| - 1] == rest.events[|rest.events| - 1];
        }
      }
    }
  }

  /**
   * The whole call: the start time is the first clock reading, and a
   * timeout that cannot be compared raises at the first comparison.
   */
  function WaitSpec(queue: Dict<string, Value>, jobId: string, clock: nat -> real,
                    answer: (nat, string) -> Result<(string, string)>, fuel: nat): Polled
  {
    match Deadline(TimeoutOf(queue))
    case Err(e) => if fuel == 0 then Polled(Poller(1, 0), [], Polling) else Polled(Poller(2, 0), [], Failed(e))
    case Ok(limit) => WaitLoop(jobId, limit, clock(0), Poller(1, 0), clock, answer, fuel)
  }

  /** Going round again moves the iteration's requests from the rest of the loop to those already made. */
  lemma Continue(jobId: string, limit: Limit, start: real, p: Poller, next: Poller, clock: nat -> real,
                 answer: (nat, string) -> Result<(string, string)>, fuel: nat, events: seq<Event>, whole: Polled)
    requires fuel > 0
    requires WaitLoop(jobId, limit, start, p, clock, answer, fuel) ==
      After(Wait(jobId), WaitLoop(jobId, limit, start, next, clock, answer, fuel - 1))
    requires whole == After(events, WaitLoop(jobId, limit, start, p, clock, answer, fuel))
    ensures whole == After(events + Wait(jobId), WaitLoop(jobId, limit, start, next, clock, answer, fuel - 1))
  {
    var rest := WaitLoop(jobId, limit, start, next, clock, answer, fuel - 1);
    assert events + (Wait(jobId) + rest.events) == (events + Wait(jobId)) + rest.events;
  }

  /**
   * One iteration of the loop: when it stops, what the whole call returns;
   * when it goes round again, the requests it adds and where it goes on.
   */
  method PollOnce(jobId: string, limit: Limit, start: real, p: Poller, clock: nat -> real,
                  answer: (nat, string) -> Result<(string, string)>, ghost left: nat,
                  events: seq<Event>, ghost whole: Polled) returns (step: Step)
    requires left > 0
    requires whole == After(events, WaitLoop(jobId, limit, start, p, clock, answer, left))
    ensures step.Stop? ==> whole == After(events, step.result)
    ensures step.Again? ==> whole == After(events + Wait(jobId), WaitLoop(jobId, limit, start, step.next, clock, answer, left - 1))
  {
    step := Iterate(jobId, limit, start, p, clock, answer);
    if step.Stop? {
      WaitStop(jobId, limit, start, p, clock, answer, left, step);
    } else {
      WaitAgain(jobId, limit, start, p, clock, answer, left, step);
      Continue(jobId, limit, start, p, step.next, clock, answer, left, events, whole);
    }
  }

  /** The statements of one iteration. */
  method Iterate(jobId: string, limit: Limit, start: real, p: Poller, clock: nat -> real,
                 answer: (nat, string) -> Result<(string, string)>) returns (step: Step)
    ensures step == Round(jobId, limit, start, p, clock, answer)
  {
    var now := clock(p.readings);
    var counted := p.(readings := p.readings + 1);
    if now - start > limit.seconds {
      return Stop(Polled(counted, [], Failed(TimedOut(jobId, limit))));
    }
    var status := Run(counted, QueueQuery(jobId), answer);
    if status.1.Err? {
      return Stop(Polled(status.0, [Exec(QueueQuery(jobId))], Failed(status.1.exc)));
    }
    if Strip(status.1.value.0) != "" {
      return Again(status.0);
    }
    var account := Run(status.0, AccountQuery(jobId), answer);
    var asked := [Exec(QueueQuery(jobId)), Exec(AccountQuery(jobId))];
    if account.1.Err? {
      return Stop(Polled(account.0, asked, Failed(account.1.exc)));
    }
    var out := account.1.value.0;
    if Strip(out) != "" {
      var state := Split(Strip(out), "\n")[0];
      if state !in ["COMPLETED", "COMPLETING"] {
        return Stop(Polled(account.0, asked, Failed(FailedState(jobId, state))));
      }
    }
    return Stop(Polled(account.0, asked, Finished));
  }

  /**
   * `_wait_for_slurm_completion`: the timeout is looked up and the clock
   * read once before the loop.
   */
  method WaitForCompletion(queue: Dict<string, Value>, jobId: string, clock: nat -> real,
                           answer: (nat, string) -> Result<(string, string)>, fuel: nat)
    returns (r: Polled)
    ensures r == WaitSpec(queue, jobId, clock, answer, fuel)
  {
    var timeout := TimeoutOf(queue);
    var start := clock(0);
    var deadline := Deadline(timeout);
    if deadline.Err? {
      // The first comparison raises, right after the first iteration's clock reading.
      if fuel == 0 {
        return Polled(Poller(1, 0), [], Polling);
      }
      return Polled(Poller(2, 0), [], Failed(deadline.exc));
    }
    r := Poll(jobId, deadline.value, start, clock, answer, fuel);
  }

  /** The loop, as it runs: it reads the clock, runs the commands and sleeps, for at most `fuel` iterations. */
  method Poll(jobId: string, limit: Limit, start: real, clock: nat -> real,
              answer: (nat, string) -> Result<(string, string)>, fuel: nat)
    returns (r: Polled)
    ensures r == WaitLoop(jobId, limit, start, Poller(1, 0), clock, answer, fuel)
  {
    var p := Poller(1, 0);
    var events: seq<Event> := [];
    var left := fuel;
    ghost var whole := WaitLoop(jobId, limit, start, p, clock, answer, left);
    assert After([], whole) == whole;
    while left > 0
      invariant whole == After(events, WaitLoop(jobId, limit, start, p, clock, answer, left))
      decreases left
    {
      var step := PollOnce(jobId, limit, start, p, clock, answer, left, events, whole);
      if step.Stop? {
        return After(events, step.result);
      }
      events := events + Wait(jobId);
      p := step.next;
      left := left - 1;
    }
    r := Polled(p, events, Polling);
    assert events + [] == events;
  }

  /**
   * The whole call: the requests are rounds of a queue query and a sleep
   * followed by at most a queue query and one account query, so no job is
   * ever cancelled; it returns only on the account query's verdict; and a
   * raise right after a sleep or before any command is the timeout or the
   * type error of a timeout that cannot be compared.
   */
  lemma WaitRequests(queue: Dict<string, Value>, jobId: string, clock: nat -> real,
                     answer: (nat, string) -> Result<(string, string)>, fuel: nat)
    ensures var r := WaitSpec(queue, jobId, clock, answer, fuel);
      forall e :: e in r.events ==> e == Exec(QueueQuery(jobId)) || e == Exec(AccountQuery(jobId)) || e == Sleep(Pause)
    ensures var r := WaitSpec(queue, jobId, clock, answer, fuel);
      r.ending == Finished ==> r.events != [] && r.events[|r.events| - 1] == Exec(AccountQuery(jobId)) && ReturnedAfter(r.after, jobId, answer)
    ensures var r := WaitSpec(queue, jobId, clock, answer, fuel);
      Deadline(TimeoutOf(queue)).Err? ==> r.events == [] && (fuel > 0 ==> r.ending == Failed(Deadline(TimeoutOf(queue)).exc))
    ensures var r := WaitSpec(queue, jobId, clock, answer, fuel);
      Deadline(TimeoutOf(queue)).Ok? && r.ending.Failed? && (r.events == [] || r.events[|r.events| - 1] == Sleep(Pause)) ==>
        r.ending == Failed(TimedOut(jobId, Deadline(TimeoutOf(queue)).value)) &&
        LateAt(r.after, Deadline(TimeoutOf(queue)).value, clock(0), clock)
  {
    var d := Deadline(TimeoutOf(queue));
    if d.Ok? {
      WaitOutcomes(jobId, d.value, clock(0), Poller(1, 0), clock, answer, fuel);
      PollTraceEvents(WaitSpec(queue, jobId, clock, answer, fuel).events, jobId);
    }
  }

  /**
   * A one-second timeout with clock readings 0, 0.5 and 1.5 and a job that
   * stays in the queue: the second check raises "Job 12345 timed out after
   * 1 seconds", after one queue query and one sleep.
   */
  lemma TimeoutExample(fuel: nat)
    requires fuel >= 2
    ensures var clock := (n: nat) => if n == 0 then 0.0 else if n == 1 then 0.5 else 1.5;
      var answer := (k: nat, cmd: string) => Ok(("squeue output with job", ""));
      WaitSpec([("job_timeout", VInt(1))], "12345", clock, answer, fuel) ==
        Polled(Poller(3, 1), Wait("12345"), Failed(Exc("RuntimeError", "Job " + "12345" + " timed out after " + "1" + " seconds")))
  {
    var clock := (n: nat) => if n == 0 then 0.0 else if n == 1 then 0.5 else 1.5;
    var answer := (k: nat, cmd: string) => Ok(("squeue output with job", ""));
    assert Strip("squeue output with job") != "" by {
      assert !IsSpace("squeue output with job"[0]);
    }
    assert Deadline(VInt(1)) == Ok(Limit(1.0, "1")) by {
      assert IntToString(1) == "1";
    }
    OneSleepThenTimeout([("job_timeout", VInt(1))], Limit(1.0, "1"), "12345", clock, answer, fuel);
  }

  /** The float literal 1.5 as a timeout. */
  lemma OneAndAHalf(t: string)
    requires t == "1.5"
    ensures Deadline(VNum(t)) == Ok(Limit(1.5, t))
  {
    FloatOfTenths(t, '1', '5');
  }

  /**
   * A job still in the queue at the first query, a first check within the
   * timeout and a second one past it: one queue query and one sleep, then
   * the timeout error, whatever number the timeout is.
   */
  lemma OneSleepThenTimeout(queue: Dict<string, Value>, limit: Limit, jobId: string, clock: nat -> real,
                            answer: (nat, string) -> Result<(string, string)>, fuel: nat)
    requires fuel >= 2
    requires Deadline(TimeoutOf(queue)) == Ok(limit)
    requires clock(1) - clock(0) <= limit.seconds < clock(2) - clock(0)
    requires answer(0, QueueQuery(jobId)).Ok? && Strip(answer(0, QueueQuery(jobId)).value.0) != ""
    ensures WaitSpec(queue, jobId, clock, answer, fuel) == Polled(Poller(3, 1), Wait(jobId), Failed(TimedOut(jobId, limit)))
  {
    var start := clock(0);
    var step := Round(jobId, limit, start, Poller(1, 0), clock, answer);
    assert step == Again(Poller(2, 1));
    WaitAgain(jobId, limit, start, Poller(1, 0), clock, answer, fuel, step);
    var last := Round(jobId, limit, start, Poller(2, 1), clock, answer);
    WaitStop(jobId, limit, start, Poller(2, 1), clock, answer, fuel - 1, last);
    assert Wait(jobId) + [] == Wait(jobId);
  }

  /**
   * A float timeout "1.5" with clock readings 0, 1.0 and 2.0 and a job
   * that stays in the queue: the second check raises "Job 12345 timed out
   * after 1.5 seconds", after one queue query and one sleep.
   */
  lemma FloatTimeoutExample(t: string, fuel: nat)
    requires t == "1.5" && fuel >= 2
    ensures var clock := (n: nat) => if n == 0 then 0.0 else if n == 1 then 1.0 else 2.0;
      var answer := (k: nat, cmd: string) => Ok(("squeue output with job", ""));
      WaitSpec([("job_timeout", VNum(t))], "12345", clock, answer, fuel) ==
        Polled(Poller(3, 1), Wait("12345"), Failed(Exc("RuntimeError", "Job " + "12345" + " timed out after " + t + " seconds")))
  {
    var clock := (n: nat) => if n == 0 then 0.0 else if n == 1 then 1.0 else 2.0;
    var answer := (k: nat, cmd: string) => Ok(("squeue output with job", ""));
    assert Strip("squeue output with job") != "" by {
      assert !IsSpace("squeue output with job"[0]);
    }
    OneAndAHalf(t);
    OneSleepThenTimeout([("job_timeout", VNum(t))], Limit(1.5, t), "12345", clock, answer, fuel);
  }
}
