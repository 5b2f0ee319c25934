/**
 Running a power-supply program: a list of steps repeated a number of times, each step one
 enabled write followed by its dwell. What the environment does at each step is a script, so a
 statement about every script is a statement about every run. The clock is not modelled: a
 dwell is one wait.
 */
module PowerProgram {
  import opened Common
  import opened PowerSweep

  /** What `pause_event.wait()` does: it yields to other tasks only when the program is paused. */
  datatype Wait = NotPaused | Paused | CancelledWhilePaused

  datatype Outcome = Done | Fails | Cancelled

  /** One step: its pause gate, the latch, the enabled write, and whether the dwell is cancelled. */
  datatype Event = Event(gate: Wait, safe: bool, write: Outcome, dwellCancelled: bool)

  datatype Call = On(step: Step) | Off

  datatype Failure = Blocked | WriteFailed | OffFailed

  datatype Ending = Completed | Aborted(failure: Failure) | WasCancelled | CancelledAtOff

  /** The counters a status shows. */
  datatype Status = Status(currentLoop: nat, currentStep: nat)

  /** A status, and how many enabled writes had been issued when it was taken. */
  datatype Reading = Reading(status: Status, writes: nat)

  // ---------------------------------------------------------------- progress

  function StepsCompleted(stepCount: nat, s: Status): nat {
    (if s.currentLoop == 0 then 0 else s.currentLoop - 1) * stepCount + s.currentStep
  }

  /** `_program_status`: the percentage shown. */
  function Progress(stepCount: nat, loops: nat, s: Status): real {
    var total := stepCount * loops;
    if total == 0 then 0.0
    else
      var percent := 100.0 * StepsCompleted(stepCount, s) as real / total as real;
      if percent < 100.0 then percent else 100.0
  }

  /** The share of the enabled writes that have been issued. */
  function TrueProgress(stepCount: nat, loops: nat, writes: nat): real
    requires stepCount * loops > 0
  {
    100.0 * writes as real / (stepCount * loops) as real
  }

  // ---------------------------------------------------------------- the trace, from the script

  predicate Reaches(e: Event) {
    e.gate != CancelledWhilePaused && e.safe
  }

  predicate Smooth(e: Event) {
    Reaches(e) && e.write == Done && !e.dwellCancelled
  }

  /** The first step that does not go smoothly, or the number of steps. */
  function Stop(script: seq<Event>): (k: nat)
    ensures k <= |script|
    ensures forall j :: 0 <= j < k ==> Smooth(script[j])
    ensures k < |script| ==> !Smooth(script[k])
  {
    if script == [] then 0
    else if !Smooth(script[0]) then 0
    else 1 + Stop(script[1..])
  }

  lemma StopIs(script: seq<Event>, k: nat)
    requires k <= |script|
    requires forall j :: 0 <= j < k ==> Smooth(script[j])
    requires k < |script| ==> !Smooth(script[k])
    ensures Stop(script) == k
  {
  }

  function WritesMade(script: seq<Event>): nat {
    var k := Stop(script);
    if k < |script| && Reaches(script[k]) then k + 1 else k
  }

  function EndOf(script: seq<Event>, off: Outcome): Ending {
    var k := Stop(script);
    if k == |script| then
      match off
      case Done => Completed
      case Fails => Aborted(OffFailed)
      case Cancelled => CancelledAtOff
    else if script[k].gate == CancelledWhilePaused then WasCancelled
    else if !script[k].safe then Aborted(Blocked)
    else if script[k].write == Fails then Aborted(WriteFailed)
    else WasCancelled
  }

  /** The enabled writes: the first `k` of the steps repeated over and over. */
  function Repeated(steps: seq<Step>, k: nat): (calls: seq<Call>)
    requires |steps| > 0
    ensures |calls| == k
    ensures forall j :: 0 <= j < k ==> calls[j] == On(steps[j % |steps|])
  {
    seq(k, j requires 0 <= j => On(steps[j % |steps|]))
  }

  /** The OFF attempt: one after every end that is not a cancellation of the steps. */
  function OffAttempts(ending: Ending): seq<Call> {
    if ending == WasCancelled then [] else [Off]
  }

  /** What the program's counters hold when its k-th step, from 0, stopped before its write. */
  function BeforeWrite(stepCount: nat, k: nat): Status
    requires stepCount > 0
  {
    Status(k / stepCount + 1, if k == 0 then 0 else (k - 1) % stepCount + 1)
  }

  /** What they hold from the k-th enabled write, counting from 1, until the next step. */
  function AtWrite(stepCount: nat, k: nat): Status
    requires stepCount > 0 && k > 0
  {
    Status((k - 1) / stepCount + 1, (k - 1) % stepCount + 1)
  }

  /** The counters in the status that is kept when the run is over. */
  function FinalStatus(stepCount: nat, script: seq<Event>): Status
    requires stepCount > 0 && script != []
  {
    var k := Stop(script);
    if k < |script| && !Reaches(script[k]) then BeforeWrite(stepCount, k)
    else AtWrite(stepCount, WritesMade(script))
  }

  /** Every status taken while the run waits shows the counters of a write, or of a pause before one. */
  ghost predicate Observable(stepCount: nat, total: nat, r: Reading)
    requires stepCount > 0
  {
    || (r.writes < total && r.status == BeforeWrite(stepCount, r.writes))
    || (0 < r.writes <= total && r.status == AtWrite(stepCount, r.writes))
  }

  ghost predicate AllObservable(seen: seq<Reading>, stepCount: nat, total: nat)
    requires stepCount > 0
  {
    forall i :: 0 <= i < |seen| ==> Observable(stepCount, total, seen[i])
  }

  /** A step is seen while it waits at a pause, and from the moment its write is issued. */
  ghost predicate StepSeen(seen: seq<Reading>, stepCount: nat, e: Event, k: nat)
    requires stepCount > 0
  {
    && (e.gate != NotPaused ==> Reading(BeforeWrite(stepCount, k), k) in seen)
    && (Reaches(e) ==> Reading(AtWrite(stepCount, k + 1), k + 1) in seen)
  }

  /** So is each of the first `taken` steps. */
  ghost predicate AllSeen(seen: seq<Reading>, stepCount: nat, script: seq<Event>, taken: nat)
    requires stepCount > 0 && taken <= |script|
  {
    forall j :: 0 <= j < taken ==> StepSeen(seen, stepCount, script[j], j)
  }

  /** The steps taken: those that go smoothly and the first that does not. */
  function Taken(script: seq<Event>): (n: nat)
    ensures n <= |script|
  {
    if Stop(script) < |script| then Stop(script) + 1 else |script|
  }

  lemma OneMoreSeen(before: seq<Reading>, seen: seq<Reading>, stepCount: nat, script: seq<Event>, k: nat)
    requires stepCount > 0 && k < |script| && before <= seen
    requires AllSeen(before, stepCount, script, k) && StepSeen(seen, stepCount, script[k], k)
    ensures AllSeen(seen, stepCount, script, k + 1)
  {
    hide BeforeWrite, AtWrite;
    assert forall r :: r in before ==> r in seen;
  }

  lemma NothingSeen(stepCount: nat, script: seq<Event>)
    requires stepCount > 0
    ensures AllObservable([], stepCount, |script|) && AllSeen([], stepCount, script, 0)
    ensures BeforeWrite(stepCount, 0) == Status(1, 0)
  {
  }

  /** The step number does not move between a write and the next step. */
  lemma SameStep(stepCount: nat, k: nat)
    requires stepCount > 0 && k > 0
    ensures BeforeWrite(stepCount, k).currentStep == AtWrite(stepCount, k).currentStep
  {
  }

  lemma Ended(script: seq<Event>, k: nat, stepCount: nat)
    requires k < |script| && stepCount > 0
    requires (forall j :: 0 <= j < k ==> Smooth(script[j])) && !Smooth(script[k])
    ensures Stop(script) == k && EndOf(script, Done) == EndOf([script[k]], Done)
    ensures WritesMade(script) == if Reaches(script[k]) then k + 1 else k
    ensures FinalStatus(stepCount, script)
         == if Reaches(script[k]) then AtWrite(stepCount, k + 1) else BeforeWrite(stepCount, k)
  {
  }

  lemma Finished(script: seq<Event>, stepCount: nat)
    requires script != [] && stepCount > 0 && forall j :: 0 <= j < |script| ==> Smooth(script[j])
    ensures Stop(script) == WritesMade(script) == |script|
    ensures FinalStatus(stepCount, script) == AtWrite(stepCount, |script|)
  {
  }

  // ---------------------------------------------------------------- loop and step numbers

  lemma Counters(loopIndex: nat, stepIndex: nat, stepCount: nat)
    requires stepIndex < stepCount
    ensures var k := loopIndex * stepCount + stepIndex;
      && AtWrite(stepCount, k + 1) == Status(loopIndex + 1, stepIndex + 1)
      && BeforeWrite(stepCount, k + 1).currentStep == stepIndex + 1
      && BeforeWrite(stepCount, k).currentLoop == loopIndex + 1
  {
    Split(loopIndex, stepIndex, stepCount);
  }

  lemma Split(loopIndex: nat, stepIndex: nat, stepCount: nat)
    requires stepIndex < stepCount
    ensures (loopIndex * stepCount + stepIndex) / stepCount == loopIndex
    ensures (loopIndex * stepCount + stepIndex) % stepCount == stepIndex
  {
    QuotientIs(loopIndex * stepCount + stepIndex, stepCount, loopIndex);
  }

  lemma QuotientIs(a: nat, d: nat, q: nat)
    requires d > 0 && q * d <= a < q * d + d
    ensures a / d == q && a % d == a - q * d
  {
    var other := a / d;
    if other < q {
      TimesOrder(other + 1, q, d);
    } else if other > q {
      TimesOrder(q + 1, other, d);
    }
  }

  lemma TimesOrder(a: nat, b: nat, d: nat)
    requires a <= b
    ensures a * d <= b * d
  {
  }

  lemma Within(loopIndex: nat, stepIndex: nat, stepCount: nat, loops: nat)
    requires stepIndex < stepCount && loopIndex < loops
    ensures loopIndex * stepCount + stepIndex < loops * stepCount
    ensures loopIndex * stepCount + stepCount == (loopIndex + 1) * stepCount <= loops * stepCount
  {
  }

  // ---------------------------------------------------------------- the program

  class Program {
    const steps: seq<Step>
    const loops: nat
    var currentStep: nat
    var currentLoop: nat
    var lastError: Option<Failure>
    /** The status kept in the service once the run is over. */
    var kept: Option<Status>
    /** True while the service still lists the program. */
    var listed: bool
    /** The driver updates attempted, in order. */
    ghost var calls: seq<Call>
    /** What a status query would have shown at every wait of the run. */
    ghost var seen: seq<Reading>

    constructor (steps: seq<Step>, loops: nat)
      ensures this.steps == steps && this.loops == loops && Fresh()
    {
      this.steps, this.loops := steps, loops;
      currentStep, currentLoop, lastError, kept, listed := 0, 0, None, None, true;
      calls, seen := [], [];
    }

    ghost predicate Fresh()
      reads this
    {
      currentStep == 0 && currentLoop == 0 && lastError == None && kept == None && listed && calls == [] && seen == []
    }

    /** One step: the gate, the latch, the write and the dwell. */
    method RunStep(loopIndex: nat, stepIndex: nat, e: Event, ghost k: nat) returns (r: Option<Ending>)
      requires stepIndex < |steps| && loopIndex < loops && k == loopIndex * |steps| + stepIndex
      requires calls == Repeated(steps, k) && currentLoop == loopIndex + 1
      requires currentStep == BeforeWrite(|steps|, k).currentStep
      requires AllObservable(seen, |steps|, loops * |steps|)
      modifies this`currentStep, this`calls, this`seen
      ensures r == if Smooth(e) then None else Some(EndOf([e], Done))
      ensures calls == Repeated(steps, if Reaches(e) then k + 1 else k)
      ensures Reaches(e) ==> Status(currentLoop, currentStep) == AtWrite(|steps|, k + 1)
      ensures !Reaches(e) ==> Status(currentLoop, currentStep) == BeforeWrite(|steps|, k)
      ensures AllObservable(seen, |steps|, loops * |steps|)
      ensures old(seen) <= seen && StepSeen(seen, |steps|, e, k)
    {
      Split(loopIndex, stepIndex, |steps|);
      Within(loopIndex, stepIndex, |steps|, loops);
      if e.gate != NotPaused {
        seen := seen + [Reading(Status(currentLoop, currentStep), k)];
        if e.gate == CancelledWhilePaused {
          return Some(WasCancelled);
        }
      }
      if !e.safe {
        return Some(Aborted(Blocked));
      }
      currentStep := stepIndex + 1;
      calls := calls + [On(steps[stepIndex])];
      seen := seen + [Reading(Status(currentLoop, currentStep), k + 1)];
      match e.write
      case Fails => return Some(Aborted(WriteFailed));
      case Cancelled => return Some(WasCancelled);
      case Done =>
        seen := seen + [Reading(Status(currentLoop, currentStep), k + 1)];
        return if e.dwellCancelled then Some(WasCancelled) else None;
    }

    /** The steps of one loop, until one does not go smoothly. */
    method RunLoop(loopIndex: nat, script: seq<Event>) returns (r: Option<Ending>)
      requires steps != [] && loopIndex < loops && |script| == loops * |steps|
      requires 0 <= loopIndex * |steps| <= |script|
      requires forall j :: 0 <= j < loopIndex * |steps| ==> Smooth(script[j])
      requires calls == Repeated(steps, loopIndex * |steps|) && currentLoop == loopIndex + 1
      requires currentStep == BeforeWrite(|steps|, loopIndex * |steps|).currentStep
      requires AllObservable(seen, |steps|, |script|) && AllSeen(seen, |steps|, script, loopIndex * |steps|)
      modifies this`currentStep, this`calls, this`seen
      ensures AllObservable(seen, |steps|, |script|)
      ensures r.None? ==> 0 < (loopIndex + 1) * |steps| <= |script|
      ensures r.None? ==> AllSeen(seen, |steps|, script, (loopIndex + 1) * |steps|)
      ensures r.Some? ==> AllSeen(seen, |steps|, script, Taken(script))
      ensures r.None? ==> forall j :: 0 <= j < (loopIndex + 1) * |steps| ==> Smooth(script[j])
      ensures r.None? ==> calls == Repeated(steps, (loopIndex + 1) * |steps|)
      ensures r.None? ==> Status(currentLoop, currentStep) == AtWrite(|steps|, (loopIndex + 1) * |steps|)
      ensures r.Some? ==> Stop(script) < |script| && r.value == EndOf(script, Done)
      ensures r.Some? ==> calls == Repeated(steps, WritesMade(script))
      ensures r.Some? ==> Status(currentLoop, currentStep) == FinalStatus(|steps|, script)
    {
      hide AllObservable, AllSeen, StepSeen, Stop, WritesMade, EndOf, FinalStatus, BeforeWrite, AtWrite;
      ghost var n, first := |steps|, loopIndex * |steps|;
      Within(loopIndex, 0, n, loops);
      for stepIndex := 0 to |steps|
        invariant forall j :: 0 <= j < first + stepIndex ==> Smooth(script[j])
        invariant calls == Repeated(steps, first + stepIndex)
        invariant currentStep == BeforeWrite(n, first + stepIndex).currentStep
        invariant stepIndex > 0 ==> Status(currentLoop, currentStep) == AtWrite(n, first + stepIndex)
        invariant AllObservable(seen, n, |script|) && AllSeen(seen, n, script, first + stepIndex)
      {
        ghost var k, before := first + stepIndex, seen;
        var e := script[loopIndex * |steps| + stepIndex];
        Counters(loopIndex, stepIndex, n);
        r := RunStep(loopIndex, stepIndex, e, k);
        OneMoreSeen(before, seen, n, script, k);
        if r.Some? {
          Ended(script, k, n);
          return;
        }
      }
      return None;
    }

    /** The nested loops: every step of every loop, until one does not go smoothly. */
    method RunSteps(script: seq<Event>) returns (r: Option<Ending>)
      requires steps != [] && loops > 0 && |script| == loops * |steps| && Fresh()
      modifies this`currentStep, this`currentLoop, this`calls, this`seen
      ensures r.None? <==> Stop(script) == |script|
      ensures r.Some? ==> r.value == EndOf(script, Done)
      ensures calls == Repeated(steps, WritesMade(script))
      ensures Status(currentLoop, currentStep) == FinalStatus(|steps|, script)
      ensures AllObservable(seen, |steps|, |script|) && AllSeen(seen, |steps|, script, Taken(script))
    {
      hide AllObservable, AllSeen, Stop, WritesMade, EndOf, FinalStatus, BeforeWrite, AtWrite;
      NothingSeen(|steps|, script);
      for loopIndex := 0 to loops
        invariant 0 <= loopIndex * |steps| <= |script|
        invariant forall j :: 0 <= j < loopIndex * |steps| ==> Smooth(script[j])
        invariant calls == Repeated(steps, loopIndex * |steps|)
        invariant currentStep == BeforeWrite(|steps|, loopIndex * |steps|).currentStep
        invariant loopIndex > 0 ==> Status(currentLoop, currentStep) == AtWrite(|steps|, loopIndex * |steps|)
        invariant AllObservable(seen, |steps|, |script|) && AllSeen(seen, |steps|, script, loopIndex * |steps|)
      {
        currentLoop := loopIndex + 1;
        r := RunLoop(loopIndex, script);
        if r.Some? {
          return;
        }
        SameStep(|steps|, (loopIndex + 1) * |steps|);
      }
      Finished(script, |steps|);
      return None;
    }

    /** `_run_program`: the steps, then at most one OFF, then the status that is kept. */
    method Run(script: seq<Event>, off: Outcome) returns (ending: Ending)
      requires steps != [] && loops > 0 && |script| == loops * |steps| && Fresh()
      modifies this
      ensures ending == EndOf(script, off)
      ensures calls == Repeated(steps, WritesMade(script)) + OffAttempts(ending)
      ensures lastError == if ending.Aborted? then Some(ending.failure) else None
      ensures listed <==> ending == CancelledAtOff
      ensures kept == if listed then None else Some(FinalStatus(|steps|, script))
      ensures AllObservable(seen, |steps|, |script|) && AllSeen(seen, |steps|, script, Taken(script))
    {
      var stopped := RunSteps(script);
      if stopped.Some? {
        ending := stopped.value;
        if ending.Aborted? {
          lastError := Some(ending.failure);
          calls := calls + [Off];
        }
      } else {
        ending := Completed;
        calls := calls + [Off];
        if off == Cancelled {
          return CancelledAtOff;
        }
        if off == Fails {
          lastError, ending := Some(OffFailed), Aborted(OffFailed);
        }
      }
      kept := Some(Status(currentLoop, currentStep));
      listed := false;
    }
  }

  // ---------------------------------------------------------------- what the trace is

  /** The step list as enabled writes, written out `loops` times. */
  function Copies(steps: seq<Step>, loops: nat): seq<Call> {
    if loops == 0 then []
    else Copies(steps, loops - 1) + seq(|steps|, i requires 0 <= i < |steps| => On(steps[i]))
  }

  lemma {:induction false} RepeatedIsCopies(steps: seq<Step>, loops: nat)
    requires steps != []
    ensures Repeated(steps, loops * |steps|) == Copies(steps, loops)
  {
    if loops > 0 {
      var n := |steps|;
      RepeatedIsCopies(steps, loops - 1);
      var last := seq(n, i requires 0 <= i < n => On(steps[i]));
      assert loops * n == (loops - 1) * n + n;
      forall j | 0 <= j < loops * n
        ensures Repeated(steps, loops * n)[j] == (Repeated(steps, (loops - 1) * n) + last)[j]
      {
        if j >= (loops - 1) * n {
          Split(loops - 1, j - (loops - 1) * n, n);
        }
      }
    }
  }

  /**
   Whatever happens in a run, its enabled writes are a prefix of the step list written out
   `loops` times, the whole of it exactly when every step's write was issued.
   */
  lemma WritesArePrefix(steps: seq<Step>, loops: nat, script: seq<Event>)
    requires steps != [] && loops > 0 && |script| == loops * |steps|
    ensures Repeated(steps, WritesMade(script)) <= Copies(steps, loops)
    ensures Repeated(steps, WritesMade(script)) == Copies(steps, loops)
      <==> forall j :: 0 <= j < |script| ==> Reaches(script[j]) && (j < |script| - 1 ==> Smooth(script[j]))
  {
    RepeatedIsCopies(steps, loops);
    var w := WritesMade(script);
    assert Repeated(steps, w) == Repeated(steps, |script|)[..w];
    if w == |script| {
      assert Stop(script) >= |script| - 1;
    }
  }

  // ---------------------------------------------------------------- what the progress is

  lemma ProgressInRange(stepCount: nat, loops: nat, s: Status)
    ensures 0.0 <= Progress(stepCount, loops, s) <= 100.0
  {
  }

  lemma ShareOrder(a: nat, b: nat, total: nat)
    requires total > 0
    ensures 100.0 * a as real / total as real < 100.0 * b as real / total as real <==> a < b
    ensures 100.0 * total as real / total as real == 100.0
  {
  }

  /** A status that counts `completed` steps shows their share, capped at 100. */
  lemma ShownShare(stepCount: nat, loops: nat, s: Status)
    requires stepCount * loops > 0
    ensures var completed := StepsCompleted(stepCount, s);
      Progress(stepCount, loops, s)
        == TrueProgress(stepCount, loops, if completed < stepCount * loops then completed else stepCount * loops)
  {
    ShareOrder(StepsCompleted(stepCount, s), stepCount * loops, stepCount * loops);
  }

  /** From the k-th write on, exactly k of the writes show as done. */
  lemma ExactAtWrite(stepCount: nat, loops: nat, k: nat)
    requires stepCount * loops > 0 && 0 < k <= stepCount * loops
    ensures Progress(stepCount, loops, AtWrite(stepCount, k)) == TrueProgress(stepCount, loops, k)
  {
    ShownShare(stepCount, loops, AtWrite(stepCount, k));
    Recompose(k - 1, stepCount);
  }

  lemma Recompose(a: nat, d: nat)
    requires d > 0
    ensures (a / d) * d + a % d == a
  {
  }

  /** How many steps show as done between two writes. */
  lemma CountBeforeWrite(stepCount: nat, k: nat)
    requires stepCount > 0
    ensures StepsCompleted(stepCount, BeforeWrite(stepCount, k))
         == if k > 0 && k % stepCount == 0 then k + stepCount else k
  {
    Recompose(k, stepCount);
    if k % stepCount > 0 {
      QuotientIs(k - 1, stepCount, k / stepCount);
    } else if k > 0 {
      var q := k / stepCount;
      assert k == (q - 1) * stepCount + stepCount;
      QuotientIs(k - 1, stepCount, q - 1);
    }
  }

  /**
   Before the k-th step, counting from 0, has written, the progress shown is right if and only
   if that step does not open a second or later loop. There the loop number has advanced and
   the step number has not, so a whole loop too many shows as done.
   */
  lemma ExactBeforeWriteIff(stepCount: nat, loops: nat, k: nat)
    requires stepCount * loops > 0 && k < stepCount * loops
    ensures Progress(stepCount, loops, BeforeWrite(stepCount, k)) == TrueProgress(stepCount, loops, k)
      <==> k == 0 || k % stepCount != 0
    ensures Progress(stepCount, loops, BeforeWrite(stepCount, k)) >= TrueProgress(stepCount, loops, k)
  {
    var total := stepCount * loops;
    var completed := StepsCompleted(stepCount, BeforeWrite(stepCount, k));
    ShownShare(stepCount, loops, BeforeWrite(stepCount, k));
    CountBeforeWrite(stepCount, k);
    ShareOrder(k, if completed < total then completed else total, total);
  }

  /** The status kept after a run is right, unless the run stopped before the first write of a later loop. */
  lemma KeptProgressIff(stepCount: nat, loops: nat, script: seq<Event>)
    requires stepCount * loops > 0 && |script| == loops * stepCount
    ensures Progress(stepCount, loops, FinalStatus(stepCount, script))
         == TrueProgress(stepCount, loops, WritesMade(script))
      <==> !StopsBetweenLoops(stepCount, script)
  {
    var k := Stop(script);
    if k < |script| && !Reaches(script[k]) {
      ExactBeforeWriteIff(stepCount, loops, k);
    } else {
      ExactAtWrite(stepCount, loops, WritesMade(script));
    }
  }

  /** The first step to go wrong is the first of a later loop, and it is blocked or cancelled before its write. */
  predicate StopsBetweenLoops(stepCount: nat, script: seq<Event>)
    requires stepCount > 0
  {
    var k := Stop(script);
    0 < k < |script| && k % stepCount == 0 && !Reaches(script[k])
  }

  lemma CompletedShowsAll(stepCount: nat, loops: nat, script: seq<Event>, off: Outcome)
    requires stepCount * loops > 0 && |script| == loops * stepCount
    requires EndOf(script, off) == Completed
    ensures Progress(stepCount, loops, FinalStatus(stepCount, script)) == 100.0
  {
    var k := Stop(script);
    assert k < |script| ==> EndOf(script, off) != Completed;
    ExactAtWrite(stepCount, loops, |script|);
    ShareOrder(0, |script|, |script|);
  }

  const SMOOTH := Event(NotPaused, true, Done, false)
  const LATCHED := Event(NotPaused, false, Done, false)

  /** Two loops of two steps, the emergency latch set between them: half the writes, and 100 percent. */
  lemma HalfDoneShowsAll()
    ensures var script := [SMOOTH, SMOOTH, LATCHED, SMOOTH];
      && EndOf(script, Done) == Aborted(Blocked)
      && WritesMade(script) == 2 && TrueProgress(2, 2, 2) == 50.0
      && Progress(2, 2, FinalStatus(2, script)) == 100.0
  {
    StopIs([SMOOTH, SMOOTH, LATCHED, SMOOTH], 2);
  }
}
