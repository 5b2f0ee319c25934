/**
 Sweeps of a DC power supply: the grid of set values between two ends, and the check that turns
 a list of steps into a program. Values are exact reals, in volts, amperes and seconds.
 */
module PowerSweep {
  import opened Common

  datatype SweepError = StepNotPositive | SameEnds | TooLong

  const LIMIT: nat := 10000

  // ---------------------------------------------------------------- the grid in closed form

  function Direction(start: real, end: real): real {
    if end > start then 1.0 else -1.0
  }

  function Epsilon(step: real): real {
    step / 1000.0
  }

  function GridValue(start: real, end: real, step: real, i: nat): real {
    start + Direction(start, end) * (i as real * step)
  }

  /** How many steps fit between the ends, give or take epsilon. */
  function Reach(start: real, end: real, step: real): (r: real)
    requires step > 0.0
    ensures r >= 0.0 && r * step == Abs(end - start) + Epsilon(step)
  {
    QuotientOfNonNegative(Abs(end - start) + Epsilon(step), step);
    (Abs(end - start) + Epsilon(step)) / step
  }

  /** The number of multiples of the step on the grid, the start being the first. */
  function GridCount(start: real, end: real, step: real): (n: nat)
    requires step > 0.0
    ensures n >= 1
  {
    Reach(start, end, step).Floor + 1
  }

  function Grid(start: real, end: real, step: real): (values: seq<real>)
    requires step > 0.0
    ensures |values| == GridCount(start, end, step)
    ensures forall i :: 0 <= i < |values| ==> values[i] == GridValue(start, end, step, i)
  {
    seq(GridCount(start, end, step), i requires i >= 0 => GridValue(start, end, step, i))
  }

  /** The grid, and the end itself when the grid stops more than epsilon away from it. */
  function Sweep(start: real, end: real, step: real): seq<real>
    requires step > 0.0
  {
    var grid := Grid(start, end, step);
    if Abs(grid[|grid| - 1] - end) <= Epsilon(step) then grid else grid + [end]
  }

  lemma QuotientOfNonNegative(x: real, y: real)
    requires x >= 0.0 && y > 0.0
    ensures x / y >= 0.0 && (x / y) * y == x
  {
  }

  /** A multiple of the step is on the grid exactly when it does not pass the end by more than epsilon. */
  lemma OnGridIff(start: real, end: real, step: real, i: nat)
    requires step > 0.0
    ensures i < GridCount(start, end, step) <==> i as real * step <= Abs(end - start) + Epsilon(step)
  {
    hide Reach, Epsilon, Abs;
    ScaleOrder(i as real, Reach(start, end, step), step);
    FloorOrder(i, Reach(start, end, step));
  }

  lemma FloorOrder(i: int, x: real)
    ensures i < x.Floor + 1 <==> i as real <= x
  {
  }

  lemma ScaleOrder(a: real, b: real, c: real)
    requires c > 0.0
    ensures a <= b <==> a * c <= b * c
  {
  }

  lemma NextMultiple(i: nat, step: real)
    ensures (i + 1) as real * step == i as real * step + step
  {
  }

  /** The test of the loop, on the i-th multiple of the step. */
  lemma GuardIff(start: real, end: real, step: real, i: nat)
    requires step > 0.0
    ensures var value := GridValue(start, end, step, i);
      (if end > start then value <= end + Epsilon(step) else value >= end - Epsilon(step))
      <==> i < GridCount(start, end, step)
  {
    OnGridIff(start, end, step, i);
  }

  lemma StartsAtStart(start: real, end: real, step: real)
    ensures GridValue(start, end, step, 0) == start
  {
  }

  lemma NextGridValue(start: real, end: real, step: real, i: nat)
    ensures GridValue(start, end, step, i + 1) == GridValue(start, end, step, i) + Direction(start, end) * step
  {
  }

  // ---------------------------------------------------------------- the loop of the source

  method SweepValues(start: real, end: real, step: real) returns (r: Result<seq<real>, SweepError>)
    ensures r == Err(StepNotPositive) <==> step <= 0.0
    ensures r == Err(SameEnds) <==> step > 0.0 && Abs(start - end) <= 0.000000000001
    ensures r == Err(TooLong) <==> step > 0.0 && Abs(start - end) > 0.000000000001
                                   && GridCount(start, end, step) > 10000
    ensures r.Ok? ==> step > 0.0 && r.value == Sweep(start, end, step)
  {
    if step <= 0.0 {
      return Err(StepNotPositive);
    }
    if Abs(start - end) <= 0.000000000001 {
      return Err(SameEnds);
    }
    hide GridValue, GridCount;
    var direction := if end > start then 1.0 else -1.0;
    var values := [];
    var value := start;
    var epsilon := step / 1000.0;
    ghost var count := GridCount(start, end, step);
    assert value == GridValue(start, end, step, 0) by {
      StartsAtStart(start, end, step);
    }
    while if direction > 0.0 then value <= end + epsilon else value >= end - epsilon
      invariant |values| <= LIMIT && |values| <= count
      invariant value == GridValue(start, end, step, |values|)
      invariant forall i :: 0 <= i < |values| ==> values[i] == GridValue(start, end, step, i)
      decreases LIMIT - |values|
    {
      GuardIff(start, end, step, |values|);
      NextGridValue(start, end, step, |values|);
      values := values + [value];
      if |values| > LIMIT {
        return Err(TooLong);
      }
      value := value + direction * step;
    }
    GuardIff(start, end, step, |values|);
    assert values == Grid(start, end, step);
    if Abs(values[|values| - 1] - end) > epsilon {
      values := values + [end];
    }
    return Ok(values);
  }

  // ---------------------------------------------------------------- what a sweep is

  /** How far the grid stops from the end, towards it: negative after an overshoot. */
  function Gap(start: real, end: real, step: real): real
    requires step > 0.0
  {
    Abs(end - start) - (GridCount(start, end, step) - 1) as real * step
  }

  /** The grid passes the end by at most epsilon, and stops less than a step minus epsilon short of it. */
  lemma GapBounds(start: real, end: real, step: real)
    requires step > 0.0
    ensures -Epsilon(step) <= Gap(start, end, step) < step - Epsilon(step)
    ensures Grid(start, end, step)[GridCount(start, end, step) - 1]
         == end - Direction(start, end) * Gap(start, end, step)
  {
    var n := GridCount(start, end, step);
    OnGridIff(start, end, step, n - 1);
    OnGridIff(start, end, step, n);
    NextMultiple(n - 1, step);
  }

  /**
   A sweep starts at the start; goes strictly towards the end; keeps to the grid but for a last
   value that is the end itself; passes the end by at most epsilon; stops within epsilon of it;
   and an appended end is more than epsilon and less than a step minus epsilon away from the
   value before it.
   */
  lemma SweepShape(start: real, end: real, step: real)
    requires step > 0.0
    ensures var values := Sweep(start, end, step);
      var n := GridCount(start, end, step);
      && n <= |values| <= n + 1
      && values[0] == start
      && (forall i :: 0 <= i < n ==> values[i] == GridValue(start, end, step, i))
      && Abs(values[|values| - 1] - end) <= Epsilon(step)
      && (|values| > n ==> values[n] == end && Epsilon(step) < Abs(end - values[n - 1]) < step - Epsilon(step))
  {
    GapBounds(start, end, step);
  }

  lemma NextIsNearer(start: real, end: real, step: real, i: nat)
    requires step > 0.0 && i + 1 < |Sweep(start, end, step)|
    ensures var values := Sweep(start, end, step);
      Direction(start, end) * (values[i + 1] - values[i]) > 0.0
  {
    var n := GridCount(start, end, step);
    GapBounds(start, end, step);
    hide GridCount, GridValue, Gap, Abs;
    if i + 1 < n {
      NextGridValue(start, end, step, i);
    } else {
      LastIsNearer(start, end, step);
    }
  }

  lemma LastIsNearer(start: real, end: real, step: real)
    requires step > 0.0
    ensures var last := Grid(start, end, step)[GridCount(start, end, step) - 1];
      Abs(last - end) > Epsilon(step) ==> Direction(start, end) * (end - last) > 0.0
  {
  }

  lemma {:induction false} StrictlyTowardsTheEnd(start: real, end: real, step: real, i: nat, j: nat)
    requires step > 0.0 && i < j < |Sweep(start, end, step)|
    ensures var values := Sweep(start, end, step);
      Direction(start, end) * (values[j] - values[i]) > 0.0
  {
    NextIsNearer(start, end, step, j - 1);
    if i + 1 < j {
      StrictlyTowardsTheEnd(start, end, step, i, j - 1);
    }
  }

  /** Every value lies between the start and the end, give or take epsilon at the end. */
  lemma NoValueOutside(start: real, end: real, step: real, i: nat)
    requires step > 0.0 && i < |Sweep(start, end, step)|
    ensures var v := Sweep(start, end, step)[i];
      if end > start then start <= v <= end + Epsilon(step) else end - Epsilon(step) <= v <= start
  {
    var values := Sweep(start, end, step);
    SweepShape(start, end, step);
    if 0 < i {
      StrictlyTowardsTheEnd(start, end, step, 0, i);
    }
    if i < |values| - 1 {
      StrictlyTowardsTheEnd(start, end, step, i, |values| - 1);
    }
  }

  // ---------------------------------------------------------------- steps of a program

  datatype Step = Step(voltage: real, current: real, dwell: real)

  datatype Fault = NoSteps | TooManySteps | Voltage(index: nat) | Current(index: nat) | Dwell(index: nat)

  predicate StepAllowed(s: Step, minimumDwell: real) {
    0.0 <= s.voltage <= 30.0 && 0.0 <= s.current <= 5.0 && minimumDwell <= s.dwell <= 86400.0
  }

  /** What is wrong with a single step that is not allowed, checked in this order. */
  function StepFault(s: Step, index: nat): Fault {
    if !(0.0 <= s.voltage <= 30.0) then Voltage(index)
    else if !(0.0 <= s.current <= 5.0) then Current(index)
    else Dwell(index)
  }

  ghost predicate ProgramAllowed(steps: seq<Step>, minimumDwell: real) {
    && 0 < |steps| <= 10000
    && forall i :: 0 <= i < |steps| ==> StepAllowed(steps[i], minimumDwell)
  }

  /** The fault reported is that of the first step, counting from 1, that is not allowed. */
  ghost predicate FirstFault(steps: seq<Step>, minimumDwell: real, fault: Fault) {
    if steps == [] then fault == NoSteps
    else if |steps| > LIMIT then fault == TooManySteps
    else exists i ::
      && 0 <= i < |steps|
      && !StepAllowed(steps[i], minimumDwell)
      && (forall j :: 0 <= j < i ==> StepAllowed(steps[j], minimumDwell))
      && fault == StepFault(steps[i], i + 1)
  }

  method ValidateSteps(steps: seq<Step>, minimumDwell: real) returns (fault: Option<Fault>)
    ensures fault.None? <==> ProgramAllowed(steps, minimumDwell)
    ensures fault.Some? ==> FirstFault(steps, minimumDwell, fault.value)
  {
    if steps == [] {
      return Some(NoSteps);
    }
    if |steps| > LIMIT {
      return Some(TooManySteps);
    }
    for i := 0 to |steps|
      invariant forall j :: 0 <= j < i ==> StepAllowed(steps[j], minimumDwell)
    {
      var step := steps[i];
      if !(0.0 <= step.voltage <= 30.0) {
        return Some(Voltage(i + 1));
      }
      if !(0.0 <= step.current <= 5.0) {
        return Some(Current(i + 1));
      }
      if !(minimumDwell <= step.dwell <= 86400.0) {
        return Some(Dwell(i + 1));
      }
    }
    return None;
  }

  // ---------------------------------------------------------------- starting a sweep

  datatype Refusal = Unsafe | BadParameter | BadLoops | BadSweep(error: SweepError) | BadStep(fault: Fault)

  datatype Request = Request(
    parameter: string, start: real, end: real, step: real, fixed: real, dwell: real, loops: int)

  function StepFor(request: Request, value: real): Step {
    if request.parameter == "voltage" then Step(value, request.fixed, request.dwell)
    else Step(request.fixed, value, request.dwell)
  }

  /** The largest value the swept parameter may have. */
  function Ceiling(request: Request): real {
    if request.parameter == "voltage" then 30.0 else 5.0
  }

  /** What a caller can check before the request is made, knowing only its fields. */
  predicate Acceptable(request: Request) {
    && request.parameter in {"voltage", "current"}
    && 1 <= request.loops <= 1000
    && request.step > 0.0
    && Abs(request.start - request.end) > 0.000000000001
    && var values := Sweep(request.start, request.end, request.step);
    && |values| <= LIMIT
    && 0.0 <= request.start <= Ceiling(request)
    && 0.0 <= values[|values| - 1] <= Ceiling(request)
    && StepAllowed(StepFor(request, request.start), 1.0)
  }

  /** An increasing or decreasing sweep is in range when its first and last values are. */
  lemma EndsDecide(request: Request)
    requires request.step > 0.0
    requires var values := Sweep(request.start, request.end, request.step);
      StepAllowed(StepFor(request, values[0]), 1.0) && StepAllowed(StepFor(request, values[|values| - 1]), 1.0)
    ensures var values := Sweep(request.start, request.end, request.step);
      forall i :: 0 <= i < |values| ==> StepAllowed(StepFor(request, values[i]), 1.0)
  {
    var values := Sweep(request.start, request.end, request.step);
    forall i | 0 <= i < |values| ensures StepAllowed(StepFor(request, values[i]), 1.0) {
      if 0 < i {
        StrictlyTowardsTheEnd(request.start, request.end, request.step, 0, i);
      }
      if i < |values| - 1 {
        StrictlyTowardsTheEnd(request.start, request.end, request.step, i, |values| - 1);
      }
    }
  }

  /**
   `start_sweep` up to the program it hands over: accepted exactly when both ends of the sweep,
   the fixed value and the dwell are in range and there are at most 10000 values. The steps
   carry the values of the sweep in the swept parameter and the fixed value in the other.
   */
  method StartSweep(safe: bool, request: Request) returns (r: Result<seq<Step>, Refusal>)
    ensures r == Err(Unsafe) <==> !safe
    ensures r.Ok? <==> safe && Acceptable(request)
    ensures r.Ok? ==> ProgramAllowed(r.value, 1.0)
    ensures r.Ok? ==>
      var values := Sweep(request.start, request.end, request.step);
      && |r.value| == |values|
      && forall i :: 0 <= i < |values| ==>
           r.value[i] == if request.parameter == "voltage" then Step(values[i], request.fixed, request.dwell)
                         else Step(request.fixed, values[i], request.dwell)
    ensures r.Err? && r.error != Unsafe ==>
      (r.error == BadParameter <==> request.parameter !in {"voltage", "current"})
    ensures r.Err? && r.error !in {Unsafe, BadParameter} ==> (r.error == BadLoops <==> !(1 <= request.loops <= 1000))
    ensures r.Err? && r.error !in {Unsafe, BadParameter, BadLoops} ==>
      && (r.error == BadSweep(StepNotPositive) <==> request.step <= 0.0)
      && (r.error == BadSweep(SameEnds)
          <==> request.step > 0.0 && Abs(request.start - request.end) <= 0.000000000001)
      && (r.error == BadSweep(TooLong)
          <==> && request.step > 0.0 && Abs(request.start - request.end) > 0.000000000001
               && GridCount(request.start, request.end, request.step) > 10000)
  {
    hide GridValue, GridCount, Epsilon, Abs, Direction;
    if !safe {
      return Err(Unsafe);
    }
    if request.parameter !in {"voltage", "current"} {
      return Err(BadParameter);
    }
    if !(1 <= request.loops <= 1000) {
      return Err(BadLoops);
    }
    var swept := SweepValues(request.start, request.end, request.step);
    if swept.Err? {
      assert swept.error == TooLong ==> |Sweep(request.start, request.end, request.step)| > LIMIT;
      return Err(BadSweep(swept.error));
    }
    var steps := seq(|swept.value|, i requires 0 <= i < |swept.value| => StepFor(request, swept.value[i]));
    var fault := ValidateSteps(steps, 1.0);
    SweepShape(request.start, request.end, request.step);
    assert steps[0] == StepFor(request, request.start);
    assert steps[|steps| - 1] == StepFor(request, swept.value[|swept.value| - 1]);
    if StepAllowed(steps[0], 1.0) && StepAllowed(steps[|steps| - 1], 1.0) {
      EndsDecide(request);
    }
    if fault.Some? {
      return Err(BadStep(fault.value));
    }
    return Ok(steps);
  }

  /**
   Both ends being in range is not enough: this sweep from 0 V to the 30 V limit passes it by
   less than epsilon, and is refused.
   */
  lemma OvershootIsRefused()
    ensures !Acceptable(Request("voltage", 0.0, 30.0, 10.002, 1.0, 1.0, 1))
    ensures Sweep(0.0, 30.0, 10.002) == [0.0, 10.002, 20.004, 30.006]
  {
  }
}
