/**
 The DPS-150 driver's output update: which writes it sends, in which order, and what the
 supply can be set to at every instant in between. Volts, amperes and watts are exact reals.
 */
module Dps150Output {
  import opened Common

  const VOLTAGE_STEP_V := 0.01
  const CURRENT_STEP_A := 0.001
  const MAX_OUTPUT_VOLTAGE_V := 30.0
  const MAX_OUTPUT_CURRENT_A := 5.0
  const MAX_OUTPUT_POWER_W := 150.0
  const POWER_SLACK_W := 0.000000001

  /** What the writes of this driver change on the supply. */
  datatype Device = Device(voltage: real, current: real, on: bool)

  /** The limits the supply reports from its input; they move without any write. */
  datatype Limits = Limits(upperVoltage: real, upperCurrent: real)

  datatype Update = Update(voltage: Option<real>, current: Option<real>, enabled: Option<bool>)

  datatype Target = Target(voltage: real, current: real, enabled: bool)

  datatype Write = SetVoltage(v: real) | SetCurrent(i: real) | SetOutput(on: bool)

  datatype Error =
    NoFields | VoltageRange | CurrentRange | VoltageStep | CurrentStep | Power | Transport | Rejected

  const EMPTY_UPDATE := Update(None, None, None)

  function Min(a: real, b: real): real { if a <= b then a else b }

  function Max(a: real, b: real): real { if a <= b then b else a }

  predicate OnStep(value: real, step: real)
    requires step > 0.0
  {
    Abs(value - RoundHalfEven(value / step) as real * step) <= step / 100.0
  }

  function Wanted(current: Device, update: Update): Target {
    Target(
      if update.voltage.None? then current.voltage else update.voltage.value,
      if update.current.None? then current.current else update.current.value,
      if update.enabled.None? then current.on else update.enabled.value)
  }

  function Validate(current: Device, limits: Limits, update: Update): Result<Target, Error> {
    var t := Wanted(current, update);
    var voltageMax := Min(MAX_OUTPUT_VOLTAGE_V, Max(0.0, limits.upperVoltage));
    var currentMax := Min(MAX_OUTPUT_CURRENT_A, Max(0.0, limits.upperCurrent));
    if !(0.0 <= t.voltage <= voltageMax) then Err(VoltageRange)
    else if !(0.0 <= t.current <= currentMax) then Err(CurrentRange)
    else
      match ValidateSetpoints(t.voltage, t.current)
      case Err(e) => Err(e)
      case Ok(_) => Ok(t)
  }

  function ValidateSetpoints(voltage: real, current: real): Result<(), Error> {
    if !OnStep(voltage, VOLTAGE_STEP_V) then Err(VoltageStep)
    else if !OnStep(current, CURRENT_STEP_A) then Err(CurrentStep)
    else if voltage * current > MAX_OUTPUT_POWER_W + POWER_SLACK_W then Err(Power)
    else Ok(())
  }

  /** The setpoint writes: a falling current limit goes first, otherwise voltage goes first. */
  function SetpointWrites(current: Device, update: Update, t: Target): seq<Write> {
    var lowerFirst := update.current.Some? && t.current < current.current;
    (if lowerFirst then [SetCurrent(t.current)] else [])
    + (if update.voltage.Some? then [SetVoltage(t.voltage)] else [])
    + (if update.current.Some? && !lowerFirst then [SetCurrent(t.current)] else [])
  }

  /** Every write one accepted update sends, in order. */
  function Plan(current: Device, update: Update, t: Target): seq<Write> {
    var offFirst := update.enabled == Some(false) && current.on;
    (if offFirst then [SetOutput(false)] else [])
    + SetpointWrites(current, update, t)
    + (if update.enabled.Some? && !offFirst then [SetOutput(t.enabled)] else [])
  }

  function Apply(device: Device, write: Write): Device {
    match write
    case SetVoltage(v) => device.(voltage := v)
    case SetCurrent(i) => device.(current := i)
    case SetOutput(on) => device.(on := on)
  }

  function ApplyAll(device: Device, writes: seq<Write>): Device
    decreases |writes|
  {
    if writes == [] then device else ApplyAll(Apply(device, writes[0]), writes[1..])
  }

  predicate CloseTo(expected: real, actual: real, resolution: real) {
    Abs(expected - actual) <= Max(0.00001 * Max(Abs(expected), Abs(actual)), resolution / 2.0)
  }

  /** The read-back check that ends an update. */
  predicate Verified(device: Device, t: Target) {
    && CloseTo(t.voltage, device.voltage, VOLTAGE_STEP_V)
    && CloseTo(t.current, device.current, CURRENT_STEP_A)
    && device.on == t.enabled
  }

  // ---------------------------------------------------------------- power envelope

  predicate AtMost(device: Device, watts: real) {
    && device.voltage >= 0.0
    && device.current >= 0.0
    && device.voltage * device.current <= watts
  }

  /** The bound holds now and after each of these writes: the update may stop anywhere. */
  predicate Throughout(device: Device, writes: seq<Write>, watts: real)
    decreases |writes|
  {
    && AtMost(device, watts)
    && (writes != [] ==> Throughout(Apply(device, writes[0]), writes[1..], watts))
  }

  lemma {:induction false} ThroughoutPrefix(device: Device, writes: seq<Write>, watts: real, k: nat)
    requires Throughout(device, writes, watts)
    requires k <= |writes|
    ensures AtMost(ApplyAll(device, writes[..k]), watts)
    decreases k
  {
    if k > 0 {
      assert writes[..k][1..] == writes[1..][..k - 1];
      ThroughoutPrefix(Apply(device, writes[0]), writes[1..], watts, k - 1);
    }
  }

  lemma {:induction false} ThroughoutConcat(device: Device, first: seq<Write>, rest: seq<Write>, watts: real)
    requires Throughout(device, first, watts)
    requires Throughout(ApplyAll(device, first), rest, watts)
    ensures Throughout(device, first + rest, watts)
    decreases |first|
  {
    if first == [] {
      assert first + rest == rest;
    } else {
      assert (first + rest)[1..] == first[1..] + rest;
      ThroughoutConcat(Apply(device, first[0]), first[1..], rest, watts);
    }
  }

  lemma ProductMonotone(a: real, b: real, c: real, d: real)
    requires 0.0 <= a <= c && 0.0 <= b <= d
    ensures a * b <= c * d
  {
  }

  lemma OneWrite(device: Device, write: Write, watts: real)
    ensures ApplyAll(device, [write]) == Apply(device, write)
    ensures AtMost(device, watts) && AtMost(Apply(device, write), watts)
        ==> Throughout(device, [write], watts)
  {
  }

  lemma {:induction false} ApplyAllConcat(device: Device, first: seq<Write>, rest: seq<Write>)
    ensures ApplyAll(device, first + rest) == ApplyAll(ApplyAll(device, first), rest)
    decreases |first|
  {
    if first == [] {
      assert first + rest == rest;
    } else {
      assert (first + rest)[1..] == first[1..] + rest;
      ApplyAllConcat(Apply(device, first[0]), first[1..], rest);
    }
  }

  lemma SetpointsReach(current: Device, update: Update, t: Target)
    requires t == Wanted(current, update)
    ensures ApplyAll(current, SetpointWrites(current, update, t)) == Device(t.voltage, t.current, current.on)
  {
    var writes := SetpointWrites(current, update, t);
    if |writes| == 2 {
      assert writes[1..] == [writes[1]] && writes[1..][1..] == [];
      assert ApplyAll(Apply(current, writes[0]), [writes[1]]) == Apply(Apply(current, writes[0]), writes[1]);
    } else if |writes| == 1 {
      assert writes == [writes[0]] && writes[1..] == [];
    }
  }

  lemma SwitchReaches(device: Device, writes: seq<Write>)
    requires |writes| <= 1 && forall w :: w in writes ==> w.SetOutput?
    ensures ApplyAll(device, writes) == if writes == [] then device else device.(on := writes[0].on)
  {
    if writes != [] {
      assert writes[0] in writes && writes[1..] == [];
    }
  }

  /** All the writes of an update: the supply ends with what the update asks for. */
  lemma PlanReaches(current: Device, update: Update, t: Target)
    requires t == Wanted(current, update)
    ensures ApplyAll(current, Plan(current, update, t)) == Device(t.voltage, t.current, t.enabled)
  {
    var offFirst := update.enabled == Some(false) && current.on;
    var before := if offFirst then [SetOutput(false)] else [];
    var setpoints := SetpointWrites(current, update, t);
    var after := if update.enabled.Some? && !offFirst then [SetOutput(t.enabled)] else [];
    var start := current.(on := current.on && !offFirst);
    SwitchReaches(current, before);
    SetpointsReach(start, update.(enabled := Some(t.enabled)), t);
    assert setpoints == SetpointWrites(start, update.(enabled := Some(t.enabled)), t);
    SwitchReaches(Device(t.voltage, t.current, start.on), after);
    ApplyAllConcat(start, setpoints, after);
    ApplyAllConcat(current, before, setpoints + after);
    assert before + (setpoints + after) == Plan(current, update, t);
  }

  lemma SetpointsBounded(current: Device, update: Update, t: Target, watts: real)
    requires t == Wanted(current, update)
    requires t.voltage >= 0.0 && t.current >= 0.0
    requires AtMost(current, watts)
    requires t.voltage * t.current <= watts
    ensures Throughout(current, SetpointWrites(current, update, t), watts)
  {
    var writes := SetpointWrites(current, update, t);
    if t.current < current.current {
      ProductMonotone(current.voltage, t.current, current.voltage, current.current);
    } else {
      ProductMonotone(t.voltage, current.current, t.voltage, t.current);
    }
    if |writes| == 2 {
      assert writes == [writes[0], writes[1]];
      OneWrite(Apply(current, writes[0]), writes[1], watts);
      assert writes[1..] == [writes[1]];
    } else if |writes| == 1 {
      assert writes == [writes[0]];
      OneWrite(current, writes[0], watts);
    }
  }

  /**
   At every instant of an update, wherever it is cut short, the setpoint product is at most
   any bound on both the product before it and the product it asks for: at most their maximum.
   */
  lemma EveryInstantBounded(current: Device, update: Update, t: Target, watts: real)
    requires t == Wanted(current, update)
    requires t.voltage >= 0.0 && t.current >= 0.0
    requires AtMost(current, watts)
    requires t.voltage * t.current <= watts
    ensures Throughout(current, Plan(current, update, t), watts)
    ensures ApplyAll(current, Plan(current, update, t)) == Device(t.voltage, t.current, t.enabled)
  {
    var offFirst := update.enabled == Some(false) && current.on;
    var before := if offFirst then [SetOutput(false)] else [];
    var setpoints := SetpointWrites(current, update, t);
    var after := if update.enabled.Some? && !offFirst then [SetOutput(t.enabled)] else [];
    var start := current.(on := current.on && !offFirst);
    hide Throughout;
    PlanReaches(current, update, t);
    OutputWriteBounded(current, before, watts);
    SetpointsBounded(start, update.(enabled := Some(t.enabled)), t, watts);
    assert setpoints == SetpointWrites(start, update.(enabled := Some(t.enabled)), t);
    SetpointsReach(start, update.(enabled := Some(t.enabled)), t);
    SwitchReaches(current, before);
    OutputWriteBounded(Device(t.voltage, t.current, start.on), after, watts);
    ThroughoutConcat(start, setpoints, after, watts);
    ThroughoutConcat(current, before, setpoints + after, watts);
    assert before + (setpoints + after) == Plan(current, update, t);
  }

  lemma OutputWriteBounded(device: Device, writes: seq<Write>, watts: real)
    requires AtMost(device, watts)
    requires |writes| <= 1 && forall w :: w in writes ==> w.SetOutput?
    ensures Throughout(device, writes, watts)
  {
    if writes != [] {
      assert writes[0] in writes;
      assert writes == [writes[0]];
      OneWrite(device, writes[0], watts);
    }
  }

  predicate InEnvelope(device: Device) {
    AtMost(device, MAX_OUTPUT_POWER_W + POWER_SLACK_W)
  }

  predicate SafeThroughout(device: Device, writes: seq<Write>) {
    Throughout(device, writes, MAX_OUTPUT_POWER_W + POWER_SLACK_W)
  }

  lemma ValidateFacts(current: Device, limits: Limits, update: Update)
    requires Validate(current, limits, update).Ok?
    ensures var t := Wanted(current, update);
      && Validate(current, limits, update) == Ok(t)
      && 0.0 <= t.voltage <= MAX_OUTPUT_VOLTAGE_V
      && 0.0 <= t.current <= MAX_OUTPUT_CURRENT_A
      && t.voltage * t.current <= MAX_OUTPUT_POWER_W + POWER_SLACK_W
  {
  }

  lemma SafeNext(device: Device, writes: seq<Write>)
    requires SafeThroughout(device, writes) && writes != []
    ensures InEnvelope(Apply(device, writes[0]))
    ensures SafeThroughout(Apply(device, writes[0]), writes[1..])
  {
    var next, more := Apply(device, writes[0]), writes[1..];
    assert Throughout(next, more, MAX_OUTPUT_POWER_W + POWER_SLACK_W);
    assert AtMost(next, MAX_OUTPUT_POWER_W + POWER_SLACK_W);
  }

  /** Starting inside the 150 W envelope, no instant of an accepted update leaves it. */
  lemma UpdateStaysInEnvelope(current: Device, limits: Limits, update: Update)
    requires InEnvelope(current)
    requires Validate(current, limits, update).Ok?
    ensures SafeThroughout(current, Plan(current, update, Wanted(current, update)))
  {
    ValidateFacts(current, limits, update);
    EveryInstantBounded(current, update, Wanted(current, update), MAX_OUTPUT_POWER_W + POWER_SLACK_W);
  }

  /**
   Power is removed before any setpoint moves, and applied only after all of them: when an
   update asks for OFF no setpoint is ever written with the output on, and an output that
   was off is turned on by the last write only.
   */
  lemma OutputOrder(current: Device, update: Update, k: nat)
    requires k <= |Plan(current, update, Wanted(current, update))|
    ensures var plan := Plan(current, update, Wanted(current, update));
      var d := ApplyAll(current, plan[..k]);
      && (update.enabled == Some(false) && k < |plan| && !plan[k].SetOutput? ==> !d.on)
      && (!current.on && d.on ==> k == |plan| && update.enabled == Some(true))
  {
    var t := Wanted(current, update);
    var plan := Plan(current, update, t);
    var offFirst := update.enabled == Some(false) && current.on;
    if k > 0 {
      assert plan[..k] == [plan[0]] + plan[1..k];
      var d1 := Apply(current, plan[0]);
      var last := if update.enabled.Some? && !offFirst then |plan| - 1 else |plan|;
      forall j | 1 <= j < last ensures !plan[j].SetOutput? {
      }
      if k <= last {
        SetpointsKeepOutput(d1, plan[1..k]);
      } else {
        assert plan[..k] == plan[..k - 1] + [plan[k - 1]];
        ApplyAllConcat(current, plan[..k - 1], [plan[k - 1]]);
        assert plan[k - 1] == SetOutput(t.enabled);
        assert ApplyAll(ApplyAll(current, plan[..k - 1]), [plan[k - 1]]).on == t.enabled;
      }
    }
  }

  lemma {:induction false} SetpointsKeepOutput(device: Device, writes: seq<Write>)
    requires forall w :: w in writes ==> !w.SetOutput?
    ensures ApplyAll(device, writes).on == device.on
    decreases |writes|
  {
    if writes != [] {
      assert writes[0] in writes;
      SetpointsKeepOutput(Apply(device, writes[0]), writes[1..]);
    }
  }

  // ---------------------------------------------------------------- what an update means

  /** The setpoint is the `n`-th step, give or take a hundredth of a step. */
  predicate NearStep(value: real, step: real, n: int) {
    Abs(value - n as real * step) <= step / 100.0
  }

  ghost predicate NearSomeStep(value: real, step: real) {
    exists n: int :: NearStep(value, step, n)
  }

  lemma OnStepIff(value: real, step: real)
    requires step == 0.01 || step == 0.001
    ensures OnStep(value, step) <==> NearSomeStep(value, step)
  {
    assert OnStep(value, step) == NearStep(value, step, RoundHalfEven(value / step));
    if n: int :| NearStep(value, step, n) {
      NearestStep(value, step, n);
    }
  }

  lemma NearestStep(value: real, step: real, n: int)
    requires step == 0.01 || step == 0.001
    requires NearStep(value, step, n)
    ensures RoundHalfEven(value / step) == n
  {
    if step == 0.01 {
      assert value / step == value * 100.0;
      assert Abs(value * 100.0 - n as real) <= 0.01;
    } else {
      assert value / step == value * 1000.0;
      assert Abs(value * 1000.0 - n as real) <= 0.01;
    }
  }

  lemma SetpointsAre(v: real, i: real)
    ensures ValidateSetpoints(v, i)
         == if !NearSomeStep(v, 0.01) then Err(VoltageStep)
            else if !NearSomeStep(i, 0.001) then Err(CurrentStep)
            else if v * i > 150.000000001 then Err(Power)
            else Ok(())
  {
    OnStepIff(v, 0.01);
    OnStepIff(i, 0.001);
    hide OnStep, NearSomeStep;
  }

  lemma RangeIs(x: real, most: real, upper: real)
    requires most > 0.0
    ensures 0.0 <= x <= Min(most, Max(0.0, upper)) <==> 0.0 <= x <= most && (x <= upper || x == 0.0)
  {
  }

  /** Every answer of the validation, with the numbers of the data sheet; `v`, `i` and `on` are asked for or held. */
  lemma ValidationIs(current: Device, limits: Limits, update: Update, v: real, i: real, on: bool)
    requires v == if update.voltage.Some? then update.voltage.value else current.voltage
    requires i == if update.current.Some? then update.current.value else current.current
    requires on == if update.enabled.Some? then update.enabled.value else current.on
    ensures Validate(current, limits, update)
         == if !(0.0 <= v <= 30.0 && (v <= limits.upperVoltage || v == 0.0)) then Err(VoltageRange)
            else if !(0.0 <= i <= 5.0 && (i <= limits.upperCurrent || i == 0.0)) then Err(CurrentRange)
            else if !NearSomeStep(v, 0.01) then Err(VoltageStep)
            else if !NearSomeStep(i, 0.001) then Err(CurrentStep)
            else if v * i > 150.000000001 then Err(Power)
            else Ok(Target(v, i, on))
  {
    hide ValidateSetpoints, NearSomeStep, Min, Max;
    SetpointsAre(v, i);
    RangeIs(v, 30.0, limits.upperVoltage);
    RangeIs(i, 5.0, limits.upperCurrent);
    assert Wanted(current, update) == Target(v, i, on);
  }

  /** The read-back of a target in range: within half a step of each setpoint, and the output as asked. */
  lemma VerifiedIff(device: Device, t: Target)
    requires 0.0 <= t.voltage <= 30.0 && 0.0 <= t.current <= 5.0
    ensures Verified(device, t)
      <==> && -0.005 <= device.voltage - t.voltage <= 0.005
           && -0.0005 <= device.current - t.current <= 0.0005
           && device.on == t.enabled
  {
  }

  /** The supply ends with what the update asks for; what it does not mention is as before. */
  predicate CarriedOut(before: Device, update: Update, now: Device) {
    && now.voltage == (if update.voltage.Some? then update.voltage.value else before.voltage)
    && now.current == (if update.current.Some? then update.current.value else before.current)
    && now.on == (if update.enabled.Some? then update.enabled.value else before.on)
  }

  lemma PlanCarriesOut(current: Device, update: Update)
    ensures CarriedOut(current, update, ApplyAll(current, Plan(current, update, Wanted(current, update))))
  {
    hide Plan;
    PlanReaches(current, update, Wanted(current, update));
  }

  // ---------------------------------------------------------------- turning the output off

  /**
   An OFF-only update is one write, and it is sent exactly when the setpoints the supply
   already holds pass validation: a supply whose reported limits have sagged below its own
   setpoints refuses the request before anything is written.
   */
  lemma OffIsSentIffSetpointsValid(current: Device, limits: Limits)
    ensures var off := Update(None, None, Some(false));
      && (Validate(current, limits, off).Ok?
          <==> && 0.0 <= current.voltage <= Min(MAX_OUTPUT_VOLTAGE_V, Max(0.0, limits.upperVoltage))
               && 0.0 <= current.current <= Min(MAX_OUTPUT_CURRENT_A, Max(0.0, limits.upperCurrent))
               && OnStep(current.voltage, VOLTAGE_STEP_V)
               && OnStep(current.current, CURRENT_STEP_A)
               && current.voltage * current.current <= MAX_OUTPUT_POWER_W + POWER_SLACK_W)
      && Plan(current, off, Wanted(current, off)) == [SetOutput(false)]
  {
  }

  /** A live 12 V output whose input has sagged to 9 V: the OFF request is refused. */
  lemma SaggedSupplyRefusesOff()
    ensures Validate(Device(12.0, 1.0, true), Limits(9.0, 5.0), Update(None, None, Some(false)))
         == Err(VoltageRange)
  {
  }

  // ---------------------------------------------------------------- the driver object

  class Supply {
    var device: Device
    var cached: Option<Device>
    ghost var log: seq<Write>
    /** Reads and writes that have failed. */
    ghost var failures: nat

    constructor (device: Device)
      ensures this.device == device && cached == None && log == [] && failures == 0
    {
      this.device, cached, log, failures := device, None, [], 0;
    }

    /** A forced state read; it may fail, and the limits are whatever the supply reports now. */
    method ReadState() returns (r: Result<(Device, Limits), Error>)
      modifies this`cached, this`failures
      ensures r.Ok? ==> r.value.0 == device && cached == Some(device) && failures == old(failures)
      ensures r.Err? ==> r.error == Transport && cached == old(cached) && failures == old(failures) + 1
    {
      var fails: bool := *;
      if fails {
        failures := failures + 1;
        return Err(Transport);
      }
      var upperVoltage: real, upperCurrent: real := *, *;
      cached := Some(device);
      return Ok((device, Limits(upperVoltage, upperCurrent)));
    }

    /** One transport write; a failed one may or may not have reached the supply. */
    method Send(write: Write) returns (ok: bool)
      modifies this`device, this`log, this`failures
      ensures ok ==> log == old(log) + [write] && device == Apply(old(device), write)
      ensures failures == old(failures) + if ok then 0 else 1
      ensures log == old(log) || log == old(log) + [write]
      ensures device == if log == old(log) then old(device) else Apply(old(device), write)
    {
      var arrives: bool, answered: bool := *, *;
      if arrives {
        device, log := Apply(device, write), log + [write];
      }
      if !arrives || !answered {
        failures := failures + 1;
      }
      return arrives && answered;
    }

    /** Send the writes in order, stopping at the first that fails. */
    method SendAll(writes: seq<Write>) returns (ok: bool, ghost sent: nat)
      modifies this`device, this`log, this`failures
      ensures sent <= |writes| && (ok ==> sent == |writes|)
      ensures failures == old(failures) + if ok then 0 else 1
      ensures log == old(log) + writes[..sent]
      ensures device == ApplyAll(old(device), writes[..sent])
    {
      var i := 0;
      while i < |writes|
        invariant 0 <= i <= |writes|
        invariant log == old(log) + writes[..i]
        invariant device == ApplyAll(old(device), writes[..i])
        invariant failures == old(failures)
      {
        assert writes[..i + 1] == writes[..i] + [writes[i]];
        ApplyAllConcat(old(device), writes[..i], [writes[i]]);
        ghost var before := log;
        var sentOk := Send(writes[i]);
        if !sentOk {
          return false, if log == before then i else i + 1;
        }
        i := i + 1;
      }
      return true, i;
    }

    /**
     The update: the writes sent are a prefix of the plan for the state that was read, all
     of it on success; a refused update writes nothing. A transport error is that of one read or
     write that failed, and without one the update succeeds or is refused.
     */
    method UpdateOutput(update: Update) returns (r: Result<Device, Error>, ghost sent: nat)
      modifies this
      ensures var plan := Plan(old(device), update, Wanted(old(device), update));
        && sent <= |plan|
        && log == old(log) + plan[..sent]
        && device == ApplyAll(old(device), plan[..sent])
        && (r.Ok? ==> sent == |plan| && r.value == device && cached == Some(device)
                      && Verified(device, Wanted(old(device), update)))
      ensures r.Ok? ==> CarriedOut(old(device), update, device)
      ensures InEnvelope(old(device)) ==> InEnvelope(device)
      ensures failures == old(failures) + if r == Err(Transport) then 1 else 0
      ensures r.Err? && r.error !in {NoFields, Transport}
        ==> exists limits :: Validate(old(device), limits, update) == Err(r.error)
      ensures update == EMPTY_UPDATE <==> r == Err(NoFields)
      ensures sent > 0 || r.Ok? ==> exists limits :: Validate(old(device), limits, update).Ok?
      ensures r.Err? && r.error != Transport ==> sent == 0
    {
      if update == EMPTY_UPDATE {
        return Err(NoFields), 0;
      }
      var state := ReadState();
      if state.Err? {
        return Err(state.error), 0;
      }
      var (current, limits) := state.value;
      var valid := Validate(current, limits, update);
      if valid.Err? {
        return Err(valid.error), 0;
      }
      var t := valid.value;
      ValidateFacts(current, limits, update);
      var writes := OrderedWrites(current, update, t);
      var ok;
      ok, sent := SendAll(writes);
      PlanReaches(current, update, t);
      if InEnvelope(current) {
        UpdateStaysInEnvelope(current, limits, update);
        ThroughoutPrefix(current, writes, MAX_OUTPUT_POWER_W + POWER_SLACK_W, sent);
      }
      if !ok {
        return Err(Transport), sent;
      }
      assert writes[..|writes|] == writes;
      var updated := ReadState();
      if updated.Err? {
        return Err(updated.error), sent;
      }
      if !Verified(updated.value.0, t) {
        return Err(Rejected), sent;
      }
      return Ok(updated.value.0), sent;
    }

    static method OrderedWrites(current: Device, update: Update, t: Target) returns (writes: seq<Write>)
      ensures writes == Plan(current, update, t)
    {
      var setpoints := OrderedSetpoints(current, update, t);
      if update.enabled == Some(false) && current.on {
        writes := [SetOutput(false)] + setpoints;
        assert writes == Plan(current, update, t);
      } else if update.enabled.Some? {
        writes := setpoints + [SetOutput(t.enabled)];
        assert writes == Plan(current, update, t);
      } else {
        writes := setpoints;
        assert writes == Plan(current, update, t);
      }
    }

    static method OrderedSetpoints(current: Device, update: Update, t: Target) returns (writes: seq<Write>)
      ensures writes == SetpointWrites(current, update, t)
    {
      writes := [];
      if update.current.Some? && t.current < current.current {
        writes := writes + [SetCurrent(t.current)];
      }
      if update.voltage.Some? {
        writes := writes + [SetVoltage(t.voltage)];
      }
      assert update.current.Some? && t.current < current.current ==> writes[0] == SetCurrent(t.current);
      if update.current.Some? && !(exists w :: w in writes && w.SetCurrent?) {
        writes := writes + [SetCurrent(t.current)];
      }
    }
  }
}
