/**
 The emergency latch against the DPS-150 operation lock.

 asyncio runs a coroutine without interruption between two awaits, and its lock is a FIFO
 queue whose head is the holder. A `World` is the latch, the supply and that queue; a
 `Move` is one uninterrupted piece of one coroutine. A run is any list of enabled moves,
 so every interleaving of requests, programs, presets, stops, failures and cancellations is
 a run. A job that failed or was cancelled leaves the queue wherever it stood.
 */
module EmergencyStop {
  import opened Common
  import opened Dps150Output

  /**
   What waits for, or holds, the operation lock.
   - `ReadFirst`: the service reads the state before it looks at the latch.
   - `PresetRead`: `apply_preset` has looked at the latch and reads the preset. Its setpoints are
     those the slot will hold when the read is made; a save ahead of it in the lock may set them.
   - `Other`: any operation that writes neither output nor setpoints.
   - `Pending`: a driver update that has joined the lock and not yet read the state.
   - `Writing`: a validated update with its remaining writes.
   `sealed` marks an OFF that joined the lock while the latch was set.
   */
  datatype Job =
    | ReadFirst(update: Update)
    | PresetRead(update: Update)
    | Other
    | Pending(update: Update, viaPreset: bool, sealed: bool)
    | Writing(target: Target, rest: seq<Write>, viaPreset: bool, sealed: bool)

  datatype World = World(latched: bool, device: Device, limits: Limits, queue: seq<Job>)

  datatype Move =
    | Latch
    | Reset
    | Drift(limits: Limits)
    | RequestUpdate(update: Update)
    | ProgramStep(voltage: real, current: real)
    | RequestOff
    | RequestPreset(voltage: real, current: real, enabled: Option<bool>)
    | RequestOther
    | Advance
    | Fail(at: nat, arrives: bool)

  const OFF := Update(None, None, Some(false))

  function Joined(update: Update, viaPreset: bool, latched: bool): Job {
    Pending(update, viaPreset, latched && update.enabled == Some(false))
  }

  function Unseal(job: Job): Job {
    match job
    case Pending(u, p, _) => Pending(u, p, false)
    case Writing(t, r, p, _) => Writing(t, r, p, false)
    case _ => job
  }

  /** The latch check of each entry point happens in the same piece that joins the lock. */
  predicate Enabled(w: World, move: Move) {
    match move
    case ProgramStep(_, _) => !w.latched
    case RequestPreset(_, _, enabled) => enabled == Some(true) ==> !w.latched
    case Advance => w.queue != []
    case Fail(at, _) => at < |w.queue|
    case _ => true
  }

  function Enqueue(w: World, job: Job): World {
    w.(queue := w.queue + [job])
  }

  function Step(w: World, move: Move): World
    requires Enabled(w, move)
  {
    match move
    case Latch => w.(latched := true)
    case Reset => w.(latched := false, queue := seq(|w.queue|, i requires 0 <= i < |w.queue| => Unseal(w.queue[i])))
    case Drift(limits) => w.(limits := limits)
    case RequestUpdate(update) => Enqueue(w, ReadFirst(update))
    case ProgramStep(v, i) => Enqueue(w, Joined(Update(Some(v), Some(i), Some(true)), false, w.latched))
    case RequestOff => Enqueue(w, Joined(OFF, false, w.latched))
    case RequestPreset(v, i, enabled) => Enqueue(w, PresetRead(Update(Some(v), Some(i), enabled)))
    case RequestOther => Enqueue(w, Other)
    case Advance => AdvanceHead(w.(queue := w.queue[1..]), w.queue[0])
    case Fail(at, arrives) =>
      var job := w.queue[at];
      var left := w.(queue := w.queue[..at] + w.queue[at + 1..]);
      if at == 0 && arrives && job.Writing? && job.rest != []
      then left.(device := Apply(w.device, job.rest[0]))
      else left
  }

  /** One piece of the lock holder; `w` is the world with the holder taken off the queue. */
  function AdvanceHead(w: World, job: Job): World {
    match job
    case Other => w
    case ReadFirst(update) =>
      var targetEnabled := if update.enabled.None? then w.device.on else update.enabled.value;
      if (targetEnabled && w.latched) || update == EMPTY_UPDATE then w
      else Enqueue(w, Joined(update, false, w.latched))
    case PresetRead(update) => Enqueue(w, Joined(update, true, w.latched))
    case Pending(update, viaPreset, sealed) =>
      (match Validate(w.device, w.limits, update)
       case Err(_) => w
       case Ok(t) => w.(queue := [Writing(t, Plan(w.device, update, t), viaPreset, sealed)] + w.queue))
    case Writing(t, rest, viaPreset, sealed) =>
      if rest == [] then w
      else w.(device := Apply(w.device, rest[0]),
              queue := [Writing(t, rest[1..], viaPreset, sealed)] + w.queue)
  }

  predicate Valid(w: World, moves: seq<Move>)
    decreases |moves|
  {
    moves == [] || (Enabled(w, moves[0]) && Valid(Step(w, moves[0]), moves[1..]))
  }

  function Run(w: World, moves: seq<Move>): World
    requires Valid(w, moves)
    decreases |moves|
  {
    if moves == [] then w else Run(Step(w, moves[0]), moves[1..])
  }

  predicate Initial(w: World) {
    InEnvelope(w.device) && w.queue == []
  }

  // ---------------------------------------------------------------- what a job may still do

  /** The job has passed every latch check it will make and asks for ON. */
  predicate Armed(job: Job) {
    match job
    case PresetRead(u) => u.enabled == Some(true)
    case Pending(u, _, _) => u.enabled == Some(true)
    case Writing(_, rest, _, _) => SetOutput(true) in rest
    case _ => false
  }

  predicate FromPreset(job: Job) {
    job.PresetRead? || (job.Pending? && job.viaPreset) || (job.Writing? && job.viaPreset)
  }

  predicate Sealed(job: Job) {
    (job.Pending? || job.Writing?) && job.sealed
  }

  /** Setpoints some supply would accept: they pass validation with the widest limits. */
  predicate Acceptable(update: Update) {
    Validate(Device(0.0, 0.0, false), Limits(MAX_OUTPUT_VOLTAGE_V, MAX_OUTPUT_CURRENT_A), update).Ok?
  }

  predicate CanTurnOn(job: Job) {
    Armed(job) && (job.PresetRead? || job.Pending? ==> Acceptable(job.update))
  }

  // ---------------------------------------------------------------- the invariant

  predicate JobOk(w: World, job: Job) {
    && (Sealed(job) ==> w.latched)
    && (job.Pending? && job.sealed ==> job.update.enabled == Some(false))
    && (job.PresetRead? || (job.Pending? && job.viaPreset)
        ==> job.update.voltage.Some? && job.update.current.Some?)
    && (job.Writing? ==> SafeThroughout(w.device, job.rest))
    && (job.Writing? && job.sealed
        ==> SetOutput(true) !in job.rest && !ApplyAll(w.device, job.rest).on && !job.target.enabled)
  }

  ghost predicate Inv(w: World) {
    && InEnvelope(w.device)
    && (forall k :: 0 <= k < |w.queue| ==> JobOk(w, w.queue[k]))
    && (forall k :: 0 < k < |w.queue| ==> !w.queue[k].Writing?)
    && (forall i, j :: 0 <= i < j < |w.queue| && Sealed(w.queue[i]) && Armed(w.queue[j])
          ==> FromPreset(w.queue[j]))
  }

  lemma EnqueueKeepsInv(w: World, job: Job)
    requires Inv(w) && JobOk(w, job) && !job.Writing?
    requires Armed(job) ==> FromPreset(job) || !w.latched
    ensures Inv(Enqueue(w, job))
  {
  }

  lemma DropKeepsInv(w: World, at: nat)
    requires Inv(w) && at < |w.queue|
    ensures Inv(w.(queue := w.queue[..at] + w.queue[at + 1..]))
  {
  }

  /** Changing the device matters only to the job that writes, which is the one that left. */
  lemma DeviceChangeKeepsInv(w: World, device: Device)
    requires Inv(w) && InEnvelope(device)
    requires w.queue != [] ==> !w.queue[0].Writing?
    ensures Inv(w.(device := device))
  {
  }

  lemma PushHeadKeepsInv(w: World, job: Job)
    requires Inv(w) && JobOk(w, job)
    requires w.queue != [] ==> !w.queue[0].Writing?
    requires Sealed(job) ==> forall k :: 0 <= k < |w.queue| && Armed(w.queue[k]) ==> FromPreset(w.queue[k])
    ensures Inv(w.(queue := [job] + w.queue))
  {
  }

  lemma PlanTurnsOn(current: Device, update: Update, t: Target)
    requires t == Wanted(current, update)
    ensures SetOutput(true) in Plan(current, update, t) <==> update.enabled == Some(true)
  {
  }

  lemma ValidatedJobOk(w: World, update: Update, t: Target, viaPreset: bool, sealed: bool)
    requires InEnvelope(w.device)
    requires Validate(w.device, w.limits, update) == Ok(t)
    requires sealed ==> w.latched && update.enabled == Some(false)
    ensures JobOk(w, Writing(t, Plan(w.device, update, t), viaPreset, sealed))
  {
    hide Validate, Plan;
    ValidateFacts(w.device, w.limits, update);
    UpdateStaysInEnvelope(w.device, w.limits, update);
    PlanTurnsOn(w.device, update, t);
    EveryInstantBounded(w.device, update, t, MAX_OUTPUT_POWER_W + POWER_SLACK_W);
  }

  /** The world once the lock holder has left the queue. */
  function WithoutHolder(w: World): World
    requires w.queue != []
  {
    w.(queue := w.queue[1..])
  }

  lemma HolderLeaves(w: World)
    requires Inv(w) && w.queue != []
    ensures Inv(WithoutHolder(w)) && JobOk(w, w.queue[0])
    ensures var left := WithoutHolder(w).queue;
      && (left != [] ==> !left[0].Writing?)
      && (Sealed(w.queue[0]) ==> forall k :: 0 <= k < |left| && Armed(left[k]) ==> FromPreset(left[k]))
  {
    DropKeepsInv(w, 0);
    assert w.queue[..0] + w.queue[1..] == w.queue[1..];
    forall k | 0 <= k < |w.queue| - 1 ensures w.queue[1..][k] == w.queue[k + 1] {
    }
  }

  lemma PendingKeepsInv(w: World)
    requires Inv(w) && w.queue != [] && w.queue[0].Pending?
    ensures Inv(Step(w, Advance))
  {
    var job, left := w.queue[0], WithoutHolder(w);
    HolderLeaves(w);
    hide Inv, Validate, Plan;
    var checked := Validate(w.device, w.limits, job.update);
    if checked.Ok? {
      InvInEnvelope(left);
      ValidatedJobOk(left, job.update, checked.value, job.viaPreset, job.sealed);
      PushHeadKeepsInv(
        left, Writing(checked.value, Plan(w.device, job.update, checked.value), job.viaPreset, job.sealed));
    }
  }

  lemma InvInEnvelope(w: World)
    requires Inv(w)
    ensures InEnvelope(w.device)
  {
  }

  lemma WritingKeepsInv(w: World)
    requires Inv(w) && w.queue != [] && w.queue[0].Writing?
    ensures Inv(Step(w, Advance))
  {
    var job, left := w.queue[0], WithoutHolder(w);
    HolderLeaves(w);
    hide Inv;
    if job.rest != [] {
      var device := Apply(w.device, job.rest[0]);
      SafeNext(w.device, job.rest);
      DeviceChangeKeepsInv(left, device);
      PushHeadKeepsInv(left.(device := device), Writing(job.target, job.rest[1..], job.viaPreset, job.sealed));
    }
  }

  lemma AdvanceKeepsInv(w: World)
    requires Inv(w) && w.queue != []
    ensures Inv(Step(w, Advance))
  {
    var left := WithoutHolder(w);
    match w.queue[0]
    case Other => HolderLeaves(w);
    case ReadFirst(update) =>
      HolderLeaves(w);
      if Step(w, Advance) != left {
        EnqueueKeepsInv(left, Joined(update, false, w.latched));
      }
    case PresetRead(update) =>
      HolderLeaves(w);
      EnqueueKeepsInv(left, Joined(update, true, w.latched));
    case Pending(_, _, _) => PendingKeepsInv(w);
    case Writing(_, _, _, _) => WritingKeepsInv(w);
  }

  /** Every move keeps the invariant. */
  lemma StepKeepsInv(w: World, move: Move)
    requires Inv(w) && Enabled(w, move)
    ensures Inv(Step(w, move))
  {
    match move
    case Advance => AdvanceKeepsInv(w);
    case Fail(at, arrives) =>
      var job := w.queue[at];
      DropKeepsInv(w, at);
      if at == 0 && arrives && job.Writing? && job.rest != [] {
        assert JobOk(w, job);
        SafeNext(w.device, job.rest);
        DeviceChangeKeepsInv(w.(queue := w.queue[..at] + w.queue[at + 1..]), Apply(w.device, job.rest[0]));
      }
    case RequestUpdate(update) => EnqueueKeepsInv(w, ReadFirst(update));
    case ProgramStep(v, i) => EnqueueKeepsInv(w, Joined(Update(Some(v), Some(i), Some(true)), false, w.latched));
    case RequestOff => EnqueueKeepsInv(w, Joined(OFF, false, w.latched));
    case RequestPreset(v, i, enabled) => EnqueueKeepsInv(w, PresetRead(Update(Some(v), Some(i), enabled)));
    case RequestOther => EnqueueKeepsInv(w, Other);
    case Latch => RetagKeepsInv(w, Step(w, move));
    case Reset => RetagKeepsInv(w, Step(w, move));
    case Drift(_) => RetagKeepsInv(w, Step(w, move));
  }

  lemma RetagKeepsInv(w: World, w': World)
    requires Inv(w)
    requires w'.device == w.device && |w'.queue| == |w.queue|
    requires forall k :: 0 <= k < |w.queue| ==> w'.queue[k] == w.queue[k] || w'.queue[k] == Unseal(w.queue[k])
    requires !w'.latched && w.latched ==> forall k :: 0 <= k < |w.queue| ==> w'.queue[k] == Unseal(w.queue[k])
    ensures Inv(w')
  {
  }

  lemma {:induction false} RunKeepsInv(w: World, moves: seq<Move>)
    requires Inv(w) && Valid(w, moves)
    ensures Inv(Run(w, moves))
    decreases |moves|
  {
    if moves != [] {
      StepKeepsInv(w, moves[0]);
      RunKeepsInv(Step(w, moves[0]), moves[1..]);
    }
  }

  // ---------------------------------------------------------------- main results

  /** Power envelope over every run: no interleaving, failure or cut-off update leaves 150 W. */
  lemma EnvelopeInEveryRun(w: World, moves: seq<Move>)
    requires Initial(w) && Valid(w, moves)
    ensures InEnvelope(Run(w, moves).device)
  {
    RunKeepsInv(w, moves);
  }

  /** The next piece completes, without error, an OFF that joined the lock under the latch. */
  predicate OffCompletes(w: World) {
    && w.queue != []
    && Sealed(w.queue[0]) && w.queue[0].Writing? && w.queue[0].rest == []
    && Verified(w.device, w.queue[0].target)
  }

  /**
   FIFO finality: in every run, when such an OFF completes the output is off and every job
   still waiting that could turn it on comes from `apply_preset`. All updates and program
   steps that passed the latch check were ahead of the OFF in the lock.
   */
  lemma OffIsBehindEveryOn(w: World, moves: seq<Move>)
    requires Initial(w) && Valid(w, moves) && OffCompletes(Run(w, moves))
    ensures var done := Step(Run(w, moves), Advance);
      && done.latched && !done.device.on
      && (forall k :: 0 <= k < |done.queue| && Armed(done.queue[k]) ==> FromPreset(done.queue[k]))
  {
    RunKeepsInv(w, moves);
    var before := Run(w, moves);
    assert JobOk(before, before.queue[0]);
    var done := Step(before, Advance);
    forall k | 0 <= k < |done.queue| && Armed(done.queue[k]) ensures FromPreset(done.queue[k]) {
      assert done.queue[k] == before.queue[k + 1];
    }
  }

  /** Latched, off, and nothing that can still turn the output on. */
  ghost predicate Stopped(w: World) {
    && Inv(w) && w.latched && !w.device.on
    && (forall k :: 0 <= k < |w.queue| ==> !CanTurnOn(w.queue[k]))
    && (forall k :: 0 <= k < |w.queue| && Armed(w.queue[k]) ==> FromPreset(w.queue[k]))
  }

  lemma AcceptedIsAcceptable(device: Device, limits: Limits, update: Update)
    requires update.voltage.Some? && update.current.Some?
    requires Validate(device, limits, update).Ok?
    ensures Acceptable(update)
  {
  }

  lemma StoppedStays(w: World, move: Move)
    requires Stopped(w) && Enabled(w, move) && move != Reset
    ensures Stopped(Step(w, move))
  {
    hide Validate, Plan;
    StepKeepsInv(w, move);
    if move == Advance {
      HolderStaysOff(w);
    }
    hide Inv, Acceptable;
  }

  /** What the lock holder does while stopped leaves the output off and adds nothing that could turn it on. */
  lemma HolderStaysOff(w: World)
    requires Stopped(w) && w.queue != []
    ensures var w' := Step(w, Advance);
      && w'.latched && !w'.device.on
      && (forall k :: 0 <= k < |w'.queue| ==> !CanTurnOn(w'.queue[k]))
      && (forall k :: 0 <= k < |w'.queue| && Armed(w'.queue[k]) ==> FromPreset(w'.queue[k]))
  {
    hide Validate, Plan;
    var job := w.queue[0];
    assert JobOk(w, job) && !CanTurnOn(job);
    if job.Pending? {
      var checked := Validate(w.device, w.limits, job.update);
      if checked.Ok? {
        ValidateFacts(w.device, w.limits, job.update);
        if Armed(job) {
          AcceptedIsAcceptable(w.device, w.limits, job.update);
        }
        PlanTurnsOn(w.device, job.update, checked.value);
      }
    }
    hide Inv, JobOk, Acceptable;
  }

  lemma {:induction false} StoppedForGood(w: World, moves: seq<Move>)
    requires Stopped(w) && Valid(w, moves) && Reset !in moves
    ensures Stopped(Run(w, moves))
    decreases |moves|
  {
    if moves != [] {
      assert moves[0] in moves;
      StoppedStays(w, moves[0]);
      assert forall l :: l in moves[1..] ==> l in moves;
      StoppedForGood(Step(w, moves[0]), moves[1..]);
    }
  }

  ghost predicate CanComeBackOn(w: World) {
    exists moves :: Valid(w, moves) && Reset !in moves && Run(w, moves).device.on
  }

  /**
   Emergency-stop finality, exactly. After the OFF of a stop has completed, the output can
   come on again before the latch is reset if and only if an `apply_preset(enabled=True)`
   that looked at the latch earlier still waits for the lock with setpoints the supply takes.
   */
  lemma StopIsFinalIff(w: World, moves: seq<Move>)
    requires Initial(w) && Valid(w, moves) && OffCompletes(Run(w, moves))
    ensures var done := Step(Run(w, moves), Advance);
      CanComeBackOn(done)
      <==> exists k :: 0 <= k < |done.queue| && FromPreset(done.queue[k]) && CanTurnOn(done.queue[k])
  {
    RunKeepsInv(w, moves);
    StepKeepsInv(Run(w, moves), Advance);
    OffIsBehindEveryOn(w, moves);
    var done := Step(Run(w, moves), Advance);
    if exists k :: 0 <= k < |done.queue| && FromPreset(done.queue[k]) && CanTurnOn(done.queue[k]) {
      var k :| 0 <= k < |done.queue| && FromPreset(done.queue[k]) && CanTurnOn(done.queue[k]);
      var back := TurnOnRun(done, k);
    } else {
      assert Stopped(done);
      forall more | Valid(done, more) && Reset !in more ensures !Run(done, more).device.on {
        StoppedForGood(done, more);
      }
    }
  }

  // ---------------------------------------------------------------- runs without failures

  lemma {:induction false} RunConcat(w: World, a: seq<Move>, b: seq<Move>)
    requires Valid(w, a) && Valid(Run(w, a), b)
    ensures Valid(w, a + b) && Run(w, a + b) == Run(Run(w, a), b)
    decreases |a|
  {
    if a == [] {
      assert a + b == b;
    } else {
      assert (a + b)[1..] == a[1..] + b;
      RunConcat(Step(w, a[0]), a[1..], b);
    }
  }

  lemma PrependMove(w: World, move: Move, moves: seq<Move>)
    requires Enabled(w, move) && Valid(Step(w, move), moves)
    ensures Valid(w, [move] + moves) && Run(w, [move] + moves) == Run(Step(w, move), moves)
  {
  }

  /** The lock holder goes on, and nothing else happens. */
  ghost predicate OnlyAdvances(moves: seq<Move>) {
    forall m :: m in moves ==> m == Advance
  }

  /** Such a run, to the end. */
  ghost predicate Finishes(w: World, moves: seq<Move>, end: World) {
    OnlyAdvances(moves) && Valid(w, moves) && Run(w, moves) == end
  }

  lemma FinishesAfterOne(w: World, moves: seq<Move>, end: World)
    requires w.queue != [] && Finishes(Step(w, Advance), moves, end)
    ensures Finishes(w, [Advance] + moves, end)
  {
    PrependMove(w, Advance, moves);
  }

  /** A validated update that meets no failure makes all its writes and leaves the lock. */
  lemma {:induction false} WritesGoOut(w: World) returns (moves: seq<Move>)
    requires w.queue != [] && w.queue[0].Writing?
    ensures Finishes(w, moves, WithoutHolder(w).(device := ApplyAll(w.device, w.queue[0].rest)))
    decreases |w.queue[0].rest|
  {
    var next := Step(w, Advance);
    if w.queue[0].rest == [] {
      moves := [];
      assert Finishes(next, moves, next);
    } else {
      moves := WritesGoOut(next);
      assert next.queue[1..] == w.queue[1..];
    }
    FinishesAfterOne(w, moves, WithoutHolder(w).(device := ApplyAll(w.device, w.queue[0].rest)));
    moves := [Advance] + moves;
  }

  /** The world once an update that has reached the driver is done with, all going well. */
  ghost predicate DoneWith(w: World, update: Update, end: World) {
    && end == w.(device := end.device, queue := end.queue)
    && if Validate(w.device, w.limits, update).Ok?
       then CarriedOut(w.device, update, end.device)
       else end.device == w.device
  }

  /** An update at the head of the lock that meets no failure is carried out, or refused by validation. */
  lemma PendingIsCarriedOut(w: World) returns (moves: seq<Move>, end: World)
    requires w.queue != [] && w.queue[0].Pending?
    ensures Finishes(w, moves, end) && DoneWith(w, w.queue[0].update, end) && end.queue == w.queue[1..]
  {
    hide Validate, Plan;
    var update, next := w.queue[0].update, Step(w, Advance);
    if Validate(w.device, w.limits, update).Ok? {
      ValidateFacts(w.device, w.limits, update);
      PlanCarriesOut(w.device, update);
      moves := WritesGoOut(next);
      end := WithoutHolder(next).(device := ApplyAll(w.device, next.queue[0].rest));
      assert next.queue[1..] == w.queue[1..];
    } else {
      moves, end := [], next;
    }
    FinishesAfterOne(w, moves, end);
    moves := [Advance] + moves;
  }

  /** The state the output is to have. */
  predicate AimsAtOn(w: World, update: Update) {
    update.enabled == Some(true) || (update.enabled.None? && w.device.on)
  }

  /**
   The latch test of the service: an update whose state has been read goes on to the driver, at the
   end of the lock, if and only if the latch is clear or the output is to be off. Otherwise it leaves.
   */
  lemma GoesToDriverIff(w: World)
    requires w.queue != [] && w.queue[0].ReadFirst? && w.queue[0].update != EMPTY_UPDATE
    ensures var update, queue := w.queue[0].update, Step(w, Advance).queue;
      && Step(w, Advance) == w.(queue := queue)
      && (w.latched && AimsAtOn(w, update) ==> queue == w.queue[1..])
      && (!w.latched || !AimsAtOn(w, update) ==>
            && |queue| == |w.queue| && queue[..|w.queue| - 1] == w.queue[1..]
            && queue[|w.queue| - 1].Pending? && queue[|w.queue| - 1].update == update
            && !queue[|w.queue| - 1].viaPreset)
  {
  }

  /** What each request asks of the supply, once its first piece has been let through. */
  ghost predicate AsksFor(request: Move, update: Update) {
    match request
    case RequestUpdate(u) => u == update
    case ProgramStep(v, i) => update == Update(Some(v), Some(i), Some(true))
    case RequestPreset(v, i, enabled) => update == Update(Some(v), Some(i), enabled)
    case RequestOff => update == Update(None, None, Some(false))
    case _ => false
  }

  /** The latch stops what aims at ON, but for a preset that does not mention the output. */
  ghost predicate StoppedByLatch(w: World, request: Move, update: Update) {
    && w.latched
    && (if request.RequestUpdate? then AimsAtOn(w, update) else update.enabled == Some(true))
  }

  /**
   Every request that finds the lock free and meets no failure: it is carried out, to the value of
   each field, or refused by validation - or stopped by the latch, before it is let in or, for an
   update, once the state has been read.
   */
  lemma RequestIsCarriedOut(w: World, request: Move, update: Update) returns (moves: seq<Move>, end: World)
    requires w.queue == [] && AsksFor(request, update)
    ensures Enabled(w, request) <==> request.RequestUpdate? || !StoppedByLatch(w, request, update)
    ensures Enabled(w, request) ==>
      && Finishes(Step(w, request), moves, end) && end.queue == []
      && (if StoppedByLatch(w, request, update) then end == w else DoneWith(w, update, end))
  {
    hide Validate, Plan;
    moves, end := [], w;
    if Enabled(w, request) {
      var w1 := Step(w, request);
      if w1.queue[0].Pending? {
        moves, end := PendingIsCarriedOut(w1);
      } else {
        var w2 := Step(w1, Advance);
        assert w1.queue == [w1.queue[0]];
        if w2.queue != [] {
          moves, end := PendingIsCarriedOut(w2);
        } else {
          end := w2;
          NothingAsked(w, update);
        }
        FinishesAfterOne(w1, moves, end);
        moves := [Advance] + moves;
      }
    }
  }

  lemma NothingAsked(w: World, update: Update)
    ensures update == EMPTY_UPDATE ==> DoneWith(w, update, w)
  {
  }

  /** The latch, the limits and new requests leave the supply alone and every job in its place. */
  lemma OnlyTheHolderActs(w: World, move: Move)
    requires Enabled(w, move) && !move.Advance? && !move.Fail?
    ensures var w' := Step(w, move);
      && w'.device == w.device
      && |w'.queue| == |w.queue| + (if move.Latch? || move.Reset? || move.Drift? then 0 else 1)
      && (forall k :: 0 <= k < |w.queue| ==>
            w'.queue[k] == if move == Reset then Unseal(w.queue[k]) else w.queue[k])
      && w'.latched == (move == Latch || (w.latched && move != Reset))
      && w'.limits == (if move.Drift? then move.limits else w.limits)
      && (|w'.queue| > |w.queue| ==> (FromPreset(w'.queue[|w.queue|]) <==> move.RequestPreset?))
  {
  }

  /** A job that stays or joins again still comes from a preset exactly if it did. */
  lemma OriginStays(w: World)
    requires w.queue != [] && |Step(w, Advance).queue| == |w.queue|
    ensures var queue := Step(w, Advance).queue;
      FromPreset(if w.queue[0].Writing? || w.queue[0].Pending? then queue[0] else queue[|queue| - 1])
      <==> FromPreset(w.queue[0])
  {
  }

  /** An update can be cut off after any number of its writes, and then leaves the lock. */
  lemma {:induction false} CutAnywhere(w: World, k: nat) returns (moves: seq<Move>)
    requires w.queue != [] && w.queue[0].Writing? && k <= |w.queue[0].rest|
    ensures Valid(w, moves)
    ensures Run(w, moves) == WithoutHolder(w).(device := ApplyAll(w.device, w.queue[0].rest[..k]))
    decreases k
  {
    var rest := w.queue[0].rest;
    assert w.queue[..0] + w.queue[1..] == w.queue[1..];
    if k == 0 {
      moves := [Fail(0, false)];
    } else if k == 1 {
      assert rest[..1] == [rest[0]] && [rest[0]][1..] == [];
      moves := [Fail(0, true)];
    } else {
      var next := Step(w, Advance);
      assert next.queue[1..] == w.queue[1..] && rest[..k][1..] == rest[1..][..k - 1];
      var more := CutAnywhere(next, k - 1);
      PrependMove(w, Advance, more);
      moves := [Advance] + more;
    }
  }

  // ---------------------------------------------------------------- the runs that do turn it on

  lemma {:induction false} Drain(w: World, k: nat) returns (moves: seq<Move>)
    requires k <= |w.queue|
    ensures Valid(w, moves) && Reset !in moves
    ensures Run(w, moves) == w.(queue := w.queue[k..])
    decreases k
  {
    if k == 0 {
      moves := [];
    } else {
      var w' := Step(w, Fail(0, false));
      assert w'.queue == w.queue[1..];
      var more := Drain(w', k - 1);
      assert w.queue[1..][k - 1..] == w.queue[k..];
      moves := [Fail(0, false)] + more;
      assert moves[1..] == more;
    }
  }

  lemma {:induction false} WriteUntilOn(w: World) returns (moves: seq<Move>)
    requires w.queue != [] && w.queue[0].Writing? && SetOutput(true) in w.queue[0].rest
    ensures Valid(w, moves) && Reset !in moves && Run(w, moves).device.on
    decreases |w.queue[0].rest|
  {
    var rest := w.queue[0].rest;
    var w' := Step(w, Advance);
    if rest[0] == SetOutput(true) {
      moves := [Advance];
      assert moves[1..] == [];
    } else {
      assert w'.queue[0].rest == rest[1..];
      assert SetOutput(true) in rest[1..];
      var more := WriteUntilOn(w');
      moves := [Advance] + more;
      assert moves[1..] == more;
    }
  }

  lemma TwoSteps(w: World, a: Move, b: Move)
    requires Enabled(w, a) && Enabled(Step(w, a), b)
    ensures Valid(w, [a, b]) && Run(w, [a, b]) == Step(Step(w, a), b)
  {
    assert [a, b][1..] == [b];
    assert [b][1..] == [];
    var next := Step(w, a);
    assert Valid(Step(next, b), []);
    assert Valid(next, [b]) && Run(next, [b]) == Step(next, b);
  }

  lemma HeadPresetTurnsOn(w: World) returns (moves: seq<Move>)
    requires w.queue != [] && w.queue[0].Pending? && CanTurnOn(w.queue[0])
    requires w.queue[0].update.voltage.Some? && w.queue[0].update.current.Some?
    ensures Valid(w, moves) && Reset !in moves && Run(w, moves).device.on
  {
    var wide := Drift(Limits(MAX_OUTPUT_VOLTAGE_V, MAX_OUTPUT_CURRENT_A));
    var update := w.queue[0].update;
    var w1 := Step(w, wide);
    assert Validate(w1.device, w1.limits, update).Ok?;
    ValidateFacts(w1.device, w1.limits, update);
    PlanTurnsOn(w1.device, update, Wanted(w1.device, update));
    TwoSteps(w, wide, Advance);
    var more := WriteUntilOn(Step(w1, Advance));
    RunConcat(w, [wide, Advance], more);
    moves := [wide, Advance] + more;
  }

  /** A preset read at the head rejoins at the tail; drain what is ahead of it and go on. */
  lemma HeadPresetReadTurnsOn(w: World) returns (moves: seq<Move>)
    requires w.queue != [] && w.queue[0].PresetRead? && CanTurnOn(w.queue[0])
    requires w.queue[0].update.voltage.Some? && w.queue[0].update.current.Some?
    ensures Valid(w, moves) && Reset !in moves && Run(w, moves).device.on
  {
    var job := Joined(w.queue[0].update, true, w.latched);
    var w1 := Step(w, Advance);
    assert w1 == w.(queue := w.queue[1..] + [job]);
    assert w1.queue[|w.queue| - 1] == job;
    var later := QueuedPresetTurnsOn(w1, |w.queue| - 1);
    PrependMove(w, Advance, later);
    moves := [Advance] + later;
  }

  lemma QueuedPresetTurnsOn(w: World, k: nat) returns (moves: seq<Move>)
    requires k < |w.queue| && w.queue[k].Pending? && CanTurnOn(w.queue[k])
    requires w.queue[k].update.voltage.Some? && w.queue[k].update.current.Some?
    ensures Valid(w, moves) && Reset !in moves && Run(w, moves).device.on
  {
    var ahead := Drain(w, k);
    var after := HeadPresetTurnsOn(w.(queue := w.queue[k..]));
    RunConcat(w, ahead, after);
    moves := ahead + after;
  }

  lemma HeadTurnsOn(w: World) returns (moves: seq<Move>)
    requires w.queue != [] && FromPreset(w.queue[0]) && CanTurnOn(w.queue[0])
    requires JobOk(w, w.queue[0])
    ensures Valid(w, moves) && Reset !in moves && Run(w, moves).device.on
  {
    match w.queue[0]
    case Writing(_, _, _, _) => moves := WriteUntilOn(w);
    case Pending(_, _, _) => moves := HeadPresetTurnsOn(w);
    case PresetRead(_) => moves := HeadPresetReadTurnsOn(w);
  }

  lemma TurnOnRun(w: World, k: nat) returns (moves: seq<Move>)
    requires Inv(w) && k < |w.queue| && FromPreset(w.queue[k]) && CanTurnOn(w.queue[k])
    ensures Valid(w, moves) && Reset !in moves && Run(w, moves).device.on
  {
    var ahead := Drain(w, k);
    var w1 := Run(w, ahead);
    assert w1.queue[0] == w.queue[k] && JobOk(w, w.queue[k]);
    assert JobOk(w1, w1.queue[0]);
    var after := HeadTurnsOn(w1);
    RunConcat(w, ahead, after);
    moves := ahead + after;
  }

  /**
   The witness run: a preset requested while safe, the stop, its OFF completing without
   error, and then the preset's second pass through the lock turning the output on.
   */
  lemma PresetOvertakesStop(w: World) returns (before: seq<Move>, after: seq<Move>)
    requires Initial(w) && !w.latched && !w.device.on
    requires Validate(w.device, w.limits, OFF).Ok?
    ensures Valid(w, before) && OffCompletes(Run(w, before))
    ensures Valid(Step(Run(w, before), Advance), after) && Reset !in after
    ensures Run(Step(Run(w, before), Advance), after).latched
    ensures Run(Step(Run(w, before), Advance), after).device.on
  {
    var preset := Update(Some(5.0), Some(1.0), Some(true));
    ValidateFacts(w.device, w.limits, OFF);
    OffIsSentIffSetpointsValid(w.device, w.limits);
    var t := Wanted(w.device, OFF);
    var w1 := Step(w, RequestPreset(5.0, 1.0, Some(true)));
    var w2 := Step(w1, Latch);
    var w3 := Step(w2, RequestOff);
    var w4 := Step(w3, Advance);
    assert w4.queue == [Pending(OFF, false, true), Pending(preset, true, false)];
    var w5 := Step(w4, Advance);
    assert w5.queue == [Writing(t, [SetOutput(false)], false, true), Pending(preset, true, false)];
    assert [SetOutput(false)][1..] == [];
    var w6 := Step(w5, Advance);
    assert w6.queue == [Writing(t, [], false, true), Pending(preset, true, false)];
    SixSteps(w, RequestPreset(5.0, 1.0, Some(true)), Latch, RequestOff, Advance, Advance, Advance);
    before := [RequestPreset(5.0, 1.0, Some(true)), Latch, RequestOff] + [Advance, Advance, Advance];
    var w7 := Step(w6, Advance);
    assert w7.queue == [Pending(preset, true, false)];
    FivePointZeroIsAcceptable();
    after := HeadPresetTurnsOn(w7);
    LatchStays(w7, after);
  }

  lemma FivePointZeroIsAcceptable()
    ensures Acceptable(Update(Some(5.0), Some(1.0), Some(true)))
  {
  }

  lemma {:induction false} LatchStays(w: World, moves: seq<Move>)
    requires w.latched && Valid(w, moves) && Reset !in moves
    ensures Run(w, moves).latched
    decreases |moves|
  {
    if moves != [] {
      assert moves[0] in moves;
      assert forall m :: m in moves[1..] ==> m in moves;
      LatchStays(Step(w, moves[0]), moves[1..]);
    }
  }

  lemma SixSteps(w: World, a: Move, b: Move, c: Move, d: Move, e: Move, f: Move)
    requires Enabled(w, a) && Enabled(Step(w, a), b) && Enabled(Step(Step(w, a), b), c)
    requires var w3 := Step(Step(Step(w, a), b), c);
      Enabled(w3, d) && Enabled(Step(w3, d), e) && Enabled(Step(Step(w3, d), e), f)
    ensures var w3 := Step(Step(Step(w, a), b), c);
      Valid(w, [a, b, c] + [d, e, f]) && Run(w, [a, b, c] + [d, e, f]) == Step(Step(Step(w3, d), e), f)
  {
    ThreeSteps(w, a, b, c);
    ThreeSteps(Run(w, [a, b, c]), d, e, f);
    RunConcat(w, [a, b, c], [d, e, f]);
  }

  lemma ThreeSteps(w: World, a: Move, b: Move, c: Move)
    requires Enabled(w, a) && Enabled(Step(w, a), b) && Enabled(Step(Step(w, a), b), c)
    ensures Valid(w, [a, b, c]) && Run(w, [a, b, c]) == Step(Step(Step(w, a), b), c)
  {
    TwoSteps(Step(w, a), b, c);
    assert [a, b, c][1..] == [b, c];
  }
}
