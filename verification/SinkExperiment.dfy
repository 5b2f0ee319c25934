/**
 The ITECH sink-step experiment: a script that drives a live power stage through requests that
 may fail, time out after having taken effect, or be interrupted at the keyboard.

 `Bench` is the supply behind the requests together with the script's flags. Every request,
 and the moment after it, is an entry of `trace`.
 */
module SinkExperiment {
  import opened Common

  const EMERGENCY_OFF_ATTEMPTS := 4
  const MAX_CURRENT_MAGNITUDE_A := 225.0

  // ---------------------------------------------------------------- limits

  datatype Arguments = Arguments(
    currents: seq<real>,
    voltageLimit: real,
    currentLimit: real,
    powerLimit: real,
    ovp: real,
    ocp: real,
    opp: real)

  datatype Rating = Rating(current: real, voltage: real, power: real)

  datatype LimitError =
    | PointAboveCurrentLimit | OcpBelowCurrentLimit | PowerBelowEnvelope | OppBelowPowerLimit
    | CurrentAboveRating | VoltageAboveRating | PowerAboveRating | SourceAboveOvp

  /** What the command line accepts: positive limits, and magnitudes that start at zero. */
  predicate Parsed(a: Arguments) {
    && a.currents != [] && a.currents[0] == 0.0
    && (forall i :: 0 <= i < |a.currents| ==> 0.0 <= a.currents[i] <= MAX_CURRENT_MAGNITUDE_A)
    && a.voltageLimit > 0.0 && a.currentLimit > 0.0 && a.powerLimit > 0.0
    && a.ovp > 0.0 && a.ocp > 0.0 && a.opp > 0.0
  }

  function Largest(xs: seq<real>): (m: real)
    requires xs != []
    ensures m in xs && forall i :: 0 <= i < |xs| ==> xs[i] <= m
  {
    if |xs| == 1 then xs[0]
    else
      var rest := Largest(xs[1..]);
      assert forall i :: 1 <= i < |xs| ==> xs[i] == xs[1..][i - 1];
      if xs[0] >= rest then xs[0] else rest
  }

  function Watts(voltage: real, current: real): real {
    voltage * current
  }

  function ValidateLimits(a: Arguments, rating: Rating, measuredVoltage: real): Option<LimitError>
    requires a.currents != []
  {
    var maximum := Largest(a.currents);
    if maximum > a.currentLimit then Some(PointAboveCurrentLimit)
    else if a.currentLimit > a.ocp then Some(OcpBelowCurrentLimit)
    else if Watts(a.voltageLimit, maximum) > a.powerLimit then Some(PowerBelowEnvelope)
    else if a.powerLimit > a.opp then Some(OppBelowPowerLimit)
    else if a.currentLimit > rating.current then Some(CurrentAboveRating)
    else if a.voltageLimit > rating.voltage then Some(VoltageAboveRating)
    else if a.powerLimit > rating.power then Some(PowerAboveRating)
    else if Abs(measuredVoltage) > a.ovp then Some(SourceAboveOvp)
    else None
  }

  /** A point inside the current limit, the power limit, the protections and the rating. */
  predicate PointAllowed(a: Arguments, rating: Rating, target: real) {
    && Abs(target) <= a.currentLimit <= a.ocp && a.currentLimit <= rating.current
    && a.voltageLimit * Abs(target) <= a.powerLimit <= a.opp && a.powerLimit <= rating.power
    && a.voltageLimit <= rating.voltage
  }

  /** Some point is above `limit`. */
  ghost predicate SomeAbove(xs: seq<real>, limit: real) {
    exists i :: 0 <= i < |xs| && xs[i] > limit
  }

  /** Some point takes more than `limit` watts at `voltage`. */
  ghost predicate SomePowerAbove(xs: seq<real>, voltage: real, limit: real) {
    exists i :: 0 <= i < |xs| && Watts(voltage, xs[i]) > limit
  }

  /** What each answer of the check says, of every point rather than of the largest. */
  ghost predicate Exceeded(a: Arguments, rating: Rating, measuredVoltage: real, error: LimitError) {
    match error
    case PointAboveCurrentLimit => SomeAbove(a.currents, a.currentLimit)
    case OcpBelowCurrentLimit => a.ocp < a.currentLimit
    case PowerBelowEnvelope => SomePowerAbove(a.currents, a.voltageLimit, a.powerLimit)
    case OppBelowPowerLimit => a.opp < a.powerLimit
    case CurrentAboveRating => a.currentLimit > rating.current
    case VoltageAboveRating => a.voltageLimit > rating.voltage
    case PowerAboveRating => a.powerLimit > rating.power
    case SourceAboveOvp => measuredVoltage > a.ovp || measuredVoltage < -a.ovp
  }

  lemma WattsOrder(voltage: real, x: real, y: real)
    requires voltage > 0.0 && x <= y
    ensures Watts(voltage, x) <= Watts(voltage, y)
  {
  }

  lemma LargestDecides(xs: seq<real>, voltage: real, limit: real)
    requires xs != [] && voltage > 0.0
    ensures SomeAbove(xs, limit) <==> Largest(xs) > limit
    ensures SomePowerAbove(xs, voltage, limit) <==> Watts(voltage, Largest(xs)) > limit
  {
    hide Largest, Watts;
    var most := Largest(xs);
    var k :| 0 <= k < |xs| && xs[k] == most;
    forall i | 0 <= i < |xs| ensures Watts(voltage, xs[i]) <= Watts(voltage, most) {
      WattsOrder(voltage, xs[i], most);
    }
  }

  /** The check reports something that is exceeded, and nothing only if nothing is. */
  lemma LimitsIff(a: Arguments, rating: Rating, measuredVoltage: real, error: LimitError)
    requires Parsed(a)
    ensures var found := ValidateLimits(a, rating, measuredVoltage);
      && (found.Some? ==> Exceeded(a, rating, measuredVoltage, found.value))
      && (found.None? ==> !Exceeded(a, rating, measuredVoltage, error))
  {
    LargestDecides(a.currents, a.voltageLimit, a.currentLimit);
    LargestDecides(a.currents, a.voltageLimit, a.powerLimit);
    hide Largest, Watts, SomeAbove, SomePowerAbove;
  }

  /** Checking the largest magnitude covers every commanded point. */
  lemma EveryPointAllowed(a: Arguments, rating: Rating, measuredVoltage: real, i: nat)
    requires Parsed(a) && ValidateLimits(a, rating, measuredVoltage).None? && i < |a.currents|
    ensures PointAllowed(a, rating, -a.currents[i]) && -a.ovp <= measuredVoltage <= a.ovp
  {
    LimitsIff(a, rating, measuredVoltage, SourceAboveOvp);
  }

  // ---------------------------------------------------------------- requests

  datatype Outcome = Done | Failed | Interrupted

  datatype Request =
    | PrepareOff
    | SwitchOn
    | SwitchOff
    | Point(target: real)
    | RestoreSettings(operatingPoint: bool)
    | Reserve
    | Release
    | StartRecording
    | StopRecording
    | Plain(what: What)

  /** Requests that leave output, reservation and recording alone. */
  datatype What = Protections | ScopeSettings | ScopeMeasurements | ReadBack | Measure | Frame | Discover | FindDevice

  /**
   What the requests change: the output, the reservation of the supply, and the recording, which
   counts as running from the request that started it to one that stops it.
   */
  datatype Plant = Plant(on: bool, reserved: bool, recording: bool)

  /** A request with the output before and after it, the script's flag at that moment, and its answer. */
  datatype Entry = Entry(request: Request, onBefore: bool, onAfter: bool, mayBeOn: bool, outcome: Outcome)

  predicate EntryOk(e: Entry) {
    && (e.onBefore || e.onAfter ==> e.mayBeOn)
    && (e.request.RestoreSettings? ==> !e.onBefore && !e.onAfter)
  }

  /** Unanswered requests that may still take effect, in the order they were made. */
  type Line = seq<Request>

  function After(request: Request, p: Plant): Plant {
    match request
    case SwitchOn => p.(on := true)
    case SwitchOff => p.(on := false)
    case PrepareOff => p.(on := false)
    case RestoreSettings(_) => p.(on := false)
    case Reserve => p.(reserved := true)
    case Release => p.(reserved := false)
    case StartRecording => p.(recording := true)
    case StopRecording => p.(recording := false)
    case _ => p
  }

  function AfterAll(line: Line, p: Plant): Plant {
    if line == [] then p else AfterAll(line[1..], After(line[0], p))
  }

  /** The output is on, or a request under way may still turn it on. */
  predicate Live(p: Plant, line: Line) {
    p.on || SwitchOn in line
  }

  lemma LiveIfOn(p: Plant, line: Line)
    ensures p.on ==> Live(p, line)
  {
  }

  /** Whatever changed from `p` and `line` to `q` and `rest`, one of `line` or `request` may have done. */
  predicate Explained(p: Plant, line: Line, request: Request, q: Plant, rest: Line) {
    && (Live(q, rest) ==> Live(p, line) || request.SwitchOn?)
    && (q.reserved ==> p.reserved || Reserve in line || request.Reserve?)
    && (q.recording ==> p.recording || StartRecording in line || request.StartRecording?)
    && (p.reserved && Release !in line && !request.Release? ==> q.reserved)
    && (p.recording && StopRecording !in line && !request.StopRecording? ==> q.recording)
    && (forall r :: r in rest ==> r in line || r == request)
  }

  lemma {:induction false} AfterAllFacts(line: Line, p: Plant)
    ensures var q := AfterAll(line, p);
      && (q.on ==> p.on || SwitchOn in line)
      && (q.reserved ==> p.reserved || Reserve in line)
      && (q.recording ==> p.recording || StartRecording in line)
      && (p.reserved && Release !in line ==> q.reserved)
      && (p.recording && StopRecording !in line ==> q.recording)
  {
    if line != [] {
      AfterAllFacts(line[1..], After(line[0], p));
    }
  }

  lemma {:induction false} LateExplained(p: Plant, line: Line, late: nat)
    requires late <= |line|
    ensures Explained(p, line, Plain(ReadBack), AfterAll(line[..late], p), line[late..])
  {
    AfterAllFacts(line[..late], p);
    assert forall r :: r in line[..late] || r in line[late..] ==> r in line;
  }

  /**
   Something the script asks for and gives back: whether it was ever granted, and whether giving
   it back was ever asked for.
   */
  datatype Loan = Loan(ever: bool, returned: bool)

  function Noted(loan: Loan, held: bool, gives: bool): Loan {
    Loan(loan.ever || held, loan.returned || gives)
  }

  /**
   `flag` is what the script knows, `asking` and `giving` what is still under way. A thing whose
   answer came is held no longer than the flag is up. One whose answer did not is never given
   back, so it is held once granted.
   */
  predicate Books(flag: bool, answered: bool, loan: Loan, held: bool, asking: bool, giving: bool) {
    && (flag ==> answered)
    && (loan.returned ==> answered)
    && (giving ==> loan.returned)
    && (!loan.returned ==> (held <==> loan.ever))
    && (answered ==> !asking)
    && (answered && !flag ==> !held)
  }

  predicate ReservationBooks(flag: bool, answered: bool, loan: Loan, p: Plant, line: Line) {
    Books(flag, answered, loan, p.reserved, Reserve in line, Release in line)
  }

  predicate RecordingBooks(flag: bool, answered: bool, loan: Loan, p: Plant, line: Line) {
    Books(flag, answered, loan, p.recording, StartRecording in line, StopRecording in line)
  }

  lemma ReservationBooksKept(flag: bool, answered: bool, loan: Loan, p: Plant, line: Line,
                             request: Request, q: Plant, rest: Line)
    requires ReservationBooks(flag, answered, loan, p, line) && Explained(p, line, request, q, rest)
    requires (request.Reserve? ==> !answered) && (request.Release? ==> flag)
    ensures ReservationBooks(flag, answered, Noted(loan, q.reserved, request.Release?), q, rest)
  {
    assert Reserve in rest ==> Reserve in line || request == Reserve;
    assert Release in rest ==> Release in line || request == Release;
  }

  lemma RecordingBooksKept(flag: bool, answered: bool, loan: Loan, p: Plant, line: Line,
                           request: Request, q: Plant, rest: Line)
    requires RecordingBooks(flag, answered, loan, p, line) && Explained(p, line, request, q, rest)
    requires (request.StartRecording? ==> !answered) && (request.StopRecording? ==> flag)
    ensures RecordingBooks(flag, answered, Noted(loan, q.recording, request.StopRecording?), q, rest)
  {
    assert StartRecording in rest ==> StartRecording in line || request == StartRecording;
    assert StopRecording in rest ==> StopRecording in line || request == StopRecording;
  }

  /** A step of the emergency shutdown that was not answered. */
  predicate Unanswered(e: Entry) {
    (e.request == SwitchOff || e.request == Plain(ReadBack)) && e.outcome.Failed?
  }

  /** Every such step but the very last is followed by a discovery. */
  ghost predicate AskedAround(entries: seq<Entry>) {
    forall i :: 0 <= i < |entries| - 1 && Unanswered(entries[i]) ==> entries[i + 1].request == Plain(Discover)
  }

  /** And the last as well. */
  ghost predicate Followed(entries: seq<Entry>) {
    AskedAround(entries) && (entries != [] ==> !Unanswered(entries[|entries| - 1]))
  }

  ghost predicate Unsettling(entries: seq<Entry>) {
    forall e :: e in entries ==> !Unanswered(e)
  }

  lemma NothingAsked()
    ensures Followed([]) && AskedAround([])
  {
  }

  /** One attempt: the OFF and, once it was answered, the read-back, whose answer counts. */
  ghost predicate IsAttempt(entries: seq<Entry>, outcome: Outcome) {
    && 1 <= |entries| <= 2 && entries[0].request == SwitchOff
    && (|entries| == 2 ==> entries[0].outcome.Done? && entries[1].request == Plain(ReadBack))
    && entries[|entries| - 1].outcome == outcome
  }

  lemma OneMore(start: seq<Entry>, before: seq<Entry>, after: seq<Entry>, outcome: Outcome)
    requires start <= before <= after && Followed(before[|start|..]) && IsAttempt(after[|before|..], outcome)
    ensures AskedAround(after[|start|..])
    ensures !outcome.Failed? ==> Followed(after[|start|..])
  {
    var first, more := before[|start|..], after[|before|..];
    assert after[|start|..] == first + more;
    AttemptAsks(more, outcome);
    hide Unanswered, Followed, AskedAround, IsAttempt;
    Joined(first, more);
  }

  lemma AttemptAsks(entries: seq<Entry>, outcome: Outcome)
    requires IsAttempt(entries, outcome)
    ensures entries != [] && AskedAround(entries)
    ensures !outcome.Failed? ==> !Unanswered(entries[|entries| - 1])
  {
  }

  lemma Joined(first: seq<Entry>, more: seq<Entry>)
    requires Followed(first) && AskedAround(more) && more != []
    ensures AskedAround(first + more)
    ensures !Unanswered(more[|more| - 1]) ==> Followed(first + more)
  {
    hide Unanswered;
    var all := first + more;
    forall i | 0 <= i < |all| - 1 ensures Unanswered(all[i]) ==> all[i + 1].request == Plain(Discover) {
      assert all[i] == if i < |first| then first[i] else more[i - |first|];
      assert all[i + 1] == if i + 1 < |first| then first[i + 1] else more[i + 1 - |first|];
    }
  }

  lemma AskedNow(start: seq<Entry>, before: seq<Entry>, after: seq<Entry>)
    requires start <= before < after && AskedAround(before[|start|..])
    requires after[|before|].request == Plain(Discover) && Unsettling(after[|before|..])
    ensures Followed(after[|start|..])
  {
    var old', more := before[|start|..], after[|before|..];
    assert after[|start|..] == old' + more;
    assert forall i :: 0 <= i < |more| ==> more[i] in more;
  }

  function Points(currents: seq<real>): (r: seq<real>)
    ensures |r| == |currents| && forall i :: 0 <= i < |r| ==> r[i] == -currents[i]
  {
    seq(|currents|, i requires 0 <= i < |currents| => -currents[i])
  }

  // ---------------------------------------------------------------- a run without mishap

  function PlainAll(list: seq<What>): (r: seq<Request>)
    ensures |r| == |list| && forall k :: 0 <= k < |list| ==> r[k] == Plain(list[k])
  {
    seq(|list|, k requires 0 <= k < |list| => Plain(list[k]))
  }

  const PREPARATION: seq<Request> :=
    [Reserve, Plain(Protections), PrepareOff, Plain(ScopeSettings), Plain(ScopeMeasurements)]

  function OnePoint(magnitude: real): seq<Request> {
    [Point(-magnitude), Plain(Measure), Plain(Frame)]
  }

  function PointRequests(currents: seq<real>): seq<Request> {
    if currents == [] then []
    else PointRequests(currents[..|currents| - 1]) + OnePoint(currents[|currents| - 1])
  }

  /** Everything asked for inside the try block, and after it. */
  function BodyRequests(currents: seq<real>): seq<Request> {
    PREPARATION + [SwitchOn, StartRecording] + PointRequests(currents) + [SwitchOff, Plain(ReadBack), StopRecording]
  }

  const PUTTING_BACK: seq<Request> :=
    [RestoreSettings(false), RestoreSettings(true), Plain(ScopeMeasurements), Plain(ScopeSettings), Release]

  /**
   What the clean-up asks for, whatever fails of it: the output off first, the recording stopped,
   settings back unless the output may be on, the scope, and the reservation last.
   */
  ghost predicate Attempted(live: bool, recording: bool, reserved: bool, stillLive: bool, asked: seq<Request>) {
    && (live ==> asked != [] && asked[0] == SwitchOff)
    && (recording ==> StopRecording in asked)
    && (!stillLive ==> RestoreSettings(false) in asked && RestoreSettings(true) in asked)
    && Plain(ScopeMeasurements) in asked
    && (reserved ==> asked != [] && asked[|asked| - 1] == Release)
  }

  lemma TwoHalves(start: seq<Request>, mid: seq<Request>, end: seq<Request>,
                  live: bool, recording: bool, reserved: bool, stillLive: bool)
    requires start <= mid <= end
    requires live ==> |mid| > |start| && mid[|start|] == SwitchOff
    requires recording ==> |mid| > |start| && mid[|mid| - 1] == StopRecording
    requires !stillLive ==> mid + [RestoreSettings(false), RestoreSettings(true)] <= end
    requires Plain(ScopeMeasurements) in end[|mid|..]
    requires reserved ==> |end| > |mid| && end[|end| - 1] == Release
    ensures Attempted(live, recording, reserved, stillLive, end[|start|..])
  {
    var asked := end[|start|..];
    var k :| 0 <= k < |end[|mid|..]| && end[|mid|..][k] == Plain(ScopeMeasurements);
    assert asked[|mid| - |start| + k] == Plain(ScopeMeasurements);
    assert recording ==> asked[|mid| - |start| - 1] == StopRecording;
    if !stillLive {
      assert asked[|mid| - |start|] == RestoreSettings(false) && asked[|mid| - |start| + 1] == RestoreSettings(true);
    }
  }

  lemma PutBackScope(start: seq<Request>, before: seq<Request>, after: seq<Request>)
    requires start <= before <= after && |after| > |before| && after[|before|] == Plain(ScopeMeasurements)
    ensures Plain(ScopeMeasurements) in after[|start|..]
  {
    assert after[|start|..][|before| - |start|] == Plain(ScopeMeasurements);
  }

  lemma PutBackAll(start: seq<Request>, restored: seq<Request>, scope: seq<Request>, end: seq<Request>)
    ensures && restored == start + [RestoreSettings(false), RestoreSettings(true)]
            && scope == restored + PlainAll([ScopeMeasurements, ScopeSettings])
            && end == scope + [Release]
            ==> end == start + PUTTING_BACK
  {
    assert PlainAll([ScopeMeasurements, ScopeSettings]) == [Plain(ScopeMeasurements), Plain(ScopeSettings)];
  }

  lemma PointRequestsNext(currents: seq<real>, i: nat)
    requires i < |currents|
    ensures PointRequests(currents[..i + 1]) == PointRequests(currents[..i]) + OnePoint(currents[i])
  {
    assert currents[..i + 1][..i] == currents[..i];
  }

  class Bench {
    var plant: Plant
    var line: Line
    var outputMayBeOn: bool
    var recordingActive: bool
    var reservationActive: bool
    ghost var trace: seq<Entry>
    /** The requests of the trace. */
    ghost var made: seq<Request>
    /** Requests not answered with success, and answers that were not what the script needs. */
    ghost var mishaps: nat
    ghost var targets: seq<real>
    ghost var offCommands: nat
    ghost var reservation: Loan
    ghost var recording: Loan
    /** Whether the answer came that told the script it has the reservation, the recording. */
    ghost var reserveAnswered: bool
    ghost var startAnswered: bool

    constructor ()
      ensures Safe() && Fresh() && trace == []
    {
      plant, line, outputMayBeOn := Plant(false, false, false), [], false;
      recordingActive, reservationActive := false, false;
      trace, made, mishaps, targets, offCommands := [], [], 0, [], 0;
      reservation, recording := Loan(false, false), Loan(false, false);
      reserveAnswered, startAnswered := false, false;
    }

    /** Nothing has been asked for yet. */
    ghost predicate Fresh()
      reads this
    {
      !Live(plant, line) && !outputMayBeOn && targets == [] && !reserveAnswered && !startAnswered
    }

    /** The output is never live without the flag, now or at any earlier request. */
    ghost predicate Safe()
      reads this
    {
      && (Live(plant, line) ==> outputMayBeOn)
      && (forall e :: e in trace ==> EntryOk(e))
      && ReservationBooks(reservationActive, reserveAnswered, reservation, plant, line)
      && RecordingBooks(recordingActive, startAnswered, recording, plant, line)
    }

    /** A new state, explained by the request, keeps what is safe. */
    method Settle(request: Request, end: Plant, rest: Line)
      requires Safe() && Explained(plant, line, request, end, rest)
      requires request.SwitchOn? ==> outputMayBeOn
      requires (request.Reserve? ==> !reserveAnswered) && (request.Release? ==> reservationActive)
      requires (request.StartRecording? ==> !startAnswered) && (request.StopRecording? ==> recordingActive)
      modifies this`plant, this`line, this`reservation, this`recording
      ensures Safe() && plant == end && line == rest
      ensures reservation == Noted(old(reservation), end.reserved, request.Release?)
      ensures recording == Noted(old(recording), end.recording, request.StopRecording?)
    {
      hide EntryOk, ReservationBooks, RecordingBooks, Noted;
      ReservationBooksKept(reservationActive, reserveAnswered, reservation, plant, line, request, end, rest);
      RecordingBooksKept(recordingActive, startAnswered, recording, plant, line, request, end, rest);
      plant, line := end, rest;
      reservation := Noted(reservation, end.reserved, request.Release?);
      recording := Noted(recording, end.recording, request.StopRecording?);
    }

    /** The output may trip off; after it, the first of the requests under way take effect. */
    method LetThrough()
      requires Safe()
      modifies this`plant, this`line, this`reservation, this`recording
      ensures Safe()
      ensures Live(plant, line) ==> old(Live(plant, line))
    {
      hide EntryOk, ReservationBooks, RecordingBooks, AfterAll;
      var trips: bool := *;
      var late: nat :| late <= |line|;
      var start := if trips then plant.(on := false) else plant;
      LateExplained(start, line, late);
      var end, rest := AfterAll(line[..late], start), line[late..];
      Settle(Plain(ReadBack), end, rest);
    }

    /** The request takes effect after those under way, or joins them, or is lost. */
    method Take(request: Request) returns (arrives: bool)
      requires Safe()
      requires request.SwitchOn? ==> outputMayBeOn
      requires (request.Reserve? ==> !reserveAnswered) && (request.Release? ==> reservationActive)
      requires (request.StartRecording? ==> !startAnswered) && (request.StopRecording? ==> recordingActive)
      modifies this`plant, this`line, this`reservation, this`recording
      ensures Safe()
      ensures arrives ==> line == [] && plant == After(request, plant)
      ensures !request.SwitchOn? && !old(Live(plant, line)) ==> !Live(plant, line)
    {
      hide EntryOk, ReservationBooks, RecordingBooks;
      var lingers: bool := *;
      arrives := *;
      if arrives {
        Settle(request, After(request, plant), []);
      } else {
        Settle(request, plant, if lingers then line + [request] else line);
      }
    }

    /** The request as it was made, with the output on its two sides. */
    ghost method Record(request: Request, before: bool, outcome: Outcome)
      requires Safe() && (before || plant.on ==> outputMayBeOn)
      requires request.RestoreSettings? ==> !outputMayBeOn
      modifies this`trace, this`made, this`targets, this`offCommands
      ensures Safe() && made == old(made) + [request]
      ensures targets == old(targets) + if request.Point? then [request.target] else []
      ensures offCommands == old(offCommands) + if request.SwitchOff? then 1 else 0
      ensures trace == old(trace) + [Entry(request, before, plant.on, outputMayBeOn, outcome)]
    {
      hide Live, ReservationBooks, RecordingBooks;
      trace, made := trace + [Entry(request, before, plant.on, outputMayBeOn, outcome)], made + [request];
      targets := targets + if request.Point? then [request.target] else [];
      offCommands := offCommands + if request.SwitchOff? then 1 else 0;
    }

    /**
     One request. The supply may have tripped its output off by itself before. A failed or
     interrupted request may have taken effect, may do so later, or never. Requests take effect
     in the order they are made, so one that has been answered has none under way before it.
     */
    method Send(request: Request) returns (outcome: Outcome)
      requires Safe()
      requires request.SwitchOn? ==> outputMayBeOn
      requires request.RestoreSettings? ==> !outputMayBeOn
      requires (request.Reserve? ==> !reserveAnswered) && (request.Release? ==> reservationActive)
      requires (request.StartRecording? ==> !startAnswered) && (request.StopRecording? ==> recordingActive)
      modifies this`plant, this`line, this`trace, this`made, this`mishaps, this`targets, this`offCommands,
               this`reservation, this`recording
      ensures Safe()
      ensures outcome.Done? ==> line == [] && plant == After(request, plant)
      ensures !request.SwitchOn? && !old(Live(plant, line)) ==> !Live(plant, line)
      ensures targets == old(targets) + if request.Point? then [request.target] else []
      ensures offCommands == old(offCommands) + if request.SwitchOff? then 1 else 0
      ensures old(trace) <= trace && |trace| == |old(trace)| + 1
      ensures trace[|old(trace)|].request == request && trace[|old(trace)|].outcome == outcome
      ensures made == old(made) + [request]
      ensures mishaps == old(mishaps) + if outcome.Done? then 0 else 1
    {
      hide EntryOk, ReservationBooks, RecordingBooks, After, Live;
      var answered: bool, interrupted: bool := *, *;
      LetThrough();
      ghost var before := plant.on;
      LiveIfOn(plant, line);
      var arrives := Take(request);
      LiveIfOn(plant, line);
      outcome := if interrupted then Interrupted else if arrives && answered then Done else Failed;
      Record(request, before, outcome);
      if !outcome.Done? {
        mishaps := mishaps + 1;
      }
    }

    /** Whether what an answer holds is what the script needs of it. */
    method Judge() returns (ok: bool)
      requires Safe()
      modifies this`mishaps
      ensures Safe() && mishaps == old(mishaps) + if ok then 0 else 1
    {
      hide EntryOk, Live, ReservationBooks, RecordingBooks;
      ok := *;
      if !ok {
        mishaps := mishaps + 1;
      }
    }

    /** A fresh full-state read: the output field may be missing, but it is never wrong. */
    method ReadOutput() returns (outcome: Outcome, reported: Option<bool>)
      requires Safe()
      modifies this`plant, this`line, this`trace, this`made, this`mishaps, this`targets, this`offCommands,
               this`reservation, this`recording
      ensures Safe() && (!old(Live(plant, line)) ==> !Live(plant, line))
      ensures outcome.Done? && reported.Some? ==> reported.value == plant.on
      ensures targets == old(targets) && offCommands == old(offCommands)
      ensures old(trace) <= trace && |trace| == |old(trace)| + 1
      ensures trace[|old(trace)|].request == Plain(ReadBack) && trace[|old(trace)|].outcome == outcome
      ensures made == old(made) + [Plain(ReadBack)]
      ensures mishaps >= old(mishaps) && (mishaps == old(mishaps) ==> outcome.Done? && reported.Some?)
    {
      hide EntryOk, ReservationBooks, RecordingBooks;
      outcome := Send(Plain(ReadBack));
      var present := Judge();
      reported := if present then Some(plant.on) else None;
    }

    /** One OFF and its read-back; `off` when that was answered and said OFF. */
    method TryOff() returns (outcome: Outcome, off: bool)
      requires Safe()
      modifies this`plant, this`line, this`trace, this`made, this`mishaps, this`targets, this`offCommands,
               this`reservation, this`recording
      ensures Safe() && (!old(Live(plant, line)) ==> !Live(plant, line))
      ensures off ==> outcome.Done? && !Live(plant, line)
      ensures targets == old(targets) && offCommands == old(offCommands) + 1
      ensures old(trace) <= trace && IsAttempt(trace[|old(trace)|..], outcome)
      ensures off ==> |trace| == |old(trace)| + 2
      ensures old(made) < made && made[|old(made)|] == SwitchOff
      ensures mishaps >= old(mishaps)
      ensures mishaps == old(mishaps) ==> off && made == old(made) + [SwitchOff, Plain(ReadBack)]
    {
      hide EntryOk, ReservationBooks, RecordingBooks;
      outcome := Send(SwitchOff);
      off := false;
      if outcome.Done? {
        var reported;
        outcome, reported := ReadOutput();
        off := outcome.Done? && reported == Some(false);
      }
    }

    /**
     `force_itech_output_off`: it returns normally only after a fresh read-back, taken after
     the last OFF command, says OFF; and it sends OFF at most four times. Between two attempts a
     request that was not answered is followed by a discovery.
     */
    method ForceOutputOff() returns (outcome: Outcome)
      requires Safe()
      modifies this`plant, this`line, this`trace, this`made, this`mishaps, this`targets, this`offCommands,
               this`reservation, this`recording
      ensures Safe() && (!old(Live(plant, line)) ==> !Live(plant, line))
      ensures outcome.Done? ==> !Live(plant, line)
      ensures offCommands <= old(offCommands) + 4
      ensures outcome.Failed? ==> offCommands == old(offCommands) + 4
      ensures outcome.Done? ==>
        && |trace| >= |old(trace)| + 2
        && trace[|trace| - 2].request == SwitchOff && trace[|trace| - 1].request == Plain(ReadBack)
      ensures targets == old(targets) && old(trace) <= trace && AskedAround(trace[|old(trace)|..])
      ensures old(made) < made && made[|old(made)|] == SwitchOff
      ensures mishaps >= old(mishaps)
      ensures mishaps == old(mishaps) ==> outcome.Done? && made == old(made) + [SwitchOff, Plain(ReadBack)]
    {
      hide Safe, Live, AskedAround, Followed;
      NothingAsked();
      assert trace[|trace|..] == [];
      var attempt := 1;
      while attempt <= EMERGENCY_OFF_ATTEMPTS
        invariant 1 <= attempt <= EMERGENCY_OFF_ATTEMPTS + 1
        invariant Safe() && (!old(Live(plant, line)) ==> !Live(plant, line))
        invariant offCommands == old(offCommands) + attempt - 1
        invariant mishaps >= old(mishaps) && (attempt > 1 ==> mishaps > old(mishaps))
        invariant targets == old(targets) && old(trace) <= trace && AskedAround(trace[|old(trace)|..])
        invariant attempt <= EMERGENCY_OFF_ATTEMPTS ==> Followed(trace[|old(trace)|..])
        invariant old(made) <= made
        invariant if attempt == 1 then made == old(made) else old(made) < made && made[|old(made)|] == SwitchOff
      {
        ghost var before := trace;
        var off;
        outcome, off := TryOff();
        OneMore(old(trace), before, trace, outcome);
        if off {
          return Done;
        }
        if outcome.Interrupted? {
          return Interrupted;
        }
        if attempt < EMERGENCY_OFF_ATTEMPTS && outcome.Failed? {
          before := trace;
          outcome := Rediscover();
          AskedNow(old(trace), before, trace);
          if outcome.Interrupted? {
            return Interrupted;
          }
        }
        attempt := attempt + 1;
      }
      return Failed;
    }

    /** Ask for discovery and look for the same device; a failure here is only recorded. */
    method Rediscover() returns (outcome: Outcome)
      requires Safe()
      modifies this`plant, this`line, this`trace, this`made, this`mishaps, this`targets, this`offCommands,
               this`reservation, this`recording
      ensures Safe() && (!old(Live(plant, line)) ==> !Live(plant, line))
      ensures targets == old(targets) && offCommands == old(offCommands)
      ensures mishaps >= old(mishaps) && old(made) <= made
      ensures old(trace) < trace && trace[|old(trace)|].request == Plain(Discover)
      ensures Unsettling(trace[|old(trace)|..])
    {
      hide EntryOk, ReservationBooks, RecordingBooks, Live;
      outcome := Send(Plain(Discover));
      if outcome.Done? {
        outcome := Send(Plain(FindDevice));
      }
    }

    // -------------------------------------------------------------- the run

    /** A list of requests that leave the output alone, up to the first that does not succeed. */
    method SendPlain(list: seq<What>) returns (outcome: Outcome)
      requires Safe()
      modifies this`plant, this`line, this`trace, this`made, this`mishaps, this`targets, this`offCommands,
               this`reservation, this`recording
      ensures Safe() && (!old(Live(plant, line)) ==> !Live(plant, line))
      ensures targets == old(targets) && old(made) <= made
      ensures list != [] ==> |made| > |old(made)| && made[|old(made)|] == Plain(list[0])
      ensures outcome.Done? ==> made == old(made) + PlainAll(list)
      ensures mishaps >= old(mishaps) && (mishaps == old(mishaps) ==> outcome.Done?)
    {
      hide EntryOk, ReservationBooks, RecordingBooks;
      outcome := Done;
      var i := 0;
      while i < |list| && outcome.Done?
        invariant 0 <= i <= |list|
        invariant Safe() && (!old(Live(plant, line)) ==> !Live(plant, line))
        invariant targets == old(targets) && made == old(made) + PlainAll(list)[..i]
        invariant i == 0 ==> outcome.Done?
        invariant mishaps >= old(mishaps) && (mishaps == old(mishaps) ==> outcome.Done?)
      {
        outcome := Send(Plain(list[i]));
        assert PlainAll(list)[..i + 1] == PlainAll(list)[..i] + [Plain(list[i])];
        i := i + 1;
      }
      assert PlainAll(list)[..|list|] == PlainAll(list);
    }

    /** The reservation: the script knows of it only when its request was answered. */
    method TakeReservation() returns (outcome: Outcome)
      requires Safe() && !reserveAnswered
      modifies this`plant, this`line, this`trace, this`made, this`mishaps, this`targets, this`offCommands,
               this`reservation, this`recording, this`reservationActive, this`reserveAnswered
      ensures Safe() && (!old(Live(plant, line)) ==> !Live(plant, line)) && targets == old(targets)
      ensures (outcome.Done? <==> reserveAnswered) && (outcome.Done? ==> reservationActive)
      ensures mishaps >= old(mishaps) && (mishaps == old(mishaps) ==> outcome.Done?)
      ensures made == old(made) + [Reserve]
    {
      hide EntryOk;
      outcome := Send(Reserve);
      var activated := Judge();
      if !outcome.Done? || !activated {
        return if outcome.Done? then Failed else outcome;
      }
      reservationActive, reserveAnswered := true, true;
    }

    method GiveReservationBack() returns (outcome: Outcome)
      requires Safe() && reservationActive
      modifies this`plant, this`line, this`trace, this`made, this`mishaps, this`targets, this`offCommands,
               this`reservation, this`recording, this`reservationActive
      ensures Safe() && (!old(Live(plant, line)) ==> !Live(plant, line)) && targets == old(targets)
      ensures outcome.Done? ==> !reservationActive
      ensures mishaps >= old(mishaps) && (mishaps == old(mishaps) ==> outcome.Done?)
      ensures made == old(made) + [Release]
    {
      hide EntryOk;
      outcome := Send(Release);
      if outcome.Done? {
        reservationActive := false;
      }
    }

    method BeginRecording() returns (outcome: Outcome)
      requires Safe() && !startAnswered
      modifies this`plant, this`line, this`trace, this`made, this`mishaps, this`targets, this`offCommands,
               this`reservation, this`recording, this`recordingActive, this`startAnswered
      ensures Safe() && (!old(Live(plant, line)) ==> !Live(plant, line)) && targets == old(targets)
      ensures (outcome.Done? <==> startAnswered) && (outcome.Done? ==> recordingActive)
      ensures mishaps >= old(mishaps) && (mishaps == old(mishaps) ==> outcome.Done?)
      ensures made == old(made) + [StartRecording]
    {
      hide EntryOk;
      outcome := Send(StartRecording);
      if outcome.Done? {
        recordingActive, startAnswered := true, true;
      }
    }

    method EndRecording() returns (outcome: Outcome)
      requires Safe() && recordingActive
      modifies this`plant, this`line, this`trace, this`made, this`mishaps, this`targets, this`offCommands,
               this`reservation, this`recording, this`recordingActive
      ensures Safe() && (!old(Live(plant, line)) ==> !Live(plant, line)) && targets == old(targets)
      ensures outcome.Done? ==> !recordingActive
      ensures mishaps >= old(mishaps) && (mishaps == old(mishaps) ==> outcome.Done?)
      ensures made == old(made) + [StopRecording]
    {
      hide EntryOk;
      outcome := Send(StopRecording);
      if outcome.Done? {
        recordingActive := false;
      }
    }

    /** Reserve, set protections and limits with the output off, set up the scope. */
    method PrepareBench() returns (outcome: Outcome)
      requires Safe() && !Live(plant, line) && !reserveAnswered
      modifies this`plant, this`line, this`trace, this`made, this`mishaps, this`targets, this`offCommands,
               this`reservation, this`recording, this`reservationActive, this`reserveAnswered
      ensures Safe() && !Live(plant, line) && targets == old(targets)
      ensures outcome.Done? ==> reservationActive && reserveAnswered
      ensures mishaps >= old(mishaps) && (mishaps == old(mishaps) ==> outcome.Done?)
      ensures outcome.Done? ==> made == old(made) + PREPARATION
    {
      hide EntryOk, Live, ReservationBooks, RecordingBooks;
      outcome := TakeReservation();
      if outcome.Done? {
        outcome := Send(Plain(Protections));
      }
      if outcome.Done? {
        outcome := Send(PrepareOff);
      }
      if outcome.Done? {
        outcome := SendPlain([ScopeSettings, ScopeMeasurements]);
        assert PlainAll([ScopeSettings, ScopeMeasurements]) == [Plain(ScopeSettings), Plain(ScopeMeasurements)];
      }
    }

    /** The output is forced off, and the flag drops only after that. */
    method OutputOff() returns (outcome: Outcome)
      requires Safe()
      modifies this`plant, this`line, this`trace, this`made, this`mishaps, this`targets, this`offCommands,
               this`reservation, this`recording, this`outputMayBeOn
      ensures Safe() && targets == old(targets)
      ensures outcome.Done? ==> !Live(plant, line) && !outputMayBeOn
      ensures !outcome.Done? ==> outputMayBeOn == old(outputMayBeOn)
      ensures mishaps >= old(mishaps) && (mishaps == old(mishaps) ==> outcome.Done?)
      ensures old(made) < made && made[|old(made)|] == SwitchOff
      ensures mishaps == old(mishaps) ==> made == old(made) + [SwitchOff, Plain(ReadBack)]
    {
      hide EntryOk, Live, ReservationBooks, RecordingBooks;
      outcome := ForceOutputOff();
      if outcome.Done? {
        outputMayBeOn := false;
      }
    }

    /** One current step: command it, settle, read back, and capture the scope frame. */
    method RunPoint(magnitude: real) returns (outcome: Outcome)
      requires Safe() && outputMayBeOn
      modifies this`plant, this`line, this`trace, this`made, this`mishaps, this`targets, this`offCommands,
               this`reservation, this`recording, this`outputMayBeOn
      ensures Safe() && targets == old(targets) + [-magnitude]
      ensures outcome.Done? ==> outputMayBeOn
      ensures !outputMayBeOn ==> outcome.Failed?
      ensures mishaps >= old(mishaps) && (mishaps == old(mishaps) ==> outcome.Done?)
      ensures outcome.Done? ==> made == old(made) + OnePoint(magnitude)
    {
      hide Safe, Live, After;
      outcome := Send(Point(-magnitude));
      if !outcome.Done? {
        return;
      }
      var measured := Send(Plain(Measure));
      var complete := Judge();
      if !measured.Done? || !complete {
        outcome := OutputOff();
        return if outcome.Interrupted? then Interrupted else Failed;
      }
      outcome := Send(Plain(Frame));
      var frameOk := Judge();
      if outcome.Done? && !frameOk {
        outcome := Failed;
      }
    }

    /** The flag goes up before the request does. */
    method OutputOn() returns (outcome: Outcome)
      requires Safe()
      modifies this`plant, this`line, this`trace, this`made, this`mishaps, this`targets, this`offCommands,
               this`reservation, this`recording, this`outputMayBeOn
      ensures Safe() && outputMayBeOn && targets == old(targets)
      ensures made == old(made) + [SwitchOn] && mishaps == old(mishaps) + if outcome.Done? then 0 else 1
    {
      hide EntryOk, ReservationBooks, RecordingBooks;
      outputMayBeOn := true;
      outcome := Send(SwitchOn);
    }

    /** The current steps in their order, up to the first that does not succeed. */
    method RunPoints(currents: seq<real>) returns (outcome: Outcome)
      requires Safe() && outputMayBeOn && targets == []
      modifies this`plant, this`line, this`trace, this`made, this`mishaps, this`targets, this`offCommands,
               this`reservation, this`recording, this`outputMayBeOn
      ensures Safe() && targets <= Points(currents)
      ensures outcome.Done? ==> outputMayBeOn && targets == Points(currents)
      ensures outcome.Done? ==> made == old(made) + PointRequests(currents)
      ensures mishaps >= old(mishaps) && (mishaps == old(mishaps) ==> outcome.Done?)
    {
      hide Safe, Live, OnePoint;
      outcome := Done;
      var i := 0;
      while i < |currents|
        invariant 0 <= i <= |currents|
        invariant Safe() && outputMayBeOn && outcome.Done?
        invariant targets == Points(currents)[..i]
        invariant mishaps >= old(mishaps)
        invariant made == old(made) + PointRequests(currents[..i])
      {
        outcome := RunPoint(currents[i]);
        PointRequestsNext(currents, i);
        assert targets == Points(currents)[..i + 1];
        if !outcome.Done? {
          return;
        }
        i := i + 1;
      }
      assert Points(currents)[..i] == Points(currents) && currents[..i] == currents;
    }

    /** After the last point: the output off, and the recording stopped. */
    method EndSeries() returns (outcome: Outcome)
      requires Safe() && recordingActive
      modifies this`plant, this`line, this`trace, this`made, this`mishaps, this`targets, this`offCommands,
               this`reservation, this`recording, this`outputMayBeOn, this`recordingActive
      ensures Safe() && targets == old(targets)
      ensures outcome.Done? ==> !Live(plant, line) && !outputMayBeOn && !recordingActive
      ensures mishaps >= old(mishaps) && (mishaps == old(mishaps) ==> outcome.Done?)
      ensures mishaps == old(mishaps) ==> made == old(made) + [SwitchOff, Plain(ReadBack), StopRecording]
    {
      hide Safe, Live;
      outcome := OutputOff();
      if !outcome.Done? {
        return;
      }
      outcome := EndRecording();
    }

    lemma FreshIsOff()
      requires Fresh()
      ensures !Live(plant, line) && !outputMayBeOn && targets == [] && !reserveAnswered && !startAnswered
    {
    }

    lemma BodyIs(start: seq<Request>, currents: seq<real>, end: seq<Request>)
      ensures end == start + PREPARATION + [SwitchOn] + [StartRecording] + PointRequests(currents)
                     + [SwitchOff, Plain(ReadBack), StopRecording]
          ==> end == start + BodyRequests(currents)
    {
      var points, last := PointRequests(currents), [SwitchOff, Plain(ReadBack), StopRecording];
      assert start + PREPARATION + [SwitchOn] + [StartRecording] + points + last
          == start + (PREPARATION + [SwitchOn, StartRecording] + points + last);
    }

    /** Everything inside the script's try block. */
    method Body(currents: seq<real>) returns (outcome: Outcome)
      requires Safe() && Fresh()
      modifies this
      ensures Safe()
      ensures targets <= Points(currents)
      ensures outcome.Done? ==>
        !Live(plant, line) && !outputMayBeOn && targets == Points(currents) && reserveAnswered && startAnswered
      ensures outcome.Done? ==> reservationActive && !recordingActive
      ensures mishaps == old(mishaps) ==> made == old(made) + BodyRequests(currents)
      ensures mishaps >= old(mishaps) && (mishaps == old(mishaps) ==> outcome.Done?)
    {
      hide Live, ReservationBooks, RecordingBooks, EntryOk;
      FreshIsOff();
      hide Safe, Fresh, BodyRequests, PREPARATION;
      outcome := PrepareBench();
      if !outcome.Done? {
        return;
      }
      outcome := OutputOn();
      if !outcome.Done? {
        return;
      }
      outcome := BeginRecording();
      if !outcome.Done? {
        return;
      }
      outcome := RunPoints(currents);
      if !outcome.Done? {
        return;
      }
      outcome := EndSeries();
      BodyIs(old(made), currents, made);
    }

    /** Put the saved protections and then the saved, de-energised operating point back. */
    method RestoreSaved() returns (errors: nat, interrupted: bool)
      requires Safe() && !outputMayBeOn
      modifies this`plant, this`line, this`trace, this`made, this`mishaps, this`targets, this`offCommands,
               this`reservation, this`recording
      ensures Safe() && targets == old(targets)
      ensures mishaps >= old(mishaps) && (mishaps == old(mishaps) ==> errors == 0 && !interrupted)
      ensures old(made) <= made
      ensures !interrupted ==> made == old(made) + [RestoreSettings(false), RestoreSettings(true)]
    {
      var protections := Send(RestoreSettings(false));
      errors, interrupted := if protections.Failed? then 1 else 0, protections.Interrupted?;
      if !interrupted {
        var operatingPoint := Send(RestoreSettings(true));
        errors := errors + if operatingPoint.Failed? then 1 else 0;
        interrupted := operatingPoint.Interrupted?;
      }
    }

    /** With its flag down, a thing is held exactly if it was granted and no answer said so. */
    lemma Settled()
      requires Safe()
      ensures !reservationActive ==> (plant.reserved <==> reservation.ever && !reserveAnswered)
      ensures !recordingActive ==> (plant.recording <==> recording.ever && !startAnswered)
      ensures !reservationActive && reserveAnswered ==> Reserve !in line
      ensures !recordingActive && startAnswered ==> StartRecording !in line
    {
    }

    /** The first half of the finally block: the output off and the recording stopped, each if its flag is up. */
    method ShutDown() returns (errors: nat, interrupted: bool)
      requires Safe()
      modifies this`plant, this`line, this`trace, this`made, this`mishaps, this`targets, this`offCommands,
               this`reservation, this`recording, this`outputMayBeOn, this`recordingActive
      ensures Safe() && targets == old(targets)
      ensures !old(outputMayBeOn) ==> !outputMayBeOn
      ensures !interrupted && errors == 0 ==> !outputMayBeOn && !recordingActive
      ensures mishaps >= old(mishaps) && (mishaps == old(mishaps) ==> errors == 0 && !interrupted)
      ensures old(made) <= made
      ensures old(outputMayBeOn) ==> |made| > |old(made)| && made[|old(made)|] == SwitchOff
      ensures !interrupted && old(recordingActive) ==> |made| > |old(made)| && made[|made| - 1] == StopRecording
      ensures !old(outputMayBeOn) && !old(recordingActive) ==> made == old(made)
    {
      hide EntryOk, ReservationBooks, RecordingBooks, Live;
      errors, interrupted := 0, false;
      var outcome: Outcome;
      if outputMayBeOn {
        outcome := OutputOff();
        match outcome {
          case Done =>
          case Failed => errors := errors + 1;
          case Interrupted => return errors, true;
        }
      }
      if recordingActive {
        outcome := EndRecording();
        match outcome {
          case Done =>
          case Failed => errors := errors + 1;
          case Interrupted => return errors, true;
        }
      }
    }

    /** The saved settings go back unless the output may be on, which counts as an error. */
    method RestoreUnlessLive() returns (errors: nat, interrupted: bool)
      requires Safe()
      modifies this`plant, this`line, this`trace, this`made, this`mishaps, this`targets, this`offCommands,
               this`reservation, this`recording
      ensures Safe() && targets == old(targets) && old(made) <= made
      ensures !interrupted ==>
        made == old(made) + if outputMayBeOn then [] else [RestoreSettings(false), RestoreSettings(true)]
      ensures outputMayBeOn ==> errors == 1 && !interrupted
      ensures mishaps >= old(mishaps)
      ensures mishaps == old(mishaps) && !outputMayBeOn ==> errors == 0 && !interrupted
    {
      if outputMayBeOn {
        return 1, false;
      }
      errors, interrupted := RestoreSaved();
    }

    /** The second half: the saved settings, only with the output off, the scope, and the reservation. */
    method PutBack() returns (errors: nat, interrupted: bool)
      requires Safe()
      modifies this`plant, this`line, this`trace, this`made, this`mishaps, this`targets, this`offCommands,
               this`reservation, this`recording, this`reservationActive
      ensures Safe() && targets == old(targets)
      ensures !interrupted && errors == 0 ==> !outputMayBeOn && !reservationActive
      ensures mishaps >= old(mishaps)
      ensures mishaps == old(mishaps) && !outputMayBeOn ==> errors == 0 && !interrupted
      ensures old(made) <= made
      ensures !interrupted && !outputMayBeOn ==> old(made) + [RestoreSettings(false), RestoreSettings(true)] <= made
      ensures !interrupted ==> Plain(ScopeMeasurements) in made[|old(made)|..]
      ensures !interrupted && old(reservationActive) ==> |made| > |old(made)| && made[|made| - 1] == Release
      ensures mishaps == old(mishaps) && !outputMayBeOn && old(reservationActive) ==> made == old(made) + PUTTING_BACK
    {
      hide EntryOk, ReservationBooks, RecordingBooks, Live;
      hide Safe, PUTTING_BACK;
      errors, interrupted := RestoreUnlessLive();
      if interrupted {
        return;
      }
      ghost var before := made;
      var outcome := SendPlain([ScopeMeasurements, ScopeSettings]);
      PutBackScope(old(made), before, made);
      if outcome.Interrupted? {
        return errors, true;
      }
      errors := errors + if outcome.Failed? then 1 else 0;
      ghost var scopeDone := made;
      if reservationActive {
        outcome := GiveReservationBack();
        match outcome {
          case Done =>
          case Failed => errors := errors + 1;
          case Interrupted => return errors, true;
        }
      }
      assert Plain(ScopeMeasurements) in made[|old(made)|..] by {
        assert scopeDone[|old(made)|..] <= made[|old(made)|..];
      }
      PutBackAll(old(made), before, scopeDone, made);
    }

    /**
     The finally block; an interrupt in here ends it early. Without an error or interrupt every
     flag is down; what is held then is exactly what was granted and never answered.
     */
    method Cleanup() returns (errors: nat, interrupted: bool)
      requires Safe()
      modifies this
      ensures Safe() && reserveAnswered == old(reserveAnswered) && startAnswered == old(startAnswered)
      ensures targets == old(targets) && (!old(outputMayBeOn) ==> !outputMayBeOn)
      ensures !outputMayBeOn ==> !Live(plant, line)
      ensures !interrupted && errors == 0 ==> !outputMayBeOn && !recordingActive && !reservationActive
      ensures !interrupted && errors == 0 ==>
        && (plant.reserved <==> reservation.ever && !reserveAnswered)
        && (plant.recording <==> recording.ever && !startAnswered)
        && (reserveAnswered ==> Reserve !in line) && (startAnswered ==> StartRecording !in line)
      ensures old(made) <= made
      ensures !interrupted ==> Attempted(
        old(outputMayBeOn), old(recordingActive), old(reservationActive), outputMayBeOn, made[|old(made)|..])
      ensures mishaps == old(mishaps) && !old(outputMayBeOn || recordingActive) && old(reservationActive) ==>
        made == old(made) + PUTTING_BACK
      ensures mishaps >= old(mishaps) && (mishaps == old(mishaps) ==> errors == 0 && !interrupted)
    {
      hide EntryOk, ReservationBooks, RecordingBooks, Attempted;
      errors, interrupted := ShutDown();
      if !interrupted {
        ghost var mid := made;
        var more;
        more, interrupted := PutBack();
        errors := errors + more;
        if !interrupted {
          TwoHalves(
            old(made), mid, made, old(outputMayBeOn), old(recordingActive), old(reservationActive), outputMayBeOn);
        }
      }
      Settled();
    }

    /**
     The whole experiment once the preflight has seen the output off. Limits that do not fit
     together stop it before any request. Otherwise, whatever fails, the output is on only
     under the flag, saved settings go back only with the output off (`Safe` says both for
     every request made), and the commanded points are a prefix of the checked list. Exit code 0
     means the output was read back OFF, all was given back and nothing under way can take it
     again; it is what a run without mishap ends with, which makes exactly the listed requests. In
     a run that ends otherwise, a reservation or recording whose flag is down is still held exactly
     if it was granted and no answer said so.
     */
    method RunExperiment(a: Arguments, rating: Rating, measuredVoltage: real) returns (exitOk: bool)
      requires Parsed(a)
      requires Safe() && Fresh()
      modifies this
      ensures Safe()
      ensures ValidateLimits(a, rating, measuredVoltage).Some? ==> !exitOk && trace == old(trace) && targets == []
      ensures targets <= Points(a.currents)
      ensures forall i :: 0 <= i < |targets| ==> PointAllowed(a, rating, targets[i])
      ensures !outputMayBeOn ==> !Live(plant, line)
      ensures !reservationActive ==> (plant.reserved <==> reservation.ever && !reserveAnswered)
      ensures !recordingActive ==> (plant.recording <==> recording.ever && !startAnswered)
      ensures exitOk ==> !Live(plant, line) && !plant.reserved && !plant.recording && targets == Points(a.currents)
      ensures exitOk ==> Reserve !in line && StartRecording !in line
      ensures ValidateLimits(a, rating, measuredVoltage).None? && mishaps == old(mishaps) ==> exitOk
      ensures ValidateLimits(a, rating, measuredVoltage).None? && mishaps == old(mishaps) ==>
        made == old(made) + BodyRequests(a.currents) + PUTTING_BACK
    {
      if ValidateLimits(a, rating, measuredVoltage).Some? {
        return false;
      }
      var outcome := Body(a.currents);
      var errors, interrupted := Cleanup();
      forall i | 0 <= i < |targets| ensures PointAllowed(a, rating, targets[i]) {
        EveryPointAllowed(a, rating, measuredVoltage, i);
        assert targets[i] == Points(a.currents)[i];
      }
      Settled();
      exitOk := outcome.Done? && !interrupted && errors == 0;
    }
  }
}
