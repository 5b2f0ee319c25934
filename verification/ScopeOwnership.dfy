/**
 Who may use an oscilloscope: the CSV recording or a MAXIMUM capture job.

 A job starts only while the recorder the service refers to is not alive, and a recording takes
 only the scopes no job owns. But a recording picks its scopes some time after its recorder was
 created, a recorder can die while its scope loops go on, and a stop that was overtaken forgets
 whatever recorder the service refers to by then. A `Move` is one uninterrupted piece.
 */
module ScopeOwnership {
  import opened Common

  type Scope = nat

  type Recorder = nat

  /** A `start_recording` call after it has created its recorder. */
  datatype Start =
    | Unselected(asManual: bool)
    | Selected(asManual: bool, scopes: set<Scope>)

  /**
   A stop that has collected what it is to end. It waits for the cancelled loops and restarts the
   manual scopes, then cancels its recorder and waits for that, and then forgets the recorder the
   service refers to.
   */
  datatype Stop = Stop(recorder: Recorder, waiting: multiset<Scope>, cancelled: bool)

  /**
   - `alive`: the recorders that run; `current`: the one the service refers to, alive or not;
     `next`: the number of the next one; `filed`: whether the service has a current file.
   - `held`: the scopes of the running loops whose tasks the service still refers to; `loose`:
     those of loops that nothing refers to any more and that have not ended.
   - `manual`: the scopes offered for frames on request, `capturing` the frame being taken.
   */
  datatype World = World(
    scopes: set<Scope>,
    owned: set<Scope>,
    alive: set<Recorder>,
    current: Option<Recorder>,
    next: Recorder,
    filed: bool,
    manualMode: bool,
    held: set<Scope>,
    loose: multiset<Scope>,
    manual: set<Scope>,
    capturing: set<Scope>,
    starts: seq<Start>,
    stops: seq<Stop>)

  datatype Move =
    | MaximumStarts(scope: Scope)
    | MaximumEnds(scope: Scope)
    | RecordingStarts(asManual: bool)
    | Select(start: nat)
    | Publish(start: nat)
    | StartFails(start: nat)
    | LoopFails(scope: Scope)
    | LooseEnds(scope: Scope)
    | FrameStarts(scope: Scope)
    | FrameEnds
    | Collect
    | StopSettles(stop: nat, scope: Scope)
    | StopCancels(stop: nat)
    | StopForgets(stop: nat)
    | StopFails(stop: nat)
    | RecorderEnds(recorder: Recorder)

  /** `status().active`: the recorder referred to is alive. */
  predicate Active(w: World) {
    w.current.Some? && w.current.value in w.alive
  }

  predicate Enabled(w: World, move: Move) {
    match move
    case MaximumStarts(s) => s in w.scopes && s !in w.owned && !Active(w)
    case MaximumEnds(s) => s in w.owned
    case RecordingStarts(_) => !Active(w)
    case Select(k) => k < |w.starts| && w.starts[k].Unselected? && w.filed
    case Publish(k) => k < |w.starts| && w.starts[k].Selected?
    case StartFails(k) => k < |w.starts|
    case LoopFails(s) => s in w.held
    case LooseEnds(s) => s in w.loose
    case FrameStarts(s) => Active(w) && w.manualMode && s in w.manual && w.capturing == {}
    case FrameEnds => w.capturing != {}
    case Collect => Active(w) && w.capturing == {}
    case StopSettles(j, s) => j < |w.stops| && s in w.stops[j].waiting
    case StopCancels(j) => j < |w.stops| && !w.stops[j].cancelled && w.stops[j].waiting == multiset{}
    case StopForgets(j) => j < |w.stops| && w.stops[j].cancelled && w.stops[j].recorder !in w.alive
    case StopFails(j) => j < |w.stops|
    case RecorderEnds(r) => r in w.alive
  }

  function Remove<T>(xs: seq<T>, k: nat): (r: seq<T>)
    requires k < |xs|
    ensures forall x :: x in r ==> x in xs
  {
    xs[..k] + xs[k + 1..]
  }

  function Step(w: World, move: Move): World
    requires Enabled(w, move)
  {
    match move
    case MaximumStarts(s) => w.(owned := w.owned + {s})
    case MaximumEnds(s) => w.(owned := w.owned - {s})
    case RecordingStarts(asManual) =>
      w.(alive := w.alive + {w.next}, current := Some(w.next), next := w.next + 1, filed := true,
         manualMode := asManual, manual := {}, starts := w.starts + [Unselected(asManual)])
    case Select(k) => w.(starts := w.starts[k := Selected(w.starts[k].asManual, w.scopes - w.owned)])
    case Publish(k) =>
      var left := w.(starts := Remove(w.starts, k));
      if w.starts[k].asManual then left.(manual := w.starts[k].scopes)
      else left.(held := w.starts[k].scopes, loose := w.loose + multiset(w.held))
    case StartFails(k) =>
      w.(starts := Remove(w.starts, k), manual := if w.starts[k].Selected? then {} else w.manual)
    case LoopFails(s) => w.(held := w.held - {s})
    case LooseEnds(s) => w.(loose := w.loose - multiset{s})
    case FrameStarts(s) => w.(capturing := {s})
    case FrameEnds => w.(capturing := {})
    case Collect =>
      w.(held := {}, manual := {},
         stops := w.stops + [Stop(w.current.value, multiset(w.held) + multiset(w.manual), false)])
    case StopSettles(j, s) =>
      w.(stops := w.stops[j := w.stops[j].(waiting := w.stops[j].waiting - multiset{s})])
    case StopCancels(j) => w.(stops := w.stops[j := w.stops[j].(cancelled := true)])
    case StopForgets(j) =>
      // Without a current file the last piece fails an assertion and changes nothing.
      var left := w.(stops := Remove(w.stops, j));
      if w.filed then left.(current := None, filed := false, manualMode := false) else left
    case StopFails(j) => w.(stops := Remove(w.stops, j), loose := w.loose + w.stops[j].waiting)
    case RecorderEnds(r) => w.(alive := w.alive - {r})
  }

  predicate Valid(w: World, moves: seq<Move>)
    decreases |moves|
  {
    moves == [] || (Enabled(w, moves[0]) && Valid(Step(w, moves[0]), moves[1..]))
  }

  function Run(w: World, moves: seq<Move>): World
    requires Valid(w, moves)
    decreases |moves|
  {
    if moves == [] then w else Run(Step(w, moves[0]), moves[1..])
  }

  predicate Initial(w: World) {
    && w.owned == {} && w.alive == {} && w.current == None && w.next == 0 && !w.filed
    && Idle(w) && w.stops == []
  }

  /** Nothing of any recording is under way. */
  predicate Idle(w: World) {
    w.held == {} && w.loose == multiset{} && w.manual == {} && w.capturing == {} && w.starts == []
  }

  /** Every reachable world: recorders are numbered as they come, and jobs own known scopes. */
  ghost predicate Reachable(w: World) {
    && w.owned <= w.scopes
    && (forall r :: r in w.alive ==> r < w.next)
    && (w.current.Some? ==> w.current.value < w.next)
    && (forall j :: 0 <= j < |w.stops| ==> w.stops[j].recorder < w.next)
  }

  lemma StepKeepsReachable(w: World, move: Move)
    requires Reachable(w) && Enabled(w, move)
    ensures Reachable(Step(w, move))
  {
  }

  lemma {:induction false} RunKeepsReachable(w: World, moves: seq<Move>)
    requires Reachable(w) && Valid(w, moves)
    ensures Reachable(Run(w, moves)) && Run(w, moves).scopes == w.scopes
    decreases |moves|
  {
    if moves != [] {
      StepKeepsReachable(w, moves[0]);
      RunKeepsReachable(Step(w, moves[0]), moves[1..]);
    }
  }

  /** A start that is still under way has picked the scope. */
  ghost predicate Picked(w: World, s: Scope) {
    exists k :: 0 <= k < |w.starts| && w.starts[k].Selected? && s in w.starts[k].scopes
  }

  /** A stop waits for the scope. */
  ghost predicate Stopping(w: World, s: Scope) {
    exists j :: 0 <= j < |w.stops| && s in w.stops[j].waiting
  }

  /** What a recording has set going on the scope, whether or not it is alive. */
  ghost predicate UnderWay(w: World, s: Scope) {
    s in w.held || s in w.loose || s in w.capturing || Picked(w, s) || Stopping(w, s)
  }

  /** Scopes some recording uses, offers for frames or has picked. */
  ghost predicate InRecording(w: World, s: Scope) {
    UnderWay(w, s) || s in w.manual
  }

  ghost predicate Exclusive(w: World) {
    forall s :: s in w.owned ==> !InRecording(w, s)
  }

  /** The recorder `r` is referred to, and every stop in flight is a stop of it. */
  ghost predicate Undisputed(w: World, r: Recorder) {
    w.current == Some(r) && r in w.alive && forall j :: 0 <= j < |w.stops| ==> w.stops[j].recorder == r
  }

  lemma StepKeepsExclusive(w: World, move: Move)
    requires Exclusive(w) && Enabled(w, move) && Active(w)
    ensures Exclusive(Step(w, move))
  {
    match move
    case Collect =>
    case StopSettles(j, s) => StopSettlesKeepsExclusive(w, j, s);
    case StopForgets(j) => StopLeavesKeepsExclusive(w, j);
    case StopFails(j) => StopLeavesKeepsExclusive(w, j);
    case Publish(k) => StartLeavesKeepsExclusive(w, k);
    case StartFails(k) => StartLeavesKeepsExclusive(w, k);
    case _ =>
  }

  lemma StopSettlesKeepsExclusive(w: World, j: nat, s: Scope)
    requires Exclusive(w) && Enabled(w, StopSettles(j, s))
    ensures Exclusive(Step(w, StopSettles(j, s)))
  {
  }

  lemma StopLeavesKeepsExclusive(w: World, j: nat)
    requires Exclusive(w) && j < |w.stops|
    ensures Enabled(w, StopForgets(j)) ==> Exclusive(Step(w, StopForgets(j)))
    ensures Exclusive(Step(w, StopFails(j)))
  {
  }

  lemma StartLeavesKeepsExclusive(w: World, k: nat)
    requires Exclusive(w) && k < |w.starts|
    ensures Enabled(w, Publish(k)) ==> Exclusive(Step(w, Publish(k)))
    ensures Exclusive(Step(w, StartFails(k)))
  {
  }

  lemma StepKeepsUndisputed(w: World, move: Move, r: Recorder)
    requires Undisputed(w, r) && Enabled(w, move) && move != RecorderEnds(r)
    ensures Undisputed(Step(w, move), r)
  {
  }

  lemma {:induction false} ExclusiveWhileAlive(w: World, moves: seq<Move>, r: Recorder)
    requires Exclusive(w) && Undisputed(w, r) && Valid(w, moves) && RecorderEnds(r) !in moves
    ensures Exclusive(Run(w, moves)) && Undisputed(Run(w, moves), r)
    decreases |moves|
  {
    if moves != [] {
      assert moves[0] in moves;
      StepKeepsExclusive(w, moves[0]);
      StepKeepsUndisputed(w, moves[0], r);
      assert forall m :: m in moves[1..] ==> m in moves;
      ExclusiveWhileAlive(Step(w, moves[0]), moves[1..], r);
    }
  }

  /** For as long as the recorder created by this start lives, no scope is used by both sides. */
  ghost predicate ExclusiveFromStart(w: World, asManual: bool)
    requires Enabled(w, RecordingStarts(asManual))
  {
    forall moves :: Valid(Step(w, RecordingStarts(asManual)), moves) && RecorderEnds(w.next) !in moves
      ==> Exclusive(Run(Step(w, RecordingStarts(asManual)), moves))
  }

  // ---------------------------------------------------------------- exactly when exclusion holds

  /** These moves lead from one world to another while the recorder `r` lives. */
  ghost predicate Leads(w: World, moves: seq<Move>, end: World, r: Recorder) {
    Valid(w, moves) && Run(w, moves) == end && RecorderEnds(r) !in moves
  }

  lemma {:induction false} RunConcat(w: World, a: seq<Move>, b: seq<Move>)
    requires Valid(w, a) && Valid(Run(w, a), b)
    ensures Valid(w, a + b) && Run(w, a + b) == Run(Run(w, a), b)
    decreases |a|
  {
    if a == [] {
      assert a + b == b;
    } else {
      assert (a + b)[1..] == a[1..] + b;
      RunConcat(Step(w, a[0]), a[1..], b);
    }
  }

  lemma LeadsOn(w: World, a: seq<Move>, mid: World, b: seq<Move>, end: World, r: Recorder)
    requires Leads(w, a, mid, r) && Leads(mid, b, end, r)
    ensures Leads(w, a + b, end, r)
  {
    RunConcat(w, a, b);
  }

  lemma LeadsByOne(w: World, move: Move, r: Recorder)
    requires Enabled(w, move) && move != RecorderEnds(r)
    ensures Leads(w, [move], Step(w, move), r)
  {
    assert [move][1..] == [];
    assert Valid(Step(w, move), []) && Run(Step(w, move), []) == Step(w, move);
  }

  lemma LeadsNowhere(w: World, r: Recorder)
    ensures Leads(w, [], w, r)
  {
  }

  function WithFirstStop(w: World, stop: Stop): World
    requires w.stops != []
  {
    w.(stops := w.stops[0 := stop])
  }

  /** The first stop has all it waits for. */
  lemma {:induction false} FirstStopSettles(w: World, r: Recorder) returns (moves: seq<Move>)
    requires w.stops != []
    ensures Leads(w, moves, WithFirstStop(w, w.stops[0].(waiting := multiset{})), r)
    decreases |w.stops[0].waiting|
  {
    var stop := w.stops[0];
    if stop.waiting == multiset{} {
      LeadsNowhere(w, r);
      assert WithFirstStop(w, stop) == w;
      moves := [];
    } else {
      var s :| s in stop.waiting;
      var next := Step(w, StopSettles(0, s));
      LeadsByOne(w, StopSettles(0, s), r);
      moves := FirstStopSettles(next, r);
      LeadsOn(w, [StopSettles(0, s)], next, moves, WithFirstStop(next, next.stops[0].(waiting := multiset{})), r);
      moves := [StopSettles(0, s)] + moves;
    }
  }

  lemma FirstStopCancels(w: World, r: Recorder) returns (moves: seq<Move>)
    requires w.stops != [] && w.stops[0].waiting == multiset{}
    ensures Leads(w, moves, WithFirstStop(w, w.stops[0].(cancelled := true)), r)
  {
    if w.stops[0].cancelled {
      LeadsNowhere(w, r);
      assert WithFirstStop(w, w.stops[0]) == w;
      moves := [];
    } else {
      LeadsByOne(w, StopCancels(0), r);
      moves := [StopCancels(0)];
    }
  }

  lemma OtherRecorderEnds(w: World, other: Recorder, r: Recorder) returns (moves: seq<Move>)
    requires other != r
    ensures Leads(w, moves, w.(alive := w.alive - {other}), r)
  {
    if other in w.alive {
      LeadsByOne(w, RecorderEnds(other), r);
      moves := [RecorderEnds(other)];
    } else {
      LeadsNowhere(w, r);
      assert w.alive - {other} == w.alive;
      moves := [];
    }
  }

  /** A stop of an earlier recorder goes through to its end, and forgets the recorder `r`. */
  lemma EarlierStopForgets(w: World, r: Recorder) returns (moves: seq<Move>, end: World)
    requires w.stops != [] && w.stops[0].recorder != r && w.filed
    ensures Leads(w, moves, end, r)
    ensures !Active(end) && end.starts == w.starts && end.owned == w.owned && end.scopes == w.scopes
  {
    var other := w.stops[0].recorder;
    moves := FirstStopSettles(w, r);
    var w1 := WithFirstStop(w, w.stops[0].(waiting := multiset{}));
    var more := FirstStopCancels(w1, r);
    var w2 := WithFirstStop(w1, w1.stops[0].(cancelled := true));
    LeadsOn(w, moves, w1, more, w2, r);
    moves := moves + more;
    more := OtherRecorderEnds(w2, other, r);
    var w3 := w2.(alive := w2.alive - {other});
    LeadsOn(w, moves, w2, more, w3, r);
    moves := moves + more;
    LeadsByOne(w3, StopForgets(0), r);
    end := Step(w3, StopForgets(0));
    LeadsOn(w, moves, w3, [StopForgets(0)], end, r);
    moves := moves + [StopForgets(0)];
  }

  lemma ScopeIsFreed(w: World, s: Scope, r: Recorder) returns (moves: seq<Move>)
    ensures Leads(w, moves, w.(owned := w.owned - {s}), r)
  {
    if s in w.owned {
      LeadsByOne(w, MaximumEnds(s), r);
      moves := [MaximumEnds(s)];
    } else {
      LeadsNowhere(w, r);
      assert w.owned - {s} == w.owned;
      moves := [];
    }
  }

  /**
   With an earlier stop in flight there is a run that loses exclusion while the new recorder
   lives: its start picks a scope, the stop forgets it, and a job takes the scope.
   */
  lemma EarlierStopLosesExclusion(w: World, s: Scope, r: Recorder) returns (moves: seq<Move>, end: World)
    requires w.stops != [] && w.stops[0].recorder != r && w.filed && s in w.scopes
    requires w.starts != [] && w.starts[|w.starts| - 1].Unselected?
    ensures Leads(w, moves, end, r) && !Exclusive(end)
  {
    var k := |w.starts| - 1;
    moves := ScopeIsFreed(w, s, r);
    var w1 := w.(owned := w.owned - {s});
    LeadsByOne(w1, Select(k), r);
    var w2 := Step(w1, Select(k));
    LeadsOn(w, moves, w1, [Select(k)], w2, r);
    moves := moves + [Select(k)];
    var more, w3 := EarlierStopForgets(w2, r);
    LeadsOn(w, moves, w2, more, w3, r);
    moves := moves + more;
    LeadsByOne(w3, MaximumStarts(s), r);
    end := Step(w3, MaximumStarts(s));
    LeadsOn(w, moves, w3, [MaximumStarts(s)], end, r);
    moves := moves + [MaximumStarts(s)];
    assert end.starts[k].Selected? && s in end.starts[k].scopes && s in end.owned;
  }

  /**
   Ownership exclusion, exactly. Whatever happens while a recorder lives, exclusion holds for its
   whole life if and only if, when it is created, no job owns a scope on which an earlier
   recording has something under way - a loop that still runs, referred to or not, a frame being
   taken, a scope a stop waits for or a start has picked - and no stop is in flight, of whichever
   recorder and however far, unless there is no scope at all.
   */
  lemma ExclusionIffNothingUnderWay(w: World, asManual: bool)
    requires Reachable(w) && Enabled(w, RecordingStarts(asManual))
    ensures ExclusiveFromStart(w, asManual)
      <==> (forall s :: s in w.owned ==> !UnderWay(w, s)) && (w.stops == [] || w.scopes == {})
  {
    var r, w' := w.next, Step(w, RecordingStarts(asManual));
    SameUnderWay(w, asManual);
    LeadsNowhere(w', r);
    StepKeepsReachable(w, RecordingStarts(asManual));
    if !Exclusive(w') {
      assert !ExclusiveFromStart(w, asManual);
    } else if w.scopes == {} {
      forall moves | Valid(w', moves) ensures Exclusive(Run(w', moves)) {
        RunKeepsReachable(w', moves);
      }
    } else if w.stops == [] {
      forall moves | Valid(w', moves) && RecorderEnds(r) !in moves ensures Exclusive(Run(w', moves)) {
        ExclusiveWhileAlive(w', moves, r);
      }
    } else {
      var s :| s in w.scopes;
      var moves, end := EarlierStopLosesExclusion(w', s, r);
      assert !Exclusive(Run(w', moves));
    }
  }

  lemma SameUnderWay(w: World, asManual: bool)
    requires Enabled(w, RecordingStarts(asManual))
    ensures Exclusive(Step(w, RecordingStarts(asManual))) <==> forall s :: s in w.owned ==> !UnderWay(w, s)
  {
    var w' := Step(w, RecordingStarts(asManual));
    assert forall k :: 0 <= k < |w.starts| ==> w'.starts[k] == w.starts[k];
    forall s ensures InRecording(w', s) <==> UnderWay(w, s) {
    }
  }

  // ---------------------------------------------------------------- what the pieces do

  /** A start that has picked its scopes offers them for frames, or captures them and lets go of the loops before. */
  lemma PublishOffers(w: World, k: nat)
    requires Enabled(w, Publish(k))
    ensures var w', start := Step(w, Publish(k)), w.starts[k];
      && |w'.starts| == |w.starts| - 1 && w'.alive == w.alive && w'.owned == w.owned
      && (start.asManual ==> w'.manual == start.scopes && w'.held == w.held && w'.loose == w.loose)
      && (!start.asManual ==>
            && w'.manual == w.manual && w'.held == start.scopes
            && forall s :: w'.loose[s] == w.loose[s] + if s in w.held then 1 else 0)
  {
  }

  /** A start that fails takes back what is offered only once it has picked its scopes. */
  lemma FailedStartTakesBack(w: World, k: nat)
    requires Enabled(w, StartFails(k))
    ensures var w' := Step(w, StartFails(k));
      && |w'.starts| == |w.starts| - 1 && w'.held == w.held && w'.loose == w.loose
      && w'.manual == if w.starts[k].Selected? then {} else w.manual
  {
  }

  /** The last piece of a stop forgets recorder and file, and finds nothing to forget without a file. */
  lemma LastPieceForgets(w: World, j: nat)
    requires Enabled(w, StopForgets(j))
    ensures var w' := Step(w, StopForgets(j));
      && |w'.stops| == |w.stops| - 1 && w'.alive == w.alive && w'.held == w.held && w'.starts == w.starts
      && !w'.filed && (w.filed ==> w'.current == None && !w'.manualMode)
      && (!w.filed ==> w'.current == w.current && w'.manualMode == w.manualMode)
  {
  }

  /** A frame is under way on its scope from its start to its end. */
  lemma FrameIsUnderWay(w: World, s: Scope)
    requires Enabled(w, FrameStarts(s))
    ensures Step(w, FrameStarts(s)) == w.(capturing := {s}) && UnderWay(Step(w, FrameStarts(s)), s)
    ensures Step(Step(w, FrameStarts(s)), FrameEnds).capturing == {}
  {
  }

  /** What a stop that fails was waiting for goes on without it. */
  lemma FailedStopLeavesLoops(w: World, j: nat)
    requires Enabled(w, StopFails(j))
    ensures var w' := Step(w, StopFails(j));
      && |w'.stops| == |w.stops| - 1 && w'.alive == w.alive && w'.current == w.current
      && forall s :: w'.loose[s] == w.loose[s] + w.stops[j].waiting[s]
  {
  }

  /** From any world everything can come to an end; after that a recording is exclusive again. */
  lemma {:induction false} SettlesDown(w: World) returns (moves: seq<Move>)
    ensures Valid(w, moves)
    ensures var end := Run(w, moves);
      end.held == {} && end.loose == multiset{} && end.capturing == {} && end.starts == [] && end.stops == []
      && end.alive == {} && end.owned == w.owned && end.scopes == w.scopes
    decreases |w.stops|, |w.starts|, |w.capturing|, |w.held|, |w.loose|, |w.alive|
  {
    var move := FrameEnds;
    if w.stops != [] {
      move := StopFails(0);
    } else if w.starts != [] {
      move := StartFails(0);
    } else if w.capturing != {} {
    } else if s :| s in w.held {
      move := LoopFails(s);
    } else if s :| s in w.loose {
      move := LooseEnds(s);
    } else if r :| r in w.alive {
      move := RecorderEnds(r);
    } else {
      return [];
    }
    var more := SettlesDown(Step(w, move));
    assert ([move] + more)[1..] == more;
    moves := [move] + more;
  }

  // ---------------------------------------------------------------- orderly runs

  /**
   A recorder ends only when its stop has cancelled it, every stop goes through, and while one is
   in flight no other begins and no recording starts; no stop overtakes a start.
   */
  predicate Orderly(w: World, move: Move) {
    match move
    case RecorderEnds(r) => w.stops == [Stop(r, multiset{}, true)]
    case Collect => w.starts == [] && w.stops == []
    case StopFails(_) => false
    case RecordingStarts(_) => w.stops == []
    case _ => true
  }

  predicate OrderlyRun(w: World, moves: seq<Move>)
    requires Valid(w, moves)
    decreases |moves|
  {
    moves == [] || (Orderly(w, moves[0]) && OrderlyRun(Step(w, moves[0]), moves[1..]))
  }

  /** What orderly runs keep: one recorder at most, and with its stop in flight nothing else is. */
  ghost predicate InOrder(w: World) {
    && Exclusive(w)
    && (w.alive == {} || (w.current.Some? && w.alive == {w.current.value}))
    && w.loose == multiset{}
    && |w.starts| <= 1 && (w.starts != [] ==> w.held == {})
    && |w.stops| <= 1
    && (w.stops != [] || w.alive == {} ==> Idle(w))
    && (w.stops != [] && w.stops[0].cancelled ==> w.stops[0].waiting == multiset{})
    && (w.stops != [] && w.alive != {} ==> w.current == Some(w.stops[0].recorder))
    && (w.stops != [] && w.alive == {} ==> w.stops[0].waiting == multiset{})
  }

  lemma StepKeepsInOrder(w: World, move: Move)
    requires InOrder(w) && Enabled(w, move) && Orderly(w, move)
    ensures InOrder(Step(w, move))
  {
    if Active(w) {
      StepKeepsExclusive(w, move);
    }
  }

  lemma {:induction false} RunKeepsInOrder(w: World, moves: seq<Move>)
    requires InOrder(w) && Valid(w, moves) && OrderlyRun(w, moves)
    ensures InOrder(Run(w, moves))
    decreases |moves|
  {
    if moves != [] {
      StepKeepsInOrder(w, moves[0]);
      RunKeepsInOrder(Step(w, moves[0]), moves[1..]);
    }
  }

  /** In every orderly run, no scope is ever both in a recording and owned by a job. */
  lemma OrderlyRunsAreExclusive(w: World, moves: seq<Move>)
    requires Initial(w) && Valid(w, moves) && OrderlyRun(w, moves)
    ensures Exclusive(Run(w, moves))
  {
    RunKeepsInOrder(w, moves);
  }

  // ---------------------------------------------------------------- runs that lose it

  lemma FourSteps(w: World, a: Move, b: Move, c: Move, d: Move)
    requires Enabled(w, a) && Enabled(Step(w, a), b) && Enabled(Step(Step(w, a), b), c)
    requires Enabled(Step(Step(Step(w, a), b), c), d)
    ensures Valid(w, [a, b, c, d]) && Run(w, [a, b, c, d]) == Step(Step(Step(Step(w, a), b), c), d)
  {
    hide Step, Enabled;
    assert [a, b, c, d][1..] == [b, c, d];
    assert [b, c, d][1..] == [c, d];
    assert [c, d][1..] == [d];
    assert [d][1..] == [];
    var w3 := Step(Step(Step(w, a), b), c);
    assert Valid(Step(w3, d), []) && Run(Step(w3, d), []) == Step(w3, d);
    assert Valid(w3, [d]) && Run(w3, [d]) == Step(w3, d);
    assert Valid(Step(Step(w, a), b), [c, d]) && Run(Step(Step(w, a), b), [c, d]) == Step(w3, d);
    assert Valid(Step(w, a), [b, c, d]) && Run(Step(w, a), [b, c, d]) == Step(w3, d);
  }

  /** After these moves a recorder is alive, and a scope is used by both sides. */
  ghost predicate LosesExclusion(w: World, moves: seq<Move>) {
    Valid(w, moves) && Run(w, moves).alive != {} && !Exclusive(Run(w, moves))
  }

  /** One scope, which a periodic recording has started to capture. */
  predicate Recording(w: World, r: Recorder) {
    && w.scopes == {0} && w.owned == {} && r in w.alive && w.current == Some(r) && w.next == r + 1 && w.filed
    && w.held == {0} && w.manual == {} && w.capturing == {} && w.starts == []
  }

  lemma Collecting(w: World)
    requires Enabled(w, Collect) && w.manual == {} && (w.held == {} || w.held == {0})
    ensures Step(w, Collect).stops
         == w.stops + [Stop(w.current.value, if w.held == {} then multiset{} else multiset{0}, false)]
  {
    assert multiset(w.held) + multiset(w.manual) == if w.held == {} then multiset{} else multiset{0};
  }

  const START := [RecordingStarts(false), Select(0), Publish(0)]

  lemma StartRecords(w: World, last: Move)
    requires w.scopes == {0} && w.owned == {} && !Active(w) && w.starts == [] && w.capturing == {}
    requires var begun := Step(w, RecordingStarts(false));
      begun.starts == [Unselected(false)] && Enabled(Recorded(w), last)
    ensures Valid(w, START + [last]) && Run(w, START + [last]) == Step(Recorded(w), last)
    ensures Recording(Recorded(w), w.next)
  {
    var w1 := Step(w, RecordingStarts(false));
    var w2 := Step(w1, Select(0));
    assert w1.scopes - w1.owned == {0};
    assert w2.starts == [Selected(false, {0})];
    var w3 := Step(w2, Publish(0));
    assert w3.starts == [] && w3 == Recorded(w);
    FourSteps(w, RecordingStarts(false), Select(0), Publish(0), last);
    assert START + [last] == [RecordingStarts(false), Select(0), Publish(0), last];
  }

  /** The world once a periodic recording of the one scope has been started and published. */
  function Recorded(w: World): World {
    w.(alive := w.alive + {w.next}, current := Some(w.next), next := w.next + 1, filed := true,
       manualMode := false, manual := {}, held := {0}, loose := w.loose + multiset(w.held))
  }

  const OVERTAKING := [RecordingStarts(false), Collect, Select(0), Publish(0)]
  const ENDING := [StopCancels(0), RecorderEnds(0), StopForgets(0), MaximumStarts(0)]

  lemma StopOvertakesStart(w: World)
    requires Initial(w) && w.scopes == {0}
    ensures Valid(w, OVERTAKING)
    ensures Run(w, OVERTAKING)
         == w.(alive := {0}, current := Some(0), next := 1, filed := true, manualMode := false, held := {0},
               stops := [Stop(0, multiset{}, false)])
  {
    var w1 := Step(w, RecordingStarts(false));
    Collecting(w1);
    var w2 := Step(w1, Collect);
    assert w2.starts == [Unselected(false)] && w2.scopes - w2.owned == {0};
    var w3 := Step(w2, Select(0));
    assert w3.starts == [Selected(false, {0})];
    FourSteps(w, RecordingStarts(false), Collect, Select(0), Publish(0));
    assert Step(w3, Publish(0)).starts == [];
  }

  lemma OvertakingStopEnds(w: World)
    requires w.stops == [Stop(0, multiset{}, false)] && w.alive == {0} && w.filed && w.scopes == {0} && w.owned == {}
    ensures Valid(w, ENDING)
    ensures Run(w, ENDING)
         == w.(alive := {}, current := None, filed := false, manualMode := false, owned := {0}, stops := [])
  {
    var w1 := Step(w, StopCancels(0));
    assert w1.stops == [Stop(0, multiset{}, true)];
    var w2 := Step(w1, RecorderEnds(0));
    assert w2.alive == {};
    FourSteps(w, StopCancels(0), RecorderEnds(0), StopForgets(0), MaximumStarts(0));
    assert Step(w2, StopForgets(0)).stops == [];
  }

  /** A stop that overtakes the start it stops: the scope is picked after the stop has collected. */
  lemma StopDuringStartLeavesScopes(w: World)
    requires Initial(w) && w.scopes == {0}
    ensures LosesExclusion(w, OVERTAKING + (ENDING + [RecordingStarts(false)]))
  {
    StopOvertakesStart(w);
    var w1 := Run(w, OVERTAKING);
    OvertakingStopEnds(w1);
    var w2 := Run(w1, ENDING);
    LeadsByOne(w2, RecordingStarts(false), 1);
    RunConcat(w1, ENDING, [RecordingStarts(false)]);
    RunConcat(w, OVERTAKING, ENDING + [RecordingStarts(false)]);
    var end := Step(w2, RecordingStarts(false));
    assert 0 in end.owned && InRecording(end, 0) && 1 in end.alive;
  }

  /** A recorder that dies leaves its scope loops running. */
  lemma DeadRecorderLeavesLoops(w: World)
    requires Initial(w) && w.scopes == {0}
    ensures LosesExclusion(w, START + [RecorderEnds(0)]
                            + [MaximumStarts(0), RecordingStarts(false), Select(0), Publish(0)])
  {
    StartRecords(w, RecorderEnds(0));
    var w1 := Step(Recorded(w), RecorderEnds(0));
    assert 0 in w1.held && !Active(w1);
    var w2 := Step(Step(w1, MaximumStarts(0)), RecordingStarts(false));
    assert w2.starts == [Unselected(false)];
    FourSteps(w1, MaximumStarts(0), RecordingStarts(false), Select(0), Publish(0));
    RunConcat(w, START + [RecorderEnds(0)], [MaximumStarts(0), RecordingStarts(false), Select(0), Publish(0)]);
    var end := Step(Step(w2, Select(0)), Publish(0));
    assert 0 in multiset(w2.held) && 0 in end.loose;
    assert 0 in end.owned && InRecording(end, 0) && 1 in end.alive;
  }

  /** The stop of the one recording in flight goes through, and the service refers to no recorder. */
  lemma StopGoesThrough(w: World, r: Recorder)
    requires w.stops == [Stop(r, multiset{0}, false)] && w.alive == {r} && w.filed
    ensures var moves := [StopSettles(0, 0), StopCancels(0), RecorderEnds(r), StopForgets(0)];
      && Valid(w, moves)
      && Run(w, moves) == w.(stops := [], alive := {}, current := None, filed := false, manualMode := false)
  {
    var w1 := Step(w, StopSettles(0, 0));
    assert w1.stops == [Stop(r, multiset{}, false)];
    var w2 := Step(w1, StopCancels(0));
    assert w2.stops == [Stop(r, multiset{}, true)];
    var w3 := Step(w2, RecorderEnds(r));
    assert w3.alive == {};
    FourSteps(w, StopSettles(0, 0), StopCancels(0), RecorderEnds(r), StopForgets(0));
  }

  lemma TwoSteps(w: World, a: Move, b: Move)
    requires Enabled(w, a) && Enabled(Step(w, a), b)
    ensures Valid(w, [a, b]) && Run(w, [a, b]) == Step(Step(w, a), b)
  {
    hide Step, Enabled;
    assert [a, b][1..] == [b] && [b][1..] == [];
    var next := Step(w, a);
    assert Valid(Step(next, b), []) && Run(Step(next, b), []) == Step(next, b);
    assert Valid(next, [b]) && Run(next, [b]) == Step(next, b);
  }

  /**
   The next recording overwrites the loops of a dead one, so not even its stop, alone and going
   through, ends them: it knows of one loop only.
   */
  lemma OverwrittenLoopOutlivesStop(w: World)
    requires Initial(w) && w.scopes == {0}
    ensures LosesExclusion(w, START + [RecorderEnds(0)] + (START + [Collect]
                            + ([StopSettles(0, 0), StopCancels(0), RecorderEnds(1), StopForgets(0)]
                               + [MaximumStarts(0), RecordingStarts(false)])))
  {
    var third := [StopSettles(0, 0), StopCancels(0), RecorderEnds(1), StopForgets(0)];
    var fourth := [MaximumStarts(0), RecordingStarts(false)];
    StartRecords(w, RecorderEnds(0));
    var w1 := Step(Recorded(w), RecorderEnds(0));
    assert w1.alive == {} && multiset(w1.held) == multiset{0};
    StartRecords(w1, Collect);
    Collecting(Recorded(w1));
    var w2 := Step(Recorded(w1), Collect);
    assert w2.stops == [Stop(1, multiset{0}, false)] && w2.loose == multiset{0} && w2.alive == {1};
    StopGoesThrough(w2, 1);
    var w3 := Run(w2, third);
    TwoSteps(w3, MaximumStarts(0), RecordingStarts(false));
    var end := Run(w3, fourth);
    RunConcat(w2, third, fourth);
    RunConcat(w1, START + [Collect], third + fourth);
    RunConcat(w, START + [RecorderEnds(0)], START + [Collect] + (third + fourth));
    assert 0 in end.owned && InRecording(end, 0) && 2 in end.alive;
  }

  lemma SecondStopGoesThrough(w: World, late: Stop)
    requires w.stops == [late] && w.alive == {0} && w.current == Some(0) && w.filed
    requires w.held == {} && w.manual == {} && w.capturing == {}
    ensures var moves := [Collect, StopCancels(1), RecorderEnds(0), StopForgets(1)];
      && Valid(w, moves)
      && Run(w, moves) == w.(alive := {}, current := None, filed := false, manualMode := false)
  {
    Collecting(w);
    var w1 := Step(w, Collect);
    assert w1.stops == [late, Stop(0, multiset{}, false)];
    var w2 := Step(w1, StopCancels(1));
    assert w2.stops == [late, Stop(0, multiset{}, true)];
    var w3 := Step(w2, RecorderEnds(0));
    assert w3.alive == {};
    var w4 := Step(w3, StopForgets(1));
    assert w4.stops == [late];
    FourSteps(w, Collect, StopCancels(1), RecorderEnds(0), StopForgets(1));
  }

  lemma LateStopForgets(w: World, s: Scope)
    requires w.stops == [Stop(0, multiset{}, false)] && 0 !in w.alive && w.filed && s in w.scopes && s !in w.owned
    ensures var moves := [StopCancels(0), StopForgets(0), MaximumStarts(s)];
      && Valid(w, moves)
      && Run(w, moves)
         == w.(stops := [], current := None, filed := false, manualMode := false, owned := w.owned + {s})
  {
    var w1 := Step(w, StopCancels(0));
    assert w1.stops == [Stop(0, multiset{}, true)];
    var w2 := Step(w1, StopForgets(0));
    assert w2.stops == [];
    TwoSteps(w1, StopForgets(0), MaximumStarts(s));
    LeadsByOne(w, StopCancels(0), 1);
    RunConcat(w, [StopCancels(0)], [StopForgets(0), MaximumStarts(s)]);
    assert [StopCancels(0)] + [StopForgets(0), MaximumStarts(s)] == [StopCancels(0), StopForgets(0), MaximumStarts(s)];
  }

  const SECOND_STOP := [Collect, StopCancels(1), RecorderEnds(0), StopForgets(1)]
  const LATE_STOP := [StopCancels(0), StopForgets(0), MaximumStarts(0)]

  lemma FirstStopIsOvertaken(w: World)
    requires Initial(w) && w.scopes == {0}
    ensures Valid(w, START + [Collect] + SECOND_STOP)
    ensures Run(w, START + [Collect] + SECOND_STOP)
         == w.(next := 1, manualMode := false, stops := [Stop(0, multiset{0}, false)])
  {
    StartRecords(w, Collect);
    Collecting(Recorded(w));
    var w1 := Step(Recorded(w), Collect);
    assert w1.stops == [Stop(0, multiset{0}, false)] && w1.alive == {0} && w1.loose == multiset{};
    SecondStopGoesThrough(w1, w1.stops[0]);
    RunConcat(w, START + [Collect], SECOND_STOP);
  }

  /**
   Two stops of one recording: the second goes through while the first still waits for the loop,
   and the first then forgets the next recording's recorder, which goes on with its loop.
   */
  lemma OverlappingStopForgetsNext(w: World)
    requires Initial(w) && w.scopes == {0}
    ensures LosesExclusion(w, START + [Collect] + SECOND_STOP + (START + [StopSettles(0, 0)] + LATE_STOP))
  {
    FirstStopIsOvertaken(w);
    var w1 := Run(w, START + [Collect] + SECOND_STOP);
    StartRecords(w1, StopSettles(0, 0));
    var w2 := Step(Recorded(w1), StopSettles(0, 0));
    assert w2.stops == [Stop(0, multiset{}, false)] && w2.alive == {1} && w2.held == {0};
    LateStopForgets(w2, 0);
    var end := Run(w2, LATE_STOP);
    RunConcat(w1, START + [StopSettles(0, 0)], LATE_STOP);
    RunConcat(w, START + [Collect] + SECOND_STOP, START + [StopSettles(0, 0)] + LATE_STOP);
    assert 0 in end.owned && InRecording(end, 0) && 1 in end.alive;
  }

  /**
   One stop alone: a recording starts between the end of the recorder it has cancelled and its
   last piece, which then forgets the new recorder.
   */
  lemma StopForgetsRecordingThatSlipsIn(w: World)
    requires Initial(w) && w.scopes == {0}
    ensures LosesExclusion(w, START + [Collect] + ([StopSettles(0, 0), StopCancels(0), RecorderEnds(0)]
                            + (START + [StopForgets(0)] + [MaximumStarts(0)])))
  {
    var second := [StopSettles(0, 0), StopCancels(0), RecorderEnds(0)];
    StartRecords(w, Collect);
    Collecting(Recorded(w));
    var w1 := Step(Recorded(w), Collect);
    assert w1.stops == [Stop(0, multiset{0}, false)] && w1.alive == {0};
    StopCancelsRecorder(w1);
    var w2 := Run(w1, second);
    StartRecords(w2, StopForgets(0));
    var w3 := Step(Recorded(w2), StopForgets(0));
    assert w3.alive == {1} && w3.held == {0} && !Active(w3);
    LeadsByOne(w3, MaximumStarts(0), 1);
    var end := Step(w3, MaximumStarts(0));
    RunConcat(w2, START + [StopForgets(0)], [MaximumStarts(0)]);
    RunConcat(w1, second, START + [StopForgets(0)] + [MaximumStarts(0)]);
    RunConcat(w, START + [Collect], second + (START + [StopForgets(0)] + [MaximumStarts(0)]));
    assert 0 in end.owned && InRecording(end, 0) && 1 in end.alive;
  }

  lemma StopCancelsRecorder(w: World)
    requires w.stops == [Stop(0, multiset{0}, false)] && w.alive == {0}
    ensures var moves := [StopSettles(0, 0), StopCancels(0), RecorderEnds(0)];
      Valid(w, moves) && Run(w, moves) == w.(stops := [Stop(0, multiset{}, true)], alive := {})
  {
    var w1 := Step(w, StopSettles(0, 0));
    assert w1.stops == [Stop(0, multiset{}, false)];
    var w2 := Step(w1, StopCancels(0));
    assert w2.stops == [Stop(0, multiset{}, true)];
    TwoSteps(w1, StopCancels(0), RecorderEnds(0));
    LeadsByOne(w, StopSettles(0, 0), 1);
    RunConcat(w, [StopSettles(0, 0)], [StopCancels(0), RecorderEnds(0)]);
    assert [StopSettles(0, 0)] + [StopCancels(0), RecorderEnds(0)]
        == [StopSettles(0, 0), StopCancels(0), RecorderEnds(0)];
  }

  // ---------------------------------------------------------------- a run that keeps it

  lemma {:induction false} OrderlyConcat(w: World, a: seq<Move>, b: seq<Move>)
    requires Valid(w, a) && OrderlyRun(w, a) && Valid(Run(w, a), b) && OrderlyRun(Run(w, a), b)
    ensures Valid(w, a + b) && OrderlyRun(w, a + b)
    decreases |a|
  {
    RunConcat(w, a, b);
    if a == [] {
      assert a + b == b;
    } else {
      assert (a + b)[1..] == a[1..] + b;
      OrderlyConcat(Step(w, a[0]), a[1..], b);
    }
  }

  lemma OrderlyFour(w: World, a: Move, b: Move, c: Move, d: Move)
    requires Enabled(w, a) && Enabled(Step(w, a), b) && Enabled(Step(Step(w, a), b), c)
    requires Enabled(Step(Step(Step(w, a), b), c), d)
    requires Orderly(w, a) && Orderly(Step(w, a), b) && Orderly(Step(Step(w, a), b), c)
    requires Orderly(Step(Step(Step(w, a), b), c), d)
    ensures Valid(w, [a, b, c, d]) && OrderlyRun(w, [a, b, c, d])
  {
    hide Step, Enabled, Orderly;
    FourSteps(w, a, b, c, d);
    assert [a, b, c, d][1..] == [b, c, d] && [b, c, d][1..] == [c, d] && [c, d][1..] == [d] && [d][1..] == [];
    var w3 := Step(Step(Step(w, a), b), c);
    assert Valid(Step(w3, d), []) && OrderlyRun(Step(w3, d), []);
    assert Valid(w3, [d]) && OrderlyRun(w3, [d]);
    assert Valid(Step(Step(w, a), b), [c, d]) && OrderlyRun(Step(Step(w, a), b), [c, d]);
    assert Valid(Step(w, a), [b, c, d]) && OrderlyRun(Step(w, a), [b, c, d]);
  }

  /** A recording and its stop, and then a MAXIMUM job on the scope: the ordinary case is orderly. */
  lemma OrdinaryRunIsOrderly(w: World)
    requires Initial(w) && w.scopes == {0}
    ensures var moves := START + [Collect] + [StopSettles(0, 0), StopCancels(0), RecorderEnds(0), StopForgets(0)];
      && Valid(w, moves) && OrderlyRun(w, moves)
      && Idle(Run(w, moves)) && Enabled(Run(w, moves), MaximumStarts(0))
      && Orderly(Run(w, moves), MaximumStarts(0))
  {
    var w1 := Step(w, RecordingStarts(false));
    assert w1.starts == [Unselected(false)];
    StartRecords(w, Collect);
    var w2 := Step(w1, Select(0));
    var w3 := Step(w2, Publish(0));
    assert w3.starts == [];
    OrderlyFour(w, RecordingStarts(false), Select(0), Publish(0), Collect);
    assert START + [Collect] == [RecordingStarts(false), Select(0), Publish(0), Collect];
    Collecting(Recorded(w));
    var w4 := Step(Recorded(w), Collect);
    assert w4.stops == [Stop(0, multiset{0}, false)] && w4.alive == {0};
    OrderlyStop(w4, 0);
    StopGoesThrough(w4, 0);
    OrderlyConcat(w, START + [Collect], [StopSettles(0, 0), StopCancels(0), RecorderEnds(0), StopForgets(0)]);
    RunConcat(w, START + [Collect], [StopSettles(0, 0), StopCancels(0), RecorderEnds(0), StopForgets(0)]);
    assert Recorded(w).loose == multiset{};
  }

  lemma OrderlyStop(w: World, r: Recorder)
    requires w.stops == [Stop(r, multiset{0}, false)] && w.alive == {r} && w.filed
    ensures var moves := [StopSettles(0, 0), StopCancels(0), RecorderEnds(r), StopForgets(0)];
      Valid(w, moves) && OrderlyRun(w, moves)
  {
    var w1 := Step(w, StopSettles(0, 0));
    assert w1.stops == [Stop(r, multiset{}, false)];
    var w2 := Step(w1, StopCancels(0));
    assert w2.stops == [Stop(r, multiset{}, true)];
    var w3 := Step(w2, RecorderEnds(r));
    assert w3.alive == {};
    OrderlyFour(w, StopSettles(0, 0), StopCancels(0), RecorderEnds(r), StopForgets(0));
  }

  // ---------------------------------------------------------------- one MAXIMUM capture job

  datatype JobState = Ready | Starting | Capturing | Finalizing | Completed | Stopped | Failed

  datatype StartOutcome = SuspendCancelled | PreparationFails | Begins

  /** How the export ends; `Unforeseen` is an exception outside the four kinds the job catches. */
  datatype StreamOutcome = Finishes | Cancelled | Foreseen | Unforeseen(whileFinalizing: bool)

  predicate Owns(state: JobState) {
    state.Starting? || state.Capturing? || state.Finalizing?
  }

  /** What is said of a job that has ended so; after an unforeseen exception it is still under way. */
  function Outcome(stream: StreamOutcome): JobState {
    match stream
    case Finishes => Completed
    case Cancelled => Stopped
    case Foreseen => Failed
    case Unforeseen(whileFinalizing) => if whileFinalizing then Finalizing else Capturing
  }

  /** The MAXIMUM service's view of one scope, with the polling suspensions it has not given back. */
  class MaximumCapture {
    var state: JobState
    var suspensions: nat
    var jobRunning: bool

    constructor ()
      ensures state == Ready && suspensions == 0 && !jobRunning
    {
      state, suspensions, jobRunning := Ready, 0, false;
    }

    /** `start_capture` once the recording is known to be inactive. */
    method StartCapture(outcome: StartOutcome) returns (started: bool)
      modifies this
      ensures old(Owns(state)) ==>
        && !started && state == old(state)
        && suspensions == old(suspensions) && jobRunning == old(jobRunning)
      ensures !old(Owns(state)) ==>
        state == if outcome.Begins? then Capturing else if outcome.PreparationFails? then Failed else Starting
      ensures !old(Owns(state)) ==>
        && (started <==> outcome.Begins?)
        && jobRunning == (started || old(jobRunning))
        && (suspensions == old(suspensions) <==> outcome.PreparationFails?)
        && suspensions == old(suspensions) + (if outcome.PreparationFails? then 0 else 1)
        && (Owns(state) <==> !outcome.PreparationFails?)
    {
      if state.Starting? || state.Capturing? || state.Finalizing? {
        return false;
      }
      state := Starting;
      suspensions := suspensions + 1;
      if outcome.SuspendCancelled? {
        // The wait for the scope's lock is outside the try block.
        return false;
      }
      if outcome.PreparationFails? {
        state := Failed;
        suspensions := suspensions - 1;
        return false;
      }
      state := Capturing;
      jobRunning := true;
      return true;
    }

    /**
     `_run_capture`; `closes[k]` is false when closing the k-th stream still open raises or is
     cancelled. The suspension is given back, once, exactly when every close succeeds.
     */
    method RunCapture(outcome: StreamOutcome, closes: seq<bool>)
      requires state.Capturing? && jobRunning && suspensions > 0
      modifies this
      ensures suspensions == old(suspensions) - 1 <==> false !in closes
      ensures suspensions == old(suspensions) <==> false in closes
      ensures jobRunning <==> false in closes
      ensures Owns(state) <==> outcome.Unforeseen?
      ensures state == Outcome(outcome)
    {
      match outcome {
        case Finishes => state := Finalizing; state := Completed;
        case Cancelled => state := Stopped;
        case Foreseen => state := Failed;
        case Unforeseen(whileFinalizing) => if whileFinalizing { state := Finalizing; }
      }
      var i := 0;
      while i < |closes|
        invariant 0 <= i <= |closes|
        invariant false !in closes[..i]
        invariant suspensions == old(suspensions) && jobRunning
        invariant state == Outcome(outcome)
      {
        if !closes[i] {
          return;
        }
        i := i + 1;
      }
      assert closes[..i] == closes;
      jobRunning := false;
      suspensions := suspensions - 1;
    }

    /** One whole attempt: a start, and its job when it begins. */
    method Attempt(start: StartOutcome, stream: StreamOutcome, closes: seq<bool>)
      requires !jobRunning
      modifies this
      ensures !old(Owns(state)) ==>
        (suspensions == old(suspensions)
         <==> start.PreparationFails? || (start.Begins? && false !in closes))
      ensures !old(Owns(state)) ==>
        (Owns(state) <==> start.SuspendCancelled? || (start.Begins? && stream.Unforeseen?))
      ensures suspensions >= old(suspensions)
      ensures !old(Owns(state)) && start.Begins? ==> state == Outcome(stream)
    {
      var started := StartCapture(start);
      if started {
        RunCapture(stream, closes);
      }
    }
  }
}
