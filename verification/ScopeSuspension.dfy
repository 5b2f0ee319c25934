/**
 Suspending a scope's display-only polling, where the read path never looks at the count
 again once it holds the lock.

 The polling loop tests the count and joins the operation lock in one uninterrupted piece,
 and `suspend_live_polling` raises the count and joins the same lock in one piece, so FIFO
 order alone puts every display read ahead of the suspension. The moves `PollTest` and
 `PollJoin` are the same loop with an await between the test and the join, which the source
 does not have; they show that the order is then lost.
 */
module ScopeSuspension {
  type Id = nat

  datatype Job =
    | Display(reading: bool)
    | Explicit(reading: bool)
    | Drain(suspension: Id)

  datatype Progress = Waiting | Returned | Abandoned

  datatype World = World(
    count: nat,
    resumed: bool,
    queue: seq<Job>,
    suspensions: map<Id, Progress>,
    between: nat)

  datatype Move =
    | Poll
    | PollTest
    | PollJoin
    | Capture
    | Suspend(id: Id)
    | Resume(id: Id)
    | Advance
    | Cancel(at: nat)

  predicate Enabled(w: World, move: Move) {
    match move
    case Poll => w.count == 0
    case PollTest => w.count == 0
    case PollJoin => w.between > 0
    case Capture => true
    case Suspend(id) => id !in w.suspensions
    case Resume(id) => id in w.suspensions && w.suspensions[id].Returned?
    case Advance => w.queue != []
    case Cancel(at) => at < |w.queue|
  }

  function Step(w: World, move: Move): World
    requires Enabled(w, move)
  {
    match move
    case Poll => w.(queue := w.queue + [Display(false)])
    case PollTest => w.(between := w.between + 1)
    case PollJoin => w.(between := w.between - 1, queue := w.queue + [Display(false)])
    case Capture => w.(queue := w.queue + [Explicit(false)])
    case Suspend(id) =>
      w.(count := w.count + 1, resumed := false, queue := w.queue + [Drain(id)],
         suspensions := w.suspensions[id := Waiting])
    case Resume(id) =>
      var left := w.(suspensions := w.suspensions - {id});
      if w.count == 0 then left
      else left.(count := w.count - 1, resumed := w.resumed || w.count == 1)
    case Advance =>
      (match w.queue[0]
       case Display(false) => w.(queue := [Display(true)] + w.queue[1..])
       case Explicit(false) => w.(queue := [Explicit(true)] + w.queue[1..])
       case Drain(id) => w.(queue := w.queue[1..], suspensions := w.suspensions[id := Returned])
       case _ => w.(queue := w.queue[1..]))
    case Cancel(at) =>
      var left := w.(queue := w.queue[..at] + w.queue[at + 1..]);
      if w.queue[at].Drain?
      then left.(suspensions := w.suspensions[w.queue[at].suspension := Abandoned])
      else left
  }

  predicate Valid(w: World, moves: seq<Move>)
    decreases |moves|
  {
    moves == [] || (Enabled(w, moves[0]) && Valid(Step(w, moves[0]), moves[1..]))
  }

  function Run(w: World, moves: seq<Move>): World
    requires Valid(w, moves)
    decreases |moves|
  {
    if moves == [] then w else Run(Step(w, moves[0]), moves[1..])
  }

  predicate Initial(w: World) {
    w == World(0, true, [], map[], 0)
  }

  /** The loop as written: the test and the join are one piece. */
  predicate AsWritten(moves: seq<Move>) {
    PollTest !in moves
  }

  ghost predicate Inv(w: World) {
    && w.between == 0
    && w.count == |w.suspensions|
    && (w.resumed <==> w.count == 0)
    && (forall i :: 0 <= i < |w.queue| && w.queue[i].Drain? ==>
          w.queue[i].suspension in w.suspensions && w.suspensions[w.queue[i].suspension].Waiting?)
    && (forall i, j :: 0 <= i < j < |w.queue| && w.queue[i].Drain? ==>
          !w.queue[j].Display? && w.queue[i] != w.queue[j])
    && ((exists id :: id in w.suspensions && w.suspensions[id].Returned?)
          ==> forall i :: 0 <= i < |w.queue| ==> !w.queue[i].Display?)
  }

  lemma NoSuspensions(w: World)
    requires Inv(w) && w.count == 0
    ensures w.suspensions == map[]
  {
  }

  lemma DrainReturns(w: World)
    requires Inv(w) && w.queue != [] && w.queue[0].Drain?
    ensures Inv(Step(w, Advance))
  {
  }

  lemma CancelKeepsInv(w: World, at: nat)
    requires Inv(w) && at < |w.queue|
    ensures Inv(Step(w, Cancel(at)))
  {
  }

  lemma ResumeKeepsInv(w: World, id: Id)
    requires Inv(w) && Enabled(w, Resume(id))
    ensures Inv(Step(w, Resume(id)))
  {
  }

  lemma SuspendKeepsInv(w: World, id: Id)
    requires Inv(w) && Enabled(w, Suspend(id))
    ensures Inv(Step(w, Suspend(id)))
  {
  }

  lemma JoinKeepsInv(w: World, job: Job)
    requires Inv(w) && !job.Drain? && (job.Display? ==> w.suspensions == map[])
    ensures Inv(w.(queue := w.queue + [job]))
  {
  }

  lemma AdvanceKeepsInv(w: World)
    requires Inv(w) && w.queue != []
    ensures Inv(Step(w, Advance))
  {
    var w' := Step(w, Advance);
    if w.queue[0].Drain? {
      DrainReturns(w);
    } else if |w'.queue| == |w.queue| {
      assert forall i :: 0 < i < |w.queue| ==> w'.queue[i] == w.queue[i];
    } else {
      assert forall i :: 0 <= i < |w'.queue| ==> w'.queue[i] == w.queue[i + 1];
    }
  }

  lemma StepKeepsInv(w: World, move: Move)
    requires Inv(w) && Enabled(w, move) && move != PollTest
    ensures Inv(Step(w, move))
  {
    match move
    case Suspend(id) => SuspendKeepsInv(w, id);
    case Resume(id) => ResumeKeepsInv(w, id);
    case Cancel(at) => CancelKeepsInv(w, at);
    case Poll =>
      NoSuspensions(w);
      JoinKeepsInv(w, Display(false));
    case Capture => JoinKeepsInv(w, Explicit(false));
    case Advance => AdvanceKeepsInv(w);
    case PollJoin =>
  }

  lemma {:induction false} RunKeepsInv(w: World, moves: seq<Move>)
    requires Inv(w) && Valid(w, moves) && AsWritten(moves)
    ensures Inv(Run(w, moves))
    decreases |moves|
  {
    if moves != [] {
      assert moves[0] in moves;
      StepKeepsInv(w, moves[0]);
      assert forall m :: m in moves[1..] ==> m in moves;
      RunKeepsInv(Step(w, moves[0]), moves[1..]);
    }
  }

  /**
   Live-poll suspension by FIFO alone: once a suspension has returned, and until its resume,
   no display read runs or even waits for the lock.
   */
  lemma NoDisplayReadWhileSuspended(w: World, moves: seq<Move>)
    requires Initial(w) && Valid(w, moves) && AsWritten(moves)
    ensures var now := Run(w, moves);
      && now.count == |now.suspensions|
      && (now.resumed <==> now.count == 0)
      && ((exists id :: id in now.suspensions && now.suspensions[id].Returned?)
            ==> forall i :: 0 <= i < |now.queue| ==> !now.queue[i].Display?)
  {
    RunKeepsInv(w, moves);
  }

  // ---------------------------------------------------------------- which reads take place

  /** Pieces the holders of the lock take until the queue is through. */
  function Turns(queue: seq<Job>): nat {
    if queue == [] then 0 else (if queue[0].Drain? || queue[0].reading then 1 else 2) + Turns(queue[1..])
  }

  ghost predicate OnlyAdvances(moves: seq<Move>) {
    forall m :: m in moves ==> m == Advance
  }

  lemma AheadGoesOn(w: World, ahead: seq<Job>, last: Job) returns (left: seq<Job>)
    requires w.queue == ahead + [last] && ahead != []
    ensures Step(w, Advance).queue == left + [last] && Turns(left) < Turns(ahead)
    ensures Step(w, Advance).count == w.count
  {
    var queue := Step(w, Advance).queue;
    assert (ahead + [last])[1..] == ahead[1..] + [last];
    left := if |queue| == |ahead| then ahead[1..] else [queue[0]] + ahead[1..];
    assert left != ahead[1..] ==> left[1..] == ahead[1..];
    assert queue == left + [last];
  }

  /** A read that waits behind others comes to hold the lock when those ahead are done, and starts. */
  lemma {:induction false} ReadComesUp(w: World, ahead: seq<Job>, read: Job) returns (moves: seq<Move>)
    requires w.queue == ahead + [read] && (read == Display(false) || read == Explicit(false))
    ensures OnlyAdvances(moves) && Valid(w, moves) && Run(w, moves).count == w.count
    ensures Run(w, moves).queue == [if read.Display? then Display(true) else Explicit(true)]
    decreases Turns(ahead)
  {
    hide Turns;
    var next := Step(w, Advance);
    if ahead == [] {
      assert ahead + [read] == [read] && [read][1..] == [];
      moves := [];
      assert Valid(next, moves) && Run(next, moves) == next;
    } else {
      var left := AheadGoesOn(w, ahead, read);
      moves := ReadComesUp(next, left, read);
    }
    assert ([Advance] + moves)[1..] == moves;
    moves := [Advance] + moves;
  }

  /**
   A capture asked for takes place whatever suspends the polling, and the polling loop asks for a
   display read, which then takes place, exactly when nothing suspends it.
   */
  lemma ReadTakesPlaceIff(w: World, moves: seq<Move>) returns (capture: seq<Move>, display: seq<Move>)
    requires Initial(w) && Valid(w, moves) && AsWritten(moves)
    ensures var now := Run(w, moves);
      && OnlyAdvances(capture) && Valid(now, [Capture] + capture)
      && Run(now, [Capture] + capture).queue == [Explicit(true)]
      && (Enabled(now, Poll) <==> now.suspensions == map[])
      && (Enabled(now, Poll) ==>
            && OnlyAdvances(display) && Valid(now, [Poll] + display)
            && Run(now, [Poll] + display).queue == [Display(true)])
  {
    var now := Run(w, moves);
    RunKeepsInv(w, moves);
    if now.count == 0 {
      NoSuspensions(now);
      display := ReadComesUp(Step(now, Poll), now.queue, Display(false));
      assert ([Poll] + display)[1..] == display;
    } else {
      display := [];
    }
    capture := ReadComesUp(Step(now, Capture), now.queue, Explicit(false));
    assert ([Capture] + capture)[1..] == capture;
  }

  // ---------------------------------------------------------------- abandoned suspensions

  ghost predicate CanResumePolling(w: World) {
    exists moves :: Valid(w, moves) && AsWritten(moves) && Run(w, moves).resumed
  }

  ghost predicate NothingAbandoned(w: World) {
    forall id :: id in w.suspensions ==> !w.suspensions[id].Abandoned?
  }

  lemma {:induction false} AbandonedForever(w: World, moves: seq<Move>, id: Id)
    requires Inv(w) && Valid(w, moves) && AsWritten(moves)
    requires id in w.suspensions && w.suspensions[id].Abandoned?
    ensures Inv(Run(w, moves)) && id in Run(w, moves).suspensions
    decreases |moves|
  {
    if moves != [] {
      assert moves[0] in moves;
      StepKeepsInv(w, moves[0]);
      assert forall m :: m in moves[1..] ==> m in moves;
      AbandonedForever(Step(w, moves[0]), moves[1..], id);
    }
  }

  lemma KnownIsCounted(w: World, id: Id)
    requires Inv(w) && id in w.suspensions
    ensures !w.resumed
  {
    assert |w.suspensions.Keys| > 0;
  }

  lemma AsWrittenFirst(move: Move, rest: seq<Move>)
    requires move != PollTest && AsWritten(rest)
    ensures AsWritten([move] + rest) && ([move] + rest)[1..] == rest
  {
  }

  /** A suspension that waits does so in the lock. */
  ghost predicate WaitersQueued(w: World) {
    forall id :: id in w.suspensions && w.suspensions[id].Waiting? ==> Drain(id) in w.queue
  }

  lemma StillQueued(q: seq<Job>, at: nat, job: Job)
    requires at < |q| && job in q && job != q[at]
    ensures job in q[..at] + q[at + 1..]
  {
    var i :| 0 <= i < |q| && q[i] == job;
    assert (q[..at] + q[at + 1..])[if i < at then i else i - 1] == job;
  }

  lemma CancelKeepsWaitersQueued(w: World, at: nat)
    requires WaitersQueued(w) && at < |w.queue|
    ensures WaitersQueued(Step(w, Cancel(at)))
  {
    var w' := Step(w, Cancel(at));
    forall id | id in w'.suspensions && w'.suspensions[id].Waiting? ensures Drain(id) in w'.queue {
      StillQueued(w.queue, at, Drain(id));
    }
  }

  lemma AdvanceKeepsWaitersQueued(w: World)
    requires WaitersQueued(w) && w.queue != []
    ensures WaitersQueued(Step(w, Advance))
  {
    var w' := Step(w, Advance);
    forall id | id in w'.suspensions && w'.suspensions[id].Waiting? ensures Drain(id) in w'.queue {
      StillQueued(w.queue, 0, Drain(id));
      assert w.queue[..0] + w.queue[1..] == w.queue[1..];
    }
  }

  lemma StepKeepsWaitersQueued(w: World, move: Move)
    requires WaitersQueued(w) && Enabled(w, move)
    ensures WaitersQueued(Step(w, move))
  {
    match move
    case Suspend(id) => assert Step(w, move).queue[|w.queue|] == Drain(id);
    case Cancel(at) => CancelKeepsWaitersQueued(w, at);
    case Advance => AdvanceKeepsWaitersQueued(w);
    case _ =>
  }

  lemma {:induction false} RunKeepsWaitersQueued(w: World, moves: seq<Move>)
    requires Inv(w) && WaitersQueued(w) && Valid(w, moves) && AsWritten(moves)
    ensures WaitersQueued(Run(w, moves))
    decreases |moves|
  {
    if moves != [] {
      assert moves[0] in moves;
      StepKeepsInv(w, moves[0]);
      StepKeepsWaitersQueued(w, moves[0]);
      assert forall m :: m in moves[1..] ==> m in moves;
      RunKeepsWaitersQueued(Step(w, moves[0]), moves[1..]);
    }
  }

  /** Emptying the lock: a read is cancelled, a suspension at the head returns. */
  function Settle(w: World): Move
    requires w.queue != []
  {
    if w.queue[0].Drain? then Advance else Cancel(0)
  }

  lemma SettleProgresses(w: World)
    requires w.queue != [] && NothingAbandoned(w)
    ensures NothingAbandoned(Step(w, Settle(w))) && |Step(w, Settle(w)).queue| < |w.queue|
  {
  }

  lemma {:induction false} Quiesce(w: World) returns (moves: seq<Move>)
    requires Inv(w) && WaitersQueued(w) && NothingAbandoned(w)
    ensures Valid(w, moves) && AsWritten(moves) && Run(w, moves).resumed
    decreases |w.queue|
  {
    hide Inv, WaitersQueued, NothingAbandoned, AsWritten;
    if w.queue != [] {
      StepKeepsInv(w, Settle(w));
      StepKeepsWaitersQueued(w, Settle(w));
      SettleProgresses(w);
      var rest := Quiesce(Step(w, Settle(w)));
      AsWrittenFirst(Settle(w), rest);
      moves := [Settle(w)] + rest;
    } else {
      moves := ResumeAll(w);
    }
  }

  lemma {:induction false} ResumeAll(w: World) returns (moves: seq<Move>)
    requires Inv(w) && WaitersQueued(w) && w.queue == [] && NothingAbandoned(w)
    ensures Valid(w, moves) && AsWritten(moves) && Run(w, moves).resumed
    decreases |w.suspensions|
  {
    if w.suspensions == map[] {
      moves := [];
    } else {
      var id :| id in w.suspensions;
      assert w.suspensions[id].Waiting? ==> Drain(id) in w.queue;
      StepKeepsWaitersQueued(w, Resume(id));
      StepKeepsInv(w, Resume(id));
      var next := Step(w, Resume(id));
      assert next.suspensions.Keys == w.suspensions.Keys - {id};
      assert |next.suspensions| == |next.suspensions.Keys| && |w.suspensions| == |w.suspensions.Keys|;
      var rest := ResumeAll(next);
      AsWrittenFirst(Resume(id), rest);
      moves := [Resume(id)] + rest;
    }
  }

  /**
   Display polling can be resumed if and only if no suspension was cancelled while it waited:
   `suspend_live_polling` raises the count before it waits, and neither it nor its callers lower
   it again when the wait is cancelled.
   */
  lemma PollingCanResumeIff(w: World, moves: seq<Move>)
    requires Initial(w) && Valid(w, moves) && AsWritten(moves)
    ensures CanResumePolling(Run(w, moves)) <==> NothingAbandoned(Run(w, moves))
  {
    RunKeepsInv(w, moves);
    RunKeepsWaitersQueued(w, moves);
    var now := Run(w, moves);
    if NothingAbandoned(now) {
      var more := Quiesce(now);
    } else {
      var id :| id in now.suspensions && now.suspensions[id].Abandoned?;
      forall more | Valid(now, more) && AsWritten(more) ensures !Run(now, more).resumed {
        AbandonedForever(now, more, id);
        KnownIsCounted(Run(now, more), id);
      }
    }
  }

  /** A reachable case: a suspension behind a capture that holds the lock is cancelled. */
  lemma CancelledWaitStopsPolling(w: World)
    requires Initial(w)
    ensures var moves := [Capture, Advance, Suspend(0), Cancel(1)];
      Valid(w, moves) && !CanResumePolling(Run(w, moves))
  {
    var moves := [Capture, Advance, Suspend(0), Cancel(1)];
    var w1 := Step(w, Capture);
    var w2 := Step(w1, Advance);
    assert w2.queue == [Explicit(true)];
    var w3 := Step(w2, Suspend(0));
    assert w3.queue == [Explicit(true), Drain(0)];
    var w4 := Step(w3, Cancel(1));
    assert moves[1..] == [Advance, Suspend(0), Cancel(1)];
    assert moves[1..][1..] == [Suspend(0), Cancel(1)];
    assert moves[1..][1..][1..] == [Cancel(1)];
    assert moves[1..][1..][1..][1..] == [];
    assert Valid(w3, [Cancel(1)]) && Run(w3, [Cancel(1)]) == w4;
    assert Valid(w2, moves[1..][1..]) && Run(w2, moves[1..][1..]) == w4;
    assert Valid(w1, moves[1..]) && Run(w1, moves[1..]) == w4;
    assert w4.suspensions[0].Abandoned?;
    PollingCanResumeIff(w, moves);
  }

  // ---------------------------------------------------------------- why there must be no yield

  /** With an await between the test and the join, a display read runs under a suspension. */
  lemma AwaitBetweenTestAndJoinBreaksIt(w: World)
    requires Initial(w)
    ensures var moves := [PollTest, Suspend(0), Advance, PollJoin, Advance];
      && Valid(w, moves)
      && Run(w, moves).suspensions == map[0 := Returned]
      && Run(w, moves).queue == [Display(true)]
  {
  }
}
