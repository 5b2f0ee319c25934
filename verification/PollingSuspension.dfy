/**
 Suspending the scheduler's polling of one device.

 Every poll target has its own FIFO operation lock. `suspend_device` raises the count of
 all targets at once, and then passes through their locks one after another; an ordinary
 read looks at the count again once it holds the lock. A `Move` is one uninterrupted piece
 of one coroutine; a cancelled coroutine leaves the lock queue wherever it stood.
 */
module PollingSuspension {
  type Id = nat

  /** What waits for, or holds, the operation lock of one target. */
  datatype Job =
    | Ordinary(reading: bool)
    | Reserved(reading: bool)
    | Drain(suspension: Id)

  datatype Target = Target(count: nat, resumed: bool, queue: seq<Job>)

  /** How far a suspension has come; an abandoned one was cancelled before it returned. */
  datatype Progress = Passing(target: nat) | Returned | Abandoned

  datatype Reservation = Free | Reserving(id: Id) | Active(id: Id)

  datatype World = World(
    targets: seq<Target>,
    suspensions: map<Id, Progress>,
    reservation: Reservation)

  datatype Move =
    | Sample(target: nat)
    | SampleReserved(target: nat)
    | Suspend(id: Id)
    | Resume(id: Id)
    | Reserve(id: Id)
    | Release
    | Advance(target: nat)
    | Cancel(target: nat, at: nat)

  predicate Enabled(w: World, move: Move) {
    match move
    case Sample(t) => t < |w.targets|
    case SampleReserved(t) => t < |w.targets|
    case Suspend(id) => id !in w.suspensions
    case Resume(id) =>
      && id in w.suspensions && w.suspensions[id].Returned?
      && w.reservation != Active(id)
    case Reserve(id) => id !in w.suspensions && w.reservation.Free? && w.targets != []
    case Release => w.reservation.Active? && w.reservation.id in w.suspensions
    case Advance(t) => t < |w.targets| && w.targets[t].queue != []
    case Cancel(t, at) => t < |w.targets| && at < |w.targets[t].queue|
  }

  function SuspendTarget(t: Target): Target {
    t.(count := t.count + 1, resumed := false)
  }

  function ResumeTarget(t: Target): Target {
    if t.count == 0 then t else t.(count := t.count - 1, resumed := t.resumed || t.count == 1)
  }

  function All(targets: seq<Target>, f: Target -> Target): (r: seq<Target>)
    ensures |r| == |targets| && forall k :: 0 <= k < |r| ==> r[k] == f(targets[k])
  {
    seq(|targets|, k requires 0 <= k < |targets| => f(targets[k]))
  }

  function Queue(w: World, t: nat, queue: seq<Job>): World
    requires t < |w.targets|
  {
    w.(targets := w.targets[t := w.targets[t].(queue := queue)])
  }

  /** Join the lock of target `t`, or return when there is no such target. */
  function Pass(w: World, id: Id, t: nat): World {
    if t < |w.targets|
    then Queue(w.(suspensions := w.suspensions[id := Passing(t)]), t, w.targets[t].queue + [Drain(id)])
    else w.(suspensions := w.suspensions[id := Returned],
            reservation := if w.reservation == Reserving(id) then Active(id) else w.reservation)
  }

  function StartSuspension(w: World, id: Id): World {
    Pass(w.(targets := All(w.targets, SuspendTarget)), id, 0)
  }

  function EndSuspension(w: World, id: Id): World {
    w.(targets := All(w.targets, ResumeTarget), suspensions := w.suspensions - {id})
  }

  function Step(w: World, move: Move): World
    requires Enabled(w, move)
  {
    match move
    case Sample(t) => Queue(w, t, w.targets[t].queue + [Ordinary(false)])
    case SampleReserved(t) => Queue(w, t, w.targets[t].queue + [Reserved(false)])
    case Suspend(id) => StartSuspension(w, id)
    case Resume(id) => EndSuspension(w, id)
    case Reserve(id) => StartSuspension(w.(reservation := Reserving(id)), id)
    case Release => EndSuspension(w, w.reservation.id).(reservation := Free)
    case Advance(t) =>
      var queue := w.targets[t].queue;
      (match queue[0]
       case Ordinary(false) =>
         if w.targets[t].count > 0 then Queue(w, t, queue[1..])
         else Queue(w, t, [Ordinary(true)] + queue[1..])
       case Ordinary(true) => Queue(w, t, queue[1..])
       case Reserved(false) => Queue(w, t, [Reserved(true)] + queue[1..])
       case Reserved(true) => Queue(w, t, queue[1..])
       case Drain(id) => Pass(Queue(w, t, queue[1..]), id, t + 1))
    case Cancel(t, at) =>
      var queue := w.targets[t].queue;
      var left := Queue(w, t, queue[..at] + queue[at + 1..]);
      if queue[at].Drain? then Abandon(left, queue[at].suspension) else left
  }

  function Abandon(w: World, id: Id): World {
    w.(suspensions := w.suspensions[id := Abandoned],
       reservation := if w.reservation == Reserving(id) then Free else w.reservation)
  }

  predicate Valid(w: World, moves: seq<Move>)
    decreases |moves|
  {
    moves == [] || (Enabled(w, moves[0]) && Valid(Step(w, moves[0]), moves[1..]))
  }

  function Run(w: World, moves: seq<Move>): World
    requires Valid(w, moves)
    decreases |moves|
  {
    if moves == [] then w else Run(Step(w, moves[0]), moves[1..])
  }

  predicate Initial(w: World) {
    && (forall k :: 0 <= k < |w.targets| ==> w.targets[k] == Target(0, true, []))
    && w.suspensions == map[]
    && w.reservation.Free?
  }

  // ---------------------------------------------------------------- the invariant

  predicate InFlight(t: Target) {
    t.queue != [] && t.queue[0] == Ordinary(true)
  }

  /** The suspension has already taken and released the lock of target `k`. */
  predicate Passed(p: Progress, k: nat) {
    p.Returned? || (p.Passing? && k < p.target)
  }

  predicate TargetOk(w: World, k: nat)
    requires k < |w.targets|
  {
    var t := w.targets[k];
    && t.count == |w.suspensions|
    && (t.resumed <==> t.count == 0)
    && (forall i :: 0 < i < |t.queue| ==> t.queue[i] != Ordinary(true))
    && (forall i :: 0 <= i < |t.queue| && t.queue[i].Drain? ==>
          t.queue[i].suspension in w.suspensions && w.suspensions[t.queue[i].suspension] == Passing(k))
    && (forall i, j :: 0 <= i < j < |t.queue| && t.queue[i].Drain? ==> t.queue[i] != t.queue[j])
    && (forall id :: id in w.suspensions && w.suspensions[id] == Passing(k) ==> Drain(id) in t.queue)
  }

  ghost predicate Inv(w: World) {
    && (forall k :: 0 <= k < |w.targets| ==> TargetOk(w, k))
    && (forall id, k :: id in w.suspensions && 0 <= k < |w.targets| && InFlight(w.targets[k])
          ==> !Passed(w.suspensions[id], k))
    && (forall id :: id in w.suspensions && w.suspensions[id].Passing?
          ==> w.suspensions[id].target < |w.targets|)
    && ReservationOk(w)
  }

  predicate ReservationOk(w: World) {
    match w.reservation
    case Free => true
    case Reserving(id) => id in w.suspensions && w.suspensions[id].Passing?
    case Active(id) => id in w.suspensions && w.suspensions[id].Returned?
  }

  /** Replacing one queue by one with no new drains, no new read in flight, keeps the invariant. */
  lemma QueueKeepsInv(w: World, t: nat, queue: seq<Job>)
    requires Inv(w) && t < |w.targets|
    requires TargetOk(Queue(w, t, queue), t)
    requires InFlight(w.targets[t].(queue := queue)) ==> InFlight(w.targets[t]) || w.suspensions == map[]
    ensures Inv(Queue(w, t, queue))
  {
    var w' := Queue(w, t, queue);
    forall k | 0 <= k < |w'.targets| ensures TargetOk(w', k) {
      assert TargetOk(w, k);
    }
  }

  lemma ReadLeavesTarget(w: World, t: nat, at: nat)
    requires t < |w.targets| && at < |w.targets[t].queue| && TargetOk(w, t)
    requires !w.targets[t].queue[at].Drain?
    ensures var q := w.targets[t].queue; TargetOk(Queue(w, t, q[..at] + q[at + 1..]), t)
  {
    var q := w.targets[t].queue;
    var q' := q[..at] + q[at + 1..];
    forall i | 0 <= i < |q'| ensures q'[i] == q[if i < at then i else i + 1] {
    }
    forall id | Drain(id) in q ensures Drain(id) in q' {
      var i :| 0 <= i < |q| && q[i] == Drain(id);
      assert q'[if i < at then i else i - 1] == Drain(id);
    }
  }

  /** A read leaves one lock queue, wherever it stands in it. */
  lemma ReadLeavesKeepsInv(w: World, t: nat, at: nat)
    requires Inv(w) && t < |w.targets| && at < |w.targets[t].queue|
    requires !w.targets[t].queue[at].Drain?
    ensures var q := w.targets[t].queue; Inv(Queue(w, t, q[..at] + q[at + 1..]))
  {
    assert TargetOk(w, t);
    var q := w.targets[t].queue;
    ReadLeavesTarget(w, t, at);
    NoNewRead(w, t, at);
    hide Inv, TargetOk, InFlight;
    QueueKeepsInv(w, t, q[..at] + q[at + 1..]);
  }

  lemma NoNewRead(w: World, t: nat, at: nat)
    requires t < |w.targets| && at < |w.targets[t].queue| && TargetOk(w, t)
    ensures var q := w.targets[t].queue;
      InFlight(w.targets[t].(queue := q[..at] + q[at + 1..])) ==> InFlight(w.targets[t])
  {
  }

  lemma AppendKeepsInv(w: World, t: nat, job: Job)
    requires Inv(w) && t < |w.targets|
    requires job == Ordinary(false) || job == Reserved(false)
    ensures Inv(Queue(w, t, w.targets[t].queue + [job]))
  {
    assert TargetOk(w, t);
    QueueKeepsInv(w, t, w.targets[t].queue + [job]);
  }

  /** The invariant, but for one suspension that has left a lock and not yet gone on. */
  ghost predicate InvBetween(w: World, id: Id, t: nat) {
    && id in w.suspensions
    && w.reservation != Active(id)
    && ReservationOk(w.(suspensions := w.suspensions[id := Passing(0)]))
    && (forall k :: 0 <= k < |w.targets| ==> TargetOkBut(w, k, id))
    && (forall other :: other in w.suspensions && other != id && w.suspensions[other].Passing?
          ==> w.suspensions[other].target < |w.targets|)
    && (forall other, k :: other in w.suspensions && other != id
            && 0 <= k < |w.targets| && InFlight(w.targets[k])
          ==> !Passed(w.suspensions[other], k))
    && (forall k :: 0 <= k < t && k < |w.targets| ==> !InFlight(w.targets[k]))
  }

  predicate TargetOkBut(w: World, k: nat, id: Id)
    requires k < |w.targets|
  {
    var t := w.targets[k];
    && t.count == |w.suspensions|
    && (t.resumed <==> t.count == 0)
    && Drain(id) !in t.queue
    && (forall i :: 0 < i < |t.queue| ==> t.queue[i] != Ordinary(true))
    && (forall i :: 0 <= i < |t.queue| && t.queue[i].Drain? ==>
          t.queue[i].suspension in w.suspensions && w.suspensions[t.queue[i].suspension] == Passing(k))
    && (forall i, j :: 0 <= i < j < |t.queue| && t.queue[i].Drain? ==> t.queue[i] != t.queue[j])
    && (forall other :: other in w.suspensions && other != id && w.suspensions[other] == Passing(k)
          ==> Drain(other) in t.queue)
  }

  lemma SizeOfKeys<K, V>(a: map<K, V>, b: map<K, V>)
    requires a.Keys == b.Keys
    ensures |a| == |b|
  {
  }

  lemma PassJoinsTarget(w: World, id: Id, t: nat)
    requires InvBetween(w, id, t) && t < |w.targets|
    ensures TargetOk(Pass(w, id, t), t)
  {
    var w' := Pass(w, id, t);
    assert TargetOkBut(w, t, id);
    hide InvBetween;
    SizeOfKeys(w.suspensions, w'.suspensions);
    var q, q' := w.targets[t].queue, w'.targets[t].queue;
    assert q'[|q|] == Drain(id);
    forall other | other in w'.suspensions && w'.suspensions[other] == Passing(t)
      ensures Drain(other) in q' {
      if other != id {
        assert Drain(other) in q;
      }
    }
  }

  lemma PassKeepsTarget(w: World, id: Id, t: nat, k: nat)
    requires InvBetween(w, id, t) && k < |w.targets|
    ensures TargetOk(Pass(w, id, t), k)
  {
    if k == t {
      PassJoinsTarget(w, id, t);
    } else {
      assert TargetOkBut(w, k, id);
      SizeOfKeys(w.suspensions, Pass(w, id, t).suspensions);
    }
  }

  lemma PassKeepsInv(w: World, id: Id, t: nat)
    requires InvBetween(w, id, t)
    ensures Inv(Pass(w, id, t))
  {
    hide TargetOk, TargetOkBut;
    var w' := Pass(w, id, t);
    forall k | 0 <= k < |w'.targets| ensures TargetOk(w', k) {
      PassKeepsTarget(w, id, t, k);
    }
    forall other, k | other in w'.suspensions && 0 <= k < |w'.targets| && InFlight(w'.targets[k])
      ensures !Passed(w'.suspensions[other], k)
    {
      assert InFlight(w.targets[k]);
    }
  }

  lemma AbandonKeepsInv(w: World, id: Id)
    requires InvBetween(w, id, 0)
    ensures Inv(Abandon(w, id))
  {
    var w' := Abandon(w, id);
    SizeOfKeys(w.suspensions, w'.suspensions);
    forall k | 0 <= k < |w'.targets| ensures TargetOk(w', k) {
      assert TargetOkBut(w, k, id);
    }
  }

  function Without(q: seq<Job>, at: nat): seq<Job>
    requires at < |q|
  {
    q[..at] + q[at + 1..]
  }

  lemma DrainLeavesTarget(w: World, t: nat, at: nat)
    requires t < |w.targets| && at < |w.targets[t].queue| && TargetOk(w, t)
    requires w.targets[t].queue[at].Drain?
    ensures var q := w.targets[t].queue;
      TargetOkBut(Queue(w, t, Without(q, at)), t, q[at].suspension)
  {
  }

  /** A drain leaves the lock of `t`; when it held the lock, nothing up to `t` is in flight. */
  lemma DrainLeaves(w: World, t: nat, at: nat)
    requires Inv(w) && t < |w.targets| && at < |w.targets[t].queue|
    requires w.targets[t].queue[at].Drain?
    ensures var q := w.targets[t].queue;
      InvBetween(Queue(w, t, Without(q, at)), q[at].suspension, if at == 0 then t + 1 else 0)
  {
    var q := w.targets[t].queue;
    var id := q[at].suspension;
    var w' := Queue(w, t, Without(q, at));
    assert TargetOk(w, t);
    assert w.suspensions[id] == Passing(t);
    forall k | 0 <= k < |w'.targets| ensures TargetOkBut(w', k, id) {
      assert TargetOk(w, k);
      if k == t {
        DrainLeavesTarget(w, t, at);
      }
    }
    forall k | 0 <= k < |w'.targets| && InFlight(w'.targets[k])
      ensures InFlight(w.targets[k]) && (at == 0 ==> k > t)
    {
      if k == t {
        assert at > 0;
      } else {
        assert !Passed(w.suspensions[id], k);
      }
    }
  }

  lemma StartCountsIn(w: World, id: Id, k: nat)
    requires id !in w.suspensions && k < |w.targets|
    requires TargetOk(w, k) || TargetOk(w.(reservation := Free), k)
    ensures TargetOkBut(
              w.(targets := All(w.targets, SuspendTarget), suspensions := w.suspensions[id := Passing(0)]), k, id)
  {
  }

  lemma StartKeepsInv(w: World, id: Id)
    requires id !in w.suspensions
    requires Inv(w) || (w.reservation == Reserving(id) && Inv(w.(reservation := Free)))
    ensures Inv(StartSuspension(w, id))
  {
    var w1 := w.(targets := All(w.targets, SuspendTarget), suspensions := w.suspensions[id := Passing(0)]);
    var base := if w.reservation == Reserving(id) then w.(reservation := Free) else w;
    hide TargetOk, TargetOkBut;
    forall k | 0 <= k < |w1.targets| ensures TargetOkBut(w1, k, id) {
      assert TargetOk(base, k);
      StartCountsIn(w, id, k);
    }
    forall k | 0 <= k < |w1.targets| && InFlight(w1.targets[k]) ensures InFlight(base.targets[k]) {
    }
    PassKeepsInv(w1, id, 0);
    assert w1.suspensions[id := Passing(0)] == w.suspensions[id := Passing(0)];
    assert w1.suspensions[id := Returned] == w.suspensions[id := Returned];
  }

  lemma EndKeepsInv(w: World, id: Id)
    requires Inv(w) && id in w.suspensions && w.suspensions[id].Returned?
    ensures Inv(EndSuspension(w, id).(reservation := if w.reservation == Active(id) then Free else w.reservation))
  {
    var w' := EndSuspension(w, id).(reservation := if w.reservation == Active(id) then Free else w.reservation);
    assert w'.suspensions.Keys == w.suspensions.Keys - {id};
    assert |w'.suspensions.Keys| == |w.suspensions.Keys| - 1;
    assert |w'.suspensions| == |w'.suspensions.Keys| && |w.suspensions| == |w.suspensions.Keys|;
    forall k | 0 <= k < |w'.targets| ensures TargetOk(w', k) {
      assert TargetOk(w, k);
    }
    forall k | 0 <= k < |w'.targets| && InFlight(w'.targets[k]) ensures InFlight(w.targets[k]) {
    }
  }

  lemma AdvanceKeepsInv(w: World, t: nat)
    requires Inv(w) && Enabled(w, Advance(t))
    ensures Inv(Step(w, Advance(t)))
  {
    var q := w.targets[t].queue;
    hide Inv, TargetOk, InvBetween, InFlight, Passed;
    assert q[..0] + q[1..] == q[1..];
    match q[0]
    case Drain(id) =>
      DrainLeaves(w, t, 0);
      PassKeepsInv(Queue(w, t, q[1..]), id, t + 1);
    case Reserved(false) =>
      HeadStarts(w, t, Reserved(true));
    case Ordinary(false) =>
      if w.targets[t].count > 0 {
        ReadLeavesKeepsInv(w, t, 0);
      } else {
        HeadStarts(w, t, Ordinary(true));
      }
    case Reserved(true) => ReadLeavesKeepsInv(w, t, 0);
    case Ordinary(true) => ReadLeavesKeepsInv(w, t, 0);
  }

  lemma HeadStarts(w: World, t: nat, job: Job)
    requires Inv(w) && Enabled(w, Advance(t))
    requires !job.Drain? && !w.targets[t].queue[0].Drain?
    requires job == Ordinary(true) ==> w.targets[t].count == 0
    ensures Inv(Queue(w, t, [job] + w.targets[t].queue[1..]))
  {
    var q := w.targets[t].queue;
    var q' := [job] + q[1..];
    assert TargetOk(w, t);
    forall id | Drain(id) in q ensures Drain(id) in q' {
      var i :| 0 <= i < |q| && q[i] == Drain(id);
      assert q'[i] == Drain(id);
    }
    QueueKeepsInv(w, t, q');
  }

  lemma StepKeepsInv(w: World, move: Move)
    requires Inv(w) && Enabled(w, move)
    ensures Inv(Step(w, move))
  {
    match move
    case Sample(t) => AppendKeepsInv(w, t, Ordinary(false));
    case SampleReserved(t) => AppendKeepsInv(w, t, Reserved(false));
    case Suspend(id) => StartKeepsInv(w, id);
    case Reserve(id) =>
      assert w.(reservation := Reserving(id)).(reservation := Free) == w;
      StartKeepsInv(w.(reservation := Reserving(id)), id);
    case Resume(id) => EndKeepsInv(w, id);
    case Release => EndKeepsInv(w, w.reservation.id);
    case Advance(t) => AdvanceKeepsInv(w, t);
    case Cancel(t, at) =>
      if w.targets[t].queue[at].Drain? {
        DrainLeaves(w, t, at);
        var q := w.targets[t].queue;
        AbandonKeepsInv(Queue(w, t, q[..at] + q[at + 1..]), q[at].suspension);
      } else {
        ReadLeavesKeepsInv(w, t, at);
      }
  }

  lemma {:induction false} RunKeepsInv(w: World, moves: seq<Move>)
    requires Inv(w) && Valid(w, moves)
    ensures Inv(Run(w, moves))
    decreases |moves|
  {
    if moves != [] {
      StepKeepsInv(w, moves[0]);
      RunKeepsInv(Step(w, moves[0]), moves[1..]);
    }
  }

  // ---------------------------------------------------------------- main results

  lemma InvCounts(w: World)
    requires Inv(w)
    ensures forall k :: 0 <= k < |w.targets| ==>
      && w.targets[k].count == |w.suspensions|
      && (w.targets[k].resumed <==> w.suspensions == map[])
  {
    EmptyIffZero(w.suspensions);
    forall k | 0 <= k < |w.targets|
      ensures w.targets[k].count == |w.suspensions|
      ensures w.targets[k].resumed <==> w.suspensions == map[]
    {
      assert TargetOk(w, k);
    }
  }

  lemma InvNoRead(w: World, id: Id, k: nat, i: nat)
    requires Inv(w) && id in w.suspensions && w.suspensions[id].Returned?
    requires k < |w.targets| && i < |w.targets[k].queue|
    ensures w.targets[k].queue[i] != Ordinary(true)
  {
    assert TargetOk(w, k);
    assert InFlight(w.targets[k]) ==> !Passed(w.suspensions[id], k);
  }

  /**
   Suspension safety: at every point of every run, each count equals the number of
   outstanding suspensions, the resume event is set exactly when it is zero, and between the
   return of a suspension and its resume no ordinary read of the device is in flight.
   */
  lemma NoReadWhileSuspended(w: World, moves: seq<Move>)
    requires Initial(w) && Valid(w, moves)
    ensures var now := Run(w, moves);
      && (forall k :: 0 <= k < |now.targets| ==>
            && now.targets[k].count == |now.suspensions|
            && (now.targets[k].resumed <==> now.suspensions == map[]))
      && ((exists id :: id in now.suspensions && now.suspensions[id].Returned?)
            ==> forall k, i :: 0 <= k < |now.targets| && 0 <= i < |now.targets[k].queue|
                  ==> now.targets[k].queue[i] != Ordinary(true))
  {
    RunKeepsInv(w, moves);
    var now := Run(w, moves);
    InvCounts(now);
    forall id, k, i | id in now.suspensions && now.suspensions[id].Returned?
        && 0 <= k < |now.targets| && 0 <= i < |now.targets[k].queue|
      ensures now.targets[k].queue[i] != Ordinary(true)
    {
      InvNoRead(now, id, k, i);
    }
  }

  lemma EmptyIffZero<K, V>(m: map<K, V>)
    ensures |m| == 0 <==> m == map[]
  {
  }

  /** Only a reserve makes a reservation. */
  lemma {:induction false} ReservedByReserve(w: World, moves: seq<Move>)
    requires Valid(w, moves)
    ensures var r := Run(w, moves).reservation;
      !r.Free? ==> Reserve(r.id) in moves || (!w.reservation.Free? && r.id == w.reservation.id)
    decreases |moves|
  {
    if moves != [] {
      assert moves[0] in moves && forall m :: m in moves[1..] ==> m in moves;
      ReservedByReserve(Step(w, moves[0]), moves[1..]);
    }
  }

  /** A reserved device sees reserved reads only, and releasing it gives back the earlier count. */
  lemma ReservedReadsOnly(w: World, moves: seq<Move>)
    requires Initial(w) && Valid(w, moves) && Run(w, moves).reservation.Active?
    ensures var now := Run(w, moves);
      && (forall k, i :: 0 <= k < |now.targets| && 0 <= i < |now.targets[k].queue|
            ==> now.targets[k].queue[i] != Ordinary(true))
      && Enabled(now, Release) && Reserve(now.reservation.id) in moves
      && (forall k :: 0 <= k < |now.targets| ==>
            && Step(now, Release).targets[k].count == |now.suspensions - {now.reservation.id}|
            && (Step(now, Release).targets[k].resumed <==> now.suspensions.Keys == {now.reservation.id}))
  {
    NoReadWhileSuspended(w, moves);
    ReservedByReserve(w, moves);
    RunKeepsInv(w, moves);
    var now := Run(w, moves);
    var id := now.reservation.id;
    assert id in now.suspensions && now.suspensions[id].Returned?;
    assert Enabled(now, Release);
    StepKeepsInv(now, Release);
    var after := Step(now, Release);
    forall k | 0 <= k < |after.targets| ensures TargetOk(after, k) {
    }
    EmptyIffZero(after.suspensions);
    assert after.suspensions == now.suspensions - {id};
    assert after.suspensions.Keys == now.suspensions.Keys - {id};
    if after.suspensions == map[] {
      assert now.suspensions.Keys - {id} == {};
      assert now.suspensions.Keys == {id};
    } else {
      assert after.suspensions.Keys != {};
    }
  }

  // ---------------------------------------------------------------- which reads take place

  /**
   The holder of the lock of one target: a reserved read starts whatever the count, an ordinary one
   exactly when the count is zero, and a read that is over leaves. Nothing else of the device moves.
   */
  lemma HolderReads(w: World, t: nat)
    requires t < |w.targets| && w.targets[t].queue != [] && !w.targets[t].queue[0].Drain?
    ensures var queue, queue' := w.targets[t].queue, Step(w, Advance(t)).targets[t].queue;
      && Step(w, Advance(t)) == w.(targets := w.targets[t := w.targets[t].(queue := queue')])
      && (queue[0] == Reserved(false) ==> queue' == [Reserved(true)] + queue[1..])
      && (queue[0] == Ordinary(false) && w.targets[t].count == 0 ==> queue' == [Ordinary(true)] + queue[1..])
      && (queue[0] == Ordinary(false) && w.targets[t].count != 0 ==> queue' == queue[1..])
      && (queue[0].reading ==> queue' == queue[1..])
  {
  }

  /** Pieces the holders of a lock take until the queue is through. */
  function Turns(queue: seq<Job>): nat {
    if queue == [] then 0 else (if queue[0].Drain? || queue[0].reading then 1 else 2) + Turns(queue[1..])
  }

  ghost predicate OnlyAdvances(moves: seq<Move>, t: nat) {
    forall m :: m in moves ==> m == Advance(t)
  }

  lemma AheadGoesOn(w: World, t: nat, ahead: seq<Job>, last: Job) returns (left: seq<Job>)
    requires t < |w.targets| && w.targets[t].queue == ahead + [last] && ahead != []
    ensures var w' := Step(w, Advance(t));
      |w'.targets| == |w.targets| && w'.targets[t] == w.targets[t].(queue := left + [last])
    ensures Turns(left) < Turns(ahead)
  {
    var queue := Step(w, Advance(t)).targets[t].queue;
    assert (ahead + [last])[1..] == ahead[1..] + [last];
    left := if |queue| == |ahead| then ahead[1..] else [queue[0]] + ahead[1..];
    assert left != ahead[1..] ==> left[1..] == ahead[1..];
    assert queue == left + [last];
  }

  /** What waits behind others in the lock of a target comes to hold it when those ahead are done. */
  lemma {:induction false} LastComesUp(w: World, t: nat, ahead: seq<Job>, last: Job) returns (moves: seq<Move>)
    requires t < |w.targets| && w.targets[t].queue == ahead + [last]
    ensures OnlyAdvances(moves, t) && Valid(w, moves) && |Run(w, moves).targets| == |w.targets|
    ensures Run(w, moves).targets[t] == w.targets[t].(queue := [last])
    decreases Turns(ahead)
  {
    hide Step, Turns;
    if ahead == [] {
      assert ahead + [last] == [last];
      moves := [];
    } else {
      var left := AheadGoesOn(w, t, ahead, last);
      moves := LastComesUp(Step(w, Advance(t)), t, left, last);
      assert ([Advance(t)] + moves)[1..] == moves;
      moves := [Advance(t)] + moves;
    }
  }

  lemma {:induction false} RunConcat(w: World, a: seq<Move>, b: seq<Move>)
    requires Valid(w, a) && Valid(Run(w, a), b)
    ensures Valid(w, a + b) && Run(w, a + b) == Run(Run(w, a), b)
    decreases |a|
  {
    if a == [] {
      assert a + b == b;
    } else {
      assert (a + b)[1..] == a[1..] + b;
      RunConcat(Step(w, a[0]), a[1..], b);
    }
  }

  /** A request for a read of one target, followed by nothing but the holders of its lock. */
  lemma AskedReadComesUp(w: World, t: nat, ask: Move, job: Job) returns (moves: seq<Move>)
    requires t < |w.targets|
    requires (ask == Sample(t) && job == Ordinary(false)) || (ask == SampleReserved(t) && job == Reserved(false))
    ensures OnlyAdvances(moves, t) && Valid(w, [ask] + moves)
    ensures var now := Run(w, [ask] + moves);
      && |now.targets| == |w.targets| && now.targets[t].count == w.targets[t].count
      && now.targets[t].queue
         == if job == Reserved(false) then [Reserved(true)]
            else if w.targets[t].count == 0 then [Ordinary(true)]
            else []
  {
    var w1 := Step(w, ask);
    moves := LastComesUp(w1, t, w.targets[t].queue, job);
    var w2 := Run(w1, moves);
    assert [Advance(t)][1..] == [] && [job][1..] == [];
    HolderReads(w2, t);
    assert Valid(Step(w2, Advance(t)), []);
    RunConcat(w1, moves, [Advance(t)]);
    moves := moves + [Advance(t)];
    assert ([ask] + moves)[1..] == moves;
  }

  /**
   A read asked for under a reservation takes place, in every target and whatever else waits for
   its lock; an ordinary one takes place exactly when nothing suspends the device.
   */
  lemma ReadTakesPlaceIff(w: World, moves: seq<Move>, t: nat) returns (reserved: seq<Move>, ordinary: seq<Move>)
    requires Initial(w) && Valid(w, moves) && t < |Run(w, moves).targets|
    ensures var now := Run(w, moves);
      && OnlyAdvances(reserved, t) && Valid(now, [SampleReserved(t)] + reserved)
      && |Run(now, [SampleReserved(t)] + reserved).targets| == |now.targets|
      && Run(now, [SampleReserved(t)] + reserved).targets[t].queue == [Reserved(true)]
      && OnlyAdvances(ordinary, t) && Valid(now, [Sample(t)] + ordinary)
      && |Run(now, [Sample(t)] + ordinary).targets| == |now.targets|
      && Run(now, [Sample(t)] + ordinary).targets[t].queue
         == if now.suspensions == map[] then [Ordinary(true)] else []
  {
    var now := Run(w, moves);
    RunKeepsInv(w, moves);
    InvCounts(now);
    EmptyIffZero(now.suspensions);
    reserved := AskedReadComesUp(now, t, SampleReserved(t), Reserved(false));
    ordinary := AskedReadComesUp(now, t, Sample(t), Ordinary(false));
  }

  // ---------------------------------------------------------------- abandoned suspensions

  lemma StepKeepsAbandoned(w: World, move: Move, id: Id)
    requires Inv(w) && Enabled(w, move) && id in w.suspensions && w.suspensions[id].Abandoned?
    ensures var w' := Step(w, move); id in w'.suspensions && w'.suspensions[id].Abandoned?
  {
    match move
    case Advance(t) => assert TargetOk(w, t);
    case Cancel(t, at) => assert TargetOk(w, t);
    case Release => assert ReservationOk(w);
    case _ =>
  }

  lemma {:induction false} AbandonedForever(w: World, moves: seq<Move>, id: Id)
    requires Inv(w) && Valid(w, moves) && id in w.suspensions && w.suspensions[id].Abandoned?
    ensures var now := Run(w, moves); id in now.suspensions && now.suspensions[id].Abandoned?
    decreases |moves|
  {
    if moves != [] {
      StepKeepsInv(w, moves[0]);
      StepKeepsAbandoned(w, moves[0], id);
      AbandonedForever(Step(w, moves[0]), moves[1..], id);
    }
  }

  ghost predicate CanResumePolling(w: World) {
    exists moves :: Valid(w, moves) && forall k :: 0 <= k < |w.targets| ==>
      k < |Run(w, moves).targets| && Run(w, moves).targets[k].resumed
  }

  ghost predicate NothingAbandoned(w: World) {
    forall id :: id in w.suspensions ==> !w.suspensions[id].Abandoned?
  }

  /**
   Polling of a device that has targets can be resumed if and only if no suspension was
   cancelled while it waited: `suspend_device` raises the counts before it waits and nothing
   lowers them again when the wait is cancelled.
   */
  lemma PollingCanResumeIff(w: World, moves: seq<Move>)
    requires Initial(w) && Valid(w, moves) && w.targets != []
    ensures CanResumePolling(Run(w, moves)) <==> NothingAbandoned(Run(w, moves))
  {
    RunKeepsInv(w, moves);
    TargetsStay(w, moves);
    var now := Run(w, moves);
    if NothingAbandoned(now) {
      var more := Quiesce(now);
    } else {
      var id :| id in now.suspensions && now.suspensions[id].Abandoned?;
      forall more | Valid(now, more) ensures |Run(now, more).targets| > 0 && !Run(now, more).targets[0].resumed {
        RunKeepsInv(now, more);
        TargetsStay(now, more);
        AbandonedForever(now, more, id);
        assert TargetOk(Run(now, more), 0);
        EmptyIffZero(Run(now, more).suspensions);
      }
    }
  }

  /**
   A reachable case: a suspension waits for a read that holds the lock, and is cancelled. No run
   from there, however long, resumes the polling.
   */
  lemma CancelledWaitStopsPolling(w: World)
    requires Initial(w) && |w.targets| == 1
    ensures var moves := [Sample(0), Advance(0), Suspend(7), Cancel(0, 1)];
      Valid(w, moves) && !CanResumePolling(Run(w, moves))
  {
    var moves := [Sample(0), Advance(0), Suspend(7), Cancel(0, 1)];
    var w1 := Step(w, Sample(0));
    var w2 := Step(w1, Advance(0));
    assert w2.targets[0].queue == [Ordinary(true)];
    var w3 := Step(w2, Suspend(7));
    assert w3.targets[0].queue == [Ordinary(true), Drain(7)];
    var w4 := Step(w3, Cancel(0, 1));
    assert moves[1..] == [Advance(0), Suspend(7), Cancel(0, 1)];
    assert moves[1..][1..] == [Suspend(7), Cancel(0, 1)];
    assert moves[1..][1..][1..] == [Cancel(0, 1)];
    assert moves[1..][1..][1..][1..] == [];
    assert Valid(w3, [Cancel(0, 1)]) && Run(w3, [Cancel(0, 1)]) == w4;
    assert Valid(w2, moves[1..][1..]) && Run(w2, moves[1..][1..]) == w4;
    assert Valid(w1, moves[1..]) && Run(w1, moves[1..]) == w4;
    assert w4.suspensions[7].Abandoned?;
    PollingCanResumeIff(w, moves);
  }

  lemma {:induction false} TargetsStay(w: World, moves: seq<Move>)
    requires Valid(w, moves)
    ensures |Run(w, moves).targets| == |w.targets|
    decreases |moves|
  {
    if moves != [] {
      TargetsStay(Step(w, moves[0]), moves[1..]);
    }
  }

  // Bringing every queue to rest. Each job weighs the number of locks it still has to pass.

  function JobWeight(job: Job, weight: nat): nat {
    if job.Drain? then weight else 1
  }

  function QueueWeight(queue: seq<Job>, weight: nat): nat {
    if queue == [] then 0 else JobWeight(queue[0], weight) + QueueWeight(queue[1..], weight)
  }

  /** `targets` are the last ones of the device. */
  function Weight(targets: seq<Target>): nat {
    if targets == [] then 0 else QueueWeight(targets[0].queue, |targets|) + Weight(targets[1..])
  }

  lemma {:induction false} AppendWeighs(queue: seq<Job>, job: Job, weight: nat)
    ensures QueueWeight(queue + [job], weight) == QueueWeight(queue, weight) + JobWeight(job, weight)
  {
    if queue == [] {
      assert queue + [job] == [job];
      assert [job][1..] == [];
    } else {
      assert (queue + [job])[1..] == queue[1..] + [job];
      AppendWeighs(queue[1..], job, weight);
    }
  }

  lemma {:induction false} UpdateWeighs(targets: seq<Target>, t: nat, target: Target)
    requires t < |targets|
    ensures Weight(targets[t := target]) - Weight(targets)
         == QueueWeight(target.queue, |targets| - t) - QueueWeight(targets[t].queue, |targets| - t)
  {
    if t == 0 {
      assert targets[t := target][1..] == targets[1..];
    } else {
      assert targets[t := target][1..] == targets[1..][t - 1 := target];
      UpdateWeighs(targets[1..], t - 1, target);
    }
  }

  /** Take the head of a non-empty queue away: a read is cancelled, a drain passes on. */
  function Settle(w: World, t: nat): Move
    requires t < |w.targets| && w.targets[t].queue != []
  {
    if w.targets[t].queue[0].Drain? then Advance(t) else Cancel(t, 0)
  }

  lemma SettleWeighs(w: World, t: nat)
    requires t < |w.targets| && w.targets[t].queue != []
    ensures Weight(Step(w, Settle(w, t)).targets) < Weight(w.targets)
  {
    var q := w.targets[t].queue;
    assert q[..0] + q[1..] == q[1..];
    var popped := w.targets[t].(queue := q[1..]);
    var left := w.targets[t := popped];
    UpdateWeighs(w.targets, t, popped);
    if q[0].Drain? && t + 1 < |w.targets| {
      var longer := left[t + 1].(queue := left[t + 1].queue + [q[0]]);
      AppendWeighs(left[t + 1].queue, q[0], |w.targets| - t - 1);
      UpdateWeighs(left, t + 1, longer);
      assert Step(w, Settle(w, t)).targets == left[t + 1 := longer];
    } else {
      assert Step(w, Settle(w, t)).targets == left;
    }
  }

  lemma SettleProgresses(w: World, t: nat)
    requires Inv(w) && NothingAbandoned(w) && t < |w.targets| && w.targets[t].queue != []
    ensures var w' := Step(w, Settle(w, t)); Inv(w') && NothingAbandoned(w') && Weight(w'.targets) < Weight(w.targets)
  {
    StepKeepsInv(w, Settle(w, t));
    SettleWeighs(w, t);
  }

  lemma PassingIsQueued(w: World)
    requires Inv(w)
    ensures forall id :: id in w.suspensions && w.suspensions[id].Passing? ==>
      && w.suspensions[id].target < |w.targets|
      && w.targets[w.suspensions[id].target].queue != []
  {
    forall id | id in w.suspensions && w.suspensions[id].Passing?
      ensures w.suspensions[id].target < |w.targets|
      ensures w.targets[w.suspensions[id].target].queue != []
    {
      assert TargetOk(w, w.suspensions[id].target);
    }
  }

  lemma {:induction false} Quiesce(w: World) returns (moves: seq<Move>)
    requires Inv(w) && NothingAbandoned(w)
    ensures Valid(w, moves) && |Run(w, moves).targets| == |w.targets|
    ensures forall k :: 0 <= k < |w.targets| ==> Run(w, moves).targets[k].resumed
    decreases Weight(w.targets)
  {
    PassingIsQueued(w);
    if t: nat :| t < |w.targets| && w.targets[t].queue != [] {
      SettleProgresses(w, t);
      var more := Quiesce(Step(w, Settle(w, t)));
      moves := [Settle(w, t)] + more;
      assert moves[1..] == more;
    } else {
      moves := ResumeAll(w);
    }
  }

  lemma {:induction false} ResumeAll(w: World) returns (moves: seq<Move>)
    requires Inv(w) && forall id :: id in w.suspensions ==> w.suspensions[id].Returned?
    ensures Valid(w, moves) && |Run(w, moves).targets| == |w.targets|
    ensures forall k :: 0 <= k < |w.targets| ==> Run(w, moves).targets[k].resumed
    decreases |w.suspensions|
  {
    if w.suspensions == map[] {
      moves := [];
      InvCounts(w);
    } else {
      var id :| id in w.suspensions;
      var move := if w.reservation == Active(id) then Release else Resume(id);
      StepKeepsInv(w, move);
      var next := Step(w, move);
      assert next.suspensions == w.suspensions - {id};
      assert next.suspensions.Keys == w.suspensions.Keys - {id};
      assert |next.suspensions| == |next.suspensions.Keys| && |w.suspensions| == |w.suspensions.Keys|;
      var more := ResumeAll(next);
      moves := [move] + more;
      assert moves[1..] == more;
    }
  }

  // ---------------------------------------------------------------- the scheduler object

  /** One entry of the scheduler's target table; times are in the loop's clock. */
  datatype PollTarget = PollTarget(
    device: string,
    interval: real,
    state: Target,
    connected: bool,
    staleNotified: bool,
    lastActivity: real,
    notBefore: real)

  function SuspendEntry(e: PollTarget, device: string): PollTarget {
    if e.device == device then e.(state := SuspendTarget(e.state)) else e
  }

  /** One level down; the level that reaches zero restarts the clock and the resume event. */
  function ResumeEntry(e: PollTarget, device: string, now: real): PollTarget {
    if e.device != device || e.state.count == 0 then e
    else if e.state.count == 1 then
      e.(state := ResumeTarget(e.state), lastActivity := now, notBefore := now + e.interval,
         staleNotified := !e.connected)
    else e.(state := ResumeTarget(e.state))
  }

  predicate CountsDownToZero(e: PollTarget, device: string) {
    e.device == device && e.state.count == 1
  }

  function Count(entries: seq<PollTarget>, device: string): nat {
    if entries == [] then 0
    else Count(entries[..|entries| - 1], device) + (if CountsDownToZero(entries[|entries| - 1], device) then 1 else 0)
  }

  lemma CountNone(device: string)
    ensures Count([], device) == 0
  {
  }

  lemma CountStep(entries: seq<PollTarget>, device: string, i: nat)
    requires i < |entries|
    ensures Count(entries[..i + 1], device)
         == Count(entries[..i], device) + if CountsDownToZero(entries[i], device) then 1 else 0
  {
    assert entries[..i + 1][..i] == entries[..i];
  }

  class PollingScheduler {
    var targets: seq<PollTarget>

    constructor (targets: seq<PollTarget>)
      ensures this.targets == targets
    {
      this.targets := targets;
    }

    /** The uninterrupted first piece of `suspend_device`, before it waits for the locks. */
    method MarkSuspended(device: string) returns (marked: nat)
      modifies this
      ensures |targets| == |old(targets)|
      ensures forall k :: 0 <= k < |targets| ==> targets[k] == SuspendEntry(old(targets[k]), device)
      ensures marked == 0 <==> forall k :: 0 <= k < |targets| ==> targets[k].device != device
    {
      marked := 0;
      var i := 0;
      while i < |targets|
        invariant 0 <= i <= |targets| == |old(targets)|
        invariant forall k :: 0 <= k < i ==> targets[k] == SuspendEntry(old(targets[k]), device)
        invariant forall k :: i <= k < |targets| ==> targets[k] == old(targets[k])
        invariant marked == 0 <==> forall k :: 0 <= k < i ==> targets[k].device != device
      {
        if targets[i].device == device {
          targets := targets[i := targets[i].(state := targets[i].state.(count := targets[i].state.count + 1,
                                                                          resumed := false))];
          marked := marked + 1;
        }
        i := i + 1;
      }
    }

    /** Lower every raised count of the device by one; return how many targets resume. */
    method ResumeDevice(device: string, now: real) returns (resumed: nat)
      modifies this
      ensures |targets| == |old(targets)|
      ensures forall k :: 0 <= k < |targets| ==> targets[k] == ResumeEntry(old(targets[k]), device, now)
      ensures resumed == Count(old(targets), device)
    {
      hide Count;
      resumed := 0;
      var i := 0;
      ghost var before := targets;
      CountNone(device);
      while i < |targets|
        invariant 0 <= i <= |targets| == |before|
        invariant forall k :: 0 <= k < i ==> targets[k] == ResumeEntry(before[k], device, now)
        invariant forall k :: i <= k < |targets| ==> targets[k] == before[k]
        invariant resumed == Count(before[..i], device)
      {
        CountStep(before, device, i);
        var e := targets[i];
        if e.device == device && e.state.count != 0 {
          e := e.(state := e.state.(count := e.state.count - 1));
          if e.state.count == 0 {
            e := e.(lastActivity := now, notBefore := now + e.interval, staleNotified := !e.connected,
                    state := e.state.(resumed := true));
            resumed := resumed + 1;
          }
          targets := targets[i := e];
        }
        i := i + 1;
      }
      assert before[..i] == before;
    }
  }

  /**
   Marking and then resuming a device gives every count back, and the event if it was right. When
   the count is zero again the entry waits one interval, its activity counts from now, and it is
   known to be stale exactly if it is not connected; until then nothing else of it changes.
   */
  lemma SuspendThenResume(e: PollTarget, device: string, now: real)
    requires e.state.resumed <==> e.state.count == 0
    ensures var after := ResumeEntry(SuspendEntry(e, device), device, now);
      && after.state == e.state && after.device == e.device && after.connected == e.connected
      && after.interval == e.interval
      && (if e.device == device && e.state.count == 0
          then after.notBefore == now + e.interval && after.lastActivity == now && after.staleNotified == !e.connected
          else after == e)
  {
  }
}
