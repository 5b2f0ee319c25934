/**
 The measurement event bus: every subscriber has a bounded queue, and a publication into a full
 queue drops the oldest entry. A publication runs without interruption once it has the lock,
 and the lock is never held across a wait, so publications and gets are the atomic steps.
 */
module EventBus {
  import opened Common

  // ---------------------------------------------------------------- one subscriber, on values

  /**
   A queue with its history: everything published since the subscription, everything the
   subscriber received, and at which places of `published` those entries were.
   */
  datatype Feed<T> = Feed(queue: seq<T>, published: seq<T>, received: seq<T>, at: seq<nat>)

  function NoFeed<T>(): Feed<T> {
    Feed([], [], [], [])
  }

  /** How many of the published entries have left the queue. */
  function Gone<T>(f: Feed<T>): int {
    |f.published| - |f.queue|
  }

  function Pushed<T>(f: Feed<T>, x: T, bound: nat): Feed<T>
    requires bound > 0
  {
    f.(queue := (if |f.queue| >= bound then f.queue[1..] else f.queue) + [x], published := f.published + [x])
  }

  function Taken<T>(f: Feed<T>): Feed<T>
    requires f.queue != [] && Gone(f) >= 0
  {
    f.(queue := f.queue[1..], received := f.received + [f.queue[0]], at := f.at + [Gone(f)])
  }

  /** The queue is bounded and holds the newest of what was published, in order. */
  ghost predicate IsSuffix<T>(f: Feed<T>, bound: nat) {
    |f.queue| <= bound && Gone(f) >= 0 && f.queue == f.published[Gone(f)..]
  }

  /** What was received are entries published, in order, each at most once, and all older than the queue. */
  ghost predicate InOrder<T>(f: Feed<T>) {
    && |f.received| == |f.at|
    && (forall k :: 0 <= k < |f.at| ==>
          0 <= f.at[k] < Gone(f) <= |f.published| && f.received[k] == f.published[f.at[k]])
    && (forall j, k :: 0 <= j < k < |f.at| ==> f.at[j] < f.at[k])
  }

  /** The entry at `i` left the queue and was not received. */
  ghost predicate Dropped<T>(f: Feed<T>, i: int) {
    0 <= i < Gone(f) && i !in f.at
  }

  /** An entry is dropped only after `bound` newer ones were published. */
  ghost predicate DropsAreOld<T>(f: Feed<T>, bound: nat) {
    forall i :: Dropped(f, i) ==> i + bound < |f.published|
  }

  ghost predicate Good<T>(f: Feed<T>, bound: nat) {
    IsSuffix(f, bound) && InOrder(f) && DropsAreOld(f, bound)
  }

  lemma PushKeepsGood<T>(f: Feed<T>, x: T, bound: nat)
    requires bound > 0 && Good(f, bound)
    ensures Good(Pushed(f, x, bound), bound)
  {
    var g := Pushed(f, x, bound);
    assert g.queue == g.published[Gone(g)..];
    forall i | Dropped(g, i) ensures i + bound < |g.published| {
      assert i < Gone(f) ==> Dropped(f, i);
    }
  }

  lemma TakeKeepsGood<T>(f: Feed<T>, bound: nat)
    requires Good(f, bound) && f.queue != []
    ensures Good(Taken(f), bound)
  {
    var g := Taken(f);
    assert g.queue == g.published[Gone(g)..];
    assert g.at[|f.at|] == Gone(f);
    forall i | Dropped(g, i) ensures i + bound < |g.published| {
      assert i == Gone(f) ==> i in g.at;
      assert forall k :: 0 <= k < |f.at| ==> f.at[k] == g.at[k];
      assert Dropped(f, i);
    }
  }

  // ---------------------------------------------------------------- every run of one subscription

  datatype Move<T> = Publish(x: T) | Get

  function Step<T>(f: Feed<T>, move: Move<T>, bound: nat): Feed<T>
    requires bound > 0
  {
    match move
    case Publish(x) => Pushed(f, x, bound)
    case Get => if f.queue == [] || Gone(f) < 0 then f else Taken(f)
  }

  function Run<T>(moves: seq<Move<T>>, bound: nat): Feed<T>
    requires bound > 0
  {
    if moves == [] then NoFeed() else Step(Run(moves[..|moves| - 1], bound), moves[|moves| - 1], bound)
  }

  /**
   After every run of publications and gets the queue is a suffix of what was published and
   within its bound, what was received is an in-order part of what was published, and every
   entry lost is older than everything queued and has `bound` newer ones after it.
   */
  lemma {:induction false} EveryRunIsGood<T>(moves: seq<Move<T>>, bound: nat)
    requires bound > 0
    ensures Good(Run(moves, bound), bound)
  {
    if moves != [] {
      var before := moves[..|moves| - 1];
      EveryRunIsGood(before, bound);
      if moves[|moves| - 1].Publish? {
        PushKeepsGood(Run(before, bound), moves[|moves| - 1].x, bound);
      } else if Run(before, bound).queue != [] {
        TakeKeepsGood(Run(before, bound), bound);
      }
    }
  }

  /** The entries published by a run, in order. */
  function Published<T>(moves: seq<Move<T>>): seq<T> {
    if moves == [] then []
    else
      var last := moves[|moves| - 1];
      Published(moves[..|moves| - 1]) + if last.Publish? then [last.x] else []
  }

  /** The history of a run is that of its publications, and the newest entry is always queued. */
  lemma {:induction false} RunPublishes<T>(moves: seq<Move<T>>, bound: nat)
    requires bound > 0
    ensures Run(moves, bound).published == Published(moves)
    ensures moves != [] && moves[|moves| - 1].Publish? ==>
      var queue := Run(moves, bound).queue;
      queue != [] && queue[|queue| - 1] == moves[|moves| - 1].x
  {
    if moves != [] {
      RunPublishes(moves[..|moves| - 1], bound);
    }
  }

  /** A get that finds an entry receives the oldest one queued, and one that does not changes nothing. */
  lemma GetReceives<T>(moves: seq<Move<T>>, bound: nat)
    requires bound > 0
    ensures var f, after := Run(moves, bound), Run(moves + [Get], bound);
      if f.queue == [] then after == f
      else after.received == f.received + [f.queue[0]] && after.queue == f.queue[1..] && after.published == f.published
  {
    EveryRunIsGood(moves, bound);
    assert (moves + [Get])[..|moves|] == moves;
  }

  /** How many publications of a run found the queue full. */
  function Overflows<T>(moves: seq<Move<T>>, bound: nat): nat
    requires bound > 0
  {
    if moves == [] then 0
    else
      var before := moves[..|moves| - 1];
      Overflows(before, bound)
      + if moves[|moves| - 1].Publish? && |Run(before, bound).queue| >= bound then 1 else 0
  }

  /** Conservation: every entry published is received, queued, or one of the overflows. */
  lemma {:induction false} NothingElseIsLost<T>(moves: seq<Move<T>>, bound: nat)
    requires bound > 0
    ensures var f := Run(moves, bound);
      |f.published| == |f.received| + |f.queue| + Overflows(moves, bound)
  {
    if moves != [] {
      NothingElseIsLost(moves[..|moves| - 1], bound);
      EveryRunIsGood(moves[..|moves| - 1], bound);
    }
  }

  lemma {:induction false} NoOverflowIff<T>(moves: seq<Move<T>>, bound: nat)
    requires bound > 0
    ensures Overflows(moves, bound) == 0
      <==> forall k :: 0 <= k < |moves| && moves[k].Publish? ==> |Run(moves[..k], bound).queue| < bound
  {
    if moves != [] {
      var before := moves[..|moves| - 1];
      NoOverflowIff(before, bound);
      assert forall k :: 0 <= k < |before| ==> moves[..k] == before[..k];
      assert moves[..|moves| - 1] == before;
    }
  }

  /** A run whose subscriber keeps every publication from meeting a full queue hands over everything, in order. */
  lemma PromptSubscriberLosesNothing<T>(moves: seq<Move<T>>, bound: nat)
    requires bound > 0
    ensures var f := Run(moves, bound);
      f.published == f.received + f.queue
      <==> forall k :: 0 <= k < |moves| && moves[k].Publish? ==> |Run(moves[..k], bound).queue| < bound
  {
    var f := Run(moves, bound);
    NothingElseIsLost(moves, bound);
    NoOverflowIff(moves, bound);
    EveryRunIsGood(moves, bound);
    if Overflows(moves, bound) == 0 {
      AllTaken(f);
      assert f.published == f.published[..Gone(f)] + f.published[Gone(f)..];
      assert f.received == f.published[..Gone(f)];
    }
  }

  lemma AllTaken<T>(f: Feed<T>)
    requires InOrder(f) && |f.at| == Gone(f)
    ensures forall k :: 0 <= k < |f.at| ==> f.at[k] == k
  {
    forall k | 0 <= k < |f.at| ensures f.at[k] == k {
      AtLeast(f.at, k);
      AtMost(f.at, k, Gone(f));
    }
  }

  lemma {:induction false} AtLeast(at: seq<nat>, k: nat)
    requires k < |at| && forall i, j :: 0 <= i < j < |at| ==> at[i] < at[j]
    ensures at[k] >= k
  {
    if k > 0 {
      AtLeast(at, k - 1);
    }
  }

  lemma {:induction false} AtMost(at: seq<nat>, k: nat, top: nat)
    requires k < |at| == top && (forall i :: 0 <= i < |at| ==> at[i] < top)
    requires forall i, j :: 0 <= i < j < |at| ==> at[i] < at[j]
    ensures at[k] <= k
    decreases top - k
  {
    if k + 1 < top {
      AtMost(at, k + 1, top);
    }
  }

  // ---------------------------------------------------------------- the bus

  class Queue<T> {
    const maxSize: nat
    var items: seq<T>
    ghost var feed: Feed<T>

    constructor (maxSize: nat)
      requires maxSize > 0
      ensures Valid() && feed == NoFeed() && this.maxSize == maxSize
    {
      this.maxSize := maxSize;
      items, feed := [], NoFeed();
    }

    ghost predicate Valid()
      reads this
    {
      maxSize > 0 && feed.queue == items && Good(feed, maxSize)
    }

    /** One queue's part of a publication: make room by dropping the oldest, then put. */
    method Offer(x: T)
      requires Valid()
      modifies this
      ensures Valid() && feed == Pushed(old(feed), x, maxSize)
    {
      PushKeepsGood(feed, x, maxSize);
      if |items| >= maxSize {
        items := items[1..];
      }
      if |items| < maxSize {
        items := items + [x];
      }
      feed := Pushed(feed, x, maxSize);
    }

    /** The subscriber takes the oldest entry, if there is one. */
    method Get() returns (x: Option<T>)
      requires Valid()
      modifies this
      ensures Valid()
      ensures x.None? <==> old(items) == []
      ensures x.None? ==> feed == old(feed)
      ensures x.Some? ==> x.value == old(items)[0] && feed == Taken(old(feed))
    {
      if items == [] {
        return None;
      }
      TakeKeepsGood(feed, maxSize);
      x := Some(items[0]);
      items, feed := items[1..], Taken(feed);
    }
  }

  class MeasurementEventBus<T> {
    const queueSize: nat
    var subscribers: set<Queue<T>>

    constructor (queueSize: nat)
      requires queueSize > 0
      ensures Valid() && subscribers == {} && this.queueSize == queueSize
    {
      this.queueSize := queueSize;
      subscribers := {};
    }

    ghost predicate Valid()
      reads this, subscribers
    {
      queueSize > 0 && forall q :: q in subscribers ==> q.Valid() && q.maxSize == queueSize
    }

    method Subscribe() returns (q: Queue<T>)
      requires Valid()
      modifies this
      ensures Valid() && fresh(q) && subscribers == old(subscribers) + {q} && q.feed == NoFeed()
    {
      q := new Queue(queueSize);
      subscribers := subscribers + {q};
    }

    method Unsubscribe(q: Queue<T>)
      requires Valid()
      modifies this
      ensures Valid() && subscribers == old(subscribers) - {q}
    {
      subscribers := subscribers - {q};
    }

    /** Every subscriber's queue, and no other, gets the measurement; the order among them does not matter. */
    method Publish(x: T)
      requires Valid()
      modifies subscribers
      ensures Valid()
      ensures forall q :: q in subscribers ==> q.feed == Pushed(old(q.feed), x, queueSize)
    {
      hide Good, Pushed;
      var rest := subscribers;
      while rest != {}
        invariant rest <= subscribers && Valid()
        invariant forall q :: q in subscribers - rest ==> q.feed == Pushed(old(q.feed), x, queueSize)
        invariant forall q :: q in rest ==> q.feed == old(q.feed)
      {
        var q :| q in rest;
        q.Offer(x);
        rest := rest - {q};
      }
    }
  }
}
