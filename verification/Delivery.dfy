/** The delivery queue, the delivery thread and `shuffler_flush_delivery`, as a state
    machine whose actions are the critical sections under `deliverlock`. */
module Deliveries {
  import opened Messages

  /** `deliverq_max` and `deliverq_threshold`. */
  datatype Config = Config(max: int, threshold: int)

  /** Asleep: blocked on `delivercv`, not signalled.  Calling: lock dropped, the front
      request of the queue is in the application's callback. */
  datatype Thread = Awake | Asleep | Calling

  /** `accepted`, `done`, `calls` and `snap` are history: everything handed to delivery,
      how many of those left the queue, what the callback was invoked with, and how much
      had been accepted when the running flush started. */
  datatype DelivQ = DelivQ(
    deliverq: seq<Request>, dwaitq: seq<Waiter>, dflush: int,
    thread: Thread, flushing: bool,
    accepted: seq<Request>, done: nat, calls: seq<Request>, snap: nat)

  const EMPTYDQ := DelivQ([], [], 0, Awake, false, [], 0, [], 0)

  datatype Action =
    | Push(w: Waiter)  // req_to_self
    | Sleep            // delivery_main: queue empty
    | Wake             // spurious wakeup
    | Call             // delivery_main: invoke the callback
    | Pop              // delivery_main: callback returned
    | FlushBegin       // shuffler_flush_delivery
    | FlushEnd

  predicate Enabled(d: DelivQ, a: Action) {
    match a
    case Push(w) => true
    case Sleep => d.thread.Awake? && d.deliverq == []
    case Wake => d.thread.Asleep?
    case Call => d.thread.Awake? && d.deliverq != []
    case Pop => d.thread.Calling? && d.deliverq != []
    case FlushBegin => !d.flushing
    case FlushEnd => d.flushing && d.dflush <= 0
  }

  /** `pthread_cond_signal(&sh->delivercv)`: no effect unless the thread is blocked. */
  function Signal(t: Thread): Thread {
    if t.Asleep? then Awake else t
  }

  function Apply(c: Config, d: DelivQ, a: Action): DelivQ
    requires Enabled(d, a)
  {
    match a
    case Push(w) =>
      if c.max < 0 then d
      else if |d.deliverq| >= c.max then
        d.(dwaitq := d.dwaitq + [w], accepted := d.accepted + [w.req])
      else
        d.(deliverq := d.deliverq + [w.req], accepted := d.accepted + [w.req],
           thread := if |d.deliverq| == c.threshold then Signal(d.thread) else d.thread)
    case Sleep => d.(thread := Asleep)
    case Wake => d.(thread := Awake)
    case Call => d.(thread := Calling, calls := d.calls + [d.deliverq[0]])
    case Pop =>
      var d1 := d.(deliverq := d.deliverq[1..], done := d.done + 1, thread := Awake,
                   dflush := if d.dflush > 0 then d.dflush - 1 else d.dflush);
      if d.dwaitq == [] then d1
      else d1.(deliverq := d1.deliverq + [d.dwaitq[0].req], dwaitq := d.dwaitq[1..])
    case FlushBegin =>
      var n := |d.deliverq| + |d.dwaitq|;
      d.(flushing := true, dflush := n, snap := |d.accepted|,
         thread := if n > 0 then Signal(d.thread) else d.thread)
    case FlushEnd => d.(flushing := false, dflush := 0)
  }

  // ----- invariant -----

  ghost predicate Fifo(c: Config, d: DelivQ) {
    && c.max >= 1 && |d.deliverq| <= c.max
    && (d.dwaitq != [] ==> |d.deliverq| == c.max)
    && d.done <= |d.accepted| && d.accepted[d.done..] == d.deliverq + Reqs(d.dwaitq)
  }

  ghost predicate CallsOk(d: DelivQ) {
    && d.done <= |d.accepted|
    && if d.thread.Calling? then d.done < |d.accepted| && d.deliverq != [] && d.calls == d.accepted[..d.done + 1]
       else d.calls == d.accepted[..d.done]
  }

  ghost predicate FlushOk(d: DelivQ) {
    && (!d.flushing ==> d.dflush == 0)
    && (d.flushing ==> d.snap <= |d.accepted| && d.dflush == if d.done < d.snap then d.snap - d.done else 0)
    && (d.flushing && d.dflush > 0 ==> !d.thread.Asleep?)
  }

  /** With the threshold below the limit, a sleeping delivery thread never leaves a
      request on the wait queue: nobody is flow controlled while it sleeps. */
  ghost predicate SleepOk(c: Config, d: DelivQ) {
    d.thread.Asleep? ==> |d.deliverq| <= c.threshold && d.dwaitq == []
  }

  ghost predicate Inv(c: Config, d: DelivQ) {
    0 <= c.threshold < c.max && Fifo(c, d) && CallsOk(d) && FlushOk(d) && SleepOk(c, d)
  }

  lemma InitInv(c: Config)
    requires 0 <= c.threshold < c.max
    ensures Inv(c, EMPTYDQ)
  {
  }

  lemma PushFifo(c: Config, d: DelivQ, w: Waiter)
    requires Fifo(c, d)
    ensures Fifo(c, Apply(c, d, Push(w)))
  {
    assert (d.accepted + [w.req])[d.done..] == d.accepted[d.done..] + [w.req];
    assert Reqs(d.dwaitq + [w]) == Reqs(d.dwaitq) + [w.req];
    assert |d.deliverq| < c.max ==> Reqs(d.dwaitq) == [];
  }

  lemma PopFifo(c: Config, d: DelivQ)
    requires Fifo(c, d) && Enabled(d, Pop)
    ensures Fifo(c, Apply(c, d, Pop))
  {
    assert d.accepted[d.done + 1..] == d.deliverq[1..] + Reqs(d.dwaitq) by {
      assert d.accepted[d.done + 1..] == d.accepted[d.done..][1..];
    }
    if d.dwaitq != [] {
      var q := d.deliverq[1..] + [d.dwaitq[0].req];
      assert d.deliverq[1..] + Reqs(d.dwaitq) == q + Reqs(d.dwaitq[1..]);
    }
  }

  lemma CallStep(c: Config, d: DelivQ)
    requires Fifo(c, d) && CallsOk(d) && Enabled(d, Call)
    ensures CallsOk(Apply(c, d, Call))
  {
    assert d.accepted[d.done..][0] == d.deliverq[0];
    assert d.accepted[..d.done + 1] == d.accepted[..d.done] + [d.accepted[d.done]];
  }

  lemma PushRest(c: Config, d: DelivQ, w: Waiter)
    requires Inv(c, d)
    ensures var d' := Apply(c, d, Push(w)); CallsOk(d') && FlushOk(d') && SleepOk(c, d')
  {
    assert (d.accepted + [w.req])[..d.done] == d.accepted[..d.done];
    if d.thread.Calling? {
      assert (d.accepted + [w.req])[..d.done + 1] == d.accepted[..d.done + 1];
    }
  }

  lemma StepKeeps(c: Config, d: DelivQ, a: Action)
    requires Inv(c, d) && Enabled(d, a)
    ensures Inv(c, Apply(c, d, a))
  {
    if a.Push? {
      PushFifo(c, d, a.w);
      PushRest(c, d, a.w);
    } else if a.Pop? {
      PopFifo(c, d);
    } else if a.Call? {
      CallStep(c, d);
    } else if a.FlushBegin? {
      assert |d.accepted[d.done..]| == |d.deliverq| + |d.dwaitq|;
    } else if a.Sleep? {
      assert d.accepted[d.done..] == [];
    }
  }

  /** What `req_to_self` does: it discards the request, queues it, or parks it; and it wakes the
      delivery thread exactly when it queues the request that takes the queue over the
      threshold. */
  lemma PushDoes(c: Config, d: DelivQ, w: Waiter)
    ensures var d' := Apply(c, d, Push(w));
            && (c.max < 0 ==> d' == d)
            && (0 <= c.max <= |d.deliverq| ==> d'.dwaitq == d.dwaitq + [w] && d'.deliverq == d.deliverq)
            && (|d.deliverq| < c.max ==> d'.deliverq == d.deliverq + [w.req] && d'.dwaitq == d.dwaitq)
            && (d.thread.Asleep? ==> (d'.thread.Awake? <==> |d.deliverq| == c.threshold && |d.deliverq| < c.max))
            && (d'.thread == d.thread || (d.thread.Asleep? && d'.thread.Awake?))
            && d'.dflush == d.dflush && d'.flushing == d.flushing
  {
  }

  /** What `shuffler_flush_delivery` does: it begins with everything present to wait for, and a
      thread that is awake if there is any; and it ends the flush. */
  lemma FlushDoes(c: Config, d: DelivQ)
    requires Inv(c, d)
    ensures Enabled(d, FlushBegin) ==>
              var d' := Apply(c, d, FlushBegin);
              && d'.flushing && d'.snap == |d.accepted| && d'.dflush == |d.accepted| - d.done
              && (d.done < |d.accepted| ==> !d'.thread.Asleep?)
    ensures Enabled(d, FlushEnd) ==>
              var d' := Apply(c, d, FlushEnd);
              !d'.flushing && d'.deliverq == d.deliverq && d'.dwaitq == d.dwaitq && d'.thread == d.thread
  {
    assert |d.accepted[d.done..]| == |d.deliverq| + |d.dwaitq|;
  }

  // ----- what it gives -----

  /** `shuffler_flush_delivery` may return exactly when every request present at its
      start, including one that was inside the callback, has come out of the callback;
      and the callback saw them in acceptance order. */
  lemma FlushReturnsExactly(c: Config, d: DelivQ)
    requires Inv(c, d) && d.flushing
    ensures Enabled(d, FlushEnd) <==> d.done >= d.snap
    ensures d.done <= |d.calls| && d.calls <= d.accepted
  {
    if d.thread.Calling? {
      assert d.accepted[..d.done + 1] <= d.accepted;
    }
  }

  /** Whenever someone is flow controlled by delivery, or a delivery flush is waiting,
      the delivery thread is not blocked. */
  lemma DeliveryRuns(c: Config, d: DelivQ)
    requires Inv(c, d) && (d.dwaitq != [] || (d.flushing && d.dflush > 0))
    ensures Enabled(d, Call) || Enabled(d, Pop)
  {
    assert |d.accepted[d.done..]| == |d.deliverq| + |d.dwaitq|;
  }

  // ----- how the queue may change, seen from outside -----

  /** Position of the oldest waiting request. */
  function Base(d: DelivQ): int {
    |d.accepted| - |d.dwaitq|
  }

  predicate IsWaiting(d: DelivQ, k: int) {
    0 <= Base(d) <= k < |d.accepted|
  }

  function WaiterAt(d: DelivQ, k: int): Waiter
    requires IsWaiting(d, k)
  {
    d.dwaitq[k - Base(d)]
  }

  ghost predicate Evolves(d: DelivQ, d': DelivQ) {
    && d.accepted <= d'.accepted && Base(d) <= Base(d') && d.done <= d'.done
    && (forall k :: k < |d.accepted| && IsWaiting(d', k) ==> IsWaiting(d, k) && WaiterAt(d', k) == WaiterAt(d, k))
  }

  lemma StepEvolves(c: Config, d: DelivQ, a: Action)
    requires Inv(c, d) && Enabled(d, a)
    ensures Evolves(d, Apply(c, d, a))
  {
    assert |d.accepted[d.done..]| == |d.deliverq| + |d.dwaitq|;
  }

  lemma DoneGrows(c: Config, d: DelivQ, a: Action)
    requires Enabled(d, a)
    ensures d.done <= Apply(c, d, a).done && (!a.FlushBegin? ==> Apply(c, d, a).snap == d.snap)
  {
  }

  lemma AcceptedAfter(c: Config, d: DelivQ, a: Action)
    requires c.max >= 0 && Enabled(d, a)
    ensures Apply(c, d, a).accepted == d.accepted + (if a.Push? then [a.w.req] else [])
  {
    assert d.accepted + [] == d.accepted;
  }

  lemma AcceptedParks(c: Config, d: DelivQ, w: Waiter)
    requires Inv(c, d)
    ensures var d' := Apply(c, d, Push(w));
            && (IsWaiting(d', |d.accepted|) <==> |d.deliverq| >= c.max)
            && (IsWaiting(d', |d.accepted|) ==> WaiterAt(d', |d.accepted|) == w)
  {
    assert |d.accepted[d.done..]| == |d.deliverq| + |d.dwaitq|;
  }

  // ----- the threshold condition is exact -----

  ghost predicate Run(c: Config, ds: seq<DelivQ>, acts: seq<Action>) {
    && |ds| == |acts| + 1 && ds[0] == EMPTYDQ
    && (forall i :: 0 <= i < |acts| ==> Enabled(ds[i], acts[i]) && ds[i + 1] == Apply(c, ds[i], acts[i]))
  }

  /** The delivery thread sleeps although somebody waits for it. */
  predicate Stranded(d: DelivQ) {
    d.thread.Asleep? && d.dwaitq != []
  }

  ghost predicate CanStrand(c: Config) {
    exists ds, acts :: Run(c, ds, acts) && Stranded(ds[|acts|])
  }

  lemma {:induction false} RunKeeps(c: Config, ds: seq<DelivQ>, acts: seq<Action>, n: nat)
    requires 0 <= c.threshold < c.max && Run(c, ds, acts) && n < |ds|
    ensures Inv(c, ds[n])
  {
    if n == 0 {
      InitInv(c);
    } else {
      RunKeeps(c, ds, acts, n - 1);
      StepKeeps(c, ds[n - 1], acts[n - 1]);
    }
  }

  /** A run that ends with the thread asleep and `n` requests queued. */
  lemma {:induction false} FillAsleep(c: Config, r: Request, n: nat) returns (ds: seq<DelivQ>, acts: seq<Action>)
    requires 1 <= c.max <= c.threshold && n <= c.max
    ensures Run(c, ds, acts)
    ensures var d := ds[|acts|]; d.thread.Asleep? && |d.deliverq| == n && d.dwaitq == []
  {
    if n == 0 {
      acts := [Sleep];
      ds := [EMPTYDQ, EMPTYDQ.(thread := Asleep)];
    } else {
      var ds0, acts0 := FillAsleep(c, r, n - 1);
      var a := Push(Waiter(r, Sender));
      ds, acts := ds0 + [Apply(c, ds0[|acts0|], a)], acts0 + [a];
    }
  }

  /** The delivery thread can strand a waiting request if and only if the configured
      threshold reaches the configured limit; nothing in the configuration code stops
      that from being asked for. */
  lemma StrandsIff(c: Config, r: Request)
    requires c.max >= 1 && c.threshold >= 0
    ensures CanStrand(c) <==> c.threshold >= c.max
  {
    if c.threshold >= c.max {
      var ds0, acts0 := FillAsleep(c, r, c.max);
      var a := Push(Waiter(r, Sender));
      var ds, acts := ds0 + [Apply(c, ds0[|acts0|], a)], acts0 + [a];
      assert Run(c, ds, acts) && Stranded(ds[|acts|]);
    } else if CanStrand(c) {
      var ds, acts :| Run(c, ds, acts) && Stranded(ds[|acts|]);
      RunKeeps(c, ds, acts, |acts|);
      assert false;
    }
  }
}
