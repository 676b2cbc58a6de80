/** The delivery half of `struct shuffler` updated in place.  Every method is one critical
    section under `deliverlock`; its contract is the action of module Deliveries. */
module DeliveryImpl {
  import opened Messages
  import Deliveries

  class Delivery {
    const cfg: Deliveries.Config
    var deliverq: seq<Request>
    var dwaitq: seq<Waiter>
    var dflush_counter: int
    var thread: Deliveries.Thread
    var flushing: bool
    ghost var accepted: seq<Request>
    ghost var done: nat
    ghost var calls: seq<Request>
    ghost var snap: nat

    ghost function State(): Deliveries.DelivQ
      reads this
    {
      Deliveries.DelivQ(deliverq, dwaitq, dflush_counter, thread, flushing, accepted, done, calls, snap)
    }

    ghost predicate Valid()
      reads this
    {
      Deliveries.Inv(cfg, State())
    }

    constructor (c: Deliveries.Config)
      ensures cfg == c && State() == Deliveries.EMPTYDQ && (0 <= c.threshold < c.max ==> Valid())
    {
      cfg := c;
      deliverq, dwaitq, dflush_counter, thread, flushing := [], [], 0, Deliveries.Awake, false;
      accepted, done, calls, snap := [], 0, [], 0;
    }

    /** `req_to_self`; a negative limit discards the request. */
    method Push(w: Waiter) returns (needwait: bool)
      modifies this
      ensures State() == Deliveries.Apply(cfg, old(State()), Deliveries.Push(w)) && (old(Valid()) ==> Valid())
      ensures needwait <==> 0 <= cfg.max <= |old(deliverq)|
    {
      if Deliveries.Inv(cfg, State()) {
        Deliveries.StepKeeps(cfg, State(), Deliveries.Push(w));
      }
      if cfg.max < 0 {
        return false;
      }
      accepted := accepted + [w.req];
      needwait := |deliverq| >= cfg.max;
      if !needwait {
        if |deliverq| == cfg.threshold {
          thread := Deliveries.Signal(thread);
        }
        deliverq := deliverq + [w.req];
      } else {
        dwaitq := dwaitq + [w];
      }
    }

    /** `delivery_main`: the front request, left in the queue while the callback runs. */
    method Front() returns (req: Request)
      requires Deliveries.Enabled(State(), Deliveries.Call)
      modifies this
      ensures State() == Deliveries.Apply(cfg, old(State()), Deliveries.Call) && (old(Valid()) ==> Valid())
      ensures calls == old(calls) + [req]
    {
      if Deliveries.Inv(cfg, State()) {
        Deliveries.StepKeeps(cfg, State(), Deliveries.Call);
      }
      req := deliverq[0];
      thread := Deliveries.Calling;
      calls := calls + [req];
    }

    /** `delivery_main` after the callback: count for the flush, dispose, promote one. */
    method Finish() returns (wakeflush: bool, owner: Option<Owner>)
      requires Deliveries.Enabled(State(), Deliveries.Pop)
      modifies this
      ensures State() == Deliveries.Apply(cfg, old(State()), Deliveries.Pop) && (old(Valid()) ==> Valid())
      ensures wakeflush <==> old(dflush_counter) == 1
      ensures owner == if old(dwaitq) == [] then None else Some(old(dwaitq)[0].owner)
    {
      if Deliveries.Inv(cfg, State()) {
        Deliveries.StepKeeps(cfg, State(), Deliveries.Pop);
      }
      wakeflush, owner := false, None;
      if dflush_counter > 0 {
        dflush_counter := dflush_counter - 1;
        wakeflush := dflush_counter == 0;
      }
      deliverq := deliverq[1..];
      thread := Deliveries.Awake;
      done := done + 1;
      if dwaitq != [] {
        var w := dwaitq[0];
        dwaitq := dwaitq[1..];
        deliverq := deliverq + [w.req];
        owner := Some(w.owner);
      }
    }

    /** `shuffler_flush_delivery`: how many deliveries to wait for. */
    method FlushBegin()
      requires Deliveries.Enabled(State(), Deliveries.FlushBegin)
      modifies this
      ensures State() == Deliveries.Apply(cfg, old(State()), Deliveries.FlushBegin) && (old(Valid()) ==> Valid())
    {
      if Deliveries.Inv(cfg, State()) {
        Deliveries.StepKeeps(cfg, State(), Deliveries.FlushBegin);
      }
      flushing := true;
      dflush_counter := |deliverq| + |dwaitq|;
      snap := |accepted|;
      if dflush_counter > 0 {
        thread := Deliveries.Signal(thread);
      }
    }

    /** `shuffler_flush_delivery` once the counter is down. */
    method FlushEnd()
      requires Deliveries.Enabled(State(), Deliveries.FlushEnd)
      modifies this
      ensures State() == Deliveries.Apply(cfg, old(State()), Deliveries.FlushEnd) && (old(Valid()) ==> Valid())
    {
      if Deliveries.Inv(cfg, State()) {
        Deliveries.StepKeeps(cfg, State(), Deliveries.FlushEnd);
      }
      dflush_counter := 0;
      flushing := false;
    }
  }
}
