/** A ranking of the states of the three-hop shuffler: every step it takes by itself makes it
    smaller. */
module Ranking {
  import opened Messages
  import opened Sums
  import opened Routing
  import opened Worlds
  import opened Acks
  import opened Places
  import opened Shufflers
  import opened Progress
  import OutQueues
  import Q = QueueLogs
  import O = OutSets
  import D = Deliveries

  // ----- one queue -----

  /** Steps still to come from the outputs: sending (and then a handler's end) if unsent,
      finishing. */
  function OutWeight(o: OutQueues.Output): nat { if o.sent then 1 else 3 }

  function OutsWeight(outs: seq<OutQueues.Output>): nat {
    if outs == [] then 0 else OutsWeight(outs[..|outs| - 1]) + OutWeight(outs[|outs| - 1])
  }

  lemma OutsSnoc(outs: seq<OutQueues.Output>, o: OutQueues.Output)
    ensures OutsWeight(outs + [o]) == OutsWeight(outs) + OutWeight(o)
  {
    assert (outs + [o])[..|outs|] == outs;
  }

  lemma {:induction false} OutsConcat(xs: seq<OutQueues.Output>, ys: seq<OutQueues.Output>)
    ensures OutsWeight(xs + ys) == OutsWeight(xs) + OutsWeight(ys)
  {
    if ys == [] {
      assert xs + ys == xs;
    } else {
      var n := |ys| - 1;
      OutsConcat(xs, ys[..n]);
      assert ys == ys[..n] + [ys[n]];
      assert xs + ys == (xs + ys[..n]) + [ys[n]];
      OutsSnoc(ys[..n], ys[n]);
      OutsSnoc(xs + ys[..n], ys[n]);
    }
  }

  lemma OutsUpdate(outs: seq<OutQueues.Output>, i: nat, o: OutQueues.Output)
    requires i < |outs|
    ensures OutsWeight(outs[i := o]) == OutsWeight(outs) - OutWeight(outs[i]) + OutWeight(o)
    ensures OutsWeight(OutQueues.RemoveAt(outs, i)) == OutsWeight(outs) - OutWeight(outs[i])
  {
    var x, y := outs[..i], outs[i + 1..];
    assert outs == x + [outs[i]] + y && outs[i := o] == x + [o] + y && OutQueues.RemoveAt(outs, i) == x + y;
    OutsConcat(x + [outs[i]], y);
    OutsConcat(x + [o], y);
    OutsConcat(x, y);
    OutsSnoc(x, outs[i]);
    OutsSnoc(x, o);
  }

  /** How far the flush of a queue is from being reported. */
  function FlushWeight(q: OutQueues.OutQ): nat {
    if !q.flushing then 0 else if q.tracking.Some? then 3 else if q.waitcounter > 0 then 4 else 2
  }

  /** Requests that are in no batch yet. */
  function Loose(l: Q.LogQ): nat {
    if l.q.formed <= |l.accepted| then |l.accepted| - l.q.formed else 0
  }

  function QueueWeight(l: Q.LogQ): nat {
    3 * Loose(l) + OutsWeight(l.q.outs) + FlushWeight(l.q)
  }

  lemma AcceptWeight(c: OutQueues.Config, l: Q.LogQ, w: Waiter)
    requires Q.LogInv(c, l)
    ensures QueueWeight(Q.LAccept(c, l, w)) <= QueueWeight(l) + 3
  {
    OutsSnoc(l.q.outs, OutQueues.Output(l.q.formed, l.q.loading + [w.req], false));
    Q.FifoLens(l);
  }

  lemma SentWeight(l: Q.LogQ, i: nat)
    requires i < |l.q.outs| && !l.q.outs[i].sent
    ensures QueueWeight(Q.LSent(l, i)) == QueueWeight(l) - 2
  {
    OutsUpdate(l.q.outs, i, l.q.outs[i].(sent := true));
  }

  /** Loading what waited, with or without forming a batch. */
  lemma MovedWeight(c: OutQueues.Config, l: Q.LogQ, n: nat, l': Q.LogQ, tosend: bool)
    requires OutQueues.Moved(c, l.q, n, l'.q, tosend) && l'.accepted == l.accepted && l'.q.formed <= |l.accepted|
    ensures 3 * Loose(l') + OutsWeight(l'.q.outs) <= 3 * Loose(l) + OutsWeight(l.q.outs)
  {
    OutsSnoc(l.q.outs, OutQueues.Output(l.q.formed, l.q.loading + Reqs(l.q.waitq[..n]), false));
  }

  /** Finishing an output may report the flush, but never sets it back. */
  lemma CompleteFlush(c: OutQueues.Config, l: Q.LogQ, i: nat)
    requires Q.LogInv(c, l) && i < |l.q.outs|
    ensures FlushWeight(Q.LComplete(c, l, i).q) + 2 * O.Bump(OutQueues.Retire(l.q, i).1) <= FlushWeight(l.q)
  {
    OutQueues.DrainFlush(c, OutQueues.Retire(l.q, i).0, false);
  }

  lemma RetireWeight(l: Q.LogQ, i: nat, l1: Q.LogQ)
    requires i < |l.q.outs| && l.q.outs[i].sent && l1 == l.(q := OutQueues.Retire(l.q, i).0)
    ensures 3 * Loose(l1) + OutsWeight(l1.q.outs) == 3 * Loose(l) + OutsWeight(l.q.outs) - 1
  {
    OutsUpdate(l.q.outs, i, l.q.outs[i]);
  }

  lemma LoadWeight(c: OutQueues.Config, l: Q.LogQ, i: nat, l1: Q.LogQ)
    requires Q.LogInv(c, l) && i < |l.q.outs| && l.q.outs[i].sent && l1 == l.(q := OutQueues.Retire(l.q, i).0)
    ensures var l' := Q.LComplete(c, l, i);
            3 * Loose(l') + OutsWeight(l'.q.outs) <= 3 * Loose(l1) + OutsWeight(l1.q.outs)
  {
    var l' := Q.LComplete(c, l, i);
    Q.LogRoomy(c, l);
    OutQueues.CompleteMoved(c, l.q, i);
    Q.CompleteKeeps(c, l, i);
    MovedWeight(c, l1, |l.q.waitq| - |l'.q.waitq|, l', OutQueues.Complete(c, l.q, i).1.tosend);
  }

  lemma CompleteWeight(c: OutQueues.Config, l: Q.LogQ, i: nat)
    requires Q.LogInv(c, l) && i < |l.q.outs| && l.q.outs[i].sent
    ensures QueueWeight(Q.LComplete(c, l, i)) + 2 * O.Bump(OutQueues.Retire(l.q, i).1) <= QueueWeight(l) - 1
  {
    var l1 := l.(q := OutQueues.Retire(l.q, i).0);
    CompleteFlush(c, l, i);
    RetireWeight(l, i, l1);
    LoadWeight(c, l, i, l1);
  }

  /** `start_qflush` on a queue: the batch it may form pays for itself. */
  lemma FlushLoadingWeight(c: OutQueues.Config, l: Q.LogQ)
    requires Q.LogInv(c, l) && !l.q.flushing
    ensures QueueWeight(Q.LFlushLoading(c, l)) <= QueueWeight(l) + (if l.q.waitq != [] then 4 else 0)
    ensures QueueWeight(Q.LFlushOuts(Q.LFlushLoading(c, l))) <= QueueWeight(l) + 4
  {
    OutsSnoc(l.q.outs, OutQueues.Output(l.q.formed, l.q.loading, false));
    Q.FifoLens(l);
  }

  // ----- one set -----

  function FlusherWeight(f: O.Flusher): nat {
    match f
    case Idle => 0
    case Starting(todo) => 6 * |todo| + 1
    case Resuming(todo, at) => 6 * |todo| + 4
    case Waiting => 0
  }

  ghost function SetWeight(s: O.OutSet): nat {
    FlusherWeight(s.flusher) + 2 * s.undone + s.signalers + Sum(s.qs, QueueWeight)
  }

  lemma SendWeight(s: O.OutSet, p: Rank, i: nat)
    requires O.Enabled(s, O.Send(p, i))
    ensures SetWeight(O.Apply(s, O.Send(p, i))) == SetWeight(s) - 2
  {
    SentWeight(s.qs[p], i);
    SumUpdate(s.qs, QueueWeight, p, Q.LSent(s.qs[p], i));
  }

  lemma FinishWeight(s: O.OutSet, p: Rank, i: nat)
    requires O.Inv(s) && O.Enabled(s, O.Finish(p, i))
    ensures SetWeight(O.Apply(s, O.Finish(p, i))) < SetWeight(s)
  {
    CompleteWeight(s.cfg, s.qs[p], i);
    SumUpdate(s.qs, QueueWeight, p, Q.LComplete(s.cfg, s.qs[p], i));
  }

  lemma AcceptsWeight(s: O.OutSet, p: Rank, w: Waiter)
    requires O.Inv(s) && O.Enabled(s, O.Accept(p, w))
    ensures SetWeight(O.Apply(s, O.Accept(p, w))) <= SetWeight(s) + 3
  {
    AcceptWeight(s.cfg, s.qs[p], w);
    SumUpdate(s.qs, QueueWeight, p, Q.LAccept(s.cfg, s.qs[p], w));
  }

  lemma TrackWeight(s: O.OutSet, p: Rank)
    requires O.Inv(s) && O.Enabled(s, O.Track(p))
    ensures SetWeight(O.Apply(s, O.Track(p))) < SetWeight(s)
  {
    Q.TrackKeeps(s.cfg, s.qs[p]);
    SumUpdate(s.qs, QueueWeight, p, Q.LTrack(s.qs[p]));
  }

  lemma StartWeight(s: O.OutSet, p: Rank)
    requires O.Inv(s) && O.Enabled(s, O.StartQ(p))
    ensures SetWeight(O.Apply(s, O.StartQ(p))) < SetWeight(s)
  {
    var l := s.qs[p];
    assert !O.Started(s.flusher, p);
    FlushLoadingWeight(s.cfg, l);
    assert |s.flusher.todo - {p}| == |s.flusher.todo| - 1;
    SumUpdate(s.qs, QueueWeight, p, Q.LFlushLoading(s.cfg, l));
    SumUpdate(s.qs, QueueWeight, p, Q.LFlushOuts(Q.LFlushLoading(s.cfg, l)));
  }

  lemma ResumeWeight(s: O.OutSet)
    requires O.Inv(s) && O.Enabled(s, O.ResumeQ)
    ensures SetWeight(O.Apply(s, O.ResumeQ)) < SetWeight(s)
  {
    var l := s.qs[s.flusher.at];
    assert !O.Started(s.flusher, s.flusher.at);
    SumUpdate(s.qs, QueueWeight, s.flusher.at, Q.LFlushOuts(l));
  }

  /** The flush's own steps. */
  lemma FlushStepWeight(s: O.OutSet, a: O.Action)
    requires O.Inv(s) && O.Enabled(s, a) && FlushAction(a) && !a.Begin? && !a.Return?
    ensures SetWeight(O.Apply(s, a)) < SetWeight(s)
  {
    match a
    case Track(p) => TrackWeight(s, p);
    case StartQ(p) => StartWeight(s, p);
    case ResumeQ => ResumeWeight(s);
    case CountDone =>
    case Signal =>
    case DropHold =>
  }

  // ----- the whole shuffler -----

  /** What is left of a request's journey after the queue it is at. */
  function LocWeight(l: Loc): nat {
    if l.AtDelivery? then 0 else match l.set_.kind case Origin => 14 case Remote => 9 case Relay => 4
  }

  function Less(a: nat, b: nat): nat { if a >= b then a - b else 0 }

  /** Callbacks to come, and callbacks to return. */
  function DelWeight(d: D.DelivQ): nat {
    2 * Less(|d.accepted|, |d.calls|) + Less(|d.calls|, d.done)
  }

  function RpcWeight(x: Rpc): nat {
    O.Bump(!x.ended) + |x.refs|
  }

  ghost function Work(w: World): nat {
    Sum(w.loc, LocWeight) + Sum(w.sets, SetWeight) + Sum(w.dels, DelWeight) + Sum(w.rpcs, RpcWeight)
  }

  lemma SetRank(w: World, s: SetId, a: O.Action)
    requires s in w.sets && O.Enabled(w.sets[s], a)
    ensures Work(SetStep(w, s, a)) == Work(w) - SetWeight(w.sets[s]) + SetWeight(O.Apply(w.sets[s], a))
  {
    SumUpdate(w.sets, SetWeight, s, O.Apply(w.sets[s], a));
  }

  lemma DelRank(w: World, r: Rank, b: D.Action)
    requires r in w.dels && D.Enabled(w.dels[r], b)
    ensures Work(DelStep(w, r, b)) == Work(w) - DelWeight(w.dels[r]) + DelWeight(D.Apply(w.dcfg, w.dels[r], b))
  {
    SumUpdate(w.dels, DelWeight, r, D.Apply(w.dcfg, w.dels[r], b));
  }

  lemma RpcRank(w: World, id: RpcId, x: Rpc)
    ensures Work(w.(rpcs := w.rpcs[id := x]))
            == Work(w) - (if id in w.rpcs then RpcWeight(w.rpcs[id]) else 0) + RpcWeight(x)
  {
    SumUpdate(w.rpcs, RpcWeight, id, x);
  }

  lemma LocRank(w: World, g: nat, l: Loc)
    ensures Work(w.(loc := w.loc[g := l])) == Work(w) - (if g in w.loc then LocWeight(w.loc[g]) else 0) + LocWeight(l)
  {
    SumUpdate(w.loc, LocWeight, g, l);
  }

  lemma CallsWeight(c: D.Config, d: D.DelivQ)
    requires D.Inv(c, d) && D.Enabled(d, D.Call)
    ensures DelWeight(D.Apply(c, d, D.Call)) == DelWeight(d) - 1
  {
    assert |d.accepted[d.done..]| == |d.deliverq| + |d.dwaitq|;
  }

  lemma PopsWeight(c: D.Config, d: D.DelivQ)
    requires D.Inv(c, d) && D.Enabled(d, D.Pop)
    ensures DelWeight(D.Apply(c, d, D.Pop)) == DelWeight(d) - 1
  {
  }

  lemma PushWeight(c: D.Config, d: D.DelivQ, w: Waiter)
    requires D.Inv(c, d)
    ensures DelWeight(D.Apply(c, d, D.Push(w))) <= DelWeight(d) + 2
  {
    D.AcceptedAfter(c, d, D.Push(w));
  }

  // ----- every internal step -----

  lemma ForwardRank(t: Topology, w: World, s: SetId, p: Rank, i: nat)
    requires Inv(t, w) && Enabled(t, w, Forward(s, p, i))
    ensures Work(Apply(t, w, Forward(s, p, i))) < Work(w)
  {
    var o := LQ(w, s, p).q.outs[i];
    assert RpcOf(s, p, o) !in w.rpcs by {
      assert QueueLinked(w, s, p);
      assert OutLinked(w, s, p, o);
    }
    SendWeight(w.sets[s], p, i);
    SetRank(w, s, O.Send(p, i));
    RpcRank(SetStep(w, s, O.Send(p, i)), RpcOf(s, p, o), Rpc(o.batch, 0, None, {}, false, 0));
  }

  /** Putting a request where it is handed to, without the change of its location. */
  lemma PutRank(w: World, g: Request, o: Owner, tgt: Target)
    requires Locals(w) && TargetExists(w, tgt) && g.data != []
    ensures Work(Place(w, g, o, tgt).(loc := w.loc)) <= Work(w) + (if tgt.Via? then 3 else 2)
  {
    if tgt.Via? {
      AcceptsWeight(w.sets[tgt.set_], tgt.peer, Waiter(g, o));
      SetRank(w, tgt.set_, O.Accept(tgt.peer, Waiter(g, o)));
    } else {
      PushWeight(w.dcfg, w.dels[tgt.r], Waiter(g, o));
      DelRank(w, tgt.r, D.Push(Waiter(g, o)));
    }
  }

  lemma PlaceRank(w: World, g: Request, o: Owner, tgt: Target)
    requires Locals(w) && TargetExists(w, tgt) && g.data != [] && g.id in w.loc
    ensures Work(Place(w, g, o, tgt)) <= Work(w) - LocWeight(w.loc[g.id]) + LocWeight(NextLoc(w,
            tgt)) + (if tgt.Via? then 3 else 2)
  {
    PutRank(w, g, o, tgt);
    var w1 := Place(w, g, o, tgt).(loc := w.loc);
    LocRank(w1, g.id, NextLoc(w, tgt));
    assert w1.(loc := w1.loc[g.id := NextLoc(w, tgt)]) == Place(w, g, o, tgt);
  }

  /** The next stop is worth at least five steps less. */
  lemma NextStopWeight(s: SetId, p: Rank, k: nat, l: Loc)
    requires NextStop(s.kind, l)
    ensures LocWeight(AtQueue(s, p, k)) >= LocWeight(l) + (if l.AtQueue? then 5 else 4)
  {
  }

  lemma HandledWeight(x: Rpc, parks: bool, l: Loc)
    ensures RpcWeight(Handled(x, parks, l)) <= RpcWeight(x) + 1
  {
  }

  lemma HandedRank(w: World, w1: World, id: RpcId, src: Loc, next: Loc, x: Rpc, c: nat)
    requires id in w.rpcs && w1.rpcs == w.rpcs && RpcWeight(x) <= RpcWeight(w.rpcs[id]) + 1
    requires LocWeight(src) >= LocWeight(next) + c + 2 && Work(w1) <= Work(w) - LocWeight(src) + LocWeight(next) + c
    ensures Work(w1.(rpcs := w.rpcs[id := x])) < Work(w)
  {
    RpcOnly(w, w1, id, x);
  }

  lemma RpcOnly(w: World, w1: World, id: RpcId, x: Rpc)
    requires w1.rpcs == w.rpcs && id in w.rpcs && RpcWeight(x) <= RpcWeight(w.rpcs[id]) + 1
    ensures Work(w1.(rpcs := w.rpcs[id := x])) <= Work(w1) + 1
  {
    RpcRank(w1, id, x);
  }

  lemma HandleRankAt(w: World, w1: World, id: RpcId, src: Loc, next: Loc, parks: bool)
    requires id in w.rpcs && w1.rpcs == w.rpcs && src.AtQueue? && src.set_ == id.set_ && NextStop(id.set_.kind, next)
    requires Work(w1) <= Work(w) - LocWeight(src) + LocWeight(next) + (if next.AtQueue? then 3 else 2)
    ensures Work(w1.(rpcs := w.rpcs[id := Handled(w.rpcs[id], parks, next)])) < Work(w)
  {
    NextStopWeight(src.set_, src.peer, src.k, next);
    HandledWeight(w.rpcs[id], parks, next);
    HandedRank(w, w1, id, src, next, Handled(w.rpcs[id], parks, next), if next.AtQueue? then 3 else 2);
  }

  lemma NextIsStop(w: World, k: Kind, tgt: Target)
    requires TargetExists(w, tgt) && (tgt.Via? ==> Stage(tgt.set_.kind) == Stage(k) + 1)
    ensures NextStop(k, NextLoc(w, tgt)) && (NextLoc(w, tgt).AtQueue? <==> tgt.Via?)
  {
  }

  lemma PlaceRpcs(w: World, g: Request, o: Owner, tgt: Target)
    requires TargetExists(w, tgt) && g.data != []
    ensures Place(w, g, o, tgt).rpcs == w.rpcs
  {
  }

  lemma HandleRank(t: Topology, w: World, id: RpcId)
    requires Inv(t, w) && Enabled(t, w, Handle(id))
    ensures Work(Apply(t, w, Handle(id))) < Work(w)
  {
    var g := w.rpcs[id].batch[w.rpcs[id].done];
    var tgt := RouteRpc(t, id.peer, g.dst, id.set_.kind);
    HandleRoute(t, w, id);
    PlaceRank(w, g, Inbound(id), tgt);
    PlaceRpcs(w, g, Inbound(id), tgt);
    NextIsStop(w, id.set_.kind, tgt);
    HandleRankAt(w, Place(w, g, Inbound(id), tgt), id, SourceLoc(w, id), NextLoc(w, tgt), Parks(w, tgt));
  }

  lemma HandlerRank(w: World, id: RpcId, x: Rpc)
    requires id in w.rpcs && RpcWeight(x) < RpcWeight(w.rpcs[id])
    ensures Work(w.(rpcs := w.rpcs[id := x])) < Work(w)
  {
    RpcRank(w, id, x);
  }

  lemma DropRank(w: World, id: RpcId, l: Loc)
    requires id in w.rpcs && l in w.rpcs[id].refs
    ensures Work(w.(rpcs := w.rpcs[id := Dropped(w.rpcs[id].(refs := w.rpcs[id].refs - {l}))])) < Work(w)
  {
    var x := w.rpcs[id].(refs := w.rpcs[id].refs - {l});
    assert |x.refs| == |w.rpcs[id].refs| - 1;
    HandlerRank(w, id, Dropped(x));
  }

  lemma SetDecreases(w: World, s: SetId, b: O.Action)
    requires Locals(w) && s in w.sets && O.Enabled(w.sets[s], b)
    requires b.Finish? || (FlushAction(b) && !b.Begin? && !b.Return?)
    ensures Work(SetStep(w, s, b)) < Work(w)
  {
    if b.Finish? {
      FinishWeight(w.sets[s], b.p, b.i);
    } else {
      FlushStepWeight(w.sets[s], b);
    }
    SetRank(w, s, b);
  }

  lemma DeliverRank(w: World, r: Rank, b: D.Action)
    requires Locals(w) && r in w.dels && D.Enabled(w.dels[r], b) && (b.Call? || b.Pop?)
    ensures Work(DelStep(w, r, b)) < Work(w)
  {
    if b.Call? {
      CallsWeight(w.dcfg, w.dels[r]);
    } else {
      PopsWeight(w.dcfg, w.dels[r]);
    }
    DelRank(w, r, b);
  }

  /** Every step the shuffler takes by itself decreases the work left to do. */
  lemma Decreases(t: Topology, w: World, a: Action)
    requires Inv(t, w) && Enabled(t, w, a) && Internal(a)
    ensures Work(Apply(t, w, a)) < Work(w)
  {
    match a
    case Forward(s, p, i) => ForwardRank(t, w, s, p, i);
    case Handle(id) => HandleRank(t, w, id);
    case EndHandle(id) => HandlerRank(w, id, Ended(w.rpcs[id]));
    case DropRef(id, l) => DropRank(w, id, l);
    case FinishRpc(s, p, i) => SetDecreases(w, s, O.Finish(p, i));
    case Flush(s, b) => SetDecreases(w, s, b);
    case Deliver(r, b) => DeliverRank(w, r, b);
  }

  // ----- coming to rest -----

  ghost predicate InternalRun(t: Topology, ws: seq<World>, acts: seq<Action>) {
    && |ws| == |acts| + 1
    && (forall i :: 0 <= i < |acts| ==>
          Internal(acts[i]) && Enabled(t, ws[i], acts[i]) && ws[i + 1] == Apply(t, ws[i], acts[i]))
  }

  lemma InternalStep(t: Topology, w: World, a: Action, w': World)
    requires Inv(t, w) && Internal(a) && Enabled(t, w, a) && w' == Apply(t, w, a)
    ensures Inv(t, w') && Work(w') < Work(w)
  {
    Decreases(t, w, a);
    Shufflers.StepKeeps(t, w, a);
  }

  /** Left to itself the shuffler comes to rest: no sequence of internal steps is longer than
      the work there was to do at its start. */
  lemma {:induction false} Terminates(t: Topology, ws: seq<World>, acts: seq<Action>, n: nat)
    requires InternalRun(t, ws, acts) && Inv(t, ws[0]) && n < |ws|
    ensures Inv(t, ws[n]) && Work(ws[n]) + n <= Work(ws[0])
  {
    if n > 0 {
      Terminates(t, ws, acts, n - 1);
      InternalStep(t, ws[n - 1], acts[n - 1], ws[n]);
    }
  }

  /** At rest nothing waits: no request is on a wait queue, every RPC was answered, every
      flush may return. */
  ghost predicate AtRest(w: World) {
    && (forall l :: !Parked(w, l))
    && (forall id :: id in w.rpcs ==> w.rpcs[id].replies == 1)
    && (forall s, p :: HasQ(w, s, p) ==> LQ(w, s, p).q.outs == [] && LQ(w, s, p).q.waitq == [])
    && (forall s :: s in w.sets && !w.sets[s].flusher.Idle? ==> O.Enabled(w.sets[s], O.Return))
    && (forall r :: r in w.dels && w.dels[r].flushing ==> D.Enabled(w.dels[r], D.FlushEnd))
  }

  lemma AnsweredAtRest(t: Topology, w: World, id: RpcId)
    requires Inv(t, w) && !Moving(t, w) && id in w.rpcs
    ensures w.rpcs[id].replies == 1
  {
    assert RpcOk(w, id);
    if w.rpcs[id].replies == 0 {
      RpcWaitsAhead(t, w, id);
      var l :| Parked(w, l) && LocStage(l) > Stage(id.set_.kind);
      ParkedMoves(t, w, l);
    }
  }

  lemma RestMeans(t: Topology, w: World)
    requires Inv(t, w) && !Moving(t, w)
    ensures AtRest(w)
  {
    RestIsQuiet(t, w);
    forall l ensures !Parked(w, l) {
      if Parked(w, l) {
        ParkedMoves(t, w, l);
      }
    }
    forall id | id in w.rpcs ensures w.rpcs[id].replies == 1 {
      AnsweredAtRest(t, w, id);
    }
    forall s | s in w.sets && !w.sets[s].flusher.Idle? ensures O.Enabled(w.sets[s], O.Return) {
      if !O.Enabled(w.sets[s], O.Return) {
        FlushMoves(t, w, s);
      }
    }
    forall r | r in w.dels && w.dels[r].flushing ensures D.Enabled(w.dels[r], D.FlushEnd) {
      if !D.Enabled(w.dels[r], D.FlushEnd) {
        DeliveryMoves(t, w, r);
      }
    }
  }

  /** However the threads are scheduled, as long as nothing new is sent the shuffler cannot
      stop before every parked request has left its wait queue, every RPC was answered and
      every flush may return; and it takes at most as many steps as there was work. */
  lemma ComesToRest(t: Topology, ws: seq<World>, acts: seq<Action>)
    requires InternalRun(t, ws, acts) && Inv(t, ws[0])
    ensures |acts| <= Work(ws[0])
    ensures !Moving(t, ws[|acts|]) ==> AtRest(ws[|acts|])
    ensures |acts| == Work(ws[0]) ==> AtRest(ws[|acts|])
  {
    Terminates(t, ws, acts, |acts|);
    var w := ws[|acts|];
    if Moving(t, w) {
      var a :| Internal(a) && Enabled(t, w, a);
      Decreases(t, w, a);
    } else {
      RestMeans(t, w);
    }
  }

  lemma OneStep(t: Topology, w: World) returns (a: Action, w': World)
    requires Inv(t, w) && Moving(t, w)
    ensures Internal(a) && Enabled(t, w, a) && w' == Apply(t, w, a) && Inv(t, w') && Work(w') < Work(w)
  {
    a :| Internal(a) && Enabled(t, w, a);
    w' := Apply(t, w, a);
    InternalStep(t, w, a, w');
  }

  /** And it can always be brought to rest. */
  lemma {:induction false} RestReachable(t: Topology, w: World) returns (ws: seq<World>, acts: seq<Action>)
    requires Inv(t, w)
    ensures InternalRun(t, ws, acts) && ws[0] == w && AtRest(ws[|acts|])
    decreases Work(w)
  {
    if Moving(t, w) {
      var a, w' := OneStep(t, w);
      var ws', acts' := RestReachable(t, w');
      RunCons(t, w, a, ws', acts');
      ws, acts := [w] + ws', [a] + acts';
    } else {
      RestMeans(t, w);
      ws, acts := [w], [];
    }
  }

  lemma RunCons(t: Topology, w: World, a: Action, ws: seq<World>, acts: seq<Action>)
    requires Internal(a) && Enabled(t, w, a) && InternalRun(t, ws, acts) && ws[0] == Apply(t, w, a)
    ensures InternalRun(t, [w] + ws, [a] + acts)
  {
    var ws', acts' := [w] + ws, [a] + acts;
    forall i | 0 <= i < |acts'|
      ensures Internal(acts'[i]) && Enabled(t, ws'[i], acts'[i]) && ws'[i + 1] == Apply(t, ws'[i], acts'[i])
    {
      if i > 0 {
        assert ws'[i] == ws[i - 1] && acts'[i] == acts[i - 1];
      }
    }
  }
}
