/** What the invariant of the three-hop shuffler gives: acknowledgements are sound, no
    request is dropped, and flow control never closes a cycle of waits. */
module Progress {
  import opened Messages
  import opened Routing
  import opened Worlds
  import opened Acks
  import opened Places
  import opened Shufflers
  import OutQueues
  import Q = QueueLogs
  import O = OutSets
  import D = Deliveries

  // ----- acknowledgements -----

  /** Places where a request is parked on behalf of an RPC. */
  ghost predicate ParkedFor(w: World, id: RpcId, l: Loc) {
    Parked(w, l) && OwnerAt(w, l) == Inbound(id)
  }

  /** References whose request has left its wait queue, not yet dropped. */
  function Detached(w: World, id: RpcId): set<Loc>
    requires id in w.rpcs
  {
    set l | l in w.rpcs[id].refs && !Parked(w, l)
  }

  function StillParked(w: World, id: RpcId): set<Loc>
    requires id in w.rpcs
  {
    set l | l in w.rpcs[id].refs && Parked(w, l)
  }

  lemma ParkedAreCounted(w: World, id: RpcId, l: Loc)
    requires Counts(w) && id in w.rpcs
    ensures ParkedFor(w, id, l) <==> l in StillParked(w, id)
    ensures ParkedFor(w, id, l) ==> NextStop(id.set_.kind, l)
  {
    assert RpcOk(w, id);
    if l in w.rpcs[id].refs {
      assert RefOk(w, id, l);
    }
    if ParkedFor(w, id, l) {
      assert OwnerCounted(w, l);
    }
  }

  ghost predicate AckExact(w: World, id: RpcId)
    requires id in w.rpcs
  {
    var x := w.rpcs[id];
    && (x.nrefs.Some? ==> x.nrefs.value == |StillParked(w, id)| + |Detached(w, id)| + O.Bump(!x.ended))
    && x.replies <= 1
    && (x.replies == 1 <==> x.ended && StillParked(w, id) == {} && Detached(w, id) == {})
    && (x.replies == 1 ==> x.done == |x.batch|)
  }

  lemma AckCount(w: World, id: RpcId)
    requires id in w.rpcs && RpcOk(w, id)
    ensures AckExact(w, id)
  {
    assert w.rpcs[id].refs == StillParked(w, id) + Detached(w, id);
  }

  /** The counter is exactly the requests of the RPC on wait queues, anywhere, plus the
      references detached and not dropped, plus the handler's hold; the RPC is answered at
      most once, and if it was then every request of its batch was handed on and none of
      them is on a wait queue for it.  A delayed reply on an origin hop waits only for remote
      queues or delivery, on a remote hop only for relay queues or delivery, and on a relay
      hop only for delivery. */
  lemma AckSound(t: Topology, w: World, id: RpcId)
    requires Inv(t, w) && id in w.rpcs
    ensures AckExact(w, id)
    ensures forall l :: ParkedFor(w, id, l) <==> l in StillParked(w, id)
    ensures forall l :: ParkedFor(w, id, l) ==> NextStop(id.set_.kind, l)
    ensures w.rpcs[id].replies == 1 ==> forall l :: !ParkedFor(w, id, l)
  {
    AckCount(w, id);
    forall l ensures (ParkedFor(w, id, l) <==> l in StillParked(w, id))
        && (ParkedFor(w, id, l) ==> NextStop(id.set_.kind, l)) {
      ParkedAreCounted(w, id, l);
    }
  }

  // ----- no cycle of waits -----

  /** Steps the shuffler takes by itself: no new request, no new flush, no spurious wakeup. */
  predicate Internal(a: Action) {
    match a
    case SendReq(g) => false
    case Flush(s, b) => !b.Begin? && !b.Return?
    case Deliver(r, b) => b.Call? || b.Pop?
    case Forward(s, p, i) => true
    case Handle(id) => true
    case EndHandle(id) => true
    case DropRef(id, l) => true
    case FinishRpc(s, p, i) => true
  }

  ghost predicate Moving(t: Topology, w: World) {
    exists a :: Internal(a) && Enabled(t, w, a)
  }

  /** Some request is parked past that stage of the journey. */
  ghost predicate ParkedBeyond(w: World, stage: nat) {
    exists l :: Parked(w, l) && LocStage(l) > stage
  }

  lemma RefWaitsAhead(t: Topology, w: World, id: RpcId)
    requires id in w.rpcs && RpcOk(w, id) && w.rpcs[id].ended && w.rpcs[id].replies == 0
    ensures Moving(t, w) || ParkedBeyond(w, Stage(id.set_.kind))
  {
    var l :| l in w.rpcs[id].refs;
    assert RefOk(w, id, l);
    assert Parked(w, l) || (Internal(DropRef(id, l)) && Enabled(t, w, DropRef(id, l)));
  }

  lemma HandlerMoves(t: Topology, w: World, id: RpcId)
    requires Inv(t, w) && id in w.rpcs && w.rpcs[id].done < |w.rpcs[id].batch|
    ensures Moving(t, w)
  {
    HandleRoute(t, w, id);
    assert Internal(Handle(id)) && Enabled(t, w, Handle(id));
  }

  /** An unanswered RPC: its handler can go on, or a reference can be dropped, or one of its
      requests is parked at a strictly later stage. */
  lemma RpcWaitsAhead(t: Topology, w: World, id: RpcId)
    requires Inv(t, w) && id in w.rpcs && w.rpcs[id].replies == 0
    ensures Moving(t, w) || ParkedBeyond(w, Stage(id.set_.kind))
  {
    assert RpcOk(w, id);
    if w.rpcs[id].done < |w.rpcs[id].batch| {
      HandlerMoves(t, w, id);
    } else if w.rpcs[id].ended {
      RefWaitsAhead(t, w, id);
    } else {
      assert Internal(EndHandle(id)) && Enabled(t, w, EndHandle(id));
    }
  }

  lemma UnsentMoves(t: Topology, w: World, s: SetId, p: Rank)
    requires HasQ(w, s, p) && LQ(w, s, p).q.outs != [] && !LQ(w, s, p).q.outs[0].sent
    ensures Moving(t, w)
  {
    if LQ(w, s, p).q.tracking == Some(LQ(w, s, p).q.outs[0].first) {
      assert Internal(Flush(s, O.Track(p))) && Enabled(t, w, Flush(s, O.Track(p)));
    } else {
      assert Internal(Forward(s, p, 0)) && Enabled(t, w, Forward(s, p, 0));
    }
  }

  /** An outstanding RPC can always go on, or waits only for a request parked at a strictly
      later stage. */
  lemma OutputWaitsAhead(t: Topology, w: World, s: SetId, p: Rank)
    requires Inv(t, w) && HasQ(w, s, p) && LQ(w, s, p).q.outs != []
    ensures Moving(t, w) || ParkedBeyond(w, Stage(s.kind))
  {
    var o := LQ(w, s, p).q.outs[0];
    if !o.sent {
      UnsentMoves(t, w, s, p);
    } else {
      assert QueueLinked(w, s, p);
      assert OutLinked(w, s, p, o);
      if w.rpcs[RpcOf(s, p, o)].replies > 0 {
        assert Internal(FinishRpc(s, p, 0)) && Enabled(t, w, FinishRpc(s, p, 0));
      } else {
        RpcWaitsAhead(t, w, RpcOf(s, p, o));
      }
    }
  }

  lemma ParkedHasOutput(w: World, s: SetId, p: Rank, k: nat)
    requires Locals(w) && Parked(w, AtQueue(s, p, k))
    ensures LQ(w, s, p).q.outs != []
  {
    assert O.Inv(w.sets[s]);
    assert Q.LogInv(w.sets[s].cfg, w.sets[s].qs[p]);
  }

  lemma DeliveryMoves(t: Topology, w: World, r: Rank)
    requires Locals(w) && r in w.dels && (w.dels[r].dwaitq != [] || (w.dels[r].flushing && w.dels[r].dflush > 0))
    ensures Moving(t, w)
  {
    D.DeliveryRuns(w.dcfg, w.dels[r]);
    if D.Enabled(w.dels[r], D.Call) {
      assert Internal(Deliver(r, D.Call)) && Enabled(t, w, Deliver(r, D.Call));
    } else {
      assert Internal(Deliver(r, D.Pop)) && Enabled(t, w, Deliver(r, D.Pop));
    }
  }

  lemma DeliveryWaits(t: Topology, w: World, l: Loc)
    requires Inv(t, w) && Parked(w, l) && l.AtDelivery?
    ensures Moving(t, w)
  {
    DeliveryMoves(t, w, l.r);
  }

  lemma QueueWaitsAhead(t: Topology, w: World, l: Loc)
    requires Inv(t, w) && Parked(w, l) && l.AtQueue?
    ensures Moving(t, w) || ParkedBeyond(w, LocStage(l))
  {
    ParkedHasOutput(w, l.set_, l.peer, l.k);
    OutputWaitsAhead(t, w, l.set_, l.peer);
  }

  lemma ParkedWaitsAhead(t: Topology, w: World, l: Loc)
    requires Inv(t, w) && Parked(w, l)
    ensures Moving(t, w) || ParkedBeyond(w, LocStage(l))
  {
    if l.AtDelivery? {
      DeliveryWaits(t, w, l);
    }
    if l.AtQueue? {
      QueueWaitsAhead(t, w, l);
    }
  }

  /** No circular flow-control wait: whenever some request is on a wait queue, some step of
      the system is enabled. */
  lemma {:induction false} ParkedMoves(t: Topology, w: World, l: Loc)
    requires Inv(t, w) && Parked(w, l)
    ensures Moving(t, w)
    decreases 3 - LocStage(l)
  {
    ParkedWaitsAhead(t, w, l);
    if !Moving(t, w) {
      var l2 :| Parked(w, l2) && LocStage(l2) > LocStage(l);
      ParkedMoves(t, w, l2);
    }
  }

  lemma OutputMoves(t: Topology, w: World, s: SetId, p: Rank)
    requires Inv(t, w) && HasQ(w, s, p) && LQ(w, s, p).q.outs != []
    ensures Moving(t, w)
  {
    OutputWaitsAhead(t, w, s, p);
    if !Moving(t, w) {
      var l :| Parked(w, l) && LocStage(l) > Stage(s.kind);
      ParkedMoves(t, w, l);
    }
  }

  /** When the shuffler comes to rest, everything it accepted is in a loading list, or was
      answered, or sits in a delivery queue whose thread nobody waits for. */
  lemma RestIsQuiet(t: Topology, w: World)
    requires Inv(t, w) && !Moving(t, w)
    ensures forall s, p :: HasQ(w, s, p) ==> LQ(w, s, p).q.outs == [] && LQ(w, s, p).q.waitq == []
    ensures forall r :: r in w.dels ==> w.dels[r].dwaitq == []
  {
    forall s, p | HasQ(w, s, p) ensures LQ(w, s, p).q.outs == [] && LQ(w, s, p).q.waitq == [] {
      assert O.Inv(w.sets[s]);
      assert Q.LogInv(w.sets[s].cfg, w.sets[s].qs[p]);
      if LQ(w, s, p).q.outs != [] {
        OutputMoves(t, w, s, p);
      }
    }
    forall r | r in w.dels ensures w.dels[r].dwaitq == [] {
      if w.dels[r].dwaitq != [] {
        DeliveryMoves(t, w, r);
      }
    }
  }

  /** A flush that has begun and may not return yet always leaves some step to take. */
  lemma FlushMoves(t: Topology, w: World, s: SetId)
    requires Inv(t, w) && s in w.sets && !w.sets[s].flusher.Idle? && !O.Enabled(w.sets[s], O.Return)
    ensures Moving(t, w)
  {
    var o := w.sets[s];
    if !o.flusher.Waiting? {
      FlusherGoesOn(t, w, s);
    } else if O.Enabled(o, O.Signal) {
      assert Internal(Flush(s, O.Signal)) && Enabled(t, w, Flush(s, O.Signal));
    } else if O.Enabled(o, O.CountDone) {
      assert Internal(Flush(s, O.CountDone)) && Enabled(t, w, Flush(s, O.CountDone));
    } else {
      var p := FlushingOutput(o);
      OutputMoves(t, w, s, p);
    }
  }

  lemma FlushingOutput(o: O.OutSet) returns (p: Rank)
    requires O.Inv(o) && o.flusher.Waiting? && o.osetflushing && !O.Enabled(o, O.Signal) && !O.Enabled(o, O.CountDone)
    ensures p in o.qs && o.qs[p].q.outs != []
  {
    O.FlusherNotStranded(o);
    p :| p in o.qs && o.qs[p].q.flushing;
    O.FlushingHasOutput(o.cfg, o.qs[p]);
  }

  lemma FlusherGoesOn(t: Topology, w: World, s: SetId)
    requires s in w.sets && O.Inv(w.sets[s]) && (w.sets[s].flusher.Starting? || w.sets[s].flusher.Resuming?)
    ensures Moving(t, w)
  {
    var o := w.sets[s];
    if o.flusher.Resuming? {
      assert Internal(Flush(s, O.ResumeQ)) && Enabled(t, w, Flush(s, O.ResumeQ));
    } else if o.flusher.todo == {} {
      assert Internal(Flush(s, O.DropHold)) && Enabled(t, w, Flush(s, O.DropHold));
    } else {
      var p :| p in o.flusher.todo;
      assert O.ToDo(o.flusher, p);
      assert Internal(Flush(s, O.StartQ(p))) && Enabled(t, w, Flush(s, O.StartQ(p)));
    }
  }
}
