/** The invariant of the three-hop shuffler and the proof that every action of every
    thread on every rank keeps it. */
module Shufflers {
  import opened Messages
  import opened Routing
  import opened Worlds
  import opened Acks
  import opened Places
  import OutQueues
  import Q = QueueLogs
  import O = OutSets
  import D = Deliveries

  ghost predicate Inv(t: Topology, w: World) {
    Contract(t) && Shape(t, w) && Locals(w) && Links(w) && Counts(w) && Paths(t, w) && Placed(w)
  }

  // ----- frames -----

  lemma ExtendsLoc(w: World, w1: World, w2: World, f: Option<Loc>)
    requires Extends(w, w1, f) && w2.sets == w1.sets && w2.dels == w1.dels
    ensures Extends(w, w2, f)
  {
    forall l ensures LocValid(w2, l) <==> LocValid(w1, l) {}
    forall l ensures Parked(w2, l) <==> Parked(w1, l) {}
  }

  lemma LocalsLoc(w: World, w': World)
    requires Locals(w) && w'.sets == w.sets && w'.dels == w.dels && w'.dcfg == w.dcfg
    ensures Locals(w')
  {
  }

  lemma ExtendsSelf(w: World, w': World)
    requires w'.sets == w.sets && w'.dels == w.dels
    ensures Extends(w, w', None)
  {
    forall l ensures LocValid(w', l) <==> LocValid(w, l) {}
    forall l ensures Parked(w', l) <==> Parked(w, l) {}
  }

  lemma ShapeKept(t: Topology, w: World, w': World)
    requires Shape(t, w) && w'.sets.Keys == w.sets.Keys && w'.dels.Keys == w.dels.Keys
    requires forall s :: s in w.sets ==> w'.sets[s].qs.Keys == w.sets[s].qs.Keys
    ensures Shape(t, w')
  {
    forall s: SetId, p: Rank ensures HasQ(w', s, p) <==> HasQ(w, s, p) {
      if s in w.sets {
        assert p in w'.sets[s].qs.Keys <==> p in w.sets[s].qs.Keys;
      } else {
        assert s !in w'.sets.Keys;
      }
    }
    forall s: SetId ensures s in w'.sets <==> s in w.sets {
      assert s in w'.sets.Keys <==> s in w.sets.Keys;
    }
    forall r: Rank ensures r in w'.dels <==> r in w.dels {
      assert r in w'.dels.Keys <==> r in w.dels.Keys;
    }
  }

  lemma ShapeSet(t: Topology, w: World, s: SetId, a: O.Action)
    requires Shape(t, w) && s in w.sets && O.Enabled(w.sets[s], a)
    ensures Shape(t, SetStep(w, s, a))
  {
    O.KeysKept(w.sets[s], a);
    ShapeKept(t, w, SetStep(w, s, a));
  }

  // ----- actions that move no request -----

  /** A step of one set that neither accepts nor sends. */
  lemma SetKeeps(t: Topology, w: World, s: SetId, a: O.Action)
    requires Inv(t, w) && s in w.sets && O.Enabled(w.sets[s], a) && !a.Accept? && !a.Send?
    requires FinAnswered(w, s, O.FinOf(a)) && FinHanded(w, s, O.FinOf(a))
    ensures Inv(t, SetStep(w, s, a))
  {
    var w' := SetStep(w, s, a);
    SetStepLocal(w, s, a);
    SetStepExtends(w, s, a);
    O.SetStepEvolves(w.sets[s], a);
    LinksSet(w, s, O.Apply(w.sets[s], a), O.FinOf(a));
    CountsExtend(w, w');
    PathsExtend(t, w, w', None);
    LocalsFacts(w);
    LocalsFacts(w');
    PlacedSet(w, w', s, O.FinOf(a));
    ShapeSet(t, w, s, a);
  }

  lemma FinishHanded(w: World, s: SetId, p: Rank, i: nat)
    requires Links(w) && Counts(w) && HasQ(w, s, p) && i < |LQ(w, s, p).q.outs| && LQ(w, s, p).q.outs[i].sent
    requires RpcOf(s, p, LQ(w, s, p).q.outs[i]) in w.rpcs && w.rpcs[RpcOf(s, p, LQ(w, s, p).q.outs[i])].replies > 0
    ensures FinHanded(w, s, Some((p, i)))
  {
    var o := LQ(w, s, p).q.outs[i];
    assert QueueLinked(w, s, p);
    assert OutLinked(w, s, p, o);
    assert RpcOk(w, RpcOf(s, p, o));
  }

  lemma FinishKeeps(t: Topology, w: World, s: SetId, p: Rank, i: nat)
    requires Inv(t, w) && Enabled(t, w, FinishRpc(s, p, i))
    ensures Inv(t, Apply(t, w, FinishRpc(s, p, i)))
  {
    FinishHanded(w, s, p, i);
    SetKeeps(t, w, s, O.Finish(p, i));
  }

  /** A step that touches neither output queues, nor RPCs, nor locations. */
  lemma QuietRest(t: Topology, w: World, w': World)
    requires Links(w) && Counts(w) && Paths(t, w) && Placed(w) && AllFacts(w) && Extends(w, w', None)
    requires w'.sets == w.sets && w'.rpcs == w.rpcs && w'.loc == w.loc
    ensures Links(w') && Counts(w') && Paths(t, w') && Placed(w')
  {
    LinksSame(w, w');
    CountsExtend(w, w');
    PathsExtend(t, w, w', None);
    PlacedElsewhere(w, w');
  }

  lemma DeliverFrame(t: Topology, w: World, r: Rank, b: D.Action)
    requires Locals(w) && Shape(t, w) && r in w.dels && D.Enabled(w.dels[r], b) && !b.Push?
    ensures var w' := DelStep(w, r, b); Locals(w') && Shape(t, w') && Extends(w, w', None) && AllFacts(w)
  {
    DelStepLocal(w, r, b);
    DelStepExtends(w, r, b);
    LocalsFacts(w);
    ShapeKept(t, w, DelStep(w, r, b));
  }

  lemma DeliverKeeps(t: Topology, w: World, r: Rank, b: D.Action)
    requires Inv(t, w) && Enabled(t, w, Deliver(r, b))
    ensures Inv(t, Apply(t, w, Deliver(r, b)))
  {
    DeliverFrame(t, w, r, b);
    QuietRest(t, w, DelStep(w, r, b));
  }

  lemma RpcPlaced(t: Topology, w: World, w': World, id: RpcId)
    requires Locals(w) && Paths(t, w) && Placed(w) && id in w.rpcs && id in w'.rpcs
    requires w' == w.(rpcs := w.rpcs[id := w'.rpcs[id]]) && w'.rpcs[id].done == w.rpcs[id].done
    ensures Paths(t, w') && Placed(w')
  {
    ExtendsSelf(w, w');
    PathsExtend(t, w, w', None);
    LocalsFacts(w);
    PlacedElsewhere(w, w');
  }

  lemma RpcFrame(t: Topology, w: World, w': World)
    requires Locals(w) && Shape(t, w) && w'.sets == w.sets && w'.dels == w.dels && w'.dcfg == w.dcfg
    ensures Locals(w') && Shape(t, w')
  {
    LocalsLoc(w, w');
    ShapeKept(t, w, w');
  }

  /** Bookkeeping of one RPC: the handler's progress is not touched. */
  lemma RpcKeeps(t: Topology, w: World, w': World, id: RpcId)
    requires Inv(t, w) && id in w.rpcs && id in w'.rpcs && w' == w.(rpcs := w.rpcs[id := w'.rpcs[id]]) && Counts(w')
    requires w'.rpcs[id].batch == w.rpcs[id].batch && w'.rpcs[id].done == w.rpcs[id].done
    requires w'.rpcs[id].replies >= w.rpcs[id].replies
    ensures Inv(t, w')
  {
    RpcPlaced(t, w, w', id);
    LinksRpc(w, w', id, w'.rpcs[id]);
    RpcFrame(t, w, w');
  }

  // ----- sending a batch -----

  lemma ForwardHanded(w: World, w': World, s: SetId, p: Rank, i: nat, s2: SetId, p2: Rank, o: OutQueues.Output)
    requires HasQ(w, s, p) && i < |LQ(w, s, p).q.outs|
    requires w'.rpcs == w.rpcs[RpcOf(s, p, LQ(w, s, p).q.outs[i]) := Rpc(LQ(w, s, p).q.outs[i].batch, 0, None, {},
             false, 0)]
    requires RpcOf(s, p, LQ(w, s, p).q.outs[i]) !in w.rpcs
    ensures HandedOn(w', s2, p2, o) == HandedOn(w, s2, p2, o)
  {
  }

  /** Marking an output as sent moves nothing. */
  lemma QueueSentPlaced(w: World, w': World, s: SetId, p: Rank, i: nat)
    requires HasQ(w, s, p) && HasQ(w', s, p) && QueuePlaced(w, s, p) && SameHere(w, w', s, p) && SameHanded(w, w', s, p)
    requires i < |LQ(w, s, p).q.outs| && LQ(w', s, p) == Q.LSent(LQ(w, s, p), i) && QueueFacts(LQ(w, s, p))
    requires RpcOf(s, p, LQ(w, s, p).q.outs[i]) !in w.rpcs
    ensures QueuePlaced(w', s, p)
  {
    var l, l' := LQ(w, s, p), LQ(w', s, p);
    forall j | 0 <= j < |l'.q.outs| ensures OutPlaced(w', s, p, l'.q.outs[j]) {
      OutKept(w, w', s, p, l.q.outs[j]);
      if j == i {
        assert HandedOn(w, s, p, l'.q.outs[i]) == 0 == HandedOn(w, s, p, l.q.outs[i]);
        assert forall k: nat :: Q.Covers(l'.q.outs[i], k) <==> Q.Covers(l.q.outs[i], k);
      }
    }
    forall k | k in l'.replied ensures !Here(w', AtQueue(s, p, k)) {
      assert k < |l.accepted|;
    }
  }

  lemma PlacedForward(w: World, w': World, s: SetId, p: Rank, i: nat)
    requires Placed(w) && AllFacts(w) && HasQ(w, s, p) && i < |LQ(w, s, p).q.outs| && Extends(w, w', None)
    requires w'.loc == w.loc && w'.sets == w.sets[s := w.sets[s].(qs := w.sets[s].qs[p := Q.LSent(LQ(w, s, p), i)])]
    requires w'.rpcs == w.rpcs[RpcOf(s, p, LQ(w, s, p).q.outs[i]) := Rpc(LQ(w, s, p).q.outs[i].batch, 0, None, {},
             false, 0)]
    requires RpcOf(s, p, LQ(w, s, p).q.outs[i]) !in w.rpcs
    ensures Placed(w')
  {
    Places.StillHere(w, w');
    forall s2, p2 | HasQ(w', s2, p2) ensures QueuePlaced(w', s2, p2) {
      assert HasQ(w, s2, p2);
      SameHereStill(w, w', s2, p2);
      forall o: OutQueues.Output ensures HandedOn(w', s2, p2, o) == HandedOn(w, s2, p2, o) {
        ForwardHanded(w, w', s, p, i, s2, p2, o);
      }
      if s2 == s && p2 == p {
        QueueSentPlaced(w, w', s, p, i);
      } else {
        QueueKept(w, w', s2, p2);
      }
    }
  }

  lemma ForwardKeeps(t: Topology, w: World, s: SetId, p: Rank, i: nat)
    requires Inv(t, w) && Enabled(t, w, Forward(s, p, i))
    ensures Inv(t, Apply(t, w, Forward(s, p, i)))
  {
    var w' := Apply(t, w, Forward(s, p, i));
    var w1 := SetStep(w, s, O.Send(p, i));
    var o := LQ(w, s, p).q.outs[i];
    assert RpcOf(s, p, o) !in w.rpcs by {
      assert QueueLinked(w, s, p);
      assert OutLinked(w, s, p, o);
    }
    SetStepLocal(w, s, O.Send(p, i));
    LocalsLoc(w1, w');
    SetStepExtends(w, s, O.Send(p, i));
    ExtendsLoc(w, w1, w', None);
    LocalsFacts(w);
    LinksForward(w, w', s, p, i);
    CountsForward(w, w', RpcOf(s, p, o), o.batch);
    PathsExtend(t, w, w', None);
    PlacedForward(w, w', s, p, i);
    ShapeSet(t, w, s, O.Send(p, i));
    ShapeKept(t, w1, w');
  }

  // ----- placing a request -----

  /** Queues only grow by what `Evolves` allows, and only on the target set. */
  ghost predicate QueuesEvolve(w: World, w': World, tgt: Target) {
    && (forall s, p :: HasQ(w', s, p) ==> HasQ(w, s, p) && Q.Evolves(LQ(w, s, p), LQ(w', s, p), None))
    && (forall s, p :: HasQ(w', s, p) && HasQ(w, s, p) && !(tgt.Via? && tgt.set_ == s) ==> LQ(w', s, p) == LQ(w, s, p))
  }

  /** The new place and its owner. */
  ghost predicate PutAs(w: World, w': World, g: Request, o: Owner, tgt: Target)
    requires TargetExists(w, tgt)
  {
    var l0 := NextLoc(w, tgt);
    Puts(w, w', g, l0) && (Parked(w', l0) <==> Parks(w, tgt)) && (Parked(w', l0) ==> OwnerAt(w', l0) == o)
  }

  /** What `req_to_self` and `req_via_mercury` do to the rest of the world. */
  ghost predicate PlaceEffect(t: Topology, w: World, w': World, g: Request, o: Owner, tgt: Target)
    requires TargetExists(w, tgt)
  {
    Locals(w') && Shape(t, w') && Links(w') && w'.rpcs == w.rpcs && PutAs(w, w', g, o, tgt) && QueuesEvolve(w, w', tgt)
  }

  lemma SameEvolves(w: World, s: SetId, p: Rank)
    requires Locals(w) && HasQ(w, s, p)
    ensures Q.Evolves(LQ(w, s, p), LQ(w, s, p), None)
  {
    assert O.Inv(w.sets[s]);
    Q.SameEvolves(w.sets[s].cfg, LQ(w, s, p), LQ(w, s, p), LQ(w, s, p));
  }

  lemma ViaEvolves(w: World, w': World, s: SetId, p: Rank, o: O.OutSet)
    requires Locals(w) && s in w.sets && O.SetEvolves(w.sets[s], o, None) && w'.sets == w.sets[s := o]
    ensures QueuesEvolve(w, w', Via(s, p))
  {
    forall s2, p2 | HasQ(w', s2, p2) ensures HasQ(w, s2, p2) && Q.Evolves(LQ(w, s2, p2), LQ(w', s2, p2), None) {
      if s2 == s {
        assert p2 in o.qs.Keys;
        assert O.FinAt(None, p2) == None;
      } else {
        SameEvolves(w, s2, p2);
      }
    }
  }

  lemma PlaceViaEvolves(w: World, w': World, s: SetId, a: O.Action)
    requires Locals(w) && s in w.sets && O.Enabled(w.sets[s], a) && a.Accept?
    requires w'.sets == w.sets[s := O.Apply(w.sets[s], a)]
    ensures QueuesEvolve(w, w', Via(s, a.p))
  {
    O.SetStepEvolves(w.sets[s], a);
    ViaEvolves(w, w', s, a.p, O.Apply(w.sets[s], a));
  }

  lemma PlaceViaFrame(t: Topology, w: World, w': World, s: SetId, a: O.Action)
    requires Locals(w) && Shape(t, w) && Links(w) && s in w.sets && O.Enabled(w.sets[s], a) && a.Accept? && O.Proper(a)
    requires w' == SetStep(w, s, a).(loc := w'.loc)
    ensures Locals(w') && Shape(t, w') && Links(w')
  {
    var w1 := SetStep(w, s, a);
    SetStepLocal(w, s, a);
    ShapeSet(t, w, s, a);
    RpcFrame(t, w1, w');
    O.SetStepEvolves(w.sets[s], a);
    LinksSet(w, s, O.Apply(w.sets[s], a), None);
    LinksSame(w1, w');
  }

  lemma PlaceViaNew(w: World, w': World, g: Request, o: Owner, s: SetId, p: Rank)
    requires HasQ(w, s, p) && g.data != [] && w' == Place(w, g, o, Via(s, p))
    ensures var l0 := NextLoc(w, Via(s, p)); LocValid(w', l0) && !LocValid(w, l0) && ReqAt(w', l0) == g
  {
    O.AcceptedAfter(w.sets[s], O.Accept(p, Waiter(g, o)), p);
  }

  lemma PlaceViaParks(w: World, w': World, g: Request, o: Owner, s: SetId, p: Rank)
    requires HasQ(w, s, p) && O.Inv(w.sets[s]) && g.data != [] && w' == Place(w, g, o, Via(s, p))
    ensures var l0 := NextLoc(w, Via(s, p));
            && LocValid(w', l0) && !LocValid(w, l0) && ReqAt(w', l0) == g
            && (Parked(w', l0) <==> Parks(w, Via(s, p))) && (Parked(w', l0) ==> OwnerAt(w', l0) == o)
  {
    PlaceViaNew(w, w', g, o, s, p);
    O.AcceptedParks(w.sets[s], p, Waiter(g, o));
  }

  lemma PlaceViaPuts(w: World, w': World, g: Request, o: Owner, s: SetId, p: Rank)
    requires Locals(w) && HasQ(w, s, p) && g.data != [] && w' == Place(w, g, o, Via(s, p))
    ensures PutAs(w, w', g, o, Via(s, p))
  {
    var a := O.Accept(p, Waiter(g, o));
    SetStepExtends(w, s, a);
    ExtendsLoc(w, SetStep(w, s, a), w', Some(NextLoc(w, Via(s, p))));
    PlaceViaParks(w, w', g, o, s, p);
  }

  lemma PlaceVia(t: Topology, w: World, w': World, g: Request, o: Owner, s: SetId, p: Rank)
    requires Locals(w) && Shape(t, w) && Links(w) && HasQ(w, s, p) && g.data != [] && w' == Place(w, g, o, Via(s, p))
    ensures PlaceEffect(t, w, w', g, o, Via(s, p))
  {
    PlaceViaFrame(t, w, w', s, O.Accept(p, Waiter(g, o)));
    PlaceViaPuts(w, w', g, o, s, p);
    PlaceViaEvolves(w, w', s, O.Accept(p, Waiter(g, o)));
  }

  lemma PlaceSelfPuts(w: World, w': World, g: Request, o: Owner, r: Rank)
    requires Locals(w) && r in w.dels && g.data != [] && w' == Place(w, g, o, ToSelf(r))
    ensures PutAs(w, w', g, o, ToSelf(r))
  {
    var b := D.Push(Waiter(g, o));
    DelStepExtends(w, r, b);
    ExtendsLoc(w, DelStep(w, r, b), w', Some(NextLoc(w, ToSelf(r))));
    D.AcceptedAfter(w.dcfg, w.dels[r], b);
    D.AcceptedParks(w.dcfg, w.dels[r], Waiter(g, o));
  }

  lemma PlaceSelf(t: Topology, w: World, w': World, g: Request, o: Owner, r: Rank)
    requires Locals(w) && Shape(t, w) && Links(w) && r in w.dels && g.data != [] && w' == Place(w, g, o, ToSelf(r))
    ensures PlaceEffect(t, w, w', g, o, ToSelf(r))
  {
    PlaceSelfPuts(w, w', g, o, r);
    DelStepLocal(w, r, D.Push(Waiter(g, o)));
    LocalsLoc(DelStep(w, r, D.Push(Waiter(g, o))), w');
    ShapeKept(t, w, w');
    LinksSame(w, w');
    forall s, p | HasQ(w', s, p) ensures HasQ(w, s, p) && Q.Evolves(LQ(w, s, p), LQ(w', s, p), None) {
      assert HasQ(w, s, p);
      SameEvolves(w, s, p);
    }
  }

  lemma PlaceDoes(t: Topology, w: World, w': World, g: Request, o: Owner, tgt: Target)
    requires Inv(t, w) && TargetExists(w, tgt) && g.data != [] && w' == Place(w, g, o, tgt)
    ensures PlaceEffect(t, w, w', g, o, tgt)
  {
    if tgt.Via? {
      PlaceVia(t, w, w', g, o, tgt.set_, tgt.peer);
    } else {
      PlaceSelf(t, w, w', g, o, tgt.r);
    }
  }

  lemma PutPaths(t: Topology, w: World, w': World, g: Request, o: Owner, tgt: Target)
    requires Paths(t, w) && TargetExists(w, tgt) && PutAs(w, w', g, o, tgt) && TargetOk(t, g, tgt) && g.data != []
    ensures Paths(t, w')
  {
    PathsExtend(t, w, w', Some(NextLoc(w, tgt)));
  }

  lemma TargetsExist(t: Topology, w: World, g: Request, tgt: Target)
    requires Shape(t, w) && TargetOk(t, g, tgt) && g.dst < t.n
    ensures TargetExists(w, tgt)
  {
  }

  // ----- shuffler_send -----

  lemma SendPlaced(w: World, w': World, g: Request, l0: Loc, tgt: Target)
    requires Placed(w) && AllFacts(w) && AllFacts(w') && Puts(w, w', g, l0) && g.id !in w.loc
    requires QueuesEvolve(w, w', tgt) && w'.rpcs == w.rpcs
    ensures Placed(w')
  {
    PlacedPuts(w, w', g, l0);
  }

  lemma SendKeeps(t: Topology, w: World, w': World, g: Request)
    requires Inv(t, w) && Enabled(t, w, SendReq(g)) && w' == Apply(t, w, SendReq(g))
    ensures Inv(t, w')
  {
    var tgt := RouteSend(t, g.src, g.dst);
    SendTarget(t, g);
    PlaceDoes(t, w, w', g, Sender, tgt);
    CountsSend(w, w', NextLoc(w, tgt));
    PutPaths(t, w, w', g, Sender, tgt);
    LocalsFacts(w);
    LocalsFacts(w');
    SendPlaced(w, w', g, NextLoc(w, tgt), tgt);
  }

  // ----- shuffler_rpchand -----

  /** Output `i` of the sender's queue is the one RPC `id` answers to. */
  predicate SourceOut(w: World, id: RpcId, i: nat)
    requires id in w.rpcs
  {
    && HasQ(w, id.set_, id.peer) && i < |LQ(w, id.set_, id.peer).q.outs|
    && var x, o := w.rpcs[id], LQ(w, id.set_, id.peer).q.outs[i];
       o.sent && o.first == id.first && o.batch == x.batch
  }

  lemma FindSource(w: World, id: RpcId) returns (i: nat)
    requires Links(w) && Counts(w) && id in w.rpcs && w.rpcs[id].done < |w.rpcs[id].batch|
    ensures SourceOut(w, id, i)
  {
    assert RpcOk(w, id) && RpcLinked(w, id);
    var l := LQ(w, id.set_, id.peer);
    i :| 0 <= i < |l.q.outs| && l.q.outs[i].first == id.first && l.q.outs[i].sent;
    assert QueueLinked(w, id.set_, id.peer);
    assert OutLinked(w, id.set_, id.peer, l.q.outs[i]);
  }

  function SourceLoc(w: World, id: RpcId): Loc
    requires id in w.rpcs
  {
    AtQueue(id.set_, id.peer, id.first + w.rpcs[id].done)
  }

  /** The request a handler is about to place is still at the sender's queue. */
  lemma SourceHere(w: World, id: RpcId, i: nat)
    requires id in w.rpcs && w.rpcs[id].done < |w.rpcs[id].batch| && SourceOut(w, id, i)
    requires QueuePlaced(w, id.set_, id.peer) && QueueFacts(LQ(w, id.set_, id.peer))
    ensures Here(w, SourceLoc(w, id)) && ReqAt(w, SourceLoc(w, id)) == w.rpcs[id].batch[w.rpcs[id].done]
  {
    var o := LQ(w, id.set_, id.peer).q.outs[i];
    assert Q.Carries(LQ(w, id.set_, id.peer).accepted, o);
    assert OutPlaced(w, id.set_, id.peer, o) && Q.Covers(o, id.first + w.rpcs[id].done);
  }

  /** Only RPC `id` changed, by one more request handed on. */
  predicate OneHanded(w: World, w': World, id: RpcId)
    requires id in w.rpcs
  {
    && w'.rpcs.Keys == w.rpcs.Keys && (forall j :: j in w.rpcs && j != id ==> w'.rpcs[j] == w.rpcs[j])
    && id in w'.rpcs.Keys && w'.rpcs[id].done == w.rpcs[id].done + 1
  }

  lemma OthersHanded(w: World, w': World, id: RpcId, s: SetId, p: Rank, o: OutQueues.Output)
    requires id in w.rpcs && OneHanded(w, w', id) && RpcOf(s, p, o) != id
    ensures HandedOn(w', s, p, o) == HandedOn(w, s, p, o)
  {
    assert RpcOf(s, p, o) in w'.rpcs.Keys <==> RpcOf(s, p, o) in w.rpcs.Keys;
  }

  lemma HandledHere(w: World, w': World, id: RpcId, g: Request, l0: Loc)
    requires id in w.rpcs && Located(w) && Puts(w, w', g, l0) && LeftPlace(w, g) == Some(SourceLoc(w, id))
    requires HasQ(w, id.set_, id.peer) && HasQ(w', id.set_, id.peer)
             && LQ(w', id.set_, id.peer) == LQ(w, id.set_, id.peer)
    ensures forall k: nat :: k < |LQ(w, id.set_, id.peer).accepted| ==>
              (Here(w', AtQueue(id.set_, id.peer, k)) <==>
               Here(w, AtQueue(id.set_, id.peer, k)) && k != id.first + w.rpcs[id].done)
  {
    PutsHere(w, w', g, l0);
    var s, p := id.set_, id.peer;
    forall k: nat | k < |LQ(w, s, p).accepted|
      ensures Here(w', AtQueue(s, p, k)) <==> Here(w, AtQueue(s, p, k)) && k != id.first + w.rpcs[id].done
    {
      assert LocValid(w', AtQueue(s, p, k)) && LocValid(w, AtQueue(s, p, k));
    }
  }

  lemma HandledOthers(w: World, w': World, id: RpcId, o: OutQueues.Output)
    requires id in w.rpcs && OneHanded(w, w', id) && RpcOf(id.set_, id.peer, o) == id && o.sent
    ensures HandedOn(w, id.set_, id.peer, o) == w.rpcs[id].done
    ensures HandedOn(w', id.set_, id.peer, o) == w.rpcs[id].done + 1
    ensures forall o2: OutQueues.Output :: o2.first != o.first ==>
              HandedOn(w', id.set_, id.peer, o2) == HandedOn(w, id.set_, id.peer, o2)
  {
    forall o2: OutQueues.Output | o2.first != o.first
      ensures HandedOn(w', id.set_, id.peer, o2) == HandedOn(w, id.set_, id.peer, o2)
    {
      OthersHanded(w, w', id, id.set_, id.peer, o2);
    }
  }

  lemma HandledQueue(w: World, w': World, id: RpcId, i: nat, g: Request, l0: Loc)
    requires id in w.rpcs && w.rpcs[id].done < |w.rpcs[id].batch| && SourceOut(w, id, i) && Located(w)
    requires QueuePlaced(w, id.set_, id.peer) && QueueFacts(LQ(w, id.set_, id.peer))
    requires Puts(w, w', g, l0) && LeftPlace(w, g) == Some(SourceLoc(w, id))
    requires HasQ(w', id.set_, id.peer) && LQ(w', id.set_, id.peer) == LQ(w, id.set_, id.peer) && OneHanded(w, w', id)
    ensures QueuePlaced(w', id.set_, id.peer)
  {
    HandledHere(w, w', id, g, l0);
    HandledOthers(w, w', id, LQ(w, id.set_, id.peer).q.outs[i]);
    QueueHandledPlaced(w, w', id.set_, id.peer, i);
  }

  lemma HandlePlaced(w: World, w': World, id: RpcId, g: Request, l0: Loc, tgt: Target)
    requires Placed(w) && AllFacts(w) && AllFacts(w') && Puts(w, w', g, l0) && id in w.rpcs
    requires QueuesEvolve(w, w', tgt) && OneHanded(w, w', id) && LeftPlace(w, g) == Some(SourceLoc(w, id))
    requires HasQ(w', id.set_, id.peer) && QueuePlaced(w', id.set_, id.peer)
    ensures Placed(w')
  {
    forall s, p | HasQ(w', s, p) && !(id.set_ == s && id.peer == p) ensures SameHanded(w, w', s, p) {
      forall o: OutQueues.Output ensures HandedOn(w', s, p, o) == HandedOn(w, s, p, o) {
        OthersHanded(w, w', id, s, p, o);
      }
    }
    PlacedPuts(w, w', g, l0);
  }

  /** Changing only the RPC table keeps what placing did. */
  lemma PutAsRpc(w: World, w1: World, w': World, g: Request, o: Owner, tgt: Target)
    requires TargetExists(w, tgt) && PutAs(w, w1, g, o, tgt) && QueuesEvolve(w, w1, tgt)
    requires w'.sets == w1.sets && w'.dels == w1.dels && w'.loc == w1.loc
    ensures PutAs(w, w', g, o, tgt) && QueuesEvolve(w, w', tgt)
  {
    ExtendsLoc(w, w1, w', Some(NextLoc(w, tgt)));
    forall s, p ensures HasQ(w', s, p) <==> HasQ(w1, s, p) {}
  }

  lemma HandleRoute(t: Topology, w: World, id: RpcId)
    requires Inv(t, w) && id in w.rpcs && w.rpcs[id].done < |w.rpcs[id].batch|
    ensures var g := w.rpcs[id].batch[w.rpcs[id].done];
            var tgt := RouteRpc(t, id.peer, g.dst, id.set_.kind);
            && Here(w, SourceLoc(w, id)) && ReqAt(w, SourceLoc(w, id)) == g
            && g.data != [] && TargetOk(t, g, tgt) && TargetExists(w, tgt)
            && (tgt.Via? ==> Stage(tgt.set_.kind) == Stage(id.set_.kind) + 1)
  {
    var i := FindSource(w, id);
    LocalsFacts(w);
    SourceHere(w, id, i);
    assert PathOk(t, w, SourceLoc(w, id));
    var g := w.rpcs[id].batch[w.rpcs[id].done];
    RpcTarget(t, id.set_, id.peer, g);
    TargetsExist(t, w, g, RouteRpc(t, id.peer, g.dst, id.set_.kind));
  }

  lemma HandleKeepsPlaced(t: Topology, w: World, w': World, id: RpcId, g: Request, tgt: Target)
    requires Inv(t, w) && id in w.rpcs && w.rpcs[id].done < |w.rpcs[id].batch| && g == w.rpcs[id].batch[w.rpcs[id].done]
    requires TargetExists(w, tgt) && PutAs(w, w', g, Inbound(id), tgt) && QueuesEvolve(w, w', tgt)
             && OneHanded(w, w', id)
    requires Locals(w') && (tgt.Via? ==> tgt.set_ != id.set_) && Shape(t, w')
    ensures Placed(w')
  {
    var i := FindSource(w, id);
    LocalsFacts(w);
    LocalsFacts(w');
    SourceHere(w, id, i);
    assert HasQ(w', id.set_, id.peer);
    HandledQueue(w, w', id, i, g, NextLoc(w, tgt));
    HandlePlaced(w, w', id, g, NextLoc(w, tgt), tgt);
  }

  /** The handler's step split into placing the request and counting it. */
  lemma HandleFrame(t: Topology, w: World, w1: World, w': World, id: RpcId, g: Request, tgt: Target)
    requires Inv(t, w) && id in w.rpcs && TargetExists(w, tgt) && g.data != [] && w1 == Place(w, g, Inbound(id), tgt)
    requires id in w'.rpcs && w' == w1.(rpcs := w.rpcs[id := w'.rpcs[id]])
    requires w'.rpcs[id].batch == w.rpcs[id].batch && w'.rpcs[id].replies >= w.rpcs[id].replies
    ensures Locals(w') && Shape(t, w') && Links(w') && PutAs(w, w', g, Inbound(id), tgt) && QueuesEvolve(w, w', tgt)
  {
    PlaceDoes(t, w, w1, g, Inbound(id), tgt);
    PutAsRpc(w, w1, w', g, Inbound(id), tgt);
    RpcFrame(t, w1, w');
    LinksRpc(w1, w', id, w'.rpcs[id]);
  }

  lemma HandleKeeps(t: Topology, w: World, w': World, id: RpcId)
    requires Inv(t, w) && Enabled(t, w, Handle(id)) && w' == Apply(t, w, Handle(id))
    ensures Inv(t, w')
  {
    var x := w.rpcs[id];
    var g := x.batch[x.done];
    var tgt := RouteRpc(t, id.peer, g.dst, id.set_.kind);
    HandleRoute(t, w, id);
    HandleFrame(t, w, Place(w, g, Inbound(id), tgt), w', id, g, tgt);
    HandleRest(t, w, w', id, g, tgt);
  }

  lemma HandledOne(w: World, w': World, id: RpcId, parks: bool, l0: Loc)
    requires id in w.rpcs && w'.rpcs == w.rpcs[id := Handled(w.rpcs[id], parks, l0)]
    ensures OneHanded(w, w', id)
  {
  }

  lemma HandleCounts(w: World, w': World, id: RpcId, g: Request, tgt: Target)
    requires Counts(w) && id in w.rpcs && w.rpcs[id].done < |w.rpcs[id].batch|
    requires TargetExists(w, tgt) && PutAs(w, w', g, Inbound(id), tgt)
             && (tgt.Via? ==> Stage(tgt.set_.kind) == Stage(id.set_.kind) + 1)
    requires w'.rpcs == w.rpcs[id := Handled(w.rpcs[id], Parks(w, tgt), NextLoc(w, tgt))]
    ensures Counts(w')
  {
    CountsHandle(w, w', id, Parks(w, tgt), NextLoc(w, tgt));
  }

  lemma HandleRest(t: Topology, w: World, w': World, id: RpcId, g: Request, tgt: Target)
    requires Inv(t, w) && id in w.rpcs && w.rpcs[id].done < |w.rpcs[id].batch| && g == w.rpcs[id].batch[w.rpcs[id].done]
    requires TargetExists(w, tgt) && TargetOk(t, g, tgt) && g.data != []
             && (tgt.Via? ==> Stage(tgt.set_.kind) == Stage(id.set_.kind) + 1)
    requires Locals(w') && Shape(t, w') && Links(w') && PutAs(w, w', g, Inbound(id), tgt) && QueuesEvolve(w, w', tgt)
    requires w'.rpcs == w.rpcs[id := Handled(w.rpcs[id], Parks(w, tgt), NextLoc(w, tgt))]
    ensures Inv(t, w')
  {
    HandledOne(w, w', id, Parks(w, tgt), NextLoc(w, tgt));
    HandleKeepsPlaced(t, w, w', id, g, tgt);
    PutPaths(t, w, w', g, Inbound(id), tgt);
    HandleCounts(w, w', id, g, tgt);
  }

  // ----- all actions -----

  lemma EndKeeps(t: Topology, w: World, w': World, id: RpcId)
    requires Inv(t, w) && Enabled(t, w, EndHandle(id)) && w' == Apply(t, w, EndHandle(id))
    ensures Inv(t, w')
  {
    CountsEnd(w, id);
    RpcKeeps(t, w, w', id);
  }

  lemma DropKeeps(t: Topology, w: World, w': World, id: RpcId, l: Loc)
    requires Inv(t, w) && Enabled(t, w, DropRef(id, l)) && w' == Apply(t, w, DropRef(id, l))
    ensures Inv(t, w')
  {
    CountsDrop(w, id, l);
    RpcKeeps(t, w, w', id);
  }

  /** Every action of every thread on every rank keeps the invariant. */
  lemma StepKeeps(t: Topology, w: World, a: Action)
    requires Inv(t, w) && Enabled(t, w, a)
    ensures Inv(t, Apply(t, w, a))
  {
    var w' := Apply(t, w, a);
    match a
    case SendReq(g) => SendKeeps(t, w, w', g);
    case Forward(s, p, i) => ForwardKeeps(t, w, s, p, i);
    case Handle(id) => HandleKeeps(t, w, w', id);
    case EndHandle(id) => EndKeeps(t, w, w', id);
    case DropRef(id, l) => DropKeeps(t, w, w', id, l);
    case FinishRpc(s, p, i) => FinishKeeps(t, w, s, p, i);
    case Flush(s, b) => SetKeeps(t, w, s, b);
    case Deliver(r, b) => DeliverKeeps(t, w, r, b);
  }

  // ----- what an action does to places -----

  /** The request an action moves, and where to. */
  function Moved(t: Topology, w: World, a: Action): Option<(Request, Target)>
    requires Enabled(t, w, a)
  {
    match a
    case SendReq(g) => Some((g, RouteSend(t, g.src, g.dst)))
    case Handle(id) =>
      var g := w.rpcs[id].batch[w.rpcs[id].done];
      Some((g, RouteRpc(t, id.peer, g.dst, id.set_.kind)))
    case _ => None
  }

  ghost predicate Moves(t: Topology, w: World, w': World, m: Option<(Request, Target)>) {
    if m.None? then Extends(w, w', None) && w'.loc == w.loc
    else TargetExists(w, m.value.1) && Puts(w, w', m.value.0, NextLoc(w, m.value.1))
  }

  lemma QuietMoves(t: Topology, w: World, a: Action)
    requires Inv(t, w) && Enabled(t, w, a) && !a.SendReq? && !a.Handle?
    ensures var w' := Apply(t, w, a); Extends(w, w', None) && w'.loc == w.loc
  {
    var w' := Apply(t, w, a);
    match a
    case Forward(s, p, i) =>
      SetStepExtends(w, s, O.Send(p, i));
      ExtendsLoc(w, SetStep(w, s, O.Send(p, i)), w', None);
    case FinishRpc(s, p, i) => SetStepExtends(w, s, O.Finish(p, i));
    case Flush(s, b) => SetStepExtends(w, s, b);
    case Deliver(r, b) => DelStepExtends(w, r, b);
    case EndHandle(id) => ExtendsSelf(w, w');
    case DropRef(id, l) => ExtendsSelf(w, w');
  }

  lemma HandleMoves(t: Topology, w: World, w1: World, w': World, id: RpcId, g: Request, tgt: Target)
    requires Inv(t, w) && TargetExists(w, tgt) && g.data != [] && w1 == Place(w, g, Inbound(id), tgt)
    requires w' == w1.(rpcs := w'.rpcs)
    ensures Puts(w, w', g, NextLoc(w, tgt))
  {
    PlaceDoes(t, w, w1, g, Inbound(id), tgt);
    PutAsRpc(w, w1, w', g, Inbound(id), tgt);
  }

  lemma StepMoves(t: Topology, w: World, a: Action)
    requires Inv(t, w) && Enabled(t, w, a)
    ensures Moves(t, w, Apply(t, w, a), Moved(t, w, a))
  {
    if a.SendReq? {
      PlaceDoes(t, w, Apply(t, w, a), a.g, Sender, RouteSend(t, a.g.src, a.g.dst));
    } else if a.Handle? {
      var (g, tgt) := Moved(t, w, a).value;
      HandleMoves(t, w, Place(w, g, Inbound(a.id), tgt), Apply(t, w, a), a.id, g, tgt);
    } else {
      QuietMoves(t, w, a);
    }
  }

  /** The action of set `s` that a world action contains. */
  function SetAction(t: Topology, w: World, a: Action, s: SetId): Option<O.Action>
    requires Enabled(t, w, a)
  {
    match a
    case SendReq(g) => AcceptAt(RouteSend(t, g.src, g.dst), s, Waiter(g, Sender))
    case Handle(id) => AcceptAt(Moved(t, w, a).value.1, s, Waiter(Moved(t, w, a).value.0, Inbound(id)))
    case Forward(s2, p, i) => if s2 == s then Some(O.Send(p, i)) else None
    case FinishRpc(s2, p, i) => if s2 == s then Some(O.Finish(p, i)) else None
    case Flush(s2, b) => if s2 == s then Some(b) else None
    case _ => None
  }

  function AcceptAt(tgt: Target, s: SetId, x: Waiter): Option<O.Action> {
    if tgt.Via? && tgt.set_ == s then Some(O.Accept(tgt.peer, x)) else None
  }

  lemma SetAfter(t: Topology, w: World, a: Action, s: SetId)
    requires Enabled(t, w, a) && s in w.sets
    ensures var b := SetAction(t, w, a, s);
            && s in Apply(t, w, a).sets && (b.Some? ==> O.Enabled(w.sets[s], b.value))
            && Apply(t, w, a).sets[s] == if b.Some? then O.Apply(w.sets[s], b.value) else w.sets[s]
  {
  }

  function PushAt(tgt: Target, r: Rank, x: Waiter): Option<D.Action> {
    if tgt == ToSelf(r) then Some(D.Push(x)) else None
  }

  /** The action of the delivery queue of rank `r` that a world action contains. */
  function DelAction(t: Topology, w: World, a: Action, r: Rank): Option<D.Action>
    requires Enabled(t, w, a)
  {
    match a
    case SendReq(g) => PushAt(RouteSend(t, g.src, g.dst), r, Waiter(g, Sender))
    case Handle(id) => PushAt(Moved(t, w, a).value.1, r, Waiter(Moved(t, w, a).value.0, Inbound(id)))
    case Deliver(r2, b) => if r2 == r then Some(b) else None
    case _ => None
  }

  lemma DelAfter(t: Topology, w: World, a: Action, r: Rank)
    requires Enabled(t, w, a) && r in w.dels
    ensures var b := DelAction(t, w, a, r);
            && r in Apply(t, w, a).dels && (b.Some? ==> D.Enabled(w.dels[r], b.value))
            && Apply(t, w, a).dels[r] == if b.Some? then D.Apply(w.dcfg, w.dels[r], b.value) else w.dels[r]
  {
  }

  /** The delivery queue of a rank moves on; only a flush call touches its snapshot. */
  lemma DelivAfter(t: Topology, w: World, a: Action, r: Rank)
    requires Enabled(t, w, a) && r in w.dels
    ensures r in Apply(t, w, a).dels && w.dels[r].done <= Apply(t, w, a).dels[r].done
    ensures a != Deliver(r, D.FlushBegin) ==> Apply(t, w, a).dels[r].snap == w.dels[r].snap
  {
    DelAfter(t, w, a, r);
    if DelAction(t, w, a, r).Some? {
      D.DoneGrows(w.dcfg, w.dels[r], DelAction(t, w, a, r).value);
    }
  }

  // ----- where runs start -----

  /** The shuffler as `shuffler_init` leaves it on every rank. */
  ghost predicate Initial(t: Topology, w: World) {
    && Contract(t) && Shape(t, w) && w.rpcs == map[] && w.loc == map[] && 0 <= w.dcfg.threshold < w.dcfg.max
    && (forall s :: s in w.sets ==> O.Fresh(w.sets[s]) && w.sets[s].cfg.maxoqrpc >= 1)
    && (forall r :: r in w.dels ==> w.dels[r] == D.EMPTYDQ)
  }

  lemma InitialInv(t: Topology, w: World)
    requires Initial(t, w)
    ensures Inv(t, w)
  {
    forall s | s in w.sets ensures O.Inv(w.sets[s]) {
      O.FreshInv(w.sets[s]);
    }
    D.InitInv(w.dcfg);
    forall l ensures !LocValid(w, l) {
      assert l.AtQueue? && HasQ(w, l.set_, l.peer) ==> LQ(w, l.set_, l.peer) == Q.EMPTYLOG;
    }
  }

  // ----- a request keeps its contents, and is delivered at most once -----

  /** Request `g` was sent, and is somewhere. */
  ghost predicate Carried(w: World, g: Request) {
    g.id in w.loc && LocValid(w, w.loc[g.id]) && ReqAt(w, w.loc[g.id]) == g
  }

  lemma CarriedMoves(t: Topology, w: World, w': World, g: Request, m: Option<(Request, Target)>)
    requires Carried(w, g) && Moves(t, w, w', m) && (m.Some? && m.value.0.id == g.id ==> m.value.0 == g)
    ensures Carried(w', g)
  {
  }

  lemma CarriedStep(t: Topology, w: World, a: Action, g: Request)
    requires Inv(t, w) && Enabled(t, w, a) && Carried(w, g)
    ensures Carried(Apply(t, w, a), g)
  {
    StepMoves(t, w, a);
    if a.Handle? {
      HandleRoute(t, w, a.id);
    }
    CarriedMoves(t, w, Apply(t, w, a), g, Moved(t, w, a));
  }

  lemma SentCarried(t: Topology, w: World, g: Request)
    requires Inv(t, w) && Enabled(t, w, SendReq(g))
    ensures Carried(Apply(t, w, SendReq(g)), g)
  {
    StepMoves(t, w, SendReq(g));
  }

  /** What the callback of rank `q` was invoked with, number `k`, is the request that sits at
      position `k` of that rank's deliveries. */
  lemma CallLocated(t: Topology, w: World, q: Rank, k: nat)
    requires Inv(t, w) && q in w.dels && k < |w.dels[q].calls|
    ensures LocValid(w, AtDelivery(q, k)) && ReqAt(w, AtDelivery(q, k)) == w.dels[q].calls[k]
    ensures Here(w, AtDelivery(q, k)) && w.dels[q].calls[k].dst == q
  {
    assert D.Inv(w.dcfg, w.dels[q]);
    assert LocValid(w, AtDelivery(q, k));
    assert PathOk(t, w, AtDelivery(q, k));
  }

  /** The callback ran on `g`, once, on its destination, and has returned. */
  ghost predicate DeliveredOnce(w: World, g: Request) {
    && g.dst in w.dels
    && (exists k: nat :: k < w.dels[g.dst].done && k < |w.dels[g.dst].calls| && w.dels[g.dst].calls[k] == g)
    && (forall q, k, q2, k2 :: CallOf(w, g.id, q, k) && CallOf(w, g.id, q2, k2) ==> q == q2 && k == k2)
  }

  predicate CallOf(w: World, id: nat, q: Rank, k: nat) {
    q in w.dels && k < |w.dels[q].calls| && w.dels[q].calls[k].id == id
  }

  /** No request is ever delivered twice, on whichever ranks. */
  lemma AtMostOnce(t: Topology, w: World, id: nat, q: Rank, k: nat, q2: Rank, k2: nat)
    requires Inv(t, w) && CallOf(w, id, q, k) && CallOf(w, id, q2, k2)
    ensures q == q2 && k == k2
  {
    CallLocated(t, w, q, k);
    CallLocated(t, w, q2, k2);
  }

  lemma DoneDelivered(t: Topology, w: World, g: Request, k: nat)
    requires Inv(t, w) && Carried(w, g) && w.loc[g.id] == AtDelivery(g.dst, k) && k < w.dels[g.dst].done
    ensures DeliveredOnce(w, g)
  {
    assert D.Inv(w.dcfg, w.dels[g.dst]);
    assert w.dels[g.dst].calls[k] == g;
    forall q, k, q2, k2 | CallOf(w, g.id, q, k) && CallOf(w, g.id, q2, k2) ensures q == q2 && k == k2 {
      AtMostOnce(t, w, g.id, q, k, q2, k2);
    }
  }
}
