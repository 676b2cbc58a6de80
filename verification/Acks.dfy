/** Acknowledgements: which RPCs are out, what their req_parent counts, and when they are
    answered. */
module Acks {
  import opened Messages
  import opened Routing
  import opened Worlds
  import OutQueues
  import Q = QueueLogs
  import O = OutSets
  import D = Deliveries

  // ----- outputs and RPCs -----

  predicate OutLinked(w: World, s: SetId, p: Rank, o: OutQueues.Output) {
    && (o.sent <==> RpcOf(s, p, o) in w.rpcs)
    && (o.sent ==> w.rpcs[RpcOf(s, p, o)].batch == o.batch)
  }

  predicate HasSent(outs: seq<OutQueues.Output>, f: nat) {
    exists i :: 0 <= i < |outs| && outs[i].first == f && outs[i].sent
  }

  ghost predicate QueueLinked(w: World, s: SetId, p: Rank) {
    HasQ(w, s, p) && forall i :: 0 <= i < |LQ(w, s, p).q.outs| ==> OutLinked(w, s, p, LQ(w, s, p).q.outs[i])
  }

  ghost predicate RpcLinked(w: World, id: RpcId) {
    && HasQ(w, id.set_, id.peer) && id in w.rpcs
    && id.first < LQ(w, id.set_, id.peer).q.formed
    && (w.rpcs[id].replies == 0 ==> HasSent(LQ(w, id.set_, id.peer).q.outs, id.first))
  }

  /** An output was sent exactly when its RPC exists, and an unanswered RPC still has its
      output. */
  ghost predicate Links(w: World) {
    && (forall s, p :: HasQ(w, s, p) ==> QueueLinked(w, s, p))
    && (forall id :: id in w.rpcs ==> RpcLinked(w, id))
  }

  // ----- req_parent -----

  /** The counter, and who it counts: every reference is a place that was parked for this
      RPC, at the next stage of the journey or at delivery; as long as it is parked it is owned by this
      RPC.  The RPC was answered once if the handler is done and no reference is left,
      and otherwise not at all. */
  ghost predicate RpcOk(w: World, id: RpcId)
    requires id in w.rpcs
  {
    var x := w.rpcs[id];
    && x.done <= |x.batch| && (x.ended ==> x.done == |x.batch|)
    && (x.nrefs.None? ==> x.refs == {})
    && (x.nrefs.Some? ==> x.nrefs.value == |x.refs| + O.Bump(!x.ended))
    && x.replies == O.Bump(x.ended && x.refs == {})
    && (forall l :: l in x.refs ==> RefOk(w, id, l))
  }

  ghost predicate RefOk(w: World, id: RpcId, l: Loc) {
    && LocValid(w, l) && NextStop(id.set_.kind, l)
    && (Parked(w, l) ==> OwnerAt(w, l) == Inbound(id))
  }

  /** Everything parked for an RPC is counted by that RPC. */
  ghost predicate OwnerCounted(w: World, l: Loc)
    requires Parked(w, l)
  {
    OwnerAt(w, l).Inbound? ==> OwnerAt(w, l).rpc in w.rpcs && l in w.rpcs[OwnerAt(w, l).rpc].refs
  }

  ghost predicate Counts(w: World) {
    && (forall id :: id in w.rpcs ==> RpcOk(w, id))
    && (forall l :: Parked(w, l) ==> OwnerCounted(w, l))
  }

  // ----- steps that leave the RPC table alone -----

  lemma CountsExtend(w: World, w': World)
    requires Counts(w) && Extends(w, w', None) && w'.rpcs == w.rpcs
    ensures Counts(w')
  {
    forall id | id in w'.rpcs ensures RpcOk(w', id) {
      assert RpcOk(w, id);
      forall l | l in w.rpcs[id].refs ensures RefOk(w', id, l) {
        assert RefOk(w, id, l);
      }
    }
    forall l | Parked(w', l) ensures OwnerCounted(w', l) {
      assert LocValid(w, l);
      assert OwnerCounted(w, l);
    }
  }

  /** One queue changed its outputs the way `Evolves` allows, and no RPC changed. */
  lemma LinksEvolve(w: World, w': World, s: SetId, p: Rank, fin: Option<nat>)
    requires Links(w) && HasQ(w, s, p) && HasQ(w', s, p) && w'.rpcs == w.rpcs
    requires Q.Evolves(LQ(w, s, p), LQ(w', s, p), fin)
    requires fin.Some? ==> fin.value < |LQ(w, s, p).q.outs|
                           && RpcOf(s, p, LQ(w, s, p).q.outs[fin.value]) in w.rpcs
                           && w.rpcs[RpcOf(s, p, LQ(w, s, p).q.outs[fin.value])].replies > 0
    ensures QueueLinked(w', s, p)
    ensures forall id :: id in w.rpcs && id.set_ == s && id.peer == p ==> RpcLinked(w', id)
  {
    var outs, outs' := LQ(w, s, p).q.outs, LQ(w', s, p).q.outs;
    forall i | 0 <= i < |outs'| ensures OutLinked(w', s, p, outs'[i]) {
      if outs'[i] in outs {
        var j :| 0 <= j < |outs| && outs[j] == outs'[i];
        assert OutLinked(w, s, p, outs[j]);
      } else {
        assert RpcOf(s, p, outs'[i]) in w.rpcs ==> RpcLinked(w, RpcOf(s, p, outs'[i]));
      }
    }
    forall id | id in w.rpcs && id.set_ == s && id.peer == p ensures RpcLinked(w', id) {
      assert RpcLinked(w, id);
      if w.rpcs[id].replies == 0 {
        var j :| 0 <= j < |outs| && outs[j].first == id.first && outs[j].sent;
        assert fin != Some(j);
        var j' :| 0 <= j' < |outs'| && outs'[j'] == outs[j];
      }
    }
  }

  /** The finished output, if any, was answered. */
  predicate FinAnswered(w: World, s: SetId, fin: Option<(Rank, nat)>) {
    fin.Some? ==>
      && HasQ(w, s, fin.value.0) && fin.value.1 < |LQ(w, s, fin.value.0).q.outs|
      && var id := RpcOf(s, fin.value.0, LQ(w, s, fin.value.0).q.outs[fin.value.1]);
         id in w.rpcs && w.rpcs[id].replies > 0
  }

  lemma LinksSet(w: World, s: SetId, o: O.OutSet, fin: Option<(Rank, nat)>)
    requires Links(w) && s in w.sets && O.SetEvolves(w.sets[s], o, fin) && FinAnswered(w, s, fin)
    ensures Links(w.(sets := w.sets[s := o]))
  {
    var w' := w.(sets := w.sets[s := o]);
    forall p | p in w.sets[s].qs
      ensures QueueLinked(w', s, p)
      ensures forall id :: id in w.rpcs && id.set_ == s && id.peer == p ==> RpcLinked(w', id)
    {
      assert p in o.qs.Keys;
      LinksEvolve(w, w', s, p, O.FinAt(fin, p));
    }
    forall id | id in w.rpcs && id.set_ == s ensures RpcLinked(w', id) {
      assert RpcLinked(w, id);
    }
    LinksElsewhere(w, w', s);
  }

  lemma LinksElsewhere(w: World, w': World, s: SetId)
    requires Links(w) && s in w.sets && s in w'.sets && w' == w.(sets := w.sets[s := w'.sets[s]])
    requires w'.sets[s].qs.Keys == w.sets[s].qs.Keys
    requires forall p :: p in w.sets[s].qs ==> QueueLinked(w', s, p)
    requires forall id :: id in w.rpcs && id.set_ == s ==> RpcLinked(w', id)
    ensures Links(w')
  {
    forall s2, p | HasQ(w', s2, p) ensures QueueLinked(w', s2, p) {
      if s2 == s {
        assert p in w'.sets[s].qs.Keys;
      } else {
        assert QueueLinked(w, s2, p);
        forall i | 0 <= i < |LQ(w, s2, p).q.outs| ensures OutLinked(w', s2, p, LQ(w', s2, p).q.outs[i]) {
          assert OutLinked(w, s2, p, LQ(w, s2, p).q.outs[i]);
        }
      }
    }
    forall id | id in w'.rpcs ensures RpcLinked(w', id) {
      assert RpcLinked(w, id);
    }
  }

  lemma LinksSame(w: World, w': World)
    requires Links(w) && w'.sets == w.sets && w'.rpcs == w.rpcs
    ensures Links(w')
  {
    forall s, p | HasQ(w', s, p) ensures QueueLinked(w', s, p) {
      assert QueueLinked(w, s, p);
      forall i | 0 <= i < |LQ(w, s, p).q.outs| ensures OutLinked(w', s, p, LQ(w', s, p).q.outs[i]) {
        assert OutLinked(w, s, p, LQ(w, s, p).q.outs[i]);
      }
    }
    forall id | id in w'.rpcs ensures RpcLinked(w', id) {
      assert RpcLinked(w, id);
    }
  }

  // ----- steps of the RPC table -----

  /** Bookkeeping of an existing RPC: same batch, replies only added. */
  lemma LinksRpc(w: World, w': World, id: RpcId, x: Rpc)
    requires Links(w) && id in w.rpcs && w'.sets == w.sets && w'.rpcs == w.rpcs[id := x]
    requires x.batch == w.rpcs[id].batch && x.replies >= w.rpcs[id].replies
    ensures Links(w')
  {
    forall s, p | HasQ(w', s, p) ensures QueueLinked(w', s, p) {
      assert QueueLinked(w, s, p);
      forall i | 0 <= i < |LQ(w, s, p).q.outs| ensures OutLinked(w', s, p, LQ(w', s, p).q.outs[i]) {
        assert OutLinked(w, s, p, LQ(w, s, p).q.outs[i]);
      }
    }
    forall j | j in w'.rpcs ensures RpcLinked(w', j) {
      assert RpcLinked(w, j);
    }
  }

  lemma SameFirst(outs: seq<OutQueues.Output>, formed: nat, i: nat, j: nat)
    requires OutQueues.OutsOrdered(outs, formed) && i < |outs| && j < |outs| && outs[i].first == outs[j].first
    ensures i == j
  {
  }

  /** Sending output `i` of one queue creates its RPC. */
  lemma LinksForwardQueue(w: World, w': World, s: SetId, p: Rank, i: nat)
    requires Links(w) && HasQ(w, s, p) && HasQ(w', s, p) && i < |LQ(w, s, p).q.outs|
    requires var l := LQ(w, s, p);
             && OutQueues.OutsOrdered(l.q.outs, l.q.formed) && LQ(w', s, p).q.formed == l.q.formed
             && LQ(w', s, p).q.outs == l.q.outs[i := l.q.outs[i].(sent := true)]
             && w'.rpcs == w.rpcs[RpcOf(s, p, l.q.outs[i]) := Rpc(l.q.outs[i].batch, 0, None, {}, false, 0)]
    ensures QueueLinked(w', s, p)
    ensures forall id :: id in w'.rpcs && id.set_ == s && id.peer == p ==> RpcLinked(w', id)
  {
    var outs, outs' := LQ(w, s, p).q.outs, LQ(w', s, p).q.outs;
    assert QueueLinked(w, s, p);
    forall j | 0 <= j < |outs'| ensures OutLinked(w', s, p, outs'[j]) {
      assert OutLinked(w, s, p, outs[j]);
      if outs[j].first == outs[i].first {
        SameFirst(outs, LQ(w, s, p).q.formed, i, j);
      }
    }
    forall id | id in w'.rpcs && id.set_ == s && id.peer == p ensures RpcLinked(w', id) {
      if id == RpcOf(s, p, outs[i]) {
        assert outs'[i].first == id.first && outs'[i].sent;
      } else {
        assert RpcLinked(w, id);
        if w.rpcs[id].replies == 0 {
          var j :| 0 <= j < |outs| && outs[j].first == id.first && outs[j].sent;
          assert outs'[j] == outs[j];
        }
      }
    }
  }

  lemma LinksForward(w: World, w': World, s: SetId, p: Rank, i: nat)
    requires Links(w) && HasQ(w, s, p) && i < |LQ(w, s, p).q.outs|
    requires OutQueues.OutsOrdered(LQ(w, s, p).q.outs, LQ(w, s, p).q.formed)
    requires var l := LQ(w, s, p);
             && w'.sets == w.sets[s := w.sets[s].(qs := w.sets[s].qs[p := Q.LSent(l, i)])]
             && w'.rpcs == w.rpcs[RpcOf(s, p, l.q.outs[i]) := Rpc(l.q.outs[i].batch, 0, None, {}, false, 0)]
    ensures Links(w')
  {
    LinksForwardQueue(w, w', s, p, i);
    forall s2, p2 | HasQ(w', s2, p2) ensures QueueLinked(w', s2, p2) {
      if s2 != s || p2 != p {
        assert QueueLinked(w, s2, p2);
        forall j | 0 <= j < |LQ(w, s2, p2).q.outs| ensures OutLinked(w', s2, p2, LQ(w', s2, p2).q.outs[j]) {
          assert OutLinked(w, s2, p2, LQ(w, s2, p2).q.outs[j]);
        }
      }
    }
    forall id | id in w'.rpcs ensures RpcLinked(w', id) {
      if id.set_ != s || id.peer != p {
        assert RpcLinked(w, id);
      }
    }
  }

  // ----- the counter -----

  lemma CountsForward(w: World, w': World, id: RpcId, batch: seq<Request>)
    requires Counts(w) && id !in w.rpcs && Extends(w, w', None)
    requires w'.rpcs == w.rpcs[id := Rpc(batch, 0, None, {}, false, 0)]
    ensures Counts(w')
  {
    forall j | j in w'.rpcs ensures RpcOk(w', j) {
      if j != id {
        assert RpcOk(w, j);
        forall l | l in w.rpcs[j].refs ensures RefOk(w', j, l) {
          assert RefOk(w, j, l);
        }
      }
    }
    forall l | Parked(w', l) ensures OwnerCounted(w', l) {
      assert LocValid(w, l);
      assert OwnerCounted(w, l);
    }
  }

  /** `shuffler_send` put a request at a new place; no RPC owns it. */
  lemma CountsSend(w: World, w': World, l0: Loc)
    requires Counts(w) && Extends(w, w', Some(l0)) && w'.rpcs == w.rpcs && !LocValid(w, l0)
    requires Parked(w', l0) ==> OwnerAt(w', l0) == Sender
    ensures Counts(w')
  {
    forall id | id in w'.rpcs ensures RpcOk(w', id) {
      assert RpcOk(w, id);
      forall l | l in w.rpcs[id].refs ensures RefOk(w', id, l) {
        assert RefOk(w, id, l);
      }
    }
    forall l | Parked(w', l) ensures OwnerCounted(w', l) {
      if l != l0 {
        assert LocValid(w, l);
        assert OwnerCounted(w, l);
      }
    }
  }

  /** The handler put one request of RPC `id` at a new place. */
  lemma CountsHandle(w: World, w': World, id: RpcId, parks: bool, l0: Loc)
    requires Counts(w) && Extends(w, w', Some(l0)) && id in w.rpcs && LocValid(w', l0) && !LocValid(w, l0)
    requires w.rpcs[id].done < |w.rpcs[id].batch| && NextStop(id.set_.kind, l0)
    requires w'.rpcs == w.rpcs[id := Handled(w.rpcs[id], parks, l0)]
    requires (Parked(w', l0) <==> parks) && (parks ==> OwnerAt(w', l0) == Inbound(id))
    ensures Counts(w')
  {
    assert RpcOk(w, id);
    assert l0 !in w.rpcs[id].refs by {
      assert l0 in w.rpcs[id].refs ==> RefOk(w, id, l0);
    }
    forall j | j in w'.rpcs ensures RpcOk(w', j) {
      assert RpcOk(w, j);
      forall l | l in w'.rpcs[j].refs ensures RefOk(w', j, l) {
        if l in w.rpcs[j].refs {
          assert RefOk(w, j, l);
        }
      }
    }
    forall l | Parked(w', l) ensures OwnerCounted(w', l) {
      if l != l0 {
        assert LocValid(w, l);
        assert OwnerCounted(w, l);
      }
    }
  }

  /** The handler drops its own reference, or finds that nothing had to wait. */
  lemma CountsEnd(w: World, id: RpcId)
    requires Counts(w) && id in w.rpcs && w.rpcs[id].done == |w.rpcs[id].batch| && !w.rpcs[id].ended
    ensures Counts(w.(rpcs := w.rpcs[id := Ended(w.rpcs[id])]))
  {
    var w' := w.(rpcs := w.rpcs[id := Ended(w.rpcs[id])]);
    forall j | j in w'.rpcs ensures RpcOk(w', j) {
      assert RpcOk(w, j);
      forall l | l in w'.rpcs[j].refs ensures RefOk(w', j, l) {
        assert RefOk(w, j, l);
      }
    }
    forall l | Parked(w', l) ensures OwnerCounted(w', l) {
      assert OwnerCounted(w, l);
    }
  }

  /** A reference of a place that left its wait queue is dropped. */
  lemma CountsDrop(w: World, id: RpcId, l0: Loc)
    requires Counts(w) && id in w.rpcs && l0 in w.rpcs[id].refs && !Parked(w, l0)
    ensures Counts(w.(rpcs := w.rpcs[id := Dropped(w.rpcs[id].(refs := w.rpcs[id].refs - {l0}))]))
  {
    var x := w.rpcs[id];
    var w' := w.(rpcs := w.rpcs[id := Dropped(x.(refs := x.refs - {l0}))]);
    assert |x.refs - {l0}| == |x.refs| - 1;
    forall j | j in w'.rpcs ensures RpcOk(w', j) {
      assert RpcOk(w, j);
      forall l | l in w'.rpcs[j].refs ensures RefOk(w', j, l) {
        assert RefOk(w, j, l);
      }
    }
    forall l | Parked(w', l) ensures OwnerCounted(w', l) {
      assert OwnerCounted(w, l);
    }
  }
}
