/** Where every request is: each one is at exactly one place, moves only forward, and
    leaves an output queue before that queue is told its RPC was answered. */
module Places {
  import opened Messages
  import opened Routing
  import opened Worlds
  import opened Acks
  import OutQueues
  import Q = QueueLogs
  import O = OutSets
  import D = Deliveries

  // ----- routing -----

  ghost predicate PathOk(t: Topology, w: World, l: Loc)
    requires LocValid(w, l)
  {
    && ReqAt(w, l).data != []
    && match l
       case AtQueue(s, p, k) => OnPath(t, s, p, ReqAt(w, l))
       case AtDelivery(r, k) => ReqAt(w, l).dst == r
  }

  ghost predicate Paths(t: Topology, w: World) {
    forall l :: LocValid(w, l) ==> PathOk(t, w, l)
  }

  lemma PathsExtend(t: Topology, w: World, w': World, fresh_: Option<Loc>)
    requires Paths(t, w) && Extends(w, w', fresh_)
    requires fresh_.Some? && LocValid(w', fresh_.value) ==> PathOk(t, w', fresh_.value)
    ensures Paths(t, w')
  {
    forall l | LocValid(w', l) ensures PathOk(t, w', l) {
      if LocValid(w, l) {
        assert PathOk(t, w, l);
      }
    }
  }

  // ----- places -----

  /** The request accepted at `l` is there now. */
  predicate Here(w: World, l: Loc) {
    LocValid(w, l) && ReqAt(w, l).id in w.loc && w.loc[ReqAt(w, l).id] == l
  }

  /** How many requests of the output's batch were handed on by the receiver. */
  function HandedOn(w: World, s: SetId, p: Rank, o: OutQueues.Output): nat {
    if o.sent && RpcOf(s, p, o) in w.rpcs then w.rpcs[RpcOf(s, p, o)].done else 0
  }

  ghost predicate OutPlaced(w: World, s: SetId, p: Rank, o: OutQueues.Output) {
    forall k: nat :: Q.Covers(o, k) ==> (Here(w, AtQueue(s, p, k)) <==> k >= o.first + HandedOn(w, s, p, o))
  }

  /** Loading and waiting requests are here; of a batch that is out, those not yet handed
      on are; answered ones are not. */
  ghost predicate QueuePlaced(w: World, s: SetId, p: Rank)
    requires HasQ(w, s, p)
  {
    var l := LQ(w, s, p);
    && (forall k: nat :: l.q.formed <= k < |l.accepted| ==> Here(w, AtQueue(s, p, k)))
    && (forall i :: 0 <= i < |l.q.outs| ==> OutPlaced(w, s, p, l.q.outs[i]))
    && (forall k :: k in l.replied ==> !Here(w, AtQueue(s, p, k)))
  }

  ghost predicate Located(w: World) {
    forall g :: g in w.loc ==> LocValid(w, w.loc[g]) && ReqAt(w, w.loc[g]).id == g
  }

  ghost predicate Placed(w: World) {
    && Located(w)
    && (forall l: Loc :: l.AtDelivery? && LocValid(w, l) ==> Here(w, l))
    && (forall s, p :: HasQ(w, s, p) ==> QueuePlaced(w, s, p))
  }

  // ----- one queue -----

  /** On this queue, requests are where they were, and newly accepted ones are here. */
  ghost predicate SameHere(w: World, w': World, s: SetId, p: Rank)
    requires HasQ(w, s, p) && HasQ(w', s, p)
  {
    forall k: nat :: k < |LQ(w', s, p).accepted| ==>
      (Here(w', AtQueue(s, p, k)) <==> k >= |LQ(w, s, p).accepted| || Here(w, AtQueue(s, p, k)))
  }

  /** The RPCs of this queue handed on as much as before. */
  ghost predicate SameHanded(w: World, w': World, s: SetId, p: Rank) {
    forall o: OutQueues.Output :: HandedOn(w', s, p, o) == HandedOn(w, s, p, o)
  }

  lemma OutKept(w: World, w': World, s: SetId, p: Rank, o: OutQueues.Output)
    requires HasQ(w, s, p) && HasQ(w', s, p) && SameHere(w, w', s, p) && SameHanded(w, w', s, p)
    requires o.first + |o.batch| <= |LQ(w, s, p).accepted| <= |LQ(w', s, p).accepted|
    requires OutPlaced(w, s, p, o)
    ensures OutPlaced(w', s, p, o)
  {
    forall k: nat | Q.Covers(o, k)
      ensures Here(w', AtQueue(s, p, k)) <==> k >= o.first + HandedOn(w', s, p, o)
    {
      assert Here(w', AtQueue(s, p, k)) <==> Here(w, AtQueue(s, p, k));
    }
  }

  /** A batch formed from loading and waiting requests: all of it is here. */
  lemma OutFormed(w: World, w': World, s: SetId, p: Rank, o: OutQueues.Output)
    requires HasQ(w, s, p) && HasQ(w', s, p) && SameHere(w, w', s, p) && QueuePlaced(w, s, p)
    requires o.first >= LQ(w, s, p).q.formed && o.first + |o.batch| <= |LQ(w', s, p).accepted| && !o.sent
    ensures OutPlaced(w', s, p, o)
  {
    forall k: nat | Q.Covers(o, k) ensures Here(w', AtQueue(s, p, k)) {
      assert k < |LQ(w, s, p).accepted| ==> Here(w, AtQueue(s, p, k));
    }
  }

  /** Outputs lie within what was accepted. */
  predicate Bounded(l: Q.LogQ) {
    && l.q.formed <= |l.accepted|
    && (forall i :: 0 <= i < |l.q.outs| ==> l.q.outs[i].first + |l.q.outs[i].batch| <= l.q.formed)
  }

  /** The queue changed as `Evolves` allows; a finished output was handed on completely. */
  lemma QueueEvolvesPlaced(w: World, w': World, s: SetId, p: Rank, fin: Option<nat>)
    requires HasQ(w, s, p) && HasQ(w', s, p) && QueuePlaced(w, s, p)
    requires SameHere(w, w', s, p) && SameHanded(w, w', s, p)
    requires Q.Evolves(LQ(w, s, p), LQ(w', s, p), fin) && Bounded(LQ(w, s, p)) && Bounded(LQ(w', s, p))
    requires fin.Some? ==> fin.value < |LQ(w, s, p).q.outs|
                           && HandedOn(w, s, p, LQ(w, s, p).q.outs[fin.value]) >= |LQ(w, s, p).q.outs[fin.value].batch|
    requires forall k :: k in LQ(w, s, p).replied ==> k < LQ(w, s, p).q.formed
    ensures QueuePlaced(w', s, p)
  {
    var l, l' := LQ(w, s, p), LQ(w', s, p);
    forall i | 0 <= i < |l'.q.outs| ensures OutPlaced(w', s, p, l'.q.outs[i]) {
      var o := l'.q.outs[i];
      if o in l.q.outs {
        var j :| 0 <= j < |l.q.outs| && l.q.outs[j] == o;
        OutKept(w, w', s, p, o);
      } else {
        OutFormed(w, w', s, p, o);
      }
    }
    forall k | k in l'.replied ensures !Here(w', AtQueue(s, p, k)) {
      if k !in l.replied {
        var o := l.q.outs[fin.value];
        assert OutPlaced(w, s, p, o) && Q.Covers(o, k);
      }
      assert k < |l.accepted|;
    }
  }

  /** The next unhandled request of output `i` was handed on. */
  lemma QueueHandledPlaced(w: World, w': World, s: SetId, p: Rank, i: nat)
    requires HasQ(w, s, p) && HasQ(w', s, p) && QueuePlaced(w, s, p) && LQ(w', s, p) == LQ(w, s, p)
    requires i < |LQ(w, s, p).q.outs| && Bounded(LQ(w, s, p))
             && OutQueues.OutsOrdered(LQ(w, s, p).q.outs, LQ(w, s, p).q.formed)
    requires var o := LQ(w, s, p).q.outs[i];
             && HandedOn(w, s, p, o) < |o.batch| && HandedOn(w', s, p, o) == HandedOn(w, s, p, o) + 1
             && (forall o2: OutQueues.Output :: o2.first != o.first ==> HandedOn(w', s, p, o2) == HandedOn(w, s, p, o2))
             && (forall k: nat :: k < |LQ(w, s, p).accepted| ==>
                   (Here(w', AtQueue(s, p, k)) <==> Here(w, AtQueue(s, p, k)) && k != o.first + HandedOn(w, s, p, o)))
    ensures QueuePlaced(w', s, p)
  {
    var l := LQ(w, s, p);
    var o := l.q.outs[i];
    forall j | 0 <= j < |l.q.outs| ensures OutPlaced(w', s, p, l.q.outs[j]) {
      var o2 := l.q.outs[j];
      assert OutPlaced(w, s, p, o2);
      forall k: nat | Q.Covers(o2, k)
        ensures Here(w', AtQueue(s, p, k)) <==> k >= o2.first + HandedOn(w', s, p, o2)
      {
        assert k < |l.accepted|;
      }
    }
  }

  // ----- the whole world -----

  predicate QueueFacts(l: Q.LogQ) {
    && Bounded(l) && OutQueues.OutsOrdered(l.q.outs, l.q.formed) && (forall k :: k in l.replied ==> k < l.q.formed)
    && (forall i :: 0 <= i < |l.q.outs| ==> Q.Carries(l.accepted, l.q.outs[i]))
  }

  ghost predicate AllFacts(w: World) {
    forall s, p :: HasQ(w, s, p) ==> QueueFacts(LQ(w, s, p))
  }

  lemma LocalsFacts(w: World)
    requires Locals(w)
    ensures AllFacts(w)
  {
    forall s, p | HasQ(w, s, p) ensures QueueFacts(LQ(w, s, p)) {
      assert O.Inv(w.sets[s]);
      assert Q.LogInv(w.sets[s].cfg, w.sets[s].qs[p]);
    }
  }

  lemma StillHere(w: World, w': World)
    requires Extends(w, w', None) && w'.loc == w.loc
    ensures forall l :: LocValid(w', l) ==> LocValid(w, l) && (Here(w', l) <==> Here(w, l))
    ensures Located(w) ==> Located(w')
  {
  }

  /** The requests of the finished output, if any, were all handed on. */
  ghost predicate FinHanded(w: World, s: SetId, fin: Option<(Rank, nat)>) {
    fin.Some? ==>
      && HasQ(w, s, fin.value.0) && fin.value.1 < |LQ(w, s, fin.value.0).q.outs|
      && var o := LQ(w, s, fin.value.0).q.outs[fin.value.1]; HandedOn(w, s, fin.value.0, o) >= |o.batch|
  }

  /** A queue that did not change. */
  lemma QueueKept(w: World, w': World, s: SetId, p: Rank)
    requires HasQ(w, s, p) && HasQ(w', s, p) && QueuePlaced(w, s, p) && LQ(w', s, p) == LQ(w, s, p)
    requires SameHere(w, w', s, p) && SameHanded(w, w', s, p) && Bounded(LQ(w, s, p))
    requires forall k :: k in LQ(w, s, p).replied ==> k < LQ(w, s, p).q.formed
    ensures QueuePlaced(w', s, p)
  {
    var l := LQ(w, s, p);
    forall i | 0 <= i < |l.q.outs| ensures OutPlaced(w', s, p, l.q.outs[i]) {
      OutKept(w, w', s, p, l.q.outs[i]);
    }
    forall k | k in l.replied ensures !Here(w', AtQueue(s, p, k)) {
      assert k < |l.accepted|;
    }
  }

  lemma SetHasQ(w: World, w': World, s: SetId, fin: Option<(Rank, nat)>, s2: SetId, p: Rank)
    requires s in w.sets && s in w'.sets && w' == w.(sets := w.sets[s := w'.sets[s]])
    requires O.SetEvolves(w.sets[s], w'.sets[s], fin) && HasQ(w', s2, p)
    ensures HasQ(w, s2, p) && (if s2 == s then Q.Evolves(LQ(w, s2, p), LQ(w', s2, p), O.FinAt(fin, p))
                               else LQ(w', s2, p) == LQ(w, s2, p))
  {
    assert s2 == s ==> p in w'.sets[s].qs.Keys;
  }

  lemma PlacedSetAt(w: World, w': World, s: SetId, fin: Option<(Rank, nat)>, s2: SetId, p: Rank)
    requires HasQ(w, s2, p) && HasQ(w', s2, p) && QueuePlaced(w, s2, p) && FinHanded(w, s, fin) && s in w.sets
    requires QueueFacts(LQ(w, s2, p)) && QueueFacts(LQ(w', s2, p))
    requires if s2 == s then Q.Evolves(LQ(w, s2, p), LQ(w', s2, p), O.FinAt(fin, p)) else LQ(w', s2, p) == LQ(w, s2, p)
    requires SameHere(w, w', s2, p) && SameHanded(w, w', s2, p)
    ensures QueuePlaced(w', s2, p)
  {
    if s2 == s {
      QueueEvolvesPlaced(w, w', s, p, O.FinAt(fin, p));
    } else {
      QueueKept(w, w', s2, p);
    }
  }

  /** A step of one set that accepts nothing. */
  lemma PlacedSet(w: World, w': World, s: SetId, fin: Option<(Rank, nat)>)
    requires Placed(w) && AllFacts(w) && AllFacts(w') && Extends(w, w', None)
    requires s in w.sets && s in w'.sets && w' == w.(sets := w.sets[s := w'.sets[s]])
    requires O.SetEvolves(w.sets[s], w'.sets[s], fin) && FinHanded(w, s, fin)
    ensures Placed(w')
  {
    StillHere(w, w');
    forall s2, p | HasQ(w', s2, p) ensures QueuePlaced(w', s2, p) {
      SetHasQ(w, w', s, fin, s2, p);
      SameHereStill(w, w', s2, p);
      PlacedSetAt(w, w', s, fin, s2, p);
    }
  }

  lemma SameHereStill(w: World, w': World, s: SetId, p: Rank)
    requires HasQ(w, s, p) && HasQ(w', s, p) && Extends(w, w', None) && w'.loc == w.loc
    ensures SameHere(w, w', s, p)
  {
    forall k: nat | k < |LQ(w', s, p).accepted|
      ensures Here(w', AtQueue(s, p, k)) <==> k >= |LQ(w, s, p).accepted| || Here(w, AtQueue(s, p, k))
    {
      assert LocValid(w', AtQueue(s, p, k));
    }
  }

  /** A step that changes no queue and no location. */
  lemma PlacedElsewhere(w: World, w': World)
    requires Placed(w) && AllFacts(w) && Extends(w, w', None) && w'.sets == w.sets && w'.loc == w.loc
    requires forall id :: id in w.rpcs ==> id in w'.rpcs && w'.rpcs[id].done == w.rpcs[id].done
    requires forall id :: id in w'.rpcs ==> id in w.rpcs
    ensures Placed(w')
  {
    StillHere(w, w');
    forall s, p | HasQ(w', s, p) ensures QueuePlaced(w', s, p) {
      assert HasQ(w, s, p);
      SameHereStill(w, w', s, p);
      QueueKept(w, w', s, p);
    }
  }

  // ----- moving one request -----

  /** Request `g` was put at the new place `l0`. */
  ghost predicate Puts(w: World, w': World, g: Request, l0: Loc) {
    && Extends(w, w', Some(l0)) && LocValid(w', l0) && !LocValid(w, l0) && ReqAt(w', l0) == g
    && w'.loc == w.loc[g.id := l0]
  }

  /** Which place it left: the one it was at, if it was anywhere. */
  function LeftPlace(w: World, g: Request): Option<Loc> {
    if g.id in w.loc then Some(w.loc[g.id]) else None
  }

  /** It left that queue. */
  predicate LeftQueue(w: World, g: Request, s: SetId, p: Rank) {
    && LeftPlace(w, g).Some? && LeftPlace(w, g).value.AtQueue?
    && LeftPlace(w, g).value.set_ == s && LeftPlace(w, g).value.peer == p
  }

  lemma PutsHere(w: World, w': World, g: Request, l0: Loc)
    requires Located(w) && Puts(w, w', g, l0)
    ensures forall l :: LocValid(w', l) ==> (Here(w', l) <==> l == l0 || (Here(w, l) && LeftPlace(w, g) != Some(l)))
    ensures Located(w')
  {
    forall l | LocValid(w', l) ensures Here(w', l) <==> l == l0 || (Here(w, l) && LeftPlace(w, g) != Some(l)) {
      if LocValid(w, l) {
        assert ReqAt(w', l) == ReqAt(w, l);
      }
    }
  }

  lemma SameHerePuts(w: World, w': World, g: Request, l0: Loc, s: SetId, p: Rank)
    requires Located(w) && Puts(w, w', g, l0) && HasQ(w, s, p) && HasQ(w', s, p)
    requires !LeftQueue(w, g, s, p)
    ensures SameHere(w, w', s, p)
  {
    PutsHere(w, w', g, l0);
    forall k: nat | k < |LQ(w', s, p).accepted|
      ensures Here(w', AtQueue(s, p, k)) <==> k >= |LQ(w, s, p).accepted| || Here(w, AtQueue(s, p, k))
    {
      assert LocValid(w', AtQueue(s, p, k));
    }
  }

  /** Putting a request at a new place, its old queue accounted for separately. */
  lemma PlacedPuts(w: World, w': World, g: Request, l0: Loc)
    requires Placed(w) && AllFacts(w) && AllFacts(w') && Puts(w, w', g, l0)
    requires LeftPlace(w, g).Some? ==>
               && LeftPlace(w, g).value.AtQueue?
               && var l := LeftPlace(w, g).value; HasQ(w', l.set_, l.peer) && QueuePlaced(w', l.set_, l.peer)
    requires forall s, p :: HasQ(w', s, p) ==> HasQ(w, s, p) && Q.Evolves(LQ(w, s, p), LQ(w', s, p), None)
    requires forall s, p ::
               HasQ(w', s, p) ==> LeftQueue(w, g, s, p) || SameHanded(w, w', s, p)
    ensures Placed(w')
  {
    PutsHere(w, w', g, l0);
    forall s, p | HasQ(w', s, p) ensures QueuePlaced(w', s, p) {
      if !LeftQueue(w, g, s, p) {
        SameHerePuts(w, w', g, l0, s, p);
        QueueEvolvesPlaced(w, w', s, p, None);
      }
    }
  }
}
