/** Whole runs of a job on the three-hop shuffler: any number of ranks, any number of
    epochs, any interleaving of application threads, RPC handlers, callbacks and drains. */
module DrainRuns {
  import opened Messages
  import opened Routing
  import opened Worlds
  import opened Places
  import opened Shufflers
  import opened Drains
  import O = OutSets
  import D = Deliveries

  /** Before the first opendir, on every rank. */
  ghost predicate Start(t: Topology, d: State) {
    && Initial(t, d.w) && d.stamp == map[]
    && (forall r: Rank :: r in d.pc <==> r < t.n) && (forall r :: r in d.pc ==> d.pc[r] == At(0, 19))
  }

  ghost predicate Steps(t: Topology, ds: seq<State>, acts: seq<Drains.Action>) {
    |ds| == |acts| + 1 && forall i :: 0 <= i < |acts| ==> Step(t, ds[i], acts[i], ds[i + 1])
  }

  ghost predicate Run(t: Topology, ds: seq<State>, acts: seq<Drains.Action>) {
    Steps(t, ds, acts) && Start(t, ds[0])
  }

  ghost predicate Step(t: Topology, d: State, a: Drains.Action, d': State) {
    Drains.Enabled(t, d, a) && d' == Drains.Apply(t, d, a)
  }

  lemma StepInv(t: Topology, d: State, a: Drains.Action, d': State)
    requires Drains.Inv(t, d) && Step(t, d, a, d')
    ensures Drains.Inv(t, d') && d'.flags == d.flags
  {
    Drains.StepKeeps(t, d, a);
  }

  lemma StepJob(t: Topology, d: State, a: Drains.Action, d': State)
    requires JobInv(t, d) && Step(t, d, a, d')
    ensures JobInv(t, d') && d'.flags == d.flags
  {
    JobStep(t, d, a);
  }

  lemma StartInStep(t: Topology, d: State)
    requires Start(t, d)
    ensures InStep(d.w, d.pc)
  {
    assert forall s :: s in d.w.sets ==> O.Fresh(d.w.sets[s]);
  }

  lemma StartJob(t: Topology, d: State)
    requires Start(t, d)
    ensures JobInv(t, d)
  {
    InitialInv(t, d.w);
    StartInStep(t, d);
  }

  ghost predicate InvWith(t: Topology, f: Flags, d: State) {
    Drains.Inv(t, d) && d.flags == f
  }

  lemma StepsKeep(t: Topology, ds: seq<State>, acts: seq<Drains.Action>, n: nat)
    requires Steps(t, ds, acts) && Drains.Inv(t, ds[0]) && n < |ds|
    ensures Drains.Inv(t, ds[n]) && ds[n].flags == ds[0].flags
  {
    var f := ds[0].flags;
    forall d, a, d' | InvWith(t, f, d) && Step(t, d, a, d') ensures InvWith(t, f, d') {
      StepInv(t, d, a, d');
    }
    Along(t, ds, acts, 0, n, d => InvWith(t, f, d));
  }

  lemma StepsKeepJob(t: Topology, ds: seq<State>, acts: seq<Drains.Action>, n: nat)
    requires Steps(t, ds, acts) && JobInv(t, ds[0]) && n < |ds|
    ensures JobInv(t, ds[n])
  {
    forall d, a, d' | JobInv(t, d) && Step(t, d, a, d') ensures JobInv(t, d') {
      StepJob(t, d, a, d');
    }
    Along(t, ds, acts, 0, n, d => JobInv(t, d));
  }

  lemma RunKeeps(t: Topology, ds: seq<State>, acts: seq<Drains.Action>, n: nat)
    requires Run(t, ds, acts) && Synced(ds[0].flags) && n < |ds|
    ensures Drains.Inv(t, ds[n]) && ds[n].flags == ds[0].flags
  {
    StartJob(t, ds[0]);
    StepsKeep(t, ds, acts, n);
  }

  /** A run from any state with the invariant. */
  ghost predicate Goes(t: Topology, ds: seq<State>, acts: seq<Drains.Action>) {
    Steps(t, ds, acts) && Drains.Inv(t, ds[0])
  }

  /** Request `g` is on its way or delivered, and is due in the drain of epoch `e`. */
  ghost predicate Stamped(d: State, g: Request, e: nat) {
    Carried(d.w, g) && g.id in d.stamp && d.stamp[g.id] == e
  }

  lemma StampedSent(t: Topology, d: State, g: Request, d': State)
    requires Drains.Inv(t, d) && Step(t, d, Drains.Run(SendReq(g)), d')
    ensures g.src in d.pc && Stamped(d', g, Coming(d.pc[g.src]))
  {
    SentCarried(t, d.w, g);
  }

  lemma StampedStep(t: Topology, d: State, a: Drains.Action, d': State, g: Request, e: nat)
    requires Drains.Inv(t, d) && Step(t, d, a, d') && Stamped(d, g, e)
    ensures Stamped(d', g, e)
  {
    match a
    case Run(b) => CarriedStep(t, d.w, b, g);
    case Next(r) =>
      var c := FlushCall(r, d.pc[r].ph);
      if c.Some? {
        CarriedStep(t, d.w, c.value, g);
      }
  }

  ghost predicate Tracked(t: Topology, d: State, g: Request, e: nat) {
    Drains.Inv(t, d) && Stamped(d, g, e)
  }

  lemma TrackedStep(t: Topology, d: State, a: Drains.Action, d': State, g: Request, e: nat)
    requires Tracked(t, d, g, e) && Step(t, d, a, d')
    ensures Tracked(t, d', g, e)
  {
    StepInv(t, d, a, d');
    StampedStep(t, d, a, d', g, e);
  }

  /** Whatever every step keeps holds along a run. */
  lemma {:induction false} Along(t: Topology, ds: seq<State>, acts: seq<Drains.Action>, i: nat, n: nat,
      p: State -> bool)
    requires Steps(t, ds, acts) && i <= n < |ds| && p(ds[i])
    requires forall d, a, d' :: p(d) && Step(t, d, a, d') ==> p(d')
    ensures p(ds[n])
    decreases n
  {
    if i < n {
      Along(t, ds, acts, i, n - 1, p);
      assert Step(t, ds[n - 1], acts[n - 1], ds[n]);
    }
  }

  lemma TrackedKept(t: Topology, ds: seq<State>, acts: seq<Drains.Action>, i: nat, n: nat, g: Request, e: nat)
    requires Steps(t, ds, acts) && i <= n < |ds| && Tracked(t, ds[i], g, e)
    ensures Tracked(t, ds[n], g, e)
  {
    forall d, a, d' | Tracked(t, d, g, e) && Step(t, d, a, d') ensures Tracked(t, d', g, e) {
      TrackedStep(t, d, a, d', g, e);
    }
    Along(t, ds, acts, i, n, d => Tracked(t, d, g, e));
  }

  /** A request that is due cannot be in a queue any more. */
  lemma NotQueued(t: Topology, f: Flags, w: World, pc: map<Rank, At>, g: Request, l: Loc, e: nat)
    requires Barriers(t, f, pc) && Synced(f) && g.dst in pc && Reach(pc[g.dst], e, Drained(f))
    requires LocValid(w, l) && ReqAt(w, l) == g && PathOk(t, w, l) && Held(f, w, pc, l, e)
    ensures l.AtDelivery? && l.r == g.dst && l.k < w.dels[g.dst].done
  {
    if l.AtQueue? {
      BarrierAt(t, f, pc, g.dst, l.set_.rank, e);
    }
  }

  /** Where a request is once its destination has drained: through the callback. */
  lemma DrainedAt(t: Topology, d: State, g: Request, e: nat)
    requires Drains.Inv(t, d) && Stamped(d, g, e) && g.dst in d.pc && Reach(d.pc[g.dst], e, Drained(d.flags))
    ensures DeliveredOnce(d.w, g)
  {
    var l := d.w.loc[g.id];
    assert HeldReq(d.flags, d.w, d.pc, d.stamp, g.id);
    assert PathOk(t, d.w, l);
    NotQueued(t, d.flags, d.w, d.pc, g, l, e);
    DoneDelivered(t, d.w, g, l.k);
  }

  lemma DrainDeliversFrom(t: Topology, ds: seq<State>, acts: seq<Drains.Action>, j: nat, n: nat, g: Request)
    requires Goes(t, ds, acts) && j < n < |ds| && acts[j] == Drains.Run(SendReq(g))
    requires g.src in ds[j].pc && g.dst in ds[n].pc
             && Reach(ds[n].pc[g.dst], Coming(ds[j].pc[g.src]), Drained(ds[0].flags))
    ensures DeliveredOnce(ds[n].w, g)
  {
    StepsKeep(t, ds, acts, j);
    StepsKeep(t, ds, acts, j + 1);
    StepsKeep(t, ds, acts, n);
    StampedSent(t, ds[j], g, ds[j + 1]);
    TrackedKept(t, ds, acts, j + 1, n, g, Coming(ds[j].pc[g.src]));
    DrainedAt(t, ds[n], g, Coming(ds[j].pc[g.src]));
  }

  /** Three-hop drain.  In every run, with the pre barrier or the barrier of opendir on, a
      request sent at moment j is due in the first drain its sender begins afterwards.  Once
      the destination has come to the end of the first round of that drain behind such a
      barrier (the one of closedir if the pre barrier is on, otherwise the one of opendir), at
      any moment n, the request was passed to the destination's callback exactly once,
      unchanged, and the callback has returned. */
  lemma DrainDelivers(t: Topology, ds: seq<State>, acts: seq<Drains.Action>, j: nat, n: nat, g: Request)
    requires Run(t, ds, acts) && Synced(ds[0].flags) && j < n < |ds| && acts[j] == Drains.Run(SendReq(g))
    requires g.src in ds[j].pc && g.dst in ds[n].pc
             && Reach(ds[n].pc[g.dst], Coming(ds[j].pc[g.src]), Drained(ds[0].flags))
    ensures DeliveredOnce(ds[n].w, g)
  {
    RunKeeps(t, ds, acts, 0);
    DrainDeliversFrom(t, ds, acts, j, n, g);
  }

  lemma {:induction false} ReachKept(t: Topology, ds: seq<State>, acts: seq<Drains.Action>, i: nat, n: nat, r: Rank,
      e: nat, p: int)
    requires Steps(t, ds, acts) && i <= n < |ds| && r in ds[i].pc && Reach(ds[i].pc[r], e, p)
    ensures r in ds[n].pc && Reach(ds[n].pc[r], e, p)
    decreases n
  {
    if i < n {
      ReachKept(t, ds, acts, i, n - 1, r, e, p);
      assert Step(t, ds[n - 1], acts[n - 1], ds[n]);
    }
  }

  /** Epoch isolation.  Let g be written in epoch e, and let its destination make its epoch
      flush of epoch x at moment m.  With the post barrier, the flush of an earlier epoch
      came before g was even sent; the flush of epoch e or a later one comes after g was
      executed. */
  lemma EpochIsolation(t: Topology, ds: seq<State>, acts: seq<Drains.Action>, j: nat, m: nat, g: Request, e: nat,
      x: nat)
    requires Run(t, ds, acts) && Synced(ds[0].flags) && j < |acts| && m < |acts|
    requires acts[j] == Drains.Run(SendReq(g)) && g.src in ds[j].pc && ds[j].pc[g.src] == At(e, 0)
    requires acts[m] == Next(g.dst) && g.dst in ds[m].pc && ds[m].pc[g.dst] == At(x, 17)
    ensures x < e && ds[0].flags.post ==> m < j
    ensures x >= e ==> j < m && DeliveredOnce(ds[m].w, g)
  {
    RunKeeps(t, ds, acts, j);
    RunKeeps(t, ds, acts, m);
    if x < e && ds[0].flags.post && m >= j {
      assert Reach(ds[j].pc[g.src], e - 1, 19);
      ReachKept(t, ds, acts, j, m, g.dst, e - 1, 18);
    }
    if x >= e {
      BarrierAt(t, ds[m].flags, ds[m].pc, g.dst, g.src, x);
      if m <= j {
        ReachKept(t, ds, acts, m, j, g.src, x, 5);
      } else {
        DrainDelivers(t, ds, acts, j, m, g);
      }
    }
  }

  /** The delivery thread of rank `r` passes `g` to the callback. */
  ghost predicate Calls(d: State, a: Drains.Action, r: Rank, g: Request) {
    && a == Drains.Run(Deliver(r, D.Call)) && r in d.w.dels && d.w.dels[r].deliverq != []
    && d.w.dels[r].deliverq[0] == g
  }

  lemma CallGrows(t: Topology, w: World, r: Rank, q: Rank)
    requires Worlds.Enabled(t, w, Deliver(r, D.Call)) && q in w.dels
    ensures var w' := Worlds.Apply(t, w, Deliver(r, D.Call));
            q in w'.dels && w'.dels[q].calls == w.dels[q].calls + (if q == r then [w.dels[r].deliverq[0]] else [])
  {
    DelAfter(t, w, Deliver(r, D.Call), q);
    assert w.dels[q].calls + [] == w.dels[q].calls;
  }

  lemma CallOnce(t: Topology, w: World, r: Rank, g: Request)
    requires Shufflers.Inv(t, w) && Worlds.Enabled(t, w, Deliver(r, D.Call)) && w.dels[r].deliverq[0] == g
    ensures !DeliveredOnce(w, g)
  {
    if DeliveredOnce(w, g) {
      var k: nat :| k < w.dels[g.dst].done && k < |w.dels[g.dst].calls| && w.dels[g.dst].calls[k] == g;
      var w' := Worlds.Apply(t, w, Deliver(r, D.Call));
      Shufflers.StepKeeps(t, w, Deliver(r, D.Call));
      CallGrows(t, w, r, g.dst);
      CallGrows(t, w, r, r);
      AtMostOnce(t, w', g.id, g.dst, k, r, |w.dels[r].calls|);
    }
  }

  lemma NotDrainedYet(t: Topology, ds: seq<State>, acts: seq<Drains.Action>, j: nat, n: nat, g: Request)
    requires Goes(t, ds, acts) && j < n < |acts| && acts[j] == Drains.Run(SendReq(g)) && Calls(ds[n], acts[n], g.dst, g)
    requires g.src in ds[j].pc && g.dst in ds[n].pc
    ensures !Reach(ds[n].pc[g.dst], Coming(ds[j].pc[g.src]), Drained(ds[0].flags))
  {
    if Reach(ds[n].pc[g.dst], Coming(ds[j].pc[g.src]), Drained(ds[0].flags)) {
      DrainDeliversFrom(t, ds, acts, j, n, g);
      StepsKeep(t, ds, acts, n);
      assert Step(t, ds[n], acts[n], ds[n + 1]);
      CallOnce(t, ds[n].w, g.dst, g);
    }
  }

  /** With the post barrier, when a write of epoch e is executed its destination is in epoch
      e, not yet drained, or still at the end of the epoch before, between its epoch flush and
      its own num_epochs++. */
  lemma ExecutedDuring(t: Topology, ds: seq<State>, acts: seq<Drains.Action>, j: nat, n: nat, g: Request, e: nat)
    requires Run(t, ds, acts) && Synced(ds[0].flags) && j < n < |acts|
    requires acts[j] == Drains.Run(SendReq(g)) && Calls(ds[n], acts[n], g.dst, g)
    requires ds[0].flags.post && g.src in ds[j].pc && ds[j].pc[g.src] == At(e, 0) && e > 0
    ensures g.dst in ds[n].pc
    ensures var a := ds[n].pc[g.dst];
            (a.epoch == e && a.ph < Drained(ds[0].flags)) || (a.epoch == e - 1 && a.ph >= 18)
  {
    RunKeeps(t, ds, acts, 0);
    RunKeeps(t, ds, acts, j);
    assert Step(t, ds[j], acts[j], ds[j + 1]);
    FlushedBefore(t, ds[j], g, e);
    ReachKept(t, ds, acts, j, n, g.dst, e - 1, 18);
    NotDrainedYet(t, ds, acts, j, n, g);
  }

  lemma FlushedBefore(t: Topology, d: State, g: Request, e: nat)
    requires Barriers(t, d.flags, d.pc) && d.flags.post && Drains.Enabled(t, d, Drains.Run(SendReq(g)))
    requires d.pc[g.src] == At(e, 0) && e > 0
    ensures g.dst in d.pc && Reach(d.pc[g.dst], e - 1, 18)
  {
    assert Reach(d.pc[g.src], e - 1, 19);
  }

  /** Under which epoch a write is filed is decided when it is sent: the callback files it
      under the receiver's num_epochs, and if the receiver has made the num_epochs++ of epoch
      e by the time a write of epoch e is sent to it, then however the run goes on it is
      executed while the receiver's num_epochs is still e. */
  lemma FiledRight(t: Topology, ds: seq<State>, acts: seq<Drains.Action>, j: nat, n: nat, g: Request, e: nat)
    requires Goes(t, ds, acts) && j < n < |acts| && acts[j] == Drains.Run(SendReq(g)) && Calls(ds[n], acts[n], g.dst, g)
    requires g.src in ds[j].pc && ds[j].pc[g.src] == At(e, 0) && g.dst in ds[j].pc && Reach(ds[j].pc[g.dst], e, 0)
    ensures g.dst in ds[n].pc && ds[n].pc[g.dst].epoch == e
  {
    ReachKept(t, ds, acts, j, n, g.dst, e, 0);
    NotDrainedYet(t, ds, acts, j, n, g);
  }
}
