/** Which barriers the three-hop drain needs. */
module DrainBarriers {
  import opened Messages
  import opened Routing
  import opened Worlds
  import opened Places
  import opened Shufflers
  import opened Drains
  import opened Progress
  import opened DrainRuns
  import opened Ranking
  import opened DrainProgress
  import opened Trails
  import opened Filing
  import EarlyFiling
  import OutQueues
  import D = Deliveries

  /** In every run with these flags, over every topology, what was sent before a drain is
      delivered when the destination has come to the end of that drain. */
  ghost predicate DrainWorks(f: Flags) {
    forall t: Topology, ds: seq<State>, acts: seq<Drains.Action>, j: nat, n: nat, g: Request ::
      DrainRuns.Run(t, ds, acts) && ds[0].flags == f && Sends(t, ds, acts, j, n, g, Drained(f))
      ==> DeliveredOnce(ds[n].w, g)
  }

  /** `g` is sent at moment `j`, and at moment `n` its destination has come to phase `p` of the
      drain it is due in. */
  ghost predicate Sends(
      t: Topology, ds: seq<State>, acts: seq<Drains.Action>, j: nat, n: nat, g: Request, p: Phase)
  {
    && j < n < |ds| && j < |acts| && acts[j] == Drains.Run(SendReq(g)) && g.src in ds[j].pc && g.dst in ds[n].pc
    && Reach(ds[n].pc[g.dst], Coming(ds[j].pc[g.src]), p)
  }

  // ----- without them a rank drains alone -----

  /** Rank `r` is alone on its node, and in epoch 1 or about to open it; rank `q` is writing in
      epoch 1. */
  ghost predicate Solo(t: Topology, d: State, q: Rank, r: Rank) {
    && q < t.n && r < t.n && q != r && q in d.pc && r in d.pc && !Synced(d.flags) && d.pc[q] == At(1, 0)
    && (forall x: Rank :: x < t.n && t.node(x) == t.node(r) ==> x == r)
    && (d.pc[r] == At(0, 19) || (d.pc[r].epoch == 1 && d.pc[r].ph <= 17))
  }

  /** Nothing but its own flush holds rank `r` up. */
  lemma SoloNext(t: Topology, d: State, q: Rank, r: Rank) returns (a: Drains.Action)
    requires JobInv(t, d) && Solo(t, d, q, r) && !Reach(d.pc[r], 1, 17)
    ensures Drains.Enabled(t, d, a) && Toward(d, a, 1) && (a.Next? ==> a.r == r)
  {
    CallGoesOn(t, d, r);
    if Moving(t, d.w) {
      var b :| Internal(b) && Worlds.Enabled(t, d.w, b);
      a := Drains.Run(b);
    } else {
      a := Next(r);
    }
  }

  lemma SoloKept(t: Topology, d: State, q: Rank, r: Rank, a: Drains.Action, d': State)
    requires Solo(t, d, q, r) && Step(t, d, a, d') && Toward(d, a, 1) && (a.Next? ==> a.r == r)
    ensures Solo(t, d', q, r)
  {
  }

  lemma SoloStep(t: Topology, d: State, q: Rank, r: Rank) returns (a: Drains.Action, d': State)
    requires JobInv(t, d) && Solo(t, d, q, r) && !Reach(d.pc[r], 1, 17)
    ensures Step(t, d, a, d') && Toward(d, a, 1) && Solo(t, d', q, r)
    ensures JobInv(t, d') && Budget(t, d', 1) < Budget(t, d, 1)
  {
    a := SoloNext(t, d, q, r);
    d' := Drains.Apply(t, d, a);
    SoloKept(t, d, q, r, a, d');
    BudgetStep(t, d, a, d', 1);
  }

  lemma {:induction false} DrainsAlone(t: Topology, d: State, q: Rank, r: Rank)
      returns (ds: seq<State>, acts: seq<Drains.Action>)
    requires JobInv(t, d) && Solo(t, d, q, r)
    ensures DrainRun(t, ds, acts, 1) && ds[0] == d
    ensures JobInv(t, ds[|acts|]) && Solo(t, ds[|acts|], q, r) && Reach(ds[|acts|].pc[r], 1, 17)
    decreases Budget(t, d, 1)
  {
    if Reach(d.pc[r], 1, 17) {
      ds, acts := [d], [];
    } else {
      var a, d' := SoloStep(t, d, q, r);
      var ds', acts' := DrainsAlone(t, d', q, r);
      Cons(t, d, a, ds', acts', 1);
      ds, acts := [d] + ds', [a] + acts';
    }
  }

  /** Two ranks on two nodes. */
  function Apart(): (t: Topology)
    ensures t.n == 2 && t.node(0) != t.node(1)
  {
    Topology(2, (r: Rank) => r, (r: Rank, d: Rank) => if r == d then Done else DestRep(d))
  }

  lemma ApartContract()
    ensures Contract(Apart())
  {
  }

  lemma SoloOpens(t: Topology, d: State, d1: State)
    requires t.n == 2 && t.node(0) != t.node(1) && Start(t, d) && !Synced(d.flags)
    requires Step(t, d, Next(0), d1)
    ensures Solo(t, d1, 0, 1) && Toward(d, Next(0), 1)
  {
  }

  lemma CanOpen(t: Topology, d: State)
    requires t.n == 2 && Start(t, d)
    ensures Drains.Enabled(t, d, Next(0))
  {
  }

  /** Rank 0 opens epoch 1. */
  lemma Opens(t: Topology, f: Flags) returns (d: State, d1: State)
    requires t.n == 2 && t.node(0) != t.node(1) && Contract(t) && !Synced(f)
    ensures Start(t, d) && d.flags == f && Step(t, d, Next(0), d1) && Toward(d, Next(0), 1)
    ensures JobInv(t, d1) && Solo(t, d1, 0, 1)
  {
    EarlyFiling.StartExists(t, OutQueues.Config(1, 0), D.Config(1, 0), f);
    d := EarlyFiling.FreshState(2, OutQueues.Config(1, 0), D.Config(1, 0), f);
    CanOpen(t, d);
    d1 := Drains.Apply(t, d, Next(0));
    StartJob(t, d);
    StepJob(t, d, Next(0), d1);
    SoloOpens(t, d, d1);
  }

  /** Rank 1 has drained epoch 1 while rank 0 is still writing. */
  lemma RunsAhead(t: Topology, f: Flags) returns (ds: seq<State>, acts: seq<Drains.Action>)
    requires t.n == 2 && t.node(0) != t.node(1) && Contract(t) && !Synced(f)
    ensures DrainRuns.Run(t, ds, acts) && ds[0].flags == f
    ensures JobInv(t, ds[|acts|]) && Solo(t, ds[|acts|], 0, 1) && Reach(ds[|acts|].pc[1], 1, 17)
  {
    var d, d1 := Opens(t, f);
    ds, acts := DrainsAlone(t, d1, 0, 1);
    Cons(t, d, Next(0), ds, acts, 1);
    ds, acts := [d] + ds, [Next(0)] + acts;
  }

  lemma NewWrite(t: Topology, w: World, q: Rank, r: Rank) returns (g: Request)
    requires Shufflers.Inv(t, w) && q < t.n && r < t.n
    ensures g.src == q && g.dst == r && Worlds.Enabled(t, w, SendReq(g))
  {
    var id := Unused(w.loc.Keys);
    assert id !in w.loc.Keys;
    g := Request(id, q, r, 0, [0]);
    SendTarget(t, g);
    TargetsExist(t, w, g, RouteSend(t, q, r));
  }

  lemma NotDelivered(t: Topology, w: World, g: Request)
    requires Shufflers.Inv(t, w) && Worlds.Enabled(t, w, SendReq(g))
    ensures !DeliveredOnce(Worlds.Apply(t, w, SendReq(g)), g)
  {
    NotCalledYet(t, w, g);
    if Called(Worlds.Apply(t, w, SendReq(g)), g) {
      CallHappens(t, w, SendReq(g), Worlds.Apply(t, w, SendReq(g)), g);
    }
  }

  /** Rank 0 sends one more write. */
  lemma SendsOne(t: Topology, d: State) returns (g: Request, d': State)
    requires JobInv(t, d) && Solo(t, d, 0, 1)
    ensures g.src == 0 && g.dst == 1 && Step(t, d, Drains.Run(SendReq(g)), d') && d'.pc == d.pc
    ensures !DeliveredOnce(d'.w, g)
  {
    g := NewWrite(t, d.w, 0, 1);
    assert Drains.Enabled(t, d, Drains.Run(SendReq(g)));
    d' := Drains.Apply(t, d, Drains.Run(SendReq(g)));
    NotDelivered(t, d.w, g);
  }

  lemma NotWorks(t: Topology, ds: seq<State>, acts: seq<Drains.Action>, j: nat, n: nat, g: Request)
    requires DrainRuns.Run(t, ds, acts) && Sends(t, ds, acts, j, n, g, Drained(ds[0].flags))
    requires !DeliveredOnce(ds[n].w, g)
    ensures !DrainWorks(ds[0].flags)
  {
  }

  lemma BreaksWith(
      t: Topology, f: Flags, ds: seq<State>, acts: seq<Drains.Action>, g: Request, d': State)
    requires DrainRuns.Run(t, ds, acts) && ds[0].flags == f && !Synced(f)
    requires Step(t, ds[|acts|], Drains.Run(SendReq(g)), d') && !DeliveredOnce(d'.w, g) && d'.pc == ds[|acts|].pc
    requires g.src in d'.pc && d'.pc[g.src] == At(1, 0) && g.dst in d'.pc && Reach(d'.pc[g.dst], 1, 17)
    ensures !DrainWorks(f)
  {
    var n := |acts|;
    EarlyFiling.Snoc(t, ds, acts, Drains.Run(SendReq(g)), d');
    var ds', acts' := ds + [d'], acts + [Drains.Run(SendReq(g))];
    assert ds'[0] == ds[0] && ds'[n] == ds[n] && ds'[n + 1] == d' && acts'[n] == Drains.Run(SendReq(g));
    NotWorks(t, ds', acts', n, n + 1, g);
  }

  lemma Breaks(t: Topology, f: Flags)
    requires t.n == 2 && t.node(0) != t.node(1) && Contract(t) && !Synced(f)
    ensures !DrainWorks(f)
  {
    var ds, acts := RunsAhead(t, f);
    var g, d' := SendsOne(t, ds[|acts|]);
    BreaksWith(t, f, ds, acts, g, d');
  }

  /** Every drain delivers everything if and only if the pre barrier or the barrier of opendir
      is on. */
  lemma DrainIff(f: Flags)
    ensures DrainWorks(f) <==> Synced(f)
  {
    if Synced(f) {
      forall t: Topology, ds: seq<State>, acts: seq<Drains.Action>, j: nat, n: nat, g: Request |
        DrainRuns.Run(t, ds, acts) && ds[0].flags == f && Sends(t, ds, acts, j, n, g, Drained(f))
        ensures DeliveredOnce(ds[n].w, g)
      {
        DrainDelivers(t, ds, acts, j, n, g);
      }
    } else {
      ApartContract();
      Breaks(Apart(), f);
    }
  }
}
