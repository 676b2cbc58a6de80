/** A run of the three-hop shuffler in which a write is filed under the wrong epoch. */
module EarlyFiling {
  import opened Messages
  import opened Routing
  import opened Worlds
  import opened Shufflers
  import opened Drains
  import opened DrainRuns
  import OutQueues
  import Q = QueueLogs
  import O = OutSets
  import D = Deliveries

  ghost function Ranks(n: nat): (rs: set<Rank>)
    ensures forall r: Rank :: r in rs <==> r < n
  {
    if n == 0 then {} else Ranks(n - 1) + {n - 1}
  }

  /** The shuffler after `shuffler_init` on every rank. */
  ghost function FreshWorld(n: nat, c: OutQueues.Config, dc: D.Config): World {
    World(map r, k: Kind | r in Ranks(n) :: SetId(r, k) := FreshSet(n, c),
          map r | r in Ranks(n) :: D.EMPTYDQ, dc, map[], map[])
  }

  ghost function FreshSet(n: nat, c: OutQueues.Config): O.OutSet {
    O.OutSet(c, map p | p in Ranks(n) :: Q.EMPTYLOG, O.Idle, 0, false, false, 0, 0)
  }

  ghost function FreshState(n: nat, c: OutQueues.Config, dc: D.Config, flags: Flags): State {
    State(FreshWorld(n, c, dc), map r | r in Ranks(n) :: At(0, 19), map[], flags)
  }

  /** Runs exist, for every topology and every sensible configuration. */
  lemma StartExists(t: Topology, c: OutQueues.Config, dc: D.Config, flags: Flags)
    requires Contract(t) && c.maxoqrpc >= 1 && 0 <= dc.threshold < dc.max
    ensures Start(t, FreshState(t.n, c, dc, flags))
  {
    var w := FreshWorld(t.n, c, dc);
    forall s: SetId ensures s in w.sets <==> s.rank < t.n {
      assert s == SetId(s.rank, s.kind);
    }
    forall s | s in w.sets ensures w.sets[s] == FreshSet(t.n, c) {}
    forall s: SetId, p: Rank ensures HasQ(w, s, p) <==> s.rank < t.n && p < t.n {
      assert s in w.sets <==> s.rank < t.n;
    }
  }

  // ----- the run -----

  /** Two ranks on one node. */
  function Pair(): Topology {
    Topology(2, (r: Rank) => 0, (r: Rank, d: Rank) => if r == d then Done else IsLocal(d))
  }

  const QUEUES := OutQueues.Config(1, 0)
  const FLAGS := Flags(true, true, true)
  const DELIVERY := D.Config(1, 0)
  const WRITE := Request(0, 0, 1, 1, [7])
  const ORIGIN := SetId(0, Origin)
  const RPC := RpcId(ORIGIN, 1, 0)

  /** Rank 0, the sender, has opened its first epoch and rank 1 has not; nothing was sent. */
  ghost predicate Opened(d: State) {
    && d.flags.post && 0 in d.pc && d.pc[0] == At(1, 0) && 1 in d.pc && d.pc[1] == At(0, 19)
        && d.w == FreshWorld(2, QUEUES, DELIVERY)
  }

  ghost predicate Waiting(d: State) {
    d.flags.post && 1 in d.pc && d.pc[1] == At(0, 19) && 1 in d.w.dels && d.w.dels[1] == D.EMPTYDQ
        && d.w.dcfg == DELIVERY
  }

  ghost predicate Sent(d: State) {
    && Waiting(d) && HasQ(d.w, ORIGIN, 1) && LQ(d.w, ORIGIN, 1).q.outs == [OutQueues.Output(0, [WRITE], false)]
        && LQ(d.w, ORIGIN, 1).q.tracking == None
  }

  ghost predicate Flying(d: State) {
    Waiting(d) && RPC in d.w.rpcs && d.w.rpcs[RPC] == Rpc([WRITE], 0, None, {}, false, 0)
  }

  /** The write is at the front of rank 1's delivery queue, and rank 1 is still before its
      first num_epochs++. */
  ghost predicate Delivered(d: State) {
    && d.flags.post && 1 in d.pc && d.pc[1] == At(0, 19) && 1 in d.w.dels && d.w.dels[1].deliverq == [WRITE]
        && d.w.dels[1].thread.Awake?
  }

  lemma Opens(d: State) returns (d': State)
    requires d == FreshState(2, QUEUES, DELIVERY, FLAGS)
    ensures Step(Pair(), d, Next(0), d') && Opened(d')
  {
    assert Drains.Enabled(Pair(), d, Next(0));
    d' := Drains.Apply(Pair(), d, Next(0));
  }

  lemma Sends(d: State) returns (d': State)
    requires Opened(d)
    ensures Step(Pair(), d, Drains.Run(SendReq(WRITE)), d') && Sent(d')
  {
    assert ORIGIN in d.w.sets && d.w.sets[ORIGIN] == FreshSet(2, QUEUES);
    assert RouteSend(Pair(), 0, 1) == Via(ORIGIN, 1) && HasQ(d.w, ORIGIN, 1);
    d' := Drains.Apply(Pair(), d, Drains.Run(SendReq(WRITE)));
    SetAfter(Pair(), d.w, SendReq(WRITE), ORIGIN);
    DelAfter(Pair(), d.w, SendReq(WRITE), 1);
    assert [] + [WRITE] == [WRITE];
  }

  lemma Forwards(d: State) returns (d': State)
    requires Sent(d)
    ensures Step(Pair(), d, Drains.Run(Forward(ORIGIN, 1, 0)), d') && Flying(d')
  {
    assert Drains.Enabled(Pair(), d, Drains.Run(Forward(ORIGIN, 1, 0)));
    d' := Drains.Apply(Pair(), d, Drains.Run(Forward(ORIGIN, 1, 0)));
  }

  lemma Handles(d: State) returns (d': State)
    requires Flying(d)
    ensures Step(Pair(), d, Drains.Run(Handle(RPC)), d') && Delivered(d')
  {
    assert RouteRpc(Pair(), 1, 1, Origin) == ToSelf(1);
    d' := Drains.Apply(Pair(), d, Drains.Run(Handle(RPC)));
    DelAfter(Pair(), d.w, Handle(RPC), 1);
  }

  lemma Executes(d: State) returns (d': State)
    requires Delivered(d)
    ensures Step(Pair(), d, Drains.Run(Deliver(1, D.Call)), d') && Calls(d, Drains.Run(Deliver(1, D.Call)), 1, WRITE)
  {
    assert Drains.Enabled(Pair(), d, Drains.Run(Deliver(1, D.Call)));
    d' := Drains.Apply(Pair(), d, Drains.Run(Deliver(1, D.Call)));
  }

  lemma Snoc(t: Topology, ds: seq<State>, acts: seq<Drains.Action>, a: Drains.Action, d': State)
    requires Steps(t, ds, acts) && Step(t, ds[|acts|], a, d')
    ensures Steps(t, ds + [d'], acts + [a])
  {
    forall i | 0 <= i < |acts + [a]| ensures Step(t, (ds + [d'])[i], (acts + [a])[i], (ds + [d'])[i + 1]) {
      if i < |acts| {
        assert Step(t, ds[i], acts[i], ds[i + 1]);
      }
    }
  }

  lemma FirstSteps() returns (ds: seq<State>)
    ensures Steps(Pair(), ds, [Next(0), Drains.Run(SendReq(WRITE))]) && Start(Pair(), ds[0]) && ds[0].flags == FLAGS
    ensures Opened(ds[1]) && Sent(ds[2])
  {
    StartExists(Pair(), QUEUES, DELIVERY, FLAGS);
    var d0 := FreshState(2, QUEUES, DELIVERY, FLAGS);
    var d1 := Opens(d0);
    var d2 := Sends(d1);
    Snoc(Pair(), [d0], [], Next(0), d1);
    Snoc(Pair(), [d0] + [d1], [] + [Next(0)], Drains.Run(SendReq(WRITE)), d2);
    ds := [d0] + [d1] + [d2];
    assert [] + [Next(0)] + [Drains.Run(SendReq(WRITE))] == [Next(0), Drains.Run(SendReq(WRITE))];
  }

  lemma MoreSteps(ds: seq<State>, acts: seq<Drains.Action>) returns (ds': seq<State>)
    requires Steps(Pair(), ds, acts) && Sent(ds[|acts|])
    ensures Steps(Pair(), ds', acts + [Drains.Run(Forward(ORIGIN, 1, 0)), Drains.Run(Handle(RPC))])
    ensures ds <= ds' && Delivered(ds'[|acts| + 2])
  {
    var d3 := Forwards(ds[|acts|]);
    var d4 := Handles(d3);
    Snoc(Pair(), ds, acts, Drains.Run(Forward(ORIGIN, 1, 0)), d3);
    Snoc(Pair(), ds + [d3], acts + [Drains.Run(Forward(ORIGIN, 1, 0))], Drains.Run(Handle(RPC)), d4);
    ds' := ds + [d3] + [d4];
    assert acts + [Drains.Run(Forward(ORIGIN, 1, 0))] + [Drains.Run(Handle(RPC))]
        == acts + [Drains.Run(Forward(ORIGIN, 1, 0)), Drains.Run(Handle(RPC))];
  }

  /** With the post barrier on, a write sent in epoch 1 is executed by a rank whose own
      num_epochs is still 0: nothing orders the sender's first write after the receiver's
      increment, and the three-hop shuffler files writes under the receiver's counter. */
  lemma FiledEarly() returns (t: Topology, ds: seq<State>, acts: seq<Drains.Action>)
    ensures DrainRuns.Run(t, ds, acts) && |acts| == 5 && ds[0].flags == FLAGS
    ensures acts[1] == Drains.Run(SendReq(WRITE)) && Opened(ds[1])
    ensures Calls(ds[4], acts[4], WRITE.dst, WRITE) && Delivered(ds[4])
  {
    t := Pair();
    var two := FirstSteps();
    acts := [Next(0), Drains.Run(SendReq(WRITE))];
    var four := MoreSteps(two, acts);
    acts := acts + [Drains.Run(Forward(ORIGIN, 1, 0)), Drains.Run(Handle(RPC))];
    var d5 := Executes(four[4]);
    Snoc(t, four, acts, Drains.Run(Deliver(1, D.Call)), d5);
    ds, acts := four + [d5], acts + [Drains.Run(Deliver(1, D.Call))];
  }
}
