/** Under which epoch the three-hop shuffler files a write: decided when it is sent. */
module Filing {
  import opened Messages
  import opened Routing
  import opened Worlds
  import opened Places
  import opened Shufflers
  import opened Progress
  import opened Drains
  import opened DrainRuns
  import opened Trails
  import D = Deliveries

  // ----- from the shuffler's steps to steps of the job -----

  /** The state with another world and other stamps. */
  ghost predicate SamePlace(d: State, d': State, w: World) {
    d'.w == w && d'.pc == d.pc && d'.flags == d.flags
  }

  lemma LiftStep(t: Topology, src: Rank, dst: Rank, d: State, a: Worlds.Action, w': World) returns (d': State)
    requires FreeStep(t, src, dst, d.w, a, w') && src in d.pc
    ensures Step(t, d, Drains.Run(a), d') && SamePlace(d, d', w')
  {
    assert Background(a);
    d' := Drains.Apply(t, d, Drains.Run(a));
  }

  /** The run of the job that makes these steps of the shuffler while no rank makes a call. */
  ghost predicate Lifted(
      t: Topology, d: State, ws: seq<World>, acts: seq<Worlds.Action>, ds: seq<State>, bs: seq<Drains.Action>)
    requires |ws| == |acts| + 1
  {
    && Steps(t, ds, bs) && |bs| == |acts| && ds[0] == d
    && (forall i :: 0 <= i < |acts| ==> bs[i] == Drains.Run(acts[i]))
    && (forall i :: 0 <= i < |ws| ==> SamePlace(d, ds[i], ws[i]))
  }

  lemma StepsCons(t: Topology, d: State, a: Drains.Action, ds: seq<State>, bs: seq<Drains.Action>)
    requires Steps(t, ds, bs) && Step(t, d, a, ds[0])
    ensures Steps(t, [d] + ds, [a] + bs)
  {
    var ds', bs' := [d] + ds, [a] + bs;
    forall i | 0 <= i < |bs'| ensures Step(t, ds'[i], bs'[i], ds'[i + 1]) {
      if i > 0 {
        assert Step(t, ds[i - 1], bs[i - 1], ds[i]);
      }
    }
  }

  lemma LiftCons(
      t: Topology, d: State, a: Worlds.Action, d1: State, ws: seq<World>, acts: seq<Worlds.Action>,
      ds: seq<State>, bs: seq<Drains.Action>)
    requires Step(t, d, Drains.Run(a), d1) && |ws| == |acts| + 1 && SamePlace(d, d1, ws[0])
    requires Lifted(t, d1, ws, acts, ds, bs)
    ensures Lifted(t, d, [d.w] + ws, [a] + acts, [d] + ds, [Drains.Run(a)] + bs)
  {
    var ws', ds' := [d.w] + ws, [d] + ds;
    StepsCons(t, d, Drains.Run(a), ds, bs);
    forall i | 0 <= i < |ws'| ensures SamePlace(d, ds'[i], ws'[i]) {
      if i > 0 {
        assert SamePlace(d1, ds[i - 1], ws[i - 1]);
      }
    }
  }

  lemma {:induction false} Lift(
      t: Topology, src: Rank, dst: Rank, d: State, ws: seq<World>, acts: seq<Worlds.Action>)
      returns (ds: seq<State>, bs: seq<Drains.Action>)
    requires FreeRun(t, src, dst, ws, acts) && d.w == ws[0] && src in d.pc
    ensures Lifted(t, d, ws, acts, ds, bs)
    decreases |acts|
  {
    if acts == [] {
      ds, bs := [d], [];
    } else {
      assert FreeStep(t, src, dst, ws[0], acts[0], ws[1]);
      var d1 := LiftStep(t, src, dst, d, acts[0], ws[1]);
      assert FreeRun(t, src, dst, ws[1..], acts[1..]);
      var ds1, bs1 := Lift(t, src, dst, d1, ws[1..], acts[1..]);
      LiftCons(t, d, acts[0], d1, ws[1..], acts[1..], ds1, bs1);
      assert [d.w] + ws[1..] == ws && [acts[0]] + acts[1..] == acts;
      ds, bs := [d] + ds1, [Drains.Run(acts[0])] + bs1;
    }
  }

  // ----- the moment of the call -----

  lemma CallHappens(t: Topology, w: World, a: Worlds.Action, w': World, g: Request)
    requires Worlds.Enabled(t, w, a) && w' == Worlds.Apply(t, w, a) && g.dst in w.dels
    requires !Called(w, g) && Called(w', g)
    ensures a == Deliver(g.dst, D.Call) && w.dels[g.dst].deliverq != [] && w.dels[g.dst].deliverq[0] == g
  {
    DelAfter(t, w, a, g.dst);
  }

  lemma {:induction false} FirstCall(t: Topology, src: Rank, ws: seq<World>, acts: seq<Worlds.Action>, g: Request)
      returns (n: nat)
    requires FreeRun(t, src, g.dst, ws, acts) && g.dst in ws[0].dels && !Called(ws[0], g) && Called(ws[|acts|], g)
    ensures n < |acts| && acts[n] == Deliver(g.dst, D.Call)
    ensures g.dst in ws[n].dels && ws[n].dels[g.dst].deliverq != [] && ws[n].dels[g.dst].deliverq[0] == g
    decreases |acts|
  {
    assert FreeStep(t, src, g.dst, ws[0], acts[0], ws[1]);
    if Called(ws[1], g) {
      CallHappens(t, ws[0], acts[0], ws[1], g);
      n := 0;
    } else {
      DelAfter(t, ws[0], acts[0], g.dst);
      var m := FirstCall(t, src, ws[1..], acts[1..], g);
      n := m + 1;
    }
  }

  // ----- the condition -----

  /** However the run goes on after `g` is sent, when it is passed to the callback the
      receiver's num_epochs is `e`. */
  ghost predicate AlwaysFiled(t: Topology, d: State, g: Request, e: nat) {
    forall ds: seq<State>, acts: seq<Drains.Action>, n: nat ::
      Steps(t, ds, acts) && n < |acts| && ds[0] == d && acts[0] == Drains.Run(SendReq(g))
      && Calls(ds[n], acts[n], g.dst, g) && g.dst in ds[n].pc
      ==> ds[n].pc[g.dst].epoch == e
  }

  lemma NotCalledYet(t: Topology, w: World, g: Request)
    requires Shufflers.Inv(t, w) && g.id !in w.loc
    ensures !Called(w, g)
  {
    if Called(w, g) {
      var k: nat :| k < |w.dels[g.dst].calls| && w.dels[g.dst].calls[k] == g;
      CallLocated(t, w, g.dst, k);
    }
  }

  /** The write is sent and gets to the callback while no rank makes a call. */
  lemma QuickCall(t: Topology, d: State, g: Request)
      returns (ws: seq<World>, acts: seq<Worlds.Action>)
    requires Shufflers.Inv(t, d.w) && Worlds.Enabled(t, d.w, SendReq(g))
    ensures FreeRun(t, g.src, g.dst, ws, acts) && ws[0] == d.w && acts != [] && acts[0] == SendReq(g)
    ensures Called(ws[|acts|], g)
  {
    var w1 := Worlds.Apply(t, d.w, SendReq(g));
    Shufflers.StepKeeps(t, d.w, SendReq(g));
    TrailStarts(t, d.w, g, w1);
    var w2 := CanBeCalled(t, d.w, w1, g);
    var vs: seq<World>, bs: seq<Worlds.Action> :|
      FreeRun(t, g.src, g.dst, vs, bs) && vs[0] == w1 && vs[|bs|] == w2;
    FreeCons(t, g.src, g.dst, d.w, SendReq(g), vs, bs);
    ws, acts := [d.w] + vs, [SendReq(g)] + bs;
  }

  lemma NotAlways(t: Topology, d: State, g: Request, e: nat, ds: seq<State>, acts: seq<Drains.Action>, n: nat)
    requires Steps(t, ds, acts) && n < |acts| && ds[0] == d && acts[0] == Drains.Run(SendReq(g))
    requires Calls(ds[n], acts[n], g.dst, g) && g.dst in ds[n].pc && ds[n].pc[g.dst].epoch != e
    ensures !AlwaysFiled(t, d, g, e)
  {
  }

  /** If the receiver's num_epochs is another one when the write is sent, there is a
      continuation in which the write is filed under that. */
  lemma FiledWrong(t: Topology, d: State, g: Request, e: nat)
    requires JobInv(t, d) && Drains.Enabled(t, d, Drains.Run(SendReq(g))) && d.pc[g.dst].epoch != e
    ensures !AlwaysFiled(t, d, g, e)
  {
    NotCalledYet(t, d.w, g);
    var ws, bs := QuickCall(t, d, g);
    var n := FirstCall(t, g.src, ws, bs, g);
    var ds, acts := Lift(t, g.src, g.dst, d, ws, bs);
    assert SamePlace(d, ds[n], ws[n]);
    NotAlways(t, d, g, e, ds, acts, n);
  }

  /** With the pre barrier or the barrier of opendir on, in any state a run can reach: a write
      that is now sent in epoch e is filed under e however the run goes on, if and only if its
      destination's num_epochs is e now. */
  lemma FiledIff(t: Topology, d: State, g: Request, e: nat)
    requires Drains.Inv(t, d) && Drains.Enabled(t, d, Drains.Run(SendReq(g))) && d.pc[g.src] == At(e, 0)
    ensures AlwaysFiled(t, d, g, e) <==> d.pc[g.dst].epoch == e
  {
    if d.pc[g.dst].epoch == e {
      forall ds: seq<State>, acts: seq<Drains.Action>, n: nat |
        Steps(t, ds, acts) && n < |acts| && ds[0] == d && acts[0] == Drains.Run(SendReq(g))
        && Calls(ds[n], acts[n], g.dst, g) && g.dst in ds[n].pc
        ensures ds[n].pc[g.dst].epoch == e
      {
        FiledRight(t, ds, acts, 0, n, g, e);
      }
    } else {
      FiledWrong(t, d, g, e);
    }
  }
}
