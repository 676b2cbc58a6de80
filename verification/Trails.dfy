/** The way a request takes, and how requests that take the same way push each other on:
    without any flush, every request can be brought to its destination's callback. */
module Trails {
  import opened Messages
  import opened Routing
  import opened Worlds
  import opened Acks
  import opened Places
  import opened Shufflers
  import opened Progress
  import opened Sums
  import opened Ranking
  import OutQueues
  import Q = QueueLogs
  import O = OutSets
  import D = Deliveries

  // ----- the way of a request -----

  /** Where a request from `src` to `dst` is put by its sender (0) and by each handler. */
  function HopNo(t: Topology, src: Rank, dst: Rank, i: nat): Target {
    if i == 0 then RouteSend(t, src, dst)
    else
      var h := HopNo(t, src, dst, i - 1);
      if h.Via? then RouteRpc(t, h.peer, dst, h.set_.kind) else h
  }

  lemma {:induction false} StaysThere(t: Topology, src: Rank, dst: Rank, i: nat, j: nat)
    requires i <= j && !HopNo(t, src, dst, i).Via?
    ensures HopNo(t, src, dst, j) == HopNo(t, src, dst, i)
    decreases j
  {
    if i < j {
      StaysThere(t, src, dst, i, j - 1);
    }
  }

  predicate AtHop(l: Loc, h: Target) {
    match l
    case AtQueue(s, p, k) => h == Via(s, p)
    case AtDelivery(r, k) => h == ToSelf(r)
  }

  /** Queue `h`, if it is one, has accepted `x` since `base`. */
  ghost predicate Visited(base: World, w: World, x: Request, h: Target) {
    h.Via? ==> exists k: nat :: NewAt(base, w, x, AtQueue(h.set_, h.peer, k))
  }

  ghost predicate NewAt(base: World, w: World, x: Request, l: Loc) {
    LocValid(w, l) && !LocValid(base, l) && ReqAt(w, l) == x
  }

  /** `x` is at hop `i` of its way, and came through the hops before, all since `base`. */
  ghost predicate TrailTo(t: Topology, base: World, w: World, x: Request, i: nat) {
    && Carried(w, x) && AtHop(w.loc[x.id], HopNo(t, x.src, x.dst, i))
    && (forall j: nat :: j <= i ==> Visited(base, w, x, HopNo(t, x.src, x.dst, j)))
  }

  ghost predicate OnTrail(t: Topology, base: World, w: World, x: Request) {
    && (forall l :: LocValid(base, l) ==> LocValid(w, l))
    && exists i: nat :: TrailTo(t, base, w, x, i)
  }

  lemma VisitedKept(base: World, w: World, w': World, x: Request, h: Target, fresh_: Option<Loc>)
    requires Visited(base, w, x, h) && Extends(w, w', fresh_)
    ensures Visited(base, w', x, h)
  {
    if h.Via? {
      var k: nat :| NewAt(base, w, x, AtQueue(h.set_, h.peer, k));
      assert NewAt(base, w', x, AtQueue(h.set_, h.peer, k));
    }
  }

  lemma VisitsKept(t: Topology, base: World, w: World, w': World, x: Request, i: nat, fresh_: Option<Loc>)
    requires TrailTo(t, base, w, x, i) && Extends(w, w', fresh_)
    ensures forall j: nat :: j <= i ==> Visited(base, w', x, HopNo(t, x.src, x.dst, j))
  {
    forall j: nat | j <= i ensures Visited(base, w', x, HopNo(t, x.src, x.dst, j)) {
      VisitedKept(base, w, w', x, HopNo(t, x.src, x.dst, j), fresh_);
    }
  }

  /** `x` was put at the next hop. */
  lemma TrailMoves(t: Topology, base: World, w: World, w': World, x: Request, i: nat, tgt: Target)
    requires TrailTo(t, base, w, x, i) && tgt == HopNo(t, x.src, x.dst, i + 1) && TargetExists(w, tgt)
    requires Puts(w, w', x, NextLoc(w, tgt)) && (forall l :: LocValid(base, l) ==> LocValid(w, l))
    ensures TrailTo(t, base, w', x, i + 1)
  {
    var l := NextLoc(w, tgt);
    VisitsKept(t, base, w, w', x, i, Some(l));
    assert NewAt(base, w', x, l);
  }

  lemma TrailStays(t: Topology, base: World, w: World, w': World, x: Request, i: nat, fresh_: Option<Loc>)
    requires TrailTo(t, base, w, x, i) && Extends(w, w', fresh_) && x.id in w'.loc && w'.loc[x.id] == w.loc[x.id]
    ensures TrailTo(t, base, w', x, i)
  {
    VisitsKept(t, base, w, w', x, i, fresh_);
  }

  /** A handler takes `x` up. */
  lemma TrailHandle(t: Topology, base: World, w: World, x: Request, i: nat, id: RpcId)
    requires Inv(t, w) && Enabled(t, w, Handle(id)) && TrailTo(t, base, w, x, i)
    requires Moved(t, w, Handle(id)).value.0.id == x.id
    ensures Moved(t, w, Handle(id)).value == (x, HopNo(t, x.src, x.dst, i + 1))
    ensures w.loc[x.id] == SourceLoc(w, id)
  {
    HandleRoute(t, w, id);
  }

  lemma TrailAfter(t: Topology, base: World, w: World, w': World, m: Option<(Request, Target)>, x: Request, i: nat)
    requires TrailTo(t, base, w, x, i) && Moves(t, w, w', m) && (forall l :: LocValid(base, l) ==> LocValid(w, l))
    requires m.Some? && m.value.0.id == x.id ==> m.value == (x, HopNo(t, x.src, x.dst, i + 1))
    ensures OnTrail(t, base, w', x)
  {
    if m.Some? && m.value.0.id == x.id {
      TrailMoves(t, base, w, w', x, i, m.value.1);
    } else {
      TrailStays(t, base, w, w', x, i, if m.Some? then Some(NextLoc(w, m.value.1)) else None);
    }
  }

  lemma TrailStep(t: Topology, base: World, w: World, a: Action, x: Request, w': World)
    requires Inv(t, w) && Enabled(t, w, a) && w' == Apply(t, w, a) && OnTrail(t, base, w, x)
    ensures OnTrail(t, base, w', x)
  {
    var i: nat :| TrailTo(t, base, w, x, i);
    StepMoves(t, w, a);
    if a.Handle? && Moved(t, w, a).value.0.id == x.id {
      TrailHandle(t, base, w, x, i, a.id);
    }
    TrailAfter(t, base, w, w', Moved(t, w, a), x, i);
  }

  lemma TrailPut(t: Topology, w: World, w': World, x: Request, h: Target)
    requires h == HopNo(t, x.src, x.dst, 0) && TargetExists(w, h) && Puts(w, w', x, NextLoc(w, h))
    ensures OnTrail(t, w, w', x)
  {
    assert NewAt(w, w', x, NextLoc(w, h));
    assert TrailTo(t, w, w', x, 0);
  }

  lemma TrailStarts(t: Topology, w: World, x: Request, w': World)
    requires Inv(t, w) && Enabled(t, w, SendReq(x)) && w' == Apply(t, w, SendReq(x))
    ensures OnTrail(t, w, w', x)
  {
    StepMoves(t, w, SendReq(x));
    TrailPut(t, w, w', x, RouteSend(t, x.src, x.dst));
  }

  lemma StageMoves(t: Topology, w: World, w': World, m: Option<(Request, Target)>, x: Request)
    requires Carried(w, x) && Moves(t, w, w', m)
    requires m.Some? && m.value.0.id == x.id && m.value.1.Via? ==> Stage(m.value.1.set_.kind) > LocStage(w.loc[x.id])
    requires m.Some? && m.value.0.id == x.id ==> w.loc[x.id].AtQueue?
    ensures x.id in w'.loc && (w'.loc[x.id] == w.loc[x.id] || LocStage(w'.loc[x.id]) > LocStage(w.loc[x.id]))
  {
  }

  /** A request that moves at all moves to a later stage. */
  lemma StageStep(t: Topology, w: World, a: Action, x: Request, w': World)
    requires Inv(t, w) && Enabled(t, w, a) && w' == Apply(t, w, a) && Carried(w, x)
    ensures x.id in w'.loc && (w'.loc[x.id] == w.loc[x.id] || LocStage(w'.loc[x.id]) > LocStage(w.loc[x.id]))
  {
    StepMoves(t, w, a);
    if a.Handle? {
      HandleRoute(t, w, a.id);
    }
    StageMoves(t, w, w', Moved(t, w, a), x);
  }

  // ----- runs without flushes -----

  /** Steps the shuffler takes by itself, more writes from `src` to `dst`, and a wakeup of the
      delivery thread of `dst`. */
  predicate Free(a: Action, src: Rank, dst: Rank) {
    Internal(a) || (a.SendReq? && a.g.src == src && a.g.dst == dst) || a == Deliver(dst, D.Wake)
  }

  ghost predicate FreeStep(t: Topology, src: Rank, dst: Rank, w: World, a: Action, w': World) {
    Free(a, src, dst) && Enabled(t, w, a) && w' == Apply(t, w, a)
  }

  ghost predicate FreeRun(t: Topology, src: Rank, dst: Rank, ws: seq<World>, acts: seq<Action>) {
    |ws| == |acts| + 1 && forall i :: 0 <= i < |acts| ==> FreeStep(t, src, dst, ws[i], acts[i], ws[i + 1])
  }

  /** Some such run leads from `w` to `w'`. */
  ghost predicate Leads(t: Topology, src: Rank, dst: Rank, w: World, w': World) {
    exists ws: seq<World>, acts: seq<Action> ::
      FreeRun(t, src, dst, ws, acts) && ws[0] == w && ws[|acts|] == w'
  }

  lemma LeadsSelf(t: Topology, src: Rank, dst: Rank, w: World)
    ensures Leads(t, src, dst, w, w)
  {
    assert FreeRun(t, src, dst, [w], []);
  }

  lemma FreeCons(t: Topology, src: Rank, dst: Rank, w: World, a: Action, ws: seq<World>, acts: seq<Action>)
    requires FreeRun(t, src, dst, ws, acts) && FreeStep(t, src, dst, w, a, ws[0])
    ensures FreeRun(t, src, dst, [w] + ws, [a] + acts)
  {
    var ws', acts' := [w] + ws, [a] + acts;
    forall i | 0 <= i < |acts'| ensures FreeStep(t, src, dst, ws'[i], acts'[i], ws'[i + 1]) {
      if i > 0 {
        assert FreeStep(t, src, dst, ws[i - 1], acts[i - 1], ws[i]);
      }
    }
  }

  lemma LeadsMore(t: Topology, src: Rank, dst: Rank, w: World, a: Action, w1: World, w': World)
    requires FreeStep(t, src, dst, w, a, w1) && Leads(t, src, dst, w1, w')
    ensures Leads(t, src, dst, w, w')
  {
    var ws: seq<World>, acts: seq<Action> :|
      FreeRun(t, src, dst, ws, acts) && ws[0] == w1 && ws[|acts|] == w';
    FreeCons(t, src, dst, w, a, ws, acts);
    assert ([w] + ws)[0] == w && ([w] + ws)[|[a] + acts|] == w';
  }

  lemma {:induction false} LeadsThen(
      t: Topology, src: Rank, dst: Rank, ws: seq<World>, acts: seq<Action>, w': World)
    requires FreeRun(t, src, dst, ws, acts) && Leads(t, src, dst, ws[|acts|], w')
    ensures Leads(t, src, dst, ws[0], w')
    decreases |acts|
  {
    if acts != [] {
      assert FreeStep(t, src, dst, ws[0], acts[0], ws[1]);
      LeadsThen(t, src, dst, ws[1..], acts[1..], w');
      LeadsMore(t, src, dst, ws[0], acts[0], ws[1], w');
    }
  }

  lemma LeadsTrans(t: Topology, src: Rank, dst: Rank, w: World, w1: World, w2: World)
    requires Leads(t, src, dst, w, w1) && Leads(t, src, dst, w1, w2)
    ensures Leads(t, src, dst, w, w2)
  {
    var ws: seq<World>, acts: seq<Action> :|
      FreeRun(t, src, dst, ws, acts) && ws[0] == w && ws[|acts|] == w1;
    LeadsThen(t, src, dst, ws, acts, w2);
  }

  /** Left to itself the shuffler comes to rest, and whatever its steps keep holds there. */
  lemma {:induction false} ToRest(t: Topology, src: Rank, dst: Rank, w: World, p: World -> bool) returns (w': World)
    requires Inv(t, w) && p(w)
    requires forall v, a, v' :: Inv(t, v) && p(v) && Internal(a) && FreeStep(t, src, dst, v, a, v') ==> p(v')
    ensures Leads(t, src, dst, w, w') && Inv(t, w') && !Moving(t, w') && p(w')
    decreases Work(w)
  {
    if Moving(t, w) {
      var a, w1 := OneStep(t, w);
      assert FreeStep(t, src, dst, w, a, w1);
      w' := ToRest(t, src, dst, w1, p);
      LeadsMore(t, src, dst, w, a, w1, w');
    } else {
      w' := w;
      LeadsSelf(t, src, dst, w);
    }
  }

  // ----- what is left in the queues at rest -----

  lemma {:induction false} SizeAtLeast(rs: seq<Request>, i: nat)
    requires i < |rs|
    ensures Size(rs) >= |rs[i].data|
  {
    if i < |rs| - 1 {
      SizeAtLeast(rs[..|rs| - 1], i);
    }
  }

  /** What is not yet in a batch is small. */
  lemma LooseSmall(c: OutQueues.Config, l: Q.LogQ, k: nat)
    requires Q.LogInv(c, l) && l.q.waitq == [] && l.q.formed <= k < |l.accepted|
    ensures |l.accepted[k].data| < c.buftarget
  {
    assert l.accepted[k] == l.accepted[l.q.formed..][k - l.q.formed];
    assert l.accepted[l.q.formed..] == l.q.loading;
    SizeAtLeast(l.q.loading, k - l.q.formed);
  }

  lemma RestQueue(t: Topology, w: World, s: SetId, p: Rank)
    requires Inv(t, w) && !Moving(t, w) && HasQ(w, s, p)
    ensures LQ(w, s, p).q.outs == [] && LQ(w, s, p).q.waitq == [] && Q.LogInv(w.sets[s].cfg, LQ(w, s, p))
  {
    RestIsQuiet(t, w);
    assert O.Inv(w.sets[s]);
  }

  /** At rest a request that is in some batch has left the queue. */
  lemma FormedGone(t: Topology, w: World, s: SetId, p: Rank, k: nat)
    requires Inv(t, w) && !Moving(t, w) && HasQ(w, s, p) && k < LQ(w, s, p).q.formed
    ensures !Here(w, AtQueue(s, p, k))
  {
    RestQueue(t, w, s, p);
    var l := LQ(w, s, p);
    assert !Q.Outstanding(l.q.outs, k);
    assert k in l.replied;
    assert QueuePlaced(w, s, p);
  }

  /** As large as any batch has to be. */
  ghost predicate Big(w: World, x: Request) {
    forall s :: s in w.sets ==> |x.data| >= w.sets[s].cfg.buftarget
  }

  lemma BigFormed(t: Topology, w: World, s: SetId, p: Rank, k: nat)
    requires Inv(t, w) && !Moving(t, w) && LocValid(w, AtQueue(s, p, k)) && Big(w, ReqAt(w, AtQueue(s, p, k)))
    ensures k < LQ(w, s, p).q.formed
  {
    RestQueue(t, w, s, p);
    if k >= LQ(w, s, p).q.formed {
      LooseSmall(w.sets[s].cfg, LQ(w, s, p), k);
    }
  }

  lemma CfgAfter(t: Topology, w: World, a: Action, s: SetId)
    requires Enabled(t, w, a) && s in w.sets
    ensures s in Apply(t, w, a).sets && Apply(t, w, a).sets[s].cfg == w.sets[s].cfg
  {
    SetAfter(t, w, a, s);
  }

  lemma BigStep(t: Topology, w: World, a: Action, x: Request, w': World)
    requires Shape(t, w) && Enabled(t, w, a) && w' == Apply(t, w, a) && Shape(t, w') && Big(w, x)
    ensures Big(w', x)
  {
    forall s | s in w'.sets ensures |x.data| >= w'.sets[s].cfg.buftarget {
      assert s in w.sets;
      CfgAfter(t, w, a, s);
    }
  }

  // ----- pushing a request on -----

  lemma {:induction false} Unused(ids: set<nat>) returns (n: nat)
    ensures forall i :: i in ids ==> i < n
  {
    n := 0;
    if ids != {} {
      var i :| i in ids;
      var m := Unused(ids - {i});
      n := if i < m then m else i + 1;
      assert forall j :: j in ids ==> j == i || j in ids - {i};
    }
  }

  function Target0(o: O.OutSet): nat {
    if o.cfg.buftarget > 0 then o.cfg.buftarget else 0
  }

  /** A new request on the same way, as large as any batch has to be. */
  lemma BigRequest(t: Topology, w: World, g: Request) returns (h: Request)
    requires Inv(t, w) && g.src < t.n && g.dst < t.n
    ensures h.src == g.src && h.dst == g.dst && Big(w, h) && Enabled(t, w, SendReq(h))
  {
    var id := Unused(w.loc.Keys);
    assert id !in w.loc.Keys;
    h := Request(id, g.src, g.dst, 0, seq(Sum(w.sets, Target0) + 1, i => 0 as Byte));
    forall s | s in w.sets ensures |h.data| >= w.sets[s].cfg.buftarget {
      SumRemove(w.sets, Target0, s);
      assert Sum(w.sets, Target0) >= Target0(w.sets[s]);
    }
    SendTarget(t, h);
    TargetsExist(t, w, h, RouteSend(t, h.src, h.dst));
  }

  /** Where the pushing request `h` and the pushed one `g` are, since `base` and since `w0`. */
  ghost predicate Pushing(t: Topology, base: World, w0: World, w: World, g: Request, h: Request) {
    && OnTrail(t, base, w, g) && OnTrail(t, w0, w, h) && Big(w, h) && g.id in w0.loc && g.id in w.loc
    && (w.loc[g.id] == w0.loc[g.id] || LocStage(w.loc[g.id]) > LocStage(w0.loc[g.id]))
  }

  lemma TrailCarried(t: Topology, base: World, w: World, x: Request)
    requires OnTrail(t, base, w, x)
    ensures Carried(w, x)
  {
    var i: nat :| TrailTo(t, base, w, x, i);
  }

  lemma PushingStep(t: Topology, base: World, w0: World, w: World, g: Request, h: Request, a: Action, w': World)
    requires Inv(t, w) && Enabled(t, w, a) && w' == Apply(t, w, a) && Pushing(t, base, w0, w, g, h)
    ensures Pushing(t, base, w0, w', g, h)
  {
    TrailCarried(t, base, w, g);
    TrailStep(t, base, w, a, g, w');
    TrailStep(t, w0, w, a, h, w');
    StageStep(t, w, a, g, w');
    Shufflers.StepKeeps(t, w, a);
    BigStep(t, w, a, h, w');
  }

  /** At rest the pushing request has been delivered. */
  lemma BigArrives(t: Topology, base: World, w: World, h: Request)
    requires Inv(t, w) && !Moving(t, w) && OnTrail(t, base, w, h) && Big(w, h)
    ensures h.id in w.loc && w.loc[h.id].AtDelivery?
  {
    TrailCarried(t, base, w, h);
    var l := w.loc[h.id];
    if l.AtQueue? {
      BigFormed(t, w, l.set_, l.peer, l.k);
      FormedGone(t, w, l.set_, l.peer, l.k);
    }
  }

  /** It came through every queue on the way. */
  lemma CameThrough(t: Topology, w0: World, w: World, h: Request, i: nat, s: SetId, p: Rank) returns (k: nat)
    requires OnTrail(t, w0, w, h) && w.loc[h.id].AtDelivery? && HopNo(t, h.src, h.dst, i) == Via(s, p)
    ensures NewAt(w0, w, h, AtQueue(s, p, k))
  {
    var m: nat :| TrailTo(t, w0, w, h, m);
    if m <= i {
      StaysThere(t, h.src, h.dst, m, i);
    }
    assert Visited(w0, w, h, HopNo(t, h.src, h.dst, i));
    k :| NewAt(w0, w, h, AtQueue(s, p, k));
  }

  /** At rest the pushed request has moved. */
  lemma Pushed(t: Topology, base: World, w0: World, w: World, g: Request, h: Request)
    requires Inv(t, w) && !Moving(t, w) && Pushing(t, base, w0, w, g, h) && h.src == g.src && h.dst == g.dst
    requires Carried(w0, g) && w0.loc[g.id].AtQueue?
    ensures LocStage(w.loc[g.id]) > LocStage(w0.loc[g.id])
  {
    var l := w0.loc[g.id];
    if w.loc[g.id] == l {
      var i: nat :| TrailTo(t, base, w, g, i);
      BigArrives(t, w0, w, h);
      var k := CameThrough(t, w0, w, h, i, l.set_, l.peer);
      BigFormed(t, w, l.set_, l.peer, k);
      FormedGone(t, w, l.set_, l.peer, l.k);
      assert Here(w, l);
    }
  }

  /** One more write behind it brings a request that waits for a batch to its next stop. */
  lemma PushOn(t: Topology, base: World, w: World, g: Request) returns (w': World)
    requires Inv(t, w) && g.src < t.n && g.dst < t.n && OnTrail(t, base, w, g) && w.loc[g.id].AtQueue?
    ensures Leads(t, g.src, g.dst, w, w') && Inv(t, w') && !Moving(t, w') && OnTrail(t, base, w', g)
    ensures LocStage(w'.loc[g.id]) > LocStage(w.loc[g.id])
  {
    var h := BigRequest(t, w, g);
    var w1 := Apply(t, w, SendReq(h));
    StartPushing(t, base, w, g, h, w1);
    forall v, a, v' | Inv(t, v) && Pushing(t, base, w, v, g, h) && Internal(a) && FreeStep(t, g.src, g.dst, v, a, v')
      ensures Pushing(t, base, w, v', g, h)
    {
      PushingStep(t, base, w, v, g, h, a, v');
    }
    w' := ToRest(t, g.src, g.dst, w1, v => Pushing(t, base, w, v, g, h));
    TrailCarried(t, base, w, g);
    Pushed(t, base, w, w', g, h);
    LeadsMore(t, g.src, g.dst, w, SendReq(h), w1, w');
  }

  lemma StartPushing(t: Topology, base: World, w: World, g: Request, h: Request, w1: World)
    requires Inv(t, w) && OnTrail(t, base, w, g) && Big(w, h) && Enabled(t, w, SendReq(h))
    requires w1 == Apply(t, w, SendReq(h))
    ensures Inv(t, w1) && Pushing(t, base, w, w1, g, h)
  {
    TrailCarried(t, base, w, g);
    TrailStep(t, base, w, SendReq(h), g, w1);
    TrailStarts(t, w, h, w1);
    StageStep(t, w, SendReq(h), g, w1);
    Shufflers.StepKeeps(t, w, SendReq(h));
    BigStep(t, w, SendReq(h), h, w1);
  }

  /** So it can be brought to its destination. */
  lemma {:induction false} ToDelivery(t: Topology, base: World, w: World, g: Request) returns (w': World)
    requires Inv(t, w) && g.src < t.n && g.dst < t.n && OnTrail(t, base, w, g)
    ensures Leads(t, g.src, g.dst, w, w') && Inv(t, w') && Carried(w', g) && w'.loc[g.id].AtDelivery?
    decreases 3 - LocStage(w.loc[g.id])
  {
    TrailCarried(t, base, w, g);
    if w.loc[g.id].AtQueue? {
      var w1 := PushOn(t, base, w, g);
      w' := ToDelivery(t, base, w1, g);
      LeadsTrans(t, g.src, g.dst, w, w1, w');
    } else {
      w' := w;
      LeadsSelf(t, g.src, g.dst, w);
    }
  }

  // ----- and into the callback -----

  ghost predicate Called(w: World, g: Request) {
    g.dst in w.dels && g in w.dels[g.dst].calls
  }

  /** The request is in the delivery queue, and the thread is not asleep. */
  ghost predicate Delivering(w: World, g: Request) {
    Carried(w, g) && w.loc[g.id].AtDelivery? && g.dst in w.dels && !w.dels[g.dst].thread.Asleep?
  }

  lemma StaysAwake(t: Topology, w: World, r: Rank, a: Action, w': World)
    requires Enabled(t, w, a) && w' == Apply(t, w, a) && Internal(a) && r in w.dels && !w.dels[r].thread.Asleep?
    ensures r in w'.dels && !w'.dels[r].thread.Asleep?
  {
    DelAfter(t, w, a, r);
  }

  lemma DeliveringStep(t: Topology, w: World, g: Request, a: Action, w': World)
    requires Inv(t, w) && Enabled(t, w, a) && w' == Apply(t, w, a) && Internal(a) && Delivering(w, g)
    ensures Delivering(w', g)
  {
    CarriedStep(t, w, a, g);
    StageStep(t, w, a, g, w');
    StaysAwake(t, w, g.dst, a, w');
  }

  lemma AwakeMoves(t: Topology, w: World, r: Rank)
    requires r in w.dels && w.dels[r].deliverq != [] && !w.dels[r].thread.Asleep?
    ensures Moving(t, w)
  {
    var a := Deliver(r, if w.dels[r].thread.Awake? then D.Call else D.Pop);
    assert Internal(a) && Enabled(t, w, a);
  }

  lemma CalledAtRest(t: Topology, w: World, g: Request)
    requires Inv(t, w) && !Moving(t, w) && Delivering(w, g)
    ensures Called(w, g)
  {
    var l, d := w.loc[g.id], w.dels[g.dst];
    assert PathOk(t, w, l);
    RestIsQuiet(t, w);
    assert D.Inv(w.dcfg, d);
    if d.deliverq != [] {
      AwakeMoves(t, w, g.dst);
    }
    assert |d.accepted[d.done..]| == 0;
    assert d.calls[l.k] == g;
  }

  lemma IntoCallback(t: Topology, src: Rank, w: World, g: Request) returns (w': World)
    requires Inv(t, w) && Delivering(w, g)
    ensures Leads(t, src, g.dst, w, w') && Inv(t, w') && Called(w', g)
  {
    forall v, a, v' | Inv(t, v) && Delivering(v, g) && Internal(a) && FreeStep(t, src, g.dst, v, a, v')
      ensures Delivering(v', g)
    {
      DeliveringStep(t, v, g, a, v');
    }
    w' := ToRest(t, src, g.dst, w, v => Delivering(v, g));
    CalledAtRest(t, w', g);
  }

  lemma WakeUp(t: Topology, w: World, g: Request) returns (w': World)
    requires Inv(t, w) && Carried(w, g) && w.loc[g.id].AtDelivery? && g.dst < t.n
    requires w.dels[g.dst].thread.Asleep?
    ensures FreeStep(t, g.src, g.dst, w, Deliver(g.dst, D.Wake), w') && Inv(t, w') && Delivering(w', g)
  {
    var a := Deliver(g.dst, D.Wake);
    w' := Apply(t, w, a);
    Shufflers.StepKeeps(t, w, a);
    CarriedStep(t, w, a, g);
    StageStep(t, w, a, g, w');
  }

  /** Without any flush, and with nobody else sending, a request that was sent can be brought to
      its destination's callback. */
  lemma CanBeCalled(t: Topology, base: World, w: World, g: Request) returns (w': World)
    requires Inv(t, w) && g.src < t.n && g.dst < t.n && OnTrail(t, base, w, g)
    ensures Leads(t, g.src, g.dst, w, w') && Called(w', g)
  {
    var w1 := ToDelivery(t, base, w, g);
    assert g.dst in w1.dels;
    if w1.dels[g.dst].thread.Asleep? {
      var w2 := WakeUp(t, w1, g);
      w' := IntoCallback(t, g.src, w2, g);
      LeadsMore(t, g.src, g.dst, w1, Deliver(g.dst, D.Wake), w2, w');
    } else {
      w' := IntoCallback(t, g.src, w1, g);
    }
    LeadsTrans(t, g.src, g.dst, w, w1, w');
  }
}
