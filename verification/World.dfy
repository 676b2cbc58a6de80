/** The whole three-hop shuffler: every rank with its three output sets and its delivery
    queue, the RPCs in flight between them, and for every request the place it is at.
    One action is one critical section of one thread on one rank. */
module Worlds {
  import opened Messages
  import opened Routing
  import OutQueues
  import Q = QueueLogs
  import O = OutSets
  import D = Deliveries

  /** A place in the system: position `k` of the acceptance order of an output queue, or
      of a rank's delivery queue. */
  datatype Loc = AtQueue(set_: SetId, peer: Rank, k: nat) | AtDelivery(r: Rank, k: nat)

  /** An inbound RPC at its receiver.  `done` requests of the batch were handled.  `nrefs`
      is the req_parent's counter (None while no req_parent was allocated); `refs` are the
      places where a request of this RPC was parked and whose reference was not dropped
      yet; `ended` says the handler has dropped its own reference; `replies` counts
      HG_Respond calls. */
  datatype Rpc = Rpc(batch: seq<Request>, done: nat, nrefs: Option<int>, refs: set<Loc>, ended: bool, replies: nat)

  /** `loc` maps the id of every request ever sent to where it is now. */
  datatype World = World(
    sets: map<SetId, O.OutSet>, dels: map<Rank, D.DelivQ>, dcfg: D.Config,
    rpcs: map<RpcId, Rpc>, loc: map<nat, Loc>)

  datatype Action =
    | SendReq(g: Request)                     // shuffler_send
    | Forward(s: SetId, p: Rank, i: nat)      // forward_reqs_now
    | Handle(id: RpcId)                       // shuffler_rpchand, one request
    | EndHandle(id: RpcId)                    // shuffler_rpchand, after the loop
    | DropRef(id: RpcId, l: Loc)              // parent_dref_stopwait
    | FinishRpc(s: SetId, p: Rank, i: nat)    // forw_cb
    | Flush(s: SetId, a: O.Action)            // flush bookkeeping of one set
    | Deliver(r: Rank, b: D.Action)           // delivery thread and delivery flush

  // ----- reading the state -----

  predicate HasQ(w: World, s: SetId, p: Rank) {
    s in w.sets && p in w.sets[s].qs
  }

  function LQ(w: World, s: SetId, p: Rank): Q.LogQ
    requires HasQ(w, s, p)
  {
    w.sets[s].qs[p]
  }

  predicate LocValid(w: World, l: Loc) {
    match l
    case AtQueue(s, p, k) => HasQ(w, s, p) && k < |LQ(w, s, p).accepted|
    case AtDelivery(r, k) => r in w.dels && k < |w.dels[r].accepted|
  }

  /** The request accepted at that place. */
  function ReqAt(w: World, l: Loc): Request
    requires LocValid(w, l)
  {
    match l
    case AtQueue(s, p, k) => LQ(w, s, p).accepted[k]
    case AtDelivery(r, k) => w.dels[r].accepted[k]
  }

  /** The place is on a wait queue. */
  predicate Parked(w: World, l: Loc) {
    LocValid(w, l) &&
    match l
    case AtQueue(s, p, k) => Q.IsWaiting(LQ(w, s, p), k)
    case AtDelivery(r, k) => D.IsWaiting(w.dels[r], k)
  }

  function OwnerAt(w: World, l: Loc): Owner
    requires Parked(w, l)
  {
    match l
    case AtQueue(s, p, k) => Q.WaiterAt(LQ(w, s, p), k).owner
    case AtDelivery(r, k) => D.WaiterAt(w.dels[r], k).owner
  }

  function LocStage(l: Loc): (n: nat)
    ensures n <= 3
  {
    match l
    case AtQueue(s, p, k) => Stage(s.kind)
    case AtDelivery(r, k) => 3
  }

  /** Where a request of an RPC from a set of kind `k` may be parked: a queue of the next
      stage, or delivery. */
  predicate NextStop(k: Kind, l: Loc) {
    l.AtDelivery? || Stage(l.set_.kind) == Stage(k) + 1
  }

  predicate TargetExists(w: World, tgt: Target) {
    match tgt
    case ToSelf(r) => r in w.dels
    case Via(s, p) => HasQ(w, s, p)
    case Panic => false
  }

  /** Will a request put there now have to wait? */
  predicate Parks(w: World, tgt: Target)
    requires TargetExists(w, tgt)
  {
    match tgt
    case ToSelf(r) => |w.dels[r].deliverq| >= w.dcfg.max
    case Via(s, p) => LQ(w, s, p).q.nsending >= w.sets[s].cfg.maxoqrpc
  }

  function NextLoc(w: World, tgt: Target): Loc
    requires TargetExists(w, tgt)
  {
    match tgt
    case ToSelf(r) => AtDelivery(r, |w.dels[r].accepted|)
    case Via(s, p) => AtQueue(s, p, |LQ(w, s, p).accepted|)
  }

  // ----- steps -----

  function SetStep(w: World, s: SetId, a: O.Action): World
    requires s in w.sets && O.Enabled(w.sets[s], a)
  {
    w.(sets := w.sets[s := O.Apply(w.sets[s], a)])
  }

  function DelStep(w: World, r: Rank, b: D.Action): World
    requires r in w.dels && D.Enabled(w.dels[r], b)
  {
    w.(dels := w.dels[r := D.Apply(w.dcfg, w.dels[r], b)])
  }

  /** `req_to_self` or `req_via_mercury` for one request. */
  function Place(w: World, g: Request, o: Owner, tgt: Target): World
    requires TargetExists(w, tgt) && g.data != []
  {
    var w1 :=
      match tgt
      case ToSelf(r) => DelStep(w, r, D.Push(Waiter(g, o)))
      case Via(s, p) => SetStep(w, s, O.Accept(p, Waiter(g, o)));
    w1.(loc := w.loc[g.id := NextLoc(w, tgt)])
  }

  function RpcOf(s: SetId, p: Rank, o: OutQueues.Output): RpcId {
    RpcId(s, p, o.first)
  }

  /** The handler's bookkeeping for one request: `req_parent_init` if it has to wait. */
  function Handled(x: Rpc, parks: bool, l: Loc): Rpc {
    var y := x.(done := x.done + 1);
    if !parks then y
    else y.(nrefs := Some(if x.nrefs.None? then 2 else x.nrefs.value + 1), refs := x.refs + {l})
  }

  /** Drop one reference; the last one answers the RPC. */
  function Dropped(x: Rpc): Rpc {
    match x.nrefs
    case None => x
    case Some(n) => x.(nrefs := Some(n - 1), replies := if n - 1 < 1 then x.replies + 1 else x.replies)
  }

  function Ended(x: Rpc): Rpc {
    var y := x.(ended := true);
    if x.nrefs.None? then y.(replies := x.replies + 1) else Dropped(y)
  }

  predicate FlushAction(a: O.Action) {
    !a.Accept? && !a.Send? && !a.Finish?
  }

  predicate Enabled(t: Topology, w: World, a: Action) {
    match a
    case SendReq(g) =>
      g.id !in w.loc && g.data != [] && g.src < t.n && g.dst < t.n && TargetExists(w, RouteSend(t, g.src, g.dst))
    case Forward(s, p, i) => s in w.sets && O.Enabled(w.sets[s], O.Send(p, i))
    case Handle(id) =>
      && id in w.rpcs && w.rpcs[id].done < |w.rpcs[id].batch|
      && w.rpcs[id].batch[w.rpcs[id].done].data != []
      && TargetExists(w, RouteRpc(t, id.peer, w.rpcs[id].batch[w.rpcs[id].done].dst, id.set_.kind))
    case EndHandle(id) => id in w.rpcs && w.rpcs[id].done == |w.rpcs[id].batch| && !w.rpcs[id].ended
    case DropRef(id, l) => id in w.rpcs && l in w.rpcs[id].refs && !Parked(w, l)
    case FinishRpc(s, p, i) =>
      && s in w.sets && O.Enabled(w.sets[s], O.Finish(p, i))
      && RpcOf(s, p, LQ(w, s, p).q.outs[i]) in w.rpcs && w.rpcs[RpcOf(s, p, LQ(w, s, p).q.outs[i])].replies > 0
    case Flush(s, b) => s in w.sets && FlushAction(b) && O.Enabled(w.sets[s], b)
    case Deliver(r, b) => r in w.dels && !b.Push? && D.Enabled(w.dels[r], b)
  }

  function Apply(t: Topology, w: World, a: Action): World
    requires Enabled(t, w, a)
  {
    match a
    case SendReq(g) => Place(w, g, Sender, RouteSend(t, g.src, g.dst))
    case Forward(s, p, i) =>
      var o := LQ(w, s, p).q.outs[i];
      SetStep(w, s, O.Send(p, i)).(rpcs := w.rpcs[RpcOf(s, p, o) := Rpc(o.batch, 0, None, {}, false, 0)])
    case Handle(id) =>
      var x := w.rpcs[id];
      var g := x.batch[x.done];
      var tgt := RouteRpc(t, id.peer, g.dst, id.set_.kind);
      Place(w, g, Inbound(id), tgt).(rpcs := w.rpcs[id := Handled(x, Parks(w, tgt), NextLoc(w, tgt))])
    case EndHandle(id) => w.(rpcs := w.rpcs[id := Ended(w.rpcs[id])])
    case DropRef(id, l) => w.(rpcs := w.rpcs[id := Dropped(w.rpcs[id].(refs := w.rpcs[id].refs - {l}))])
    case FinishRpc(s, p, i) => SetStep(w, s, O.Finish(p, i))
    case Flush(s, b) => SetStep(w, s, b)
    case Deliver(r, b) => DelStep(w, r, b)
  }

  // ----- each rank on its own -----

  /** Every rank has its sets, queues to every rank it may need, and a delivery queue. */
  ghost predicate Shape(t: Topology, w: World) {
    && (forall s: SetId :: s in w.sets <==> s.rank < t.n)
    && (forall s: SetId, p: Rank :: HasQ(w, s, p) <==> s.rank < t.n && p < t.n)
    && (forall r: Rank :: r in w.dels <==> r < t.n)
  }

  ghost predicate Locals(w: World) {
    && (forall s :: s in w.sets ==> O.Inv(w.sets[s]))
    && (forall r :: r in w.dels ==> D.Inv(w.dcfg, w.dels[r]))
  }

  /** Places stay valid, what is on a wait queue was there before under the same owner,
      and at most one place is new. */
  ghost predicate Extends(w: World, w': World, fresh_: Option<Loc>) {
    && (forall l :: LocValid(w, l) ==> LocValid(w', l) && ReqAt(w', l) == ReqAt(w, l))
    && (forall l :: LocValid(w, l) && Parked(w', l) ==> Parked(w, l) && OwnerAt(w', l) == OwnerAt(w, l))
    && (forall l :: LocValid(w', l) && !LocValid(w, l) ==> fresh_ == Some(l))
  }

  lemma SetStepLocal(w: World, s: SetId, a: O.Action)
    requires Locals(w) && s in w.sets && O.Enabled(w.sets[s], a) && O.Proper(a)
    ensures Locals(SetStep(w, s, a))
  {
    O.StepKeeps(w.sets[s], a);
  }

  lemma DelStepLocal(w: World, r: Rank, b: D.Action)
    requires Locals(w) && r in w.dels && D.Enabled(w.dels[r], b)
    ensures Locals(DelStep(w, r, b))
  {
    D.StepKeeps(w.dcfg, w.dels[r], b);
  }

  function QueueEnd(w: World, s: SetId, at: Option<Rank>): Option<Loc>
    requires s in w.sets
  {
    if at.Some? && at.value in w.sets[s].qs then Some(AtQueue(s, at.value, |LQ(w, s, at.value).accepted|)) else None
  }

  lemma SetExtendsAt(w: World, s: SetId, o: O.OutSet, at: Option<Rank>, l: Loc)
    requires s in w.sets && O.SetLonger(w.sets[s], o, at)
    ensures var w' := w.(sets := w.sets[s := o]);
            && (LocValid(w, l) ==> LocValid(w', l) && ReqAt(w', l) == ReqAt(w, l))
            && (LocValid(w, l) && Parked(w', l) ==> Parked(w, l) && OwnerAt(w', l) == OwnerAt(w, l))
            && (LocValid(w', l) && !LocValid(w, l) ==> QueueEnd(w, s, at) == Some(l))
  {
    if l.AtQueue? && l.set_ == s {
      assert l.peer in o.qs.Keys <==> l.peer in w.sets[s].qs.Keys;
      if l.peer in w.sets[s].qs {
        assert O.Longer(w.sets[s].qs[l.peer], o.qs[l.peer], O.Bump(at == Some(l.peer)));
      }
    }
  }

  /** Replacing one set by a longer one extends the world. */
  lemma SetExtends(w: World, s: SetId, o: O.OutSet, at: Option<Rank>)
    requires s in w.sets && O.SetLonger(w.sets[s], o, at)
    ensures Extends(w, w.(sets := w.sets[s := o]), QueueEnd(w, s, at))
  {
    forall l ensures var w' := w.(sets := w.sets[s := o]);
            && (LocValid(w, l) ==> LocValid(w', l) && ReqAt(w', l) == ReqAt(w, l))
            && (LocValid(w, l) && Parked(w', l) ==> Parked(w, l) && OwnerAt(w', l) == OwnerAt(w, l))
            && (LocValid(w', l) && !LocValid(w, l) ==> QueueEnd(w, s, at) == Some(l))
    {
      SetExtendsAt(w, s, o, at, l);
    }
  }

  lemma SetStepExtends(w: World, s: SetId, a: O.Action)
    requires Locals(w) && s in w.sets && O.Enabled(w.sets[s], a)
    ensures Extends(w, SetStep(w, s, a), QueueEnd(w, s, O.AcceptedBy(a)))
  {
    O.StepLonger(w.sets[s], a);
    SetExtends(w, s, O.Apply(w.sets[s], a), O.AcceptedBy(a));
  }

  function DelivEnd(w: World, r: Rank, push: bool): Option<Loc>
    requires r in w.dels
  {
    if push then Some(AtDelivery(r, |w.dels[r].accepted|)) else None
  }

  lemma DelExtends(w: World, r: Rank, d: D.DelivQ, push: bool)
    requires r in w.dels && D.Evolves(w.dels[r], d)
    requires |d.accepted| == |w.dels[r].accepted| + O.Bump(push)
    ensures Extends(w, w.(dels := w.dels[r := d]), DelivEnd(w, r, push))
  {
  }

  lemma DelStepExtends(w: World, r: Rank, b: D.Action)
    requires Locals(w) && r in w.dels && D.Enabled(w.dels[r], b)
    ensures Extends(w, DelStep(w, r, b), DelivEnd(w, r, b.Push?))
  {
    D.StepEvolves(w.dcfg, w.dels[r], b);
    D.AcceptedAfter(w.dcfg, w.dels[r], b);
    DelExtends(w, r, D.Apply(w.dcfg, w.dels[r], b), b.Push?);
  }
}
