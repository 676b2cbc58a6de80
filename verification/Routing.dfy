/** Where a request goes next (`nexus_next_hop` and its two callers). */
module Routing {
  import opened Messages

  /** Answer of `nexus_next_hop`: NX_DONE, NX_ISLOCAL, NX_SRCREP or NX_DESTREP. */
  datatype Hop = Done | IsLocal(to: Rank) | SrcRep(to: Rank) | DestRep(to: Rank)

  /** The routing table of the job: `n` ranks, the node of each, and the next hop from a
      rank towards a destination. */
  datatype Topology = Topology(n: nat, node: Rank -> int, hop: (Rank, Rank) -> Hop)

  ghost predicate HopOk(t: Topology, r: Rank, d: Rank) {
    match t.hop(r, d)
    case Done => r == d
    case IsLocal(p) => p == d && r != d && t.node(r) == t.node(d)
    case SrcRep(p) => p < t.n && t.node(p) == t.node(r) != t.node(d) && t.hop(p, d).DestRep?
    case DestRep(p) => p < t.n && t.node(p) == t.node(d) != t.node(r)
  }

  /** What the shuffler relies on nexus for. */
  ghost predicate Contract(t: Topology) {
    forall r: Rank, d: Rank :: r < t.n && d < t.n ==> HopOk(t, r, d)
  }

  /** Next hops from a choice of representatives: `rep(a, b)` is the rank of node `a` that
      handles the traffic between `a` and `b`. */
  function RepHop(node: Rank -> int, rep: (int, int) -> Rank, r: Rank, d: Rank): Hop {
    if r == d then Done
    else if node(r) == node(d) then IsLocal(d)
    else if rep(node(r), node(d)) == r then DestRep(rep(node(d), node(r)))
    else SrcRep(rep(node(r), node(d)))
  }

  /** Any choice of representatives that picks ranks of the right nodes keeps the contract. */
  lemma RepsKeepContract(n: nat, node: Rank -> int, rep: (int, int) -> Rank)
    requires forall r: Rank, d: Rank :: r < n && d < n && node(r) != node(d) ==>
               rep(node(r), node(d)) < n && node(rep(node(r), node(d))) == node(r)
    ensures Contract(Topology(n, node, (r: Rank, d: Rank) => RepHop(node, rep, r, d)))
  {
    var t := Topology(n, node, (r: Rank, d: Rank) => RepHop(node, rep, r, d));
    forall r: Rank, d: Rank | r < n && d < n ensures HopOk(t, r, d) {
      if node(r) != node(d) {
        assert rep(node(d), node(r)) < n;
      }
    }
  }

  /** Where `shuffler_send` or `shuffler_rpchand` puts a request. */
  datatype Target = ToSelf(r: Rank) | Via(set_: SetId, peer: Rank) | Panic

  /** Routing in `shuffler_send` on rank `r`. */
  function RouteSend(t: Topology, r: Rank, d: Rank): Target {
    if r == d then ToSelf(r) else
    match t.hop(r, d)
    case Done => ToSelf(r)
    case IsLocal(p) => Via(SetId(r, Origin), p)
    case SrcRep(p) => Via(SetId(r, Origin), p)
    case DestRep(p) => Via(SetId(r, Remote), p)
  }

  /** Does an RPC of this set arrive over shared memory? */
  predicate IsShm(k: Kind) { !k.Remote? }

  /** Routing in `shuffler_rpchand` on rank `r`, for an RPC that arrived from a set of
      kind `k`; Panic is the "nexus PANIC" branch that drops the request. */
  function RouteRpc(t: Topology, r: Rank, d: Rank, k: Kind): Target {
    match t.hop(r, d)
    case Done => ToSelf(r)
    case IsLocal(p) => if IsShm(k) then Panic else Via(SetId(r, Relay), p)
    case DestRep(p) => if IsShm(k) then Via(SetId(r, Remote), p) else Panic
    case SrcRep(p) => Panic
  }

  function Stage(k: Kind): (n: nat)
    ensures n <= 2
  {
    match k case Origin => 0 case Remote => 1 case Relay => 2
  }

  /** What is known of a request in a queue of `s` towards `p`: it was routed there, and
      the queue lies on the right node for its stage of the journey. */
  ghost predicate OnPath(t: Topology, s: SetId, p: Rank, g: Request) {
    && s.rank < t.n && p < t.n && g.src < t.n && g.dst < t.n
    && match s.kind
       case Origin => g.src == s.rank && g.dst != s.rank
                      && (t.hop(s.rank, g.dst) == IsLocal(p) || t.hop(s.rank, g.dst) == SrcRep(p))
       case Remote => t.node(g.src) == t.node(s.rank) && t.hop(s.rank, g.dst) == DestRep(p)
       case Relay => t.node(g.dst) == t.node(s.rank) && t.hop(s.rank, g.dst) == IsLocal(p)
  }

  ghost predicate TargetOk(t: Topology, g: Request, tgt: Target) {
    match tgt
    case ToSelf(r) => r == g.dst
    case Via(s, p) => OnPath(t, s, p, g)
    case Panic => false
  }

  lemma SendTarget(t: Topology, g: Request)
    requires Contract(t) && g.src < t.n && g.dst < t.n
    ensures TargetOk(t, g, RouteSend(t, g.src, g.dst))
  {
    assert HopOk(t, g.src, g.dst);
  }

  /** An RPC handler never reaches the PANIC branch, and hands the request to the very next
      stage or to delivery: from an origin hop only to a remote queue, from a remote hop only
      to a relay queue, from a relay hop to no queue at all. */
  lemma RpcTarget(t: Topology, s: SetId, p: Rank, g: Request)
    requires Contract(t) && OnPath(t, s, p, g)
    ensures var tgt := RouteRpc(t, p, g.dst, s.kind);
            TargetOk(t, g, tgt) && (tgt.Via? ==> tgt.set_.rank == p && Stage(tgt.set_.kind) == Stage(s.kind) + 1)
  {
    assert HopOk(t, s.rank, g.dst) && HopOk(t, p, g.dst);
  }

  /** The queues a request passes when each handler forwards it as routed; None if it is
      dropped on the way. */
  function Journey(t: Topology, g: Request, tgt: Target): Option<seq<Kind>>
    decreases if tgt.Via? then 3 - Stage(tgt.set_.kind) else 0
  {
    match tgt
    case Panic => None
    case ToSelf(r) => Some([])
    case Via(s, p) =>
      var next := RouteRpc(t, p, g.dst, s.kind);
      if next.Via? && Stage(next.set_.kind) <= Stage(s.kind) then None
      else
        var rest := Journey(t, g, next);
        if rest.None? then None else Some([s.kind] + rest.value)
  }

  lemma FromRelay(t: Topology, g: Request, s: SetId, p: Rank)
    requires Contract(t) && OnPath(t, s, p, g) && s.kind.Relay?
    ensures Journey(t, g, Via(s, p)) == Some([Relay])
  {
    RpcTarget(t, s, p, g);
    assert HopOk(t, s.rank, g.dst) && HopOk(t, p, g.dst);
    assert [Relay] + [] == [Relay];
  }

  lemma FromRemote(t: Topology, g: Request, s: SetId, p: Rank)
    requires Contract(t) && OnPath(t, s, p, g) && s.kind.Remote?
    ensures Journey(t, g, Via(s, p)) in {Some([Remote]), Some([Remote, Relay])}
  {
    RpcTarget(t, s, p, g);
    var next := RouteRpc(t, p, g.dst, Remote);
    if next.Via? {
      FromRelay(t, g, next.set_, next.peer);
      assert [Remote] + [Relay] == [Remote, Relay];
    } else {
      assert Journey(t, g, next) == Some([]) && [Remote] + [] == [Remote];
    }
  }

  /** For every topology that keeps the contract, a request reaches its destination over
      one of the six paths the design allows, so in at most three hops. */
  lemma SixPaths(t: Topology, g: Request)
    requires Contract(t) && g.src < t.n && g.dst < t.n
    ensures var j := Journey(t, g, RouteSend(t, g.src, g.dst));
            j.Some? && j.value in {[], [Origin], [Remote], [Origin, Remote], [Remote, Relay], [Origin, Remote, Relay]}
    ensures var j := Journey(t, g, RouteSend(t, g.src, g.dst));
            && (j == Some([]) <==> g.src == g.dst)
            && (j == Some([Origin]) <==> g.src != g.dst && t.node(g.src) == t.node(g.dst))
  {
    var tgt := RouteSend(t, g.src, g.dst);
    SendTarget(t, g);
    assert HopOk(t, g.src, g.dst);
    if tgt.Via? && tgt.set_.kind.Remote? {
      FromRemote(t, g, tgt.set_, tgt.peer);
    } else if tgt.Via? {
      RpcTarget(t, tgt.set_, tgt.peer, g);
      var next := RouteRpc(t, tgt.peer, g.dst, Origin);
      assert HopOk(t, tgt.peer, g.dst);
      if next.Via? {
        FromRemote(t, g, next.set_, next.peer);
        assert [Origin] + [Remote] == [Origin, Remote];
        assert [Origin] + [Remote, Relay] == [Origin, Remote, Relay];
      } else {
        assert Journey(t, g, next) == Some([]) && [Origin] + [] == [Origin];
      }
    }
  }
}
