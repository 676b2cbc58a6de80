/** The values that travel through the three-hop shuffler, and the names of the
    places they travel through. */
module Messages {

  datatype Option<+T> = None | Some(value: T)

  newtype Byte = b: int | 0 <= b < 256

  /** MPI rank of a process. */
  type Rank = nat

  /** Which barriers around an epoch are on: `paranoid_pre_barrier` at the end of closedir,
      `paranoid_barrier` and `paranoid_post_barrier` in opendir. */
  datatype Flags = Flags(pre: bool, main: bool, post: bool)

  /** One write request.  `datalen` of the source is `|data|`; `id` stands for the
      identity the source gets from the address of the malloc'd structure. */
  datatype Request = Request(id: nat, src: Rank, dst: Rank, typ: nat, data: seq<Byte>)

  /** The three output queue sets of a process. */
  datatype Kind = Origin | Remote | Relay

  /** An output queue set: `local_orq`, `remoteq` or `local_rlq` of one rank. */
  datatype SetId = SetId(rank: Rank, kind: Kind)

  /** One RPC: the queue that sent it and the position, in that queue's acceptance
      order, of the first request of its batch. */
  datatype RpcId = RpcId(set_: SetId, peer: Rank, first: nat)

  /** Who is flow controlled by a request on a wait queue: a thread inside
      `shuffler_send`, or an inbound RPC whose reply is being held back. */
  datatype Owner = Sender | Inbound(rpc: RpcId)

  /** A request on a wait queue together with its `owner` field. */
  datatype Waiter = Waiter(req: Request, owner: Owner)

  /** The requests of a wait queue, owners dropped. */
  function Reqs(ws: seq<Waiter>): (rs: seq<Request>)
    ensures |rs| == |ws|
    ensures forall i :: 0 <= i < |ws| ==> rs[i] == ws[i].req
  {
    seq(|ws|, i requires 0 <= i < |ws| => ws[i].req)
  }

  /** Total payload of a list of requests: what `loadsize` is meant to be. */
  function Size(rs: seq<Request>): nat {
    if rs == [] then 0 else Size(rs[..|rs| - 1]) + |rs[|rs| - 1].data|
  }

  /** No zero-length request: a load of zero bytes is never flushed. */
  predicate NonEmptyReqs(rs: seq<Request>) {
    forall i :: 0 <= i < |rs| ==> rs[i].data != []
  }

  lemma SizeSnoc(rs: seq<Request>, r: Request)
    ensures Size(rs + [r]) == Size(rs) + |r.data|
  {
    assert (rs + [r])[..|rs|] == rs;
  }

  lemma SizePositive(rs: seq<Request>)
    requires NonEmptyReqs(rs) && rs != []
    ensures Size(rs) > 0
  {
  }
}
