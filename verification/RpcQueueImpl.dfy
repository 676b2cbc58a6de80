/** `rpcq_t` updated in place; every method is one section of `nn_shuffler_enqueue` or
    `nn_shuffler_flushq`, and its contract the action of module RpcQueues. */
module RpcQueueImpl {
  import opened Messages
  import opened Framing
  import RpcQueues

  class RpcQueue {
    const buf: array<Byte>
    var sz: int
    var lepo: int
    var busy: Option<RpcQueues.Holder>
    ghost var batches: seq<RpcQueues.Batch>
    ghost var accepted: seq<RpcQueues.Item>

    ghost predicate Fits()
      reads this, buf
    {
      0 <= sz <= buf.Length
    }

    ghost predicate Valid()
      reads this, buf
    {
      Fits() && RpcQueues.Inv(State())
    }

    ghost function State(): RpcQueues.Queue
      requires Fits()
      reads this, buf
    {
      RpcQueues.Queue(buf.Length, buf[..sz], lepo, busy, batches, accepted)
    }

    constructor (max_rpcq_sz: nat)
      requires max_rpcq_sz <= RpcQueues.MAX_RPC_MESSAGE
      ensures Valid() && fresh(buf) && State() == RpcQueues.Queue(max_rpcq_sz, [], 0, None, [], [])
    {
      buf := new Byte[max_rpcq_sz];
      sz, lepo, busy, batches, accepted := 0, 0, None, [], [];
      new;
      assert RpcQueues.Reqs([]) == [];
    }

    method CopyIn(at: int, m: Bytes)
      requires 0 <= at && at + |m| <= buf.Length
      modifies buf
      ensures buf[..at + |m|] == old(buf[..at]) + m
    {
      var i := 0;
      while i < |m|
        invariant 0 <= i <= |m|
        invariant buf[..at + i] == old(buf[..at]) + m[..i]
      {
        buf[at + i] := m[i];
        assert buf[..at + i + 1] == buf[..at + i] + [m[i]];
        i := i + 1;
      }
      assert m[..i] == m;
    }

    /** Append one frame; there is room. */
    method Store(x: RpcQueues.Item)
      requires Fits() && Short(x.req) && !RpcQueues.Full(State(), x.req)
      modifies this, buf
      ensures Fits() && State() == RpcQueues.Store(old(State()), x)
    {
      lepo := x.epoch;
      CopyIn(sz, Frame(x.req));
      sz := sz + |x.req| + 1;
      accepted := accepted + [x];
    }

    /** `nn_shuffler_enqueue` after waiting for the queue: put the request, or claim the full
        queue to send it first. */
    method Enqueue(x: RpcQueues.Item) returns (full: bool)
      requires Valid() && busy.None? && Short(x.req)
      modifies this, buf
      ensures Valid() && full == RpcQueues.Full(old(State()), x.req)
      ensures State() == RpcQueues.Apply(old(State()), if full then RpcQueues.Claim(x) else RpcQueues.Put(x))
      ensures full ==> busy == Some(RpcQueues.Holder(Some(x), false))
      ensures !full ==> buf[..sz] == old(buf[..sz]) + Frame(x.req)
    {
      full := sz + |x.req| + 1 > buf.Length;
      RpcQueues.StepKeeps(State(), if full then RpcQueues.Claim(x) else RpcQueues.Put(x));
      if full {
        busy := Some(RpcQueues.Holder(Some(x), false));
      } else {
        Store(x);
      }
    }

    /** `nn_shuffler_flushq` for one queue: claim it unless it is empty. */
    method FlushClaim() returns (claimed: bool)
      requires Valid() && busy.None?
      modifies this
      ensures Valid() && claimed == (old(sz) != 0)
      ensures State() == RpcQueues.Apply(old(State()), if claimed then RpcQueues.ClaimFlush else RpcQueues.SkipFlush)
    {
      claimed := sz != 0;
      RpcQueues.StepKeeps(State(), if claimed then RpcQueues.ClaimFlush else RpcQueues.SkipFlush);
      if claimed {
        busy := Some(RpcQueues.Holder(None, false));
      }
    }

    /** The holder, without the lock, sends the buffer under the last epoch put. */
    method Transmit() returns (msg: RpcQueues.Batch)
      requires Valid() && RpcQueues.Enabled(State(), RpcQueues.Transmit)
      modifies this
      ensures Valid() && State() == RpcQueues.Apply(old(State()), RpcQueues.Transmit)
      ensures batches == old(batches) + [msg]
    {
      ghost var after := RpcQueues.Apply(State(), RpcQueues.Transmit);
      RpcQueues.StepKeeps(State(), RpcQueues.Transmit);
      msg := RpcQueues.Batch(buf[..sz], lepo);
      busy := Some(busy.value.(sent := true));
      batches := batches + [msg];
      assert State() == after;
    }

    /** The holder locks again: the buffer is empty, and its own request goes in if it can;
        otherwise this is the "rpc overflow" abort. */
    method Finish() returns (overflow: bool)
      requires Valid() && RpcQueues.Enabled(State(), RpcQueues.Finish)
      modifies this, buf
      ensures Valid() && State() == RpcQueues.Apply(old(State()), RpcQueues.Finish)
      ensures overflow == RpcQueues.Aborts(old(State()), RpcQueues.Finish) && busy == None
      ensures var item := old(busy).value.item;
              buf[..sz] == if item.Some? && |item.value.req| + 1 <= buf.Length then Frame(item.value.req) else []
    {
      RpcQueues.StepKeeps(State(), RpcQueues.Finish);
      var item := busy.value.item;
      busy := None;
      sz := 0;
      overflow := item.Some? && |item.value.req| + 1 > buf.Length;
      if item.Some? && !overflow {
        Store(item.value);
      }
    }
  }
}
