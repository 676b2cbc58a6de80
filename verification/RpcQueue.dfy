/** The per-peer batch buffer of the N-N shuffler, shared by several writer threads. */
module RpcQueues {
  import opened Messages
  import opened Framing

  const MAX_RPC_MESSAGE := 524288

  const DEFAULT_BUFFER_PER_QUEUE := 4096

  /** `max_rpcq_sz`: the value of SHUFFLE_Buffer_per_queue brought into range, or the default. */
  function BufferLimit(env: Option<int>): (m: int)
    ensures 128 <= m <= MAX_RPC_MESSAGE
    ensures env.Some? && 128 <= env.value <= MAX_RPC_MESSAGE ==> m == env.value
    ensures env.Some? && env.value > MAX_RPC_MESSAGE ==> m == MAX_RPC_MESSAGE
    ensures env.Some? && env.value < 128 ==> m == 128
    ensures env.None? ==> m == DEFAULT_BUFFER_PER_QUEUE
  {
    if env.None? then DEFAULT_BUFFER_PER_QUEUE
    else if env.value > MAX_RPC_MESSAGE then MAX_RPC_MESSAGE else if env.value < 128 then 128 else env.value
  }

  /** A request and the epoch it was enqueued with. */
  datatype Item = Item(req: Bytes, epoch: int)

  /** A message as sent: all its frames are handled under `epo`. */
  datatype Batch = Batch(msg: Bytes, epo: int)

  /** Who holds the queue busy: a writer with its own request still to append, or a flush;
      `sent` says the message is out. */
  datatype Holder = Holder(item: Option<Item>, sent: bool)

  /** `buf[..sz]` is `data`; `batches` and `accepted` are history: the messages sent, and
      the requests in the order in which they were put into the buffer. */
  datatype Queue = Queue(
    max: int, data: Bytes, lepo: int, busy: Option<Holder>,
    batches: seq<Batch>, accepted: seq<Item>)

  datatype Action =
    | Put(x: Item)    // nn_shuffler_enqueue with room left
    | Claim(x: Item)  // nn_shuffler_enqueue on a full queue: busy, unlock
    | ClaimFlush      // nn_shuffler_flushq: busy, unlock
    | SkipFlush       // nn_shuffler_flushq: nothing to send
    | Transmit        // the holder sends the buffer, no lock held
    | Finish          // the holder locks again, resets, and puts its request

  predicate Full(q: Queue, r: Bytes) {
    |q.data| + |r| + 1 > q.max
  }

  predicate Enabled(q: Queue, a: Action) {
    match a
    case Put(x) => q.busy.None? && Short(x.req) && !Full(q, x.req)
    case Claim(x) => q.busy.None? && Short(x.req) && Full(q, x.req)
    case ClaimFlush => q.busy.None? && q.data != []
    case SkipFlush => q.busy.None? && q.data == []
    case Transmit => q.busy.Some? && !q.busy.value.sent
    case Finish => q.busy.Some? && q.busy.value.sent && (q.busy.value.item.Some? ==> Short(q.busy.value.item.value.req))
  }

  function Store(q: Queue, x: Item): Queue
    requires Short(x.req)
  {
    q.(data := q.data + Frame(x.req), lepo := x.epoch, accepted := q.accepted + [x])
  }

  function Apply(q: Queue, a: Action): Queue
    requires Enabled(q, a)
  {
    match a
    case Put(x) => Store(q, x)
    case Claim(x) => q.(busy := Some(Holder(Some(x), false)))
    case ClaimFlush => q.(busy := Some(Holder(None, false)))
    case SkipFlush => q
    case Transmit => q.(busy := Some(q.busy.value.(sent := true)), batches := q.batches + [Batch(q.data, q.lepo)])
    case Finish =>
      var q1 := q.(busy := None, data := []);
      var x := q.busy.value.item;
      if x.Some? && !Full(q1, x.value.req) then Store(q1, x.value) else q1
  }

  /** The two "rpc overflow" aborts. */
  predicate Aborts(q: Queue, a: Action)
    requires Enabled(q, a)
  {
    match a
    case Put(x) => false
    case Claim(x) => |q.data| > MAX_RPC_MESSAGE
    case ClaimFlush => |q.data| > MAX_RPC_MESSAGE
    case SkipFlush => false
    case Transmit => false
    case Finish => q.busy.value.item.Some? && |q.busy.value.item.value.req| + 1 > q.max
  }

  // ----- what was sent, and what is still in the buffer -----

  function Reqs(xs: seq<Item>): (rs: seq<Bytes>)
    ensures |rs| == |xs| && forall i :: 0 <= i < |xs| ==> rs[i] == xs[i].req
  {
    seq(|xs|, i requires 0 <= i < |xs| => xs[i].req)
  }

  /** What the receiver makes of the messages: every request, in order, with the epoch it
      is handled under; None if some message does not decode. */
  function Handled(bs: seq<Batch>): Option<seq<Item>> {
    if bs == [] then Some([])
    else
      var front, last := Handled(bs[..|bs| - 1]), Unframe(bs[|bs| - 1].msg);
      if front.None? || last.None? then None else Some(front.value + Under(last.value, bs[|bs| - 1].epo))
  }

  function Under(rs: seq<Bytes>, epo: int): (xs: seq<Item>)
    ensures |xs| == |rs| && forall i :: 0 <= i < |xs| ==> xs[i] == Item(rs[i], epo)
  {
    seq(|rs|, i requires 0 <= i < |rs| => Item(rs[i], epo))
  }

  /** The requests in the buffer that no message carries yet. */
  function Pending(q: Queue): Option<seq<Bytes>> {
    if q.busy.Some? && q.busy.value.sent then Some([]) else Unframe(q.data)
  }

  /** `k` requests were sent; the rest of the accepted ones are framed in the buffer. */
  ghost predicate Holds(q: Queue, k: nat) {
    && k <= |q.accepted| && AllShort(Reqs(q.accepted[k..])) && q.data == Frames(Reqs(q.accepted[k..]))
    && (q.accepted[k..] != [] ==> q.lepo == q.accepted[|q.accepted| - 1].epoch)
  }

  ghost predicate Inv(q: Queue) {
    && |q.data| <= q.max <= MAX_RPC_MESSAGE
    && (q.busy.Some? && q.busy.value.item.Some? ==> Short(q.busy.value.item.value.req))
    && Handled(q.batches).Some?
    && (if q.busy.Some? && q.busy.value.sent then Reqs(Handled(q.batches).value) == Reqs(q.accepted)
        else
          && |Handled(q.batches).value| <= |q.accepted|
          && Reqs(Handled(q.batches).value) == Reqs(q.accepted[..|Handled(q.batches).value|])
          && Holds(q, |Handled(q.batches).value|))
  }

  lemma FramesSnoc(rs: seq<Bytes>, r: Bytes)
    requires AllShort(rs) && Short(r)
    ensures AllShort(rs + [r]) && Frames(rs + [r]) == Frames(rs) + Frame(r)
  {
    assert (rs + [r])[..|rs|] == rs;
  }

  lemma StoreHolds(q: Queue, k: nat, x: Item)
    requires Holds(q, k) && Short(x.req)
    ensures Holds(Store(q, x), k)
  {
    var rest := q.accepted[k..];
    assert (q.accepted + [x])[k..] == rest + [x];
    assert Reqs(rest + [x]) == Reqs(rest) + [x.req];
    FramesSnoc(Reqs(rest), x.req);
  }

  lemma StoreKeeps(q: Queue, x: Item)
    requires Inv(q) && q.busy.None? && Short(x.req) && !Full(q, x.req)
    ensures Inv(Store(q, x))
  {
    var k := |Handled(q.batches).value|;
    StoreHolds(q, k, x);
    assert (q.accepted + [x])[..k] == q.accepted[..k];
  }

  lemma HandledSnoc(bs: seq<Batch>, b: Batch, rs: seq<Bytes>)
    requires Handled(bs).Some? && Unframe(b.msg) == Some(rs)
    ensures Handled(bs + [b]) == Some(Handled(bs).value + Under(rs, b.epo))
  {
    assert (bs + [b])[..|bs|] == bs;
  }

  lemma ReqsConcat(xs: seq<Item>, ys: seq<Item>)
    ensures Reqs(xs + ys) == Reqs(xs) + Reqs(ys)
  {
  }

  /** What the messages amount to once the buffer was sent, too. */
  lemma TransmitHandled(q: Queue)
    requires Inv(q) && Enabled(q, Transmit)
    ensures var done := Handled(q.batches).value;
            Handled(Apply(q, Transmit).batches) == Some(done + Under(Reqs(q.accepted[|done|..]), q.lepo))
  {
    var done := Handled(q.batches).value;
    UnframeFrames(Reqs(q.accepted[|done|..]));
    HandledSnoc(q.batches, Batch(q.data, q.lepo), Reqs(q.accepted[|done|..]));
  }

  lemma TransmitKeeps(q: Queue)
    requires Inv(q) && Enabled(q, Transmit)
    ensures Inv(Apply(q, Transmit))
  {
    var done := Handled(q.batches).value;
    var rest := q.accepted[|done|..];
    TransmitHandled(q);
    SentAll(done, q.accepted, q.lepo);
  }

  /** All accepted requests were sent, whatever epochs they are handled under. */
  lemma SentAll(done: seq<Item>, accepted: seq<Item>, epo: int)
    requires |done| <= |accepted| && Reqs(done) == Reqs(accepted[..|done|])
    ensures Reqs(done + Under(Reqs(accepted[|done|..]), epo)) == Reqs(accepted)
  {
    var rest := accepted[|done|..];
    ReqsConcat(done, Under(Reqs(rest), epo));
    ReqsConcat(accepted[..|done|], rest);
    assert accepted == accepted[..|done|] + rest;
    assert Reqs(Under(Reqs(rest), epo)) == Reqs(rest);
  }

  lemma FinishKeeps(q: Queue)
    requires Inv(q) && Enabled(q, Finish)
    ensures Inv(Apply(q, Finish))
  {
    var q1 := q.(busy := None, data := []);
    var n := |q.accepted|;
    assert |Handled(q.batches).value| == n by {
      assert |Reqs(Handled(q.batches).value)| == |Reqs(q.accepted)|;
    }
    assert q.accepted[..n] == q.accepted && q.accepted[n..] == [] && Reqs([]) == [];
    assert Inv(q1);
    var x := q.busy.value.item;
    if x.Some? && !Full(q1, x.value.req) {
      StoreKeeps(q1, x.value);
    }
  }

  /** Every action of every writer keeps the invariant; the message size limit is never
      exceeded, and the other overflow abort is reached exactly for a request that does not
      fit an empty buffer. */
  lemma StepKeeps(q: Queue, a: Action)
    requires Inv(q) && Enabled(q, a)
    ensures Inv(Apply(q, a))
    ensures Aborts(q, a) <==> a.Finish? && q.busy.value.item.Some? && |q.busy.value.item.value.req| + 1 > q.max
  {
    match a
    case Put(x) => StoreKeeps(q, x);
    case Claim(x) =>
    case ClaimFlush =>
    case SkipFlush =>
    case Transmit => TransmitKeeps(q);
    case Finish => FinishKeeps(q);
  }

  ghost predicate Run(qs: seq<Queue>, acts: seq<Action>) {
    && |qs| == |acts| + 1 && qs[0] == Queue(qs[0].max, [], 0, None, [], []) && 0 <= qs[0].max <= MAX_RPC_MESSAGE
    && (forall i :: 0 <= i < |acts| ==> Enabled(qs[i], acts[i]) && qs[i + 1] == Apply(qs[i], acts[i]))
  }

  lemma {:induction false} RunKeeps(qs: seq<Queue>, acts: seq<Action>, n: nat)
    requires Run(qs, acts) && n < |qs|
    ensures Inv(qs[n])
  {
    if n > 0 {
      RunKeeps(qs, acts, n - 1);
      StepKeeps(qs[n - 1], acts[n - 1]);
    } else {
      assert Reqs([]) == [];
    }
  }

  /** Decoding all messages sent and then the frames still buffered gives exactly the requests
      put into the buffer, in order. */
  lemma BufferKeeps(q: Queue)
    requires Inv(q)
    ensures Handled(q.batches).Some? && Pending(q).Some?
    ensures Reqs(Handled(q.batches).value) + Pending(q).value == Reqs(q.accepted)
  {
    if !(q.busy.Some? && q.busy.value.sent) {
      var k := |Handled(q.batches).value|;
      UnframeFrames(Reqs(q.accepted[k..]));
      assert q.accepted == q.accepted[..k] + q.accepted[k..];
      ReqsConcat(q.accepted[..k], q.accepted[k..]);
    }
  }

  // ----- from the calls to the messages -----

  /** The request with which a writer enters `nn_shuffler_enqueue`. */
  function Issued(a: Action): Option<Item> {
    if a.Put? || a.Claim? then Some(a.x) else None
  }

  /** Does the request fit an empty buffer? */
  predicate Fits(max: int, x: Item) {
    |x.req| + 1 <= max
  }

  function IfFits(max: int, x: Option<Item>): seq<Item> {
    if x.Some? && Fits(max, x.value) then [x.value] else []
  }

  /** The requests of all calls so far that fit a buffer, in the order of the calls. */
  function Calls(max: int, acts: seq<Action>): seq<Item> {
    if acts == [] then []
    else Calls(max, acts[..|acts| - 1]) + IfFits(max, Issued(acts[|acts| - 1]))
  }

  /** The request a writer holds while it sends the full buffer, if it will fit. */
  function Held(q: Queue): seq<Item> {
    if q.busy.Some? then IfFits(q.max, q.busy.value.item) else []
  }

  /** What one action adds to the requests put into the buffer. */
  lemma AcceptedAfter(q: Queue, a: Action)
    requires Enabled(q, a)
    ensures Apply(q, a).accepted == q.accepted + (if a.Put? then [a.x] else if a.Finish? then Held(q) else [])
    ensures Apply(q, a).max == q.max
    ensures a.Finish? ==> Apply(q, a).busy == None
    ensures a.Finish? && q.busy.value.item.Some? ==> (Held(q) == [] <==> Aborts(q, a))
  {
  }

  lemma CallsStep(q: Queue, a: Action)
    requires Enabled(q, a)
    ensures Apply(q, a).accepted + Held(Apply(q, a)) == q.accepted + Held(q) + IfFits(q.max, Issued(a))
  {
    AcceptedAfter(q, a);
    if a.Put? {
      assert |q.data| + |a.x.req| + 1 <= q.max;
      assert Held(q) == [] && Held(Apply(q, a)) == [];
    }
  }

  /** In every run: what was put into the buffer, and then what a busy writer still holds, are
      the requests of all calls, in order, except those too large for any buffer. */
  lemma {:induction false} CallsKept(qs: seq<Queue>, acts: seq<Action>, n: nat)
    requires Run(qs, acts) && n < |qs|
    ensures qs[n].max == qs[0].max && qs[n].accepted + Held(qs[n]) == Calls(qs[0].max, acts[..n])
  {
    if n > 0 {
      CallsKept(qs, acts, n - 1);
      CallsStep(qs[n - 1], acts[n - 1]);
      AcceptedAfter(qs[n - 1], acts[n - 1]);
      assert acts[..n][..n - 1] == acts[..n - 1];
    }
  }

  /** N-N batching.  In every run of any writers and flushes: decoding all messages sent, then
      the frames still buffered, then what a busy writer holds, gives exactly the requests of
      all calls in order; only one too large for any buffer is missing, and that is the
      "rpc overflow" abort. */
  lemma NothingLost(qs: seq<Queue>, acts: seq<Action>, n: nat)
    requires Run(qs, acts) && n < |qs|
    ensures var q := qs[n];
            && Handled(q.batches).Some? && Pending(q).Some? && |q.data| <= q.max
            && Reqs(Handled(q.batches).value) + Pending(q).value + Reqs(Held(q)) == Reqs(Calls(q.max, acts[..n]))
  {
    RunKeeps(qs, acts, n);
    BufferKeeps(qs[n]);
    CallsKept(qs, acts, n);
    ReqsConcat(qs[n].accepted, Held(qs[n]));
  }

  lemma Cancel(a: seq<Bytes>, b: seq<Bytes>, c: seq<Bytes>)
    requires a + b == a + c
    ensures b == c
  {
    assert b == (a + b)[|a|..] && c == (a + c)[|a|..];
  }

  /** The buffer is reset, and the holder's own request goes in. */
  lemma FinishLetsGo(q: Queue, q': Queue)
    requires Inv(q) && Enabled(q, Finish) && q' == Apply(q, Finish)
    ensures q'.busy == None && q'.accepted == q.accepted + Held(q) && q'.batches == q.batches
    ensures Handled(q'.batches).Some? && Reqs(Handled(q'.batches).value) == Reqs(q.accepted)
    ensures Unframe(q'.data) == Some(Reqs(Held(q)))
  {
    AcceptedAfter(q, Finish);
    FinishKeeps(q);
    BufferKeeps(q');
    ReqsConcat(q.accepted, Held(q));
    Cancel(Reqs(q.accepted), Pending(q').value, Reqs(Held(q)));
  }

  /** The thread that holds the queue lets go of it: after its two steps everything put before
      was sent, the buffer holds its own request and nothing else, and the queue is free. */
  lemma HolderLetsGo(q: Queue) returns (q1: Queue, q2: Queue)
    requires Inv(q) && Enabled(q, Transmit)
    ensures q1 == Apply(q, Transmit) && Enabled(q1, Finish) && q2 == Apply(q1, Finish)
    ensures q2.busy == None && Handled(q2.batches).Some? && Reqs(Handled(q2.batches).value) == Reqs(q.accepted)
    ensures Unframe(q2.data) == Some(Reqs(Held(q))) && q2.accepted == q.accepted + Held(q)
  {
    q1 := Apply(q, Transmit);
    TransmitKeeps(q);
    q2 := Apply(q1, Finish);
    FinishLetsGo(q1, q2);
  }

  // ----- epochs -----

  /** The requests in the buffer were all enqueued with the epoch the message will carry. */
  ghost predicate Uniform(q: Queue) {
    Handled(q.batches).Some? &&
    forall i :: |Handled(q.batches).value| <= i < |q.accepted| ==> q.accepted[i].epoch == q.lepo
  }

  /** The requests sent so far are handled under the epochs they were enqueued with. */
  ghost predicate EpochsRight(q: Queue) {
    Handled(q.batches).Some? && Handled(q.batches).value <= q.accepted
  }

  /** Requests that are all handled under one epoch. */
  lemma UnderIff(done: seq<Item>, accepted: seq<Item>, epo: int)
    requires done <= accepted
    ensures done + Under(Reqs(accepted[|done|..]), epo) <= accepted
       <==> forall i :: |done| <= i < |accepted| ==> accepted[i].epoch == epo
  {
    var rest := accepted[|done|..];
    var sent := done + Under(Reqs(rest), epo);
    assert accepted == done + rest && |sent| == |accepted|;
    forall i | |done| <= i < |accepted| ensures sent[i] == Item(accepted[i].req, epo) {
      assert rest[i - |done|] == accepted[i];
    }
    if forall i :: |done| <= i < |accepted| ==> accepted[i].epoch == epo {
      assert sent == accepted;
    }
  }

  /** Sending the buffer handles every request under its own epoch if and only if they were
      all enqueued with the same epoch as the last one. */
  lemma TransmitEpochs(q: Queue)
    requires Inv(q) && Enabled(q, Transmit) && EpochsRight(q)
    ensures EpochsRight(Apply(q, Transmit)) <==> Uniform(q)
  {
    TransmitHandled(q);
    UnderIff(Handled(q.batches).value, q.accepted, q.lepo);
  }

  /** What a flush at every epoch change comes to: a new epoch finds the buffer empty. */
  predicate Disciplined(q: Queue, a: Action)
    requires Enabled(q, a)
  {
    a.Put? && q.data != [] ==> a.x.epoch == q.lepo
  }

  lemma EmptyBuffer(q: Queue)
    requires Inv(q) && !(q.busy.Some? && q.busy.value.sent)
    ensures q.data == [] <==> |Handled(q.batches).value| == |q.accepted|
  {
    var k := |Handled(q.batches).value|;
    UnframeFrames(Reqs(q.accepted[k..]));
    if k < |q.accepted| {
      assert Reqs(q.accepted[k..]) != [];
    }
  }

  ghost predicate Right(q: Queue) {
    EpochsRight(q) && Uniform(q)
  }

  lemma DisciplinedKeeps(q: Queue, a: Action)
    requires Inv(q) && Enabled(q, a) && Disciplined(q, a) && Right(q)
    ensures Right(Apply(q, a))
  {
    match a
    case Put(x) => EmptyBuffer(q);
    case Claim(x) =>
    case ClaimFlush =>
    case SkipFlush =>
    case Transmit =>
      TransmitEpochs(q);
      TransmitKeeps(q);
      assert |Reqs(Handled(Apply(q, a).batches).value)| == |Reqs(q.accepted)|;
    case Finish =>
      assert |Reqs(Handled(q.batches).value)| == |Reqs(q.accepted)|;
  }

  lemma {:induction false} DisciplinedKept(qs: seq<Queue>, acts: seq<Action>, n: nat)
    requires Run(qs, acts) && n < |qs|
    requires forall i :: 0 <= i < n && Enabled(qs[i], acts[i]) ==> Disciplined(qs[i], acts[i])
    ensures Right(qs[n])
  {
    if n > 0 {
      DisciplinedKept(qs, acts, n - 1);
      RunKeeps(qs, acts, n - 1);
      DisciplinedKeeps(qs[n - 1], acts[n - 1]);
    }
  }

  // ----- a flush at every epoch change -----

  predicate IsFlush(a: Action) {
    a.ClaimFlush? || a.SkipFlush?
  }

  /** No flush from moment `i` on, up to `n`. */
  predicate NoFlush(acts: seq<Action>, i: nat, n: nat)
    requires n <= |acts|
  {
    forall m :: i <= m < n ==> !IsFlush(acts[m])
  }

  /** Requests of different epochs have a flush between them. */
  predicate FlushedBetween(acts: seq<Action>) {
    forall i: nat, k: nat ::
      (i < k < |acts| && Issued(acts[i]).Some? && Issued(acts[k]).Some?
       && Issued(acts[i]).value.epoch != Issued(acts[k]).value.epoch)
      ==> !NoFlush(acts, i + 1, k)
  }

  /** Request `x` was issued before moment `n`, and no flush came since. */
  ghost predicate Recent(acts: seq<Action>, n: nat, epoch: int)
    requires n <= |acts|
  {
    exists i: nat :: i < n && Issued(acts[i]).Some? && Issued(acts[i]).value.epoch == epoch && NoFlush(acts, i + 1, n)
  }

  /** The last request in the buffer, and the one a busy writer holds, are recent. */
  ghost predicate LastRecent(q: Queue, acts: seq<Action>, n: nat)
    requires n <= |acts|
  {
    && (q.busy.None? && q.data != [] ==> Recent(acts, n, q.lepo))
    && (q.busy.Some? && q.busy.value.item.Some? ==> Recent(acts, n, q.busy.value.item.value.epoch))
  }

  lemma RecentNext(acts: seq<Action>, n: nat, epoch: int)
    requires n < |acts| && !IsFlush(acts[n]) && Recent(acts, n, epoch)
    ensures Recent(acts, n + 1, epoch)
  {
    var i: nat :| i < n && Issued(acts[i]).Some? && Issued(acts[i]).value.epoch == epoch && NoFlush(acts, i + 1, n);
    assert NoFlush(acts, i + 1, n + 1);
  }

  lemma RecentNow(acts: seq<Action>, n: nat)
    requires n < |acts| && Issued(acts[n]).Some?
    ensures Recent(acts, n + 1, Issued(acts[n]).value.epoch)
  {
    assert NoFlush(acts, n + 1, n + 1);
  }

  lemma LastRecentStep(q: Queue, acts: seq<Action>, n: nat)
    requires n < |acts| && Enabled(q, acts[n]) && LastRecent(q, acts, n)
    ensures LastRecent(Apply(q, acts[n]), acts, n + 1)
  {
    var a := acts[n];
    if a.Put? || a.Claim? {
      RecentNow(acts, n);
    }
    if a.Transmit? || a.Finish? {
      if q.busy.value.item.Some? {
        RecentNext(acts, n, q.busy.value.item.value.epoch);
      }
    }
  }

  lemma {:induction false} LastRecentAlong(qs: seq<Queue>, acts: seq<Action>, n: nat)
    requires Run(qs, acts) && n < |qs|
    ensures LastRecent(qs[n], acts, n)
  {
    if n > 0 {
      LastRecentAlong(qs, acts, n - 1);
      LastRecentStep(qs[n - 1], acts, n - 1);
    }
  }

  /** If the queue is flushed between requests of different epochs, every request is handled
      under the epoch it was enqueued with, in the order of the calls. */
  lemma EpochsKept(qs: seq<Queue>, acts: seq<Action>, n: nat)
    requires Run(qs, acts) && n < |qs| && FlushedBetween(acts)
    ensures Right(qs[n]) && Handled(qs[n].batches).value <= Calls(qs[n].max, acts[..n])
  {
    CallsKept(qs, acts, n);
    forall i | 0 <= i < n && Enabled(qs[i], acts[i]) ensures Disciplined(qs[i], acts[i]) {
      LastRecentAlong(qs, acts, i);
      if acts[i].Put? && qs[i].data != [] {
        var k: nat :| k < i && Issued(acts[k]).Some? && Issued(acts[k]).value.epoch == qs[i].lepo
            && NoFlush(acts, k + 1, i);
        assert Issued(acts[i]).value.epoch == qs[i].lepo;
      }
    }
    DisciplinedKept(qs, acts, n);
  }
}
