/** One output queue of the shuffler (`struct outqueue`) as a value, with one function
    per critical section of the source: everything a thread does between taking and
    releasing `oqlock` is one function here. */
module OutQueues {
  import opened Messages

  /** `maxoqrpc` and `buftarget` of the owning outset. */
  datatype Config = Config(maxoqrpc: nat, buftarget: int)

  /** An RPC that was formed and not yet answered.  `first` is its identity; `batch`
      records what it carries; `sent` is false in step OSTEP_PREP. */
  datatype Output = Output(first: nat, batch: seq<Request>, sent: bool)

  /** The fields of an output queue.  `formed` counts the requests put into batches so
      far (it only names outputs).  `tracking` is the local state of a thread in
      `forw_start_next` between its two critical sections: it emptied the wait counter
      and still has to store `oqflush_output` before sending the named output. */
  datatype OutQ = OutQ(
    loading: seq<Request>, loadsize: int,
    outs: seq<Output>, nsending: int,
    waitq: seq<Waiter>,
    flushing: bool, waitcounter: int, flushOut: Option<nat>,
    tracking: Option<nat>, formed: nat)

  const EMPTYQ := OutQ([], 0, [], 0, [], false, 0, None, None, 0)

  /** What `forw_start_next` found out while it held the lock. */
  datatype Outcome = Outcome(tosend: bool, flushnow: bool, flushdone: bool)

  // ----- the critical sections -----

  /** `append_req_to_locked_outqueue`. */
  function Append(c: Config, q: OutQ, req: Option<Request>, flushnow: bool): (r: (OutQ, bool))
    ensures r.0.waitq == q.waitq
  {
    var newload := if req.Some? then q.loadsize + |req.value.data| else q.loadsize;
    var batch := if req.Some? then q.loading + [req.value] else q.loading;
    if newload == 0 || (newload < c.buftarget && !flushnow) then
      (q.(loading := batch, loadsize := newload), false)
    else
      (q.(outs := q.outs + [Output(q.formed, batch, false)], nsending := q.nsending + 1,
          loading := [], loadsize := 0, formed := q.formed + |batch|), true)
  }

  /** The locked part of `req_via_mercury`: park the request or load it. */
  function Accept(c: Config, q: OutQ, w: Waiter): (OutQ, bool) {
    if q.nsending >= c.maxoqrpc then
      (q.(waitq := q.waitq + [w]), false)
    else
      Append(c, q, Some(w.req), false)
  }

  /** The locked part of `forward_reqs_now`: OSTEP_PREP becomes OSTEP_SEND. */
  function MarkSent(q: OutQ, i: nat): OutQ
    requires i < |q.outs|
  {
    q.(outs := q.outs[i := q.outs[i].(sent := true)])
  }

  function RemoveAt<T>(s: seq<T>, i: nat): (r: seq<T>)
    requires i < |s|
    ensures |r| == |s| - 1
    ensures forall k :: 0 <= k < i ==> r[k] == s[k]
    ensures forall k :: i <= k < |r| ==> r[k] == s[k + 1]
  {
    s[..i] + s[i + 1..]
  }

  /** First part of `forw_start_next`: advance the flush tracker past output `i`, take
      `i` off the list and drop `nsending`.  True means the flush is finished. */
  function Retire(q: OutQ, i: nat): (r: (OutQ, bool))
    requires i < |q.outs|
    ensures r.0.waitq == q.waitq
  {
    var hit := q.flushing && q.flushOut == Some(q.outs[i].first);
    var q1 :=
      if !hit then q
      else if i == 0 then q.(flushing := false, flushOut := None)
      else q.(flushOut := Some(q.outs[i - 1].first));
    (q1.(outs := RemoveAt(q.outs, i),
         nsending := if q.nsending > 0 then q.nsending - 1 else q.nsending),
     hit && i == 0)
  }

  /** Does taking one request off the wait queue finish the first phase of a flush? */
  predicate ClearsWait(q: OutQ) {
    q.flushing && q.waitcounter == 1
  }

  /** Take the front request off the wait queue and count it for a flush. */
  function PopWaiter(q: OutQ): (r: OutQ)
    requires q.waitq != []
    ensures |r.waitq| == |q.waitq| - 1
  {
    q.(waitq := q.waitq[1..],
       waitcounter := if q.flushing && q.waitcounter > 0 then q.waitcounter - 1 else q.waitcounter)
  }

  /** The drain loop of `forw_start_next`: load waiting requests until a batch forms.
      Returns the queue, whether a batch formed, and `flushloadingnow`. */
  function Drain(c: Config, q: OutQ, flushnow: bool): (OutQ, bool, bool)
    decreases |q.waitq|
  {
    if q.waitq == [] then (q, false, flushnow)
    else
      var f := flushnow || ClearsWait(q);
      var (q2, tosend) := Append(c, PopWaiter(q), Some(q.waitq[0].req), false);
      if tosend then (q2, true, f) else Drain(c, q2, f)
  }

  /** One turn of the drain loop, from `q` to `q2`. */
  lemma DrainTurn(c: Config, q: OutQ, f: bool, q2: OutQ, tosend: bool, cleared: bool)
    requires q.waitq != [] && (q2, tosend) == Append(c, PopWaiter(q), Some(q.waitq[0].req), false)
    requires cleared == ClearsWait(q)
    ensures q2.waitq == q.waitq[1..]
    ensures Drain(c, q, f) == if tosend then (q2, true, f || cleared) else Drain(c, q2, f || cleared)
  {
  }

  /** The whole first critical section of `forw_start_next` for output number `i`. */
  function Complete(c: Config, q: OutQ, i: nat): (r: (OutQ, Outcome))
    requires i < |q.outs|
    ensures r.1.flushdone <==> q.flushing && q.flushOut == Some(q.outs[i].first) && i == 0
  {
    var (q1, done) := Retire(q, i);
    var (q2, tosend, f) := Drain(c, q1, false);
    var (q3, sent) := if f && !tosend then Append(c, q2, None, true) else (q2, tosend);
    (if f && sent then q3.(tracking := Some(LastFirst(q3))) else q3, Outcome(sent, f, done))
  }

  function LastFirst(q: OutQ): nat {
    if q.outs == [] then 0 else q.outs[|q.outs| - 1].first
  }

  /** Second critical section of `forw_start_next`: start tracking the youngest output.
      True means there was nothing to track and the flush is finished. */
  function Track(q: OutQ): (OutQ, bool) {
    if q.outs == [] then
      (q.(flushOut := None, flushing := false, tracking := None), true)
    else
      (q.(flushOut := Some(LastFirst(q)), tracking := None), false)
  }

  /** `start_qflush` up to the point where the lock may be dropped.  True means the
      loading list became a batch, so the lock is dropped and `FlushOuts` runs later. */
  function FlushLoading(c: Config, q: OutQ): (OutQ, bool) {
    if q.waitq != [] then
      (q.(waitcounter := |q.waitq|, flushOut := None, flushing := true), false)
    else
      Append(c, q, None, true)
  }

  /** The last part of `start_qflush`. */
  function FlushOuts(q: OutQ): OutQ {
    if q.outs == [] then q
    else q.(waitcounter := 0, flushOut := Some(LastFirst(q)), flushing := true)
  }

  // ----- what the callers are told -----

  /** A caller is told to send exactly when a batch was formed; the batch is the youngest
      output, unsent, and holds what was loading and then the request. */
  predicate Tells(q: OutQ, q': OutQ, tosend: bool, more: seq<Request>) {
    if tosend then q'.outs == q.outs + [Output(q.formed, q.loading + more, false)] else q'.outs == q.outs
  }

  /** `req_via_mercury`: whether its caller is to send is whether a batch is due: there is room
      for an RPC, and the request fills the load. */
  lemma AcceptTells(c: Config, q: OutQ, w: Waiter)
    ensures Tells(q, Accept(c, q, w).0, Accept(c, q, w).1, [w.req])
    ensures Accept(c, q, w).1 <==> |Accept(c, q, w).0.outs| == |q.outs| + 1
    ensures Accept(c, q, w).1 <==>
              q.nsending < c.maxoqrpc && q.loadsize + |w.req.data| != 0 && q.loadsize + |w.req.data| >= c.buftarget
    ensures q.nsending >= c.maxoqrpc ==> Accept(c, q, w).0 == q.(waitq := q.waitq + [w])
  {
  }

  /** `start_qflush`: the flusher is to send exactly when nothing waits and the load is not
      empty. */
  lemma FlushTells(c: Config, q: OutQ)
    ensures Tells(q, FlushLoading(c, q).0, FlushLoading(c, q).1, [])
    ensures FlushLoading(c, q).1 <==> |FlushLoading(c, q).0.outs| == |q.outs| + 1
    ensures FlushLoading(c, q).1 <==> q.waitq == [] && q.loadsize != 0
  {
    assert q.loading + [] == q.loading;
  }

  /** `forw_start_next`: the completing thread reports the flush of the queue finished exactly
      when the tracked output was the one that finished and the oldest, and then the queue is no
      longer flushing. */
  lemma CompleteTells(c: Config, q: OutQ, i: nat)
    requires i < |q.outs|
    ensures var (q', o) := Complete(c, q, i);
            && (o.flushdone <==> q.flushing && q.flushOut == Some(q.outs[i].first) && i == 0)
            && (o.tosend <==> |q'.outs| == |q.outs|) && (!o.tosend <==> |q'.outs| == |q.outs| - 1)
            && (o.tosend ==> !q'.outs[|q.outs| - 1].sent) && RemoveAt(q.outs, i) <= q'.outs
            && (q.waitcounter >= 0 ==> (o.flushdone <==> q.flushing && !q'.flushing))
  {
    var q1 := Retire(q, i).0;
    DrainOuts(c, q1, false);
    DrainUnsent(c, q1, false);
    if q.waitcounter >= 0 {
      DrainFlush(c, q1, false);
    }
  }

  lemma {:induction false} DrainUnsent(c: Config, q: OutQ, f: bool)
    ensures var r := Drain(c, q, f); r.1 ==> r.0.outs != [] && !r.0.outs[|r.0.outs| - 1].sent
    decreases |q.waitq|
  {
    if q.waitq != [] {
      var (q2, tosend) := Append(c, PopWaiter(q), Some(q.waitq[0].req), false);
      if !tosend {
        DrainUnsent(c, q2, f || ClearsWait(q));
      }
    }
  }

  // ----- the bounded FIFO -----

  predicate OutsOrdered(outs: seq<Output>, formed: nat) {
    && (forall i :: 0 <= i < |outs| ==> outs[i].batch != [] && outs[i].first + |outs[i].batch| <= formed)
    && (forall i, j :: 0 <= i < j < |outs| ==> outs[i].first + |outs[i].batch| <= outs[j].first)
  }

  /** What holds of a queue whenever its lock is free. */
  ghost predicate Sound(c: Config, q: OutQ) {
    && c.maxoqrpc >= 1
    && q.loadsize == Size(q.loading)
    && q.nsending == |q.outs| <= c.maxoqrpc
    && (q.nsending == c.maxoqrpc ==> q.loading == [])
    && (q.waitq != [] ==> q.nsending == c.maxoqrpc)
    && (q.loading != [] ==> q.loadsize < c.buftarget)
    && OutsOrdered(q.outs, q.formed)
    && NonEmptyReqs(q.loading) && NonEmptyReqs(Reqs(q.waitq))
  }

  /** Net effect of loading the first `n` waiting requests: either they all joined the
      loading list or loading plus them became one new batch. */
  ghost predicate Moved(c: Config, q: OutQ, n: nat, q': OutQ, tosend: bool) {
    && n <= |q.waitq| && q'.waitq == q.waitq[n..]
    && var moved := q.loading + Reqs(q.waitq[..n]);
       if tosend then
         && moved != []
         && q'.loading == [] && q'.loadsize == 0
         && q'.outs == q.outs + [Output(q.formed, moved, false)]
         && q'.nsending == q.nsending + 1 && q'.formed == q.formed + |moved|
       else
         && q'.waitq == [] && q'.loading == moved && q'.loadsize == Size(moved)
         && (moved != [] ==> q'.loadsize < c.buftarget)
         && q'.outs == q.outs && q'.nsending == q.nsending && q'.formed == q.formed
  }

  /** Loading `n` waiting requests leaves the tracker alone, except for the counter. */
  ghost predicate Counted(q: OutQ, n: nat, q': OutQ) {
    && q'.flushing == q.flushing && q'.flushOut == q.flushOut
    && q'.waitcounter == (if !q.flushing then q.waitcounter else if q.waitcounter <= n then 0 else q.waitcounter - n)
  }

  /** The queue has room and its loading list is consistent. */
  ghost predicate Roomy(c: Config, q: OutQ) {
    && q.loadsize == Size(q.loading) && (q.loading != [] ==> q.loadsize < c.buftarget)
    && NonEmptyReqs(q.loading) && NonEmptyReqs(Reqs(q.waitq)) && q.waitcounter >= 0
  }

  lemma ReqsCons(ws: seq<Waiter>, n: nat)
    requires 1 <= n <= |ws|
    ensures Reqs(ws[..n]) == [ws[0].req] + Reqs(ws[1..][..n - 1])
  {
  }

  /** One turn of the drain loop that did not fill a batch. */
  ghost predicate Popped(c: Config, q: OutQ, q2: OutQ) {
    && q.waitq != [] && q2.waitq == q.waitq[1..]
    && q2.loading == q.loading + [q.waitq[0].req] && q2.outs == q.outs
    && q2.nsending == q.nsending && q2.formed == q.formed
    && Counted(q, 1, q2) && q2.tracking == q.tracking && Roomy(c, q2)
  }

  /** What the drain loop does: it moves a prefix of the wait queue, all of it unless a
      batch formed, and raises `flushnow` when the flush's last request was in it. */
  ghost predicate DrainSpec(c: Config, q: OutQ, f: bool, q': OutQ, tosend: bool, f': bool) {
    var n := |q.waitq| - |q'.waitq|;
    && n >= 0 && Moved(c, q, n, q', tosend) && Counted(q, n, q')
    && q'.tracking == q.tracking
    && (f' <==> f || (q.flushing && 0 < q.waitcounter <= n))
  }

  lemma PopMoves(c: Config, q: OutQ, f: bool)
    requires Roomy(c, q) && q.waitq != []
    ensures var (q2, tosend) := Append(c, PopWaiter(q), Some(q.waitq[0].req), false);
            if tosend then DrainSpec(c, q, f, q2, true, f || ClearsWait(q)) else Popped(c, q, q2)
  {
    var r := q.waitq[0].req;
    assert r == Reqs(q.waitq)[0];
    SizeSnoc(q.loading, r);
    assert Reqs(q.waitq[..1]) == [r];
    var q2 := Append(c, PopWaiter(q), Some(r), false).0;
    forall k | 0 <= k < |q2.waitq| ensures Reqs(q2.waitq)[k].data != [] {
      assert Reqs(q2.waitq)[k] == Reqs(q.waitq)[k + 1];
    }
  }

  lemma MovedMore(c: Config, q: OutQ, q2: OutQ, m: nat, q': OutQ, tosend: bool)
    requires Popped(c, q, q2) && Moved(c, q2, m, q', tosend)
    ensures Moved(c, q, m + 1, q', tosend)
  {
    ReqsCons(q.waitq, m + 1);
    assert q2.loading + Reqs(q2.waitq[..m]) == q.loading + Reqs(q.waitq[..m + 1]);
    assert q2.waitq[m..] == q.waitq[m + 1..];
  }

  /** Moving one request without filling a batch, then the rest, is a drain. */
  lemma DrainMore(c: Config, q: OutQ, f: bool, q2: OutQ, q': OutQ, tosend: bool, f': bool)
    requires Roomy(c, q) && Popped(c, q, q2)
    requires DrainSpec(c, q2, f || ClearsWait(q), q', tosend, f')
    ensures DrainSpec(c, q, f, q', tosend, f')
  {
    var m := |q2.waitq| - |q'.waitq|;
    MovedMore(c, q, q2, m, q', tosend);
    CountedMore(q, q2, m, q');
  }

  lemma CountedMore(q: OutQ, q2: OutQ, m: nat, q': OutQ)
    requires q.waitcounter >= 0 && Counted(q, 1, q2) && Counted(q2, m, q')
    ensures Counted(q, m + 1, q')
  {
  }

  lemma {:induction false} DrainMoves(c: Config, q: OutQ, f: bool)
    requires Roomy(c, q)
    ensures var r := Drain(c, q, f); DrainSpec(c, q, f, r.0, r.1, r.2)
    decreases |q.waitq|
  {
    if q.waitq == [] {
      assert q.loading + Reqs(q.waitq[..0]) == q.loading;
    } else {
      PopMoves(c, q, f);
      var (q2, tosend) := Append(c, PopWaiter(q), Some(q.waitq[0].req), false);
      if !tosend {
        var g := f || ClearsWait(q);
        DrainMoves(c, q2, g);
        var r := Drain(c, q2, g);
        DrainMore(c, q, f, q2, r.0, r.1, r.2);
      }
    }
  }

  lemma MovedNonEmpty(rs: seq<Request>, ws: seq<Waiter>, n: nat)
    requires NonEmptyReqs(rs) && NonEmptyReqs(Reqs(ws)) && n <= |ws|
    ensures NonEmptyReqs(rs + Reqs(ws[..n]))
  {
    var m := rs + Reqs(ws[..n]);
    forall k | 0 <= k < |m| ensures m[k].data != [] {
      if k >= |rs| {
        assert m[k] == Reqs(ws)[k - |rs|];
      }
    }
  }

  /** When the flush's last waiting request was loaded without filling a batch, the
      forced send has something to send. */
  lemma PushLoading(c: Config, q: OutQ, q2: OutQ)
    requires Roomy(c, q) && DrainSpec(c, q, false, q2, false, true)
    ensures var (q3, sent) := Append(c, q2, None, true);
            sent && DrainSpec(c, q, false, q3, true, true)
  {
    var n := |q.waitq| - |q2.waitq|;
    MovedNonEmpty(q.loading, q.waitq, n);
    SizePositive(q2.loading);
  }

  /** What one finished output does to the queue, in terms of what `Retire` left. */
  ghost predicate CompleteSpec(c: Config, q1: OutQ, q': OutQ, o: Outcome) {
    && DrainSpec(c, q1, false, q'.(tracking := q1.tracking), o.tosend, o.flushnow)
    && (o.flushnow ==> o.tosend)
    && q'.tracking == (if o.flushnow then Some(LastFirst(q')) else q1.tracking)
  }

  lemma CompleteMoves(c: Config, q: OutQ, i: nat)
    requires Roomy(c, q) && i < |q.outs|
    ensures var (q', o) := Complete(c, q, i); CompleteSpec(c, Retire(q, i).0, q', o)
  {
    var q1 := Retire(q, i).0;
    DrainMoves(c, q1, false);
    var (q2, tosend, f) := Drain(c, q1, false);
    if f && !tosend {
      PushLoading(c, q1, q2);
    }
  }

  lemma CompleteMoved(c: Config, q: OutQ, i: nat)
    requires Roomy(c, q) && i < |q.outs|
    ensures var (q', o) := Complete(c, q, i);
            |q'.waitq| <= |q.waitq| && Moved(c, Retire(q, i).0, |q.waitq| - |q'.waitq|, q', o.tosend)
  {
    CompleteMoves(c, q, i);
    var (q', o) := Complete(c, q, i);
    MovedTracking(c, Retire(q, i).0, |q.waitq| - |q'.waitq|, q', o.tosend, q.tracking);
  }

  lemma MovedTracking(c: Config, q: OutQ, n: int, q': OutQ, tosend: bool, tracking: Option<nat>)
    requires n >= 0 && Moved(c, q, n, q'.(tracking := tracking), tosend)
    ensures Moved(c, q, n, q', tosend)
  {
  }

  // ----- zero-length requests -----

  predicate HasData(rs: seq<Request>) {
    exists i :: 0 <= i < |rs| && rs[i].data != []
  }

  lemma {:induction false} SizeZero(rs: seq<Request>)
    ensures Size(rs) == 0 <==> !HasData(rs)
  {
    if rs != [] {
      var n := |rs| - 1;
      SizeZero(rs[..n]);
      assert forall i :: 0 <= i < n ==> rs[..n][i] == rs[i];
    }
  }

  /** A flush of a queue without waiting requests pushes the loading list out if and only
      if some request in it has data: a load of zero-length requests stays behind. */
  lemma FlushEmptiesLoading(c: Config, q: OutQ)
    requires q.waitq == [] && q.loadsize == Size(q.loading) && q.loading != []
    ensures FlushLoading(c, q).0.loading == [] <==> HasData(q.loading)
  {
    SizeZero(q.loading);
  }

  /** The loading list is counted right, and not due; requests of any length. */
  predicate Loaded(c: Config, q: OutQ) {
    q.loadsize == Size(q.loading) && (q.loadsize == 0 || q.loadsize < c.buftarget)
  }

  /** What the drain loop takes off the wait queue, after what was loading. */
  function Taken(q: OutQ, q': OutQ): seq<Request> {
    if |q'.waitq| <= |q.waitq| then q.loading + Reqs(q.waitq[..|q.waitq| - |q'.waitq|]) else q.loading
  }

  /** A batch formed out of requests some of which have data, or the whole wait queue was
      loaded. */
  ghost predicate Forms(q: OutQ, q': OutQ, tosend: bool) {
    && |q'.waitq| <= |q.waitq|
    && (if tosend then HasData(Taken(q, q'))
        else q'.waitq == [] && q'.loading == Taken(q, q') && q'.loadsize == Size(q'.loading))
  }

  /** One request was loaded without forming a batch. */
  lemma FormsMore(q: OutQ, q2: OutQ, q': OutQ, tosend: bool)
    requires q.waitq != [] && q2.waitq == q.waitq[1..] && q2.loading == q.loading + [q.waitq[0].req]
    requires Forms(q2, q', tosend)
    ensures Forms(q, q', tosend)
  {
    var n := |q2.waitq| - |q'.waitq|;
    ReqsCons(q.waitq, n + 1);
    assert q2.loading + Reqs(q2.waitq[..n]) == q.loading + Reqs(q.waitq[..n + 1]);
  }

  /** A batch made of one more request has data. */
  lemma FormsFirst(q: OutQ, q2: OutQ)
    requires q.waitq != [] && q2.waitq == q.waitq[1..] && Size(q.loading + [q.waitq[0].req]) != 0
    ensures Forms(q, q2, true)
  {
    SizeZero(q.loading + [q.waitq[0].req]);
    assert Reqs(q.waitq[..1]) == [q.waitq[0].req];
  }

  /** One request was loaded, whatever its length. */
  lemma FormsOne(c: Config, q: OutQ)
    requires Loaded(c, q) && q.waitq != []
    ensures var (q2, tosend) := Append(c, PopWaiter(q), Some(q.waitq[0].req), false);
            if tosend then Forms(q, q2, true)
            else Loaded(c, q2) && q2.waitq == q.waitq[1..] && q2.loading == q.loading + [q.waitq[0].req]
  {
    var (q2, tosend) := Append(c, PopWaiter(q), Some(q.waitq[0].req), false);
    SizeSnoc(q.loading, q.waitq[0].req);
    if tosend {
      FormsFirst(q, q2);
    }
  }

  lemma {:induction false} DrainForms(c: Config, q: OutQ, f: bool)
    requires Loaded(c, q)
    ensures var r := Drain(c, q, f); Forms(q, r.0, r.1)
    decreases |q.waitq|
  {
    if q.waitq == [] {
      assert q.loading + Reqs(q.waitq[..0]) == q.loading;
    } else {
      FormsOne(c, q);
      var (q2, tosend) := Append(c, PopWaiter(q), Some(q.waitq[0].req), false);
      if !tosend {
        var g := f || ClearsWait(q);
        DrainForms(c, q2, g);
        FormsMore(q, q2, Drain(c, q2, g).0, Drain(c, q2, g).1);
      }
    }
  }

  /** The flush of this queue waits for something that nothing will ever report: no waiting
      request is counted, and no output is or will be tracked. */
  predicate Hung(q: OutQ) {
    q.flushing && q.waitcounter == 0 && q.flushOut == None && q.tracking == None
  }

  /** The drain loop and the flush fields, for requests of any length. */
  lemma {:induction false} DrainFlush(c: Config, q: OutQ, f: bool)
    requires q.waitcounter >= 0
    ensures var r := Drain(c, q, f);
            && r.0.flushing == q.flushing && r.0.flushOut == q.flushOut && r.0.tracking == q.tracking
            && 0 <= r.0.waitcounter <= q.waitcounter
            && (r.2 <==> f || (q.flushing && q.waitcounter > 0 && r.0.waitcounter == 0))
            && (!q.flushing ==> r.0.waitcounter == q.waitcounter)
    decreases |q.waitq|
  {
    if q.waitq != [] {
      var (q2, tosend) := Append(c, PopWaiter(q), Some(q.waitq[0].req), false);
      if !tosend {
        DrainFlush(c, q2, f || ClearsWait(q));
      }
    }
  }

  /** What the drain loop takes is a part of what was loading and waiting. */
  lemma TakenData(q: OutQ, q': OutQ)
    requires |q'.waitq| <= |q.waitq| && HasData(Taken(q, q'))
    ensures HasData(q.loading + Reqs(q.waitq))
  {
    var i :| 0 <= i < |Taken(q, q')| && Taken(q, q')[i].data != [];
    assert (q.loading + Reqs(q.waitq))[i] == Taken(q, q')[i];
  }

  lemma TakenAll(q: OutQ, q': OutQ)
    requires q'.waitq == []
    ensures Taken(q, q') == q.loading + Reqs(q.waitq)
  {
    assert q.waitq[..|q.waitq|] == q.waitq;
  }

  /** The drain loop under a flush that counts waiting requests, and the forced push after it:
      something is sent if and only if something loading or waiting has data. */
  lemma DrainData(c: Config, q: OutQ)
    requires Loaded(c, q) && q.flushing && 0 < q.waitcounter <= |q.waitq|
    ensures var (q2, tosend, f) := Drain(c, q, false);
            && (tosend ==> HasData(q.loading + Reqs(q.waitq)))
            && (!tosend ==> f && (Append(c, q2, None, true).1 <==> HasData(q.loading + Reqs(q.waitq))))
  {
    DrainForms(c, q, false);
    DrainFlush(c, q, false);
    var (q2, tosend, f) := Drain(c, q, false);
    if tosend {
      TakenData(q, q2);
    } else {
      DrainTakes(c, q, false);
      TakenAll(q, q2);
      SizeZero(q2.loading);
    }
  }

  /** Under a flush every request taken off is counted. */
  lemma {:induction false} DrainTakes(c: Config, q: OutQ, f: bool)
    requires q.flushing && 0 <= q.waitcounter
    ensures var q' := Drain(c, q, f).0;
            && |q'.waitq| <= |q.waitq| && q.waitcounter - q'.waitcounter <= |q.waitq| - |q'.waitq|
            && (q'.waitcounter > 0 ==> q.waitcounter - q'.waitcounter == |q.waitq| - |q'.waitq|)
            && (q.waitq != [] ==> |q'.waitq| < |q.waitq|)
    decreases |q.waitq|
  {
    if q.waitq != [] {
      var (q2, tosend) := Append(c, PopWaiter(q), Some(q.waitq[0].req), false);
      if !tosend {
        DrainTakes(c, q2, f || ClearsWait(q));
      }
    }
  }

  /** The drain loop and the outputs: at most one new output, the youngest. */
  ghost predicate OneMore(q: OutQ, q': OutQ, tosend: bool) {
    if tosend then
      && |q'.outs| == |q.outs| + 1 && q'.outs[..|q.outs|] == q.outs && q'.outs[|q.outs|].first == q.formed
      && q'.formed > q.formed && q'.nsending == q.nsending + 1
    else
      q'.outs == q.outs && q'.formed == q.formed && q'.nsending == q.nsending
  }

  lemma {:induction false} DrainOuts(c: Config, q: OutQ, f: bool)
    ensures var r := Drain(c, q, f);
            OneMore(q, r.0, r.1) && (!r.1 ==> r.0.waitq == []) && (r.1 ==> r.0.loadsize == 0 && r.0.loading == [])
    decreases |q.waitq|
  {
    if q.waitq != [] {
      var (q2, tosend) := Append(c, PopWaiter(q), Some(q.waitq[0].req), false);
      if !tosend {
        DrainOuts(c, q2, f || ClearsWait(q));
      }
    }
  }

  /** While a flush counts waiting requests, a completion forms a batch if and only if some
      request loading or waiting has data. */
  lemma FlushFormsIff(c: Config, q: OutQ, i: nat)
    requires Loaded(c, q) && i < |q.outs| && q.flushing && 0 < q.waitcounter <= |q.waitq| && q.flushOut == None
    ensures Complete(c, q, i).1.tosend <==> HasData(q.loading + Reqs(q.waitq))
  {
    DrainData(c, Retire(q, i).0);
  }

  /** And the flush hangs at this completion if and only if none has. */
  lemma HangsIff(c: Config, q: OutQ, i: nat)
    requires Loaded(c, q) && i < |q.outs| && q.flushing && 0 < q.waitcounter <= |q.waitq|
    requires q.flushOut == None && q.tracking == None
    ensures Hung(Complete(c, q, i).0) <==> !HasData(q.loading + Reqs(q.waitq))
  {
    DrainData(c, Retire(q, i).0);
    DrainFlush(c, Retire(q, i).0, false);
    DrainTakes(c, Retire(q, i).0, false);
  }
}
