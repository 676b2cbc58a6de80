/** An output queue together with its history: every request it accepted, in order, and
    which of them were answered.  The flush tracker is judged against that history. */
module QueueLogs {
  import opened Messages
  import opened OutQueues

  /** `accepted` lists the requests handed to the queue; position k in it is "request k".
      `replied` holds the positions whose RPC was answered.  `snap` is how many requests
      had been accepted when the running flush looked at the queue. */
  datatype LogQ = LogQ(q: OutQ, accepted: seq<Request>, replied: set<nat>, snap: nat)

  const EMPTYLOG := LogQ(EMPTYQ, [], {}, 0)

  // ----- steps -----

  function LAccept(c: Config, l: LogQ, w: Waiter): LogQ {
    l.(q := Accept(c, l.q, w).0, accepted := l.accepted + [w.req])
  }

  function LSent(l: LogQ, i: nat): LogQ
    requires i < |l.q.outs|
  {
    l.(q := MarkSent(l.q, i))
  }

  function Span(o: Output): set<nat> {
    set k: nat | k < o.first + |o.batch| && Covers(o, k)
  }

  function LComplete(c: Config, l: LogQ, i: nat): LogQ
    requires i < |l.q.outs|
  {
    l.(q := Complete(c, l.q, i).0, replied := l.replied + Span(l.q.outs[i]))
  }

  function LTrack(l: LogQ): LogQ {
    l.(q := Track(l.q).0)
  }

  function LFlushLoading(c: Config, l: LogQ): LogQ {
    l.(q := FlushLoading(c, l.q).0, snap := |l.accepted|)
  }

  function LFlushOuts(l: LogQ): LogQ {
    l.(q := FlushOuts(l.q))
  }

  // ----- invariant -----

  /** Batches formed, then loading, then the wait queue, are the acceptance order. */
  ghost predicate Fifo(l: LogQ) {
    && l.q.formed <= |l.accepted|
    && l.accepted[l.q.formed..] == l.q.loading + Reqs(l.q.waitq)
    && (forall i :: 0 <= i < |l.q.outs| ==> Carries(l.accepted, l.q.outs[i]))
  }

  /** The output carries the stretch of accepted requests its name says. */
  predicate Carries(accepted: seq<Request>, o: Output) {
    && o.first + |o.batch| <= |accepted|
    && o.batch == accepted[o.first..o.first + |o.batch|]
  }

  predicate Covers(o: Output, k: nat) {
    o.first <= k < o.first + |o.batch|
  }

  ghost predicate Outstanding(outs: seq<Output>, k: nat) {
    exists i :: 0 <= i < |outs| && Covers(outs[i], k)
  }

  /** A request was answered exactly when it is in a batch that is no longer out. */
  ghost predicate Replies(l: LogQ) {
    forall k: nat :: k in l.replied <==> k < l.q.formed && !Outstanding(l.q.outs, k)
  }

  ghost predicate HasOut(outs: seq<Output>, f: nat) {
    exists i :: 0 <= i < |outs| && outs[i].first == f
  }

  ghost predicate HasUnsent(outs: seq<Output>, f: nat) {
    exists i :: 0 <= i < |outs| && outs[i].first == f && !outs[i].sent
  }

  /** Output `f` is out, and every younger output holds only requests after `snap`. */
  ghost predicate Guards(outs: seq<Output>, f: nat, snap: nat) {
    && HasOut(outs, f)
    && (forall j :: 0 <= j < |outs| && outs[j].first > f ==> outs[j].first >= snap)
  }

  /** The three phases of a flush: waiting requests still counted, the last batch formed
      but not yet tracked, the youngest interesting output tracked. */
  ghost predicate Tracker(l: LogQ) {
    var q := l.q;
    && q.waitcounter >= 0
    && (q.tracking.Some? ==> q.flushing && q.waitcounter == 0 && HasUnsent(q.outs, q.tracking.value))
    && (!q.flushing ==> q.waitcounter == 0 && q.flushOut == None)
    && (q.flushing ==>
          && l.snap <= |l.accepted|
          && (q.waitcounter > 0 ==> q.waitcounter <= |q.waitq| && q.flushOut == None
                                    && l.snap <= q.formed + |q.loading| + q.waitcounter)
          && (q.waitcounter == 0 ==> l.snap <= q.formed)
          && (q.waitcounter == 0 && q.tracking.Some? ==> q.flushOut == None)
          && (q.waitcounter == 0 && q.tracking.None? ==> q.flushOut.Some? && Guards(q.outs, q.flushOut.value, l.snap)))
  }

  ghost predicate LogInv(c: Config, l: LogQ) {
    Sound(c, l.q) && Fifo(l) && Replies(l) && Tracker(l)
  }

  /** Everything the flush has to wait for was answered. */
  ghost predicate Settled(l: LogQ) {
    forall k: nat :: k < l.snap ==> k in l.replied
  }

  // ----- accepting a request -----

  lemma ParkSound(ws: seq<Waiter>, w: Waiter)
    requires NonEmptyReqs(Reqs(ws)) && w.req.data != []
    ensures NonEmptyReqs(Reqs(ws + [w]))
  {
    forall k | 0 <= k < |ws + [w]| ensures Reqs(ws + [w])[k].data != [] {
      if k < |ws| {
        assert Reqs(ws + [w])[k] == Reqs(ws)[k];
      }
    }
  }

  lemma LoadSound(rs: seq<Request>, r: Request)
    requires NonEmptyReqs(rs) && r.data != []
    ensures NonEmptyReqs(rs + [r])
  {
  }

  lemma AcceptSound(c: Config, q: OutQ, w: Waiter)
    requires Sound(c, q) && w.req.data != []
    ensures Sound(c, Accept(c, q, w).0)
  {
    SizeSnoc(q.loading, w.req);
    ParkSound(q.waitq, w);
    LoadSound(q.loading, w.req);
  }

  lemma CarriesMore(accepted: seq<Request>, o: Output, r: Request)
    requires Carries(accepted, o)
    ensures Carries(accepted + [r], o)
  {
  }

  /** A batch made of everything accepted and not yet in a batch keeps the order. */
  lemma FifoBatch(l: LogQ, l': LogQ, batch: seq<Request>)
    requires Fifo(l) && l.q.waitq == l'.q.waitq == [] && l'.q.loading == []
    requires l.accepted <= l'.accepted && l'.accepted[l.q.formed..] == batch
    requires l'.q.formed == l.q.formed + |batch|
    requires l'.q.outs == l.q.outs + [Output(l.q.formed, batch, false)]
    ensures Fifo(l')
  {
    forall i | 0 <= i < |l'.q.outs| ensures Carries(l'.accepted, l'.q.outs[i]) {
      if i < |l.q.outs| {
        assert Carries(l.accepted, l.q.outs[i]);
      }
    }
  }

  lemma AcceptFifo(c: Config, l: LogQ, w: Waiter)
    requires Sound(c, l.q) && Fifo(l)
    ensures Fifo(LAccept(c, l, w))
  {
    var l' := LAccept(c, l, w);
    assert l'.accepted[l.q.formed..] == l.accepted[l.q.formed..] + [w.req];
    if l.q.nsending >= c.maxoqrpc {
      assert Reqs(l.q.waitq + [w]) == Reqs(l.q.waitq) + [w.req];
    } else if l'.q.outs != l.q.outs {
      FifoBatch(l, l', l.q.loading + [w.req]);
    }
    forall i | 0 <= i < |l.q.outs| ensures Carries(l'.accepted, l.q.outs[i]) {
      CarriesMore(l.accepted, l.q.outs[i], w.req);
    }
  }

  /** Forming a batch out of everything from `formed` on. */
  lemma NewBatchReplies(outs: seq<Output>, formed: nat, batch: seq<Request>, k: nat)
    requires OutsOrdered(outs, formed)
    ensures Outstanding(outs + [Output(formed, batch, false)], k) <==>
            Outstanding(outs, k) || formed <= k < formed + |batch|
  {
    var o := Output(formed, batch, false);
    var outs' := outs + [o];
    if Outstanding(outs, k) {
      var i :| 0 <= i < |outs| && Covers(outs[i], k);
      assert outs'[i] == outs[i];
    }
    if formed <= k < formed + |batch| {
      assert Covers(outs'[|outs|], k);
    }
  }

  lemma AcceptReplies(c: Config, l: LogQ, w: Waiter)
    requires Sound(c, l.q) && Replies(l)
    ensures Replies(LAccept(c, l, w))
  {
    forall k: nat
      ensures Outstanding(l.q.outs + [Output(l.q.formed, l.q.loading + [w.req], false)], k) <==>
              Outstanding(l.q.outs, k) || l.q.formed <= k < l.q.formed + |l.q.loading| + 1
    {
      NewBatchReplies(l.q.outs, l.q.formed, l.q.loading + [w.req], k);
    }
  }

  /** A younger output starts after everything the flush wants, so the guard stays. */
  lemma GuardsSnoc(outs: seq<Output>, f: nat, snap: nat, o: Output)
    ensures HasUnsent(outs, f) ==> HasUnsent(outs + [o], f)
    ensures Guards(outs, f, snap) && o.first >= snap ==> Guards(outs + [o], f, snap)
  {
    if HasOut(outs, f) {
      var i :| 0 <= i < |outs| && outs[i].first == f;
      assert (outs + [o])[i].first == f;
    }
    if HasUnsent(outs, f) {
      var i :| 0 <= i < |outs| && outs[i].first == f && !outs[i].sent;
      assert (outs + [o])[i].first == f;
    }
  }

  lemma AcceptTracker(c: Config, l: LogQ, w: Waiter)
    requires Sound(c, l.q) && Fifo(l) && Tracker(l)
    ensures Tracker(LAccept(c, l, w))
  {
    var o := Output(l.q.formed, l.q.loading + [w.req], false);
    if l.q.flushOut.Some? {
      GuardsSnoc(l.q.outs, l.q.flushOut.value, l.snap, o);
    }
    if l.q.tracking.Some? {
      GuardsSnoc(l.q.outs, l.q.tracking.value, l.snap, o);
    }
  }

  lemma AcceptKeeps(c: Config, l: LogQ, w: Waiter)
    requires LogInv(c, l) && w.req.data != []
    ensures LogInv(c, LAccept(c, l, w))
  {
    AcceptSound(c, l.q, w);
    AcceptFifo(c, l, w);
    AcceptReplies(c, l, w);
    AcceptTracker(c, l, w);
  }

  // ----- finishing an output -----

  lemma RemoveOrdered(outs: seq<Output>, formed: nat, i: nat)
    requires OutsOrdered(outs, formed) && i < |outs|
    ensures OutsOrdered(RemoveAt(outs, i), formed)
  {
  }

  lemma MovedSound(c: Config, q: OutQ, i: nat, n: nat, q': OutQ, tosend: bool)
    requires Sound(c, q) && i < |q.outs| && Moved(c, Retire(q, i).0, n, q', tosend)
    ensures Sound(c, q')
  {
    RemoveOrdered(q.outs, q.formed, i);
    MovedNonEmpty(q.loading, q.waitq, n);
    forall k | 0 <= k < |q'.waitq| ensures Reqs(q'.waitq)[k].data != [] {
      assert Reqs(q'.waitq)[k] == Reqs(q.waitq)[k + n];
    }
  }

  lemma RetireFifo(l: LogQ, i: nat)
    requires Fifo(l) && i < |l.q.outs|
    ensures Fifo(l.(q := Retire(l.q, i).0))
  {
  }

  lemma ReqsSplit(ws: seq<Waiter>, n: nat)
    requires n <= |ws|
    ensures Reqs(ws) == Reqs(ws[..n]) + Reqs(ws[n..])
  {
    forall k | 0 <= k < |ws| ensures Reqs(ws)[k] == (Reqs(ws[..n]) + Reqs(ws[n..]))[k] {
      if k < n {
        assert ws[..n][k] == ws[k];
      } else {
        assert ws[n..][k - n] == ws[k];
      }
    }
  }

  /** Splitting what is not yet in a batch into what moved and what still waits. */
  lemma SplitRest(rest: seq<Request>, loading: seq<Request>, waitq: seq<Waiter>, n: nat)
    requires rest == loading + Reqs(waitq) && n <= |waitq|
    ensures rest == loading + Reqs(waitq[..n]) + Reqs(waitq[n..])
  {
    var a, b := Reqs(waitq[..n]), Reqs(waitq[n..]);
    ReqsSplit(waitq, n);
    assert loading + (a + b) == loading + a + b;
  }

  lemma BatchCarries(accepted: seq<Request>, formed: nat, moved: seq<Request>, rest: seq<Request>)
    requires formed <= |accepted| && accepted[formed..] == moved + rest
    ensures Carries(accepted, Output(formed, moved, false)) && accepted[formed + |moved|..] == rest
  {
    assert accepted[formed..][..|moved|] == moved;
    assert accepted[formed + |moved|..] == accepted[formed..][|moved|..];
  }

  lemma MovedFifo(c: Config, l: LogQ, n: nat, q': OutQ, tosend: bool)
    requires Fifo(l) && Moved(c, l.q, n, q', tosend)
    ensures Fifo(l.(q := q'))
  {
    var moved := l.q.loading + Reqs(l.q.waitq[..n]);
    SplitRest(l.accepted[l.q.formed..], l.q.loading, l.q.waitq, n);
    if tosend {
      BatchCarries(l.accepted, l.q.formed, moved, Reqs(l.q.waitq[n..]));
      assert [] + Reqs(q'.waitq) == Reqs(q'.waitq);
    }
  }

  lemma RemoveOutstanding(outs: seq<Output>, formed: nat, i: nat, k: nat)
    requires OutsOrdered(outs, formed) && i < |outs|
    ensures Outstanding(RemoveAt(outs, i), k) <==> Outstanding(outs, k) && !Covers(outs[i], k)
  {
    var rest := RemoveAt(outs, i);
    if Outstanding(outs, k) && !Covers(outs[i], k) {
      var j :| 0 <= j < |outs| && Covers(outs[j], k);
      assert Covers(rest[if j < i then j else j - 1], k);
    }
    if Outstanding(rest, k) {
      var j :| 0 <= j < |rest| && Covers(rest[j], k);
      assert Covers(outs[if j < i then j else j + 1], k);
    }
  }

  lemma RetireReplies(l: LogQ, i: nat)
    requires Replies(l) && i < |l.q.outs| && OutsOrdered(l.q.outs, l.q.formed)
    ensures Replies(l.(q := Retire(l.q, i).0, replied := l.replied + Span(l.q.outs[i])))
  {
    var o := l.q.outs[i];
    forall k: nat
      ensures k in l.replied + Span(o) <==> k < l.q.formed && !Outstanding(RemoveAt(l.q.outs, i), k)
    {
      RemoveOutstanding(l.q.outs, l.q.formed, i, k);
    }
  }

  lemma MovedReplies(c: Config, l: LogQ, n: nat, q': OutQ, tosend: bool)
    requires Replies(l) && OutsOrdered(l.q.outs, l.q.formed) && Moved(c, l.q, n, q', tosend)
    ensures Replies(l.(q := q'))
  {
    var moved := l.q.loading + Reqs(l.q.waitq[..n]);
    forall k: nat
      ensures Outstanding(l.q.outs + [Output(l.q.formed, moved, false)], k) <==>
              Outstanding(l.q.outs, k) || l.q.formed <= k < l.q.formed + |moved|
    {
      NewBatchReplies(l.q.outs, l.q.formed, moved, k);
    }
  }

  /** Taking out an output that is not `f` keeps the guard of `f`. */
  lemma RemoveOther(outs: seq<Output>, i: nat, f: nat, snap: nat)
    requires i < |outs| && Guards(outs, f, snap) && outs[i].first != f
    ensures Guards(RemoveAt(outs, i), f, snap)
  {
    var j :| 0 <= j < |outs| && outs[j].first == f;
    assert RemoveAt(outs, i)[if j < i then j else j - 1].first == f;
  }

  lemma RemoveSentOther(outs: seq<Output>, i: nat, f: nat)
    requires i < |outs| && outs[i].sent && HasUnsent(outs, f)
    ensures HasUnsent(RemoveAt(outs, i), f)
  {
    var j :| 0 <= j < |outs| && outs[j].first == f && !outs[j].sent;
    assert RemoveAt(outs, i)[if j < i then j else j - 1] == outs[j];
  }

  /** Taking out the guard moves it to the next older output. */
  lemma RemoveGuard(outs: seq<Output>, formed: nat, i: nat, snap: nat)
    requires OutsOrdered(outs, formed) && 0 < i < |outs| && Guards(outs, outs[i].first, snap)
    ensures Guards(RemoveAt(outs, i), outs[i - 1].first, snap)
  {
    var rest := RemoveAt(outs, i);
    assert rest[i - 1].first == outs[i - 1].first;
    forall j | 0 <= j < |rest| && rest[j].first > outs[i - 1].first ensures rest[j].first >= snap {
      if j >= i {
        assert outs[j + 1].first > outs[i].first;
      }
    }
  }

  lemma RetireTracker(l: LogQ, i: nat)
    requires Tracker(l) && i < |l.q.outs| && l.q.outs[i].sent && OutsOrdered(l.q.outs, l.q.formed)
    ensures Tracker(l.(q := Retire(l.q, i).0))
  {
    if l.q.flushOut.Some? {
      if l.q.flushOut.value != l.q.outs[i].first {
        RemoveOther(l.q.outs, i, l.q.flushOut.value, l.snap);
      } else if i > 0 {
        RemoveGuard(l.q.outs, l.q.formed, i, l.snap);
      }
    }
    if l.q.tracking.Some? {
      RemoveSentOther(l.q.outs, i, l.q.tracking.value);
    }
  }

  lemma MovedTracker(c: Config, l: LogQ, q': OutQ, o: Outcome)
    requires Tracker(l) && Fifo(l) && CompleteSpec(c, l.q, q', o)
    ensures Tracker(l.(q := q'))
  {
    var n := |l.q.waitq| - |q'.waitq|;
    var new_ := Output(l.q.formed, l.q.loading + Reqs(l.q.waitq[..n]), false);
    if l.q.flushOut.Some? {
      GuardsSnoc(l.q.outs, l.q.flushOut.value, l.snap, new_);
    }
    if l.q.tracking.Some? {
      GuardsSnoc(l.q.outs, l.q.tracking.value, l.snap, new_);
    }
    if o.flushnow {
      assert q'.outs[|q'.outs| - 1] == new_;
      assert HasUnsent(q'.outs, new_.first);
    }
  }

  lemma MovedKeeps(c: Config, l: LogQ, q': OutQ, o: Outcome)
    requires Fifo(l) && Replies(l) && Tracker(l) && OutsOrdered(l.q.outs, l.q.formed)
    requires CompleteSpec(c, l.q, q', o)
    ensures var l' := l.(q := q'); Fifo(l') && Replies(l') && Tracker(l')
  {
    var n := |l.q.waitq| - |q'.waitq|;
    assert Moved(c, l.q, n, q'.(tracking := l.q.tracking), o.tosend);
    assert Moved(c, l.q, n, q', o.tosend);
    MovedFifo(c, l, n, q', o.tosend);
    MovedReplies(c, l, n, q', o.tosend);
    MovedTracker(c, l, q', o);
  }

  lemma RetireKeeps(c: Config, l: LogQ, i: nat)
    requires LogInv(c, l) && i < |l.q.outs| && l.q.outs[i].sent
    ensures var l1 := l.(q := Retire(l.q, i).0, replied := l.replied + Span(l.q.outs[i]));
            Fifo(l1) && Replies(l1) && Tracker(l1) && OutsOrdered(l1.q.outs, l1.q.formed)
  {
    RetireFifo(l, i);
    RetireReplies(l, i);
    RemoveOrdered(l.q.outs, l.q.formed, i);
    RetireTracker(l, i);
  }

  lemma CompleteSound(c: Config, q: OutQ, i: nat)
    requires Sound(c, q) && Roomy(c, q) && i < |q.outs|
    ensures Sound(c, Complete(c, q, i).0)
  {
    var (q', o) := Complete(c, q, i);
    CompleteMoved(c, q, i);
    MovedSound(c, q, i, |q.waitq| - |q'.waitq|, q', o.tosend);
  }

  lemma CompleteKeeps(c: Config, l: LogQ, i: nat)
    requires LogInv(c, l) && i < |l.q.outs| && l.q.outs[i].sent
    ensures LogInv(c, LComplete(c, l, i))
  {
    var l1 := l.(q := Retire(l.q, i).0, replied := l.replied + Span(l.q.outs[i]));
    var (q', o) := Complete(c, l.q, i);
    CompleteMoves(c, l.q, i);
    CompleteSound(c, l.q, i);
    RetireKeeps(c, l, i);
    MovedKeeps(c, l1, q', o);
  }

  /** When the tracked output is the oldest and it finishes, the flush of this queue is
      over and everything it had to wait for was answered. */
  lemma FlushDoneSettles(c: Config, l: LogQ, i: nat)
    requires LogInv(c, l) && i < |l.q.outs| && l.q.outs[i].sent && Retire(l.q, i).1
    ensures Settled(LComplete(c, l, i))
  {
    var rest := RemoveAt(l.q.outs, i);
    RetireReplies(l, i);
    forall k: nat | k < l.snap ensures k in LComplete(c, l, i).replied {
      assert !Outstanding(rest, k);
    }
  }

  // ----- sending, tracking and starting a flush -----

  lemma SentKeeps(c: Config, l: LogQ, i: nat)
    requires LogInv(c, l) && i < |l.q.outs| && l.q.tracking != Some(l.q.outs[i].first)
    ensures LogInv(c, LSent(l, i))
  {
    var outs, outs' := l.q.outs, LSent(l, i).q.outs;
    forall k: nat ensures Outstanding(outs', k) <==> Outstanding(outs, k) {
      if Outstanding(outs, k) {
        var j :| 0 <= j < |outs| && Covers(outs[j], k);
        assert Covers(outs'[j], k);
      }
    }
    forall j | 0 <= j < |outs| ensures Carries(l.accepted, outs'[j]) {
      assert Carries(l.accepted, outs[j]);
    }
    SentTracker(l, i);
  }

  lemma SentTracker(l: LogQ, i: nat)
    requires Tracker(l) && i < |l.q.outs| && l.q.tracking != Some(l.q.outs[i].first)
    ensures Tracker(LSent(l, i))
  {
    var outs, outs' := l.q.outs, LSent(l, i).q.outs;
    if l.q.tracking.Some? {
      var j :| 0 <= j < |outs| && outs[j].first == l.q.tracking.value && !outs[j].sent;
      assert outs'[j] == outs[j];
    }
    if l.q.flushOut.Some? && HasOut(outs, l.q.flushOut.value) {
      var j :| 0 <= j < |outs| && outs[j].first == l.q.flushOut.value;
      assert outs'[j].first == outs[j].first;
    }
  }

  /** Tracking the youngest output guards everything formed so far. */
  lemma LastGuards(q: OutQ, snap: nat)
    requires OutsOrdered(q.outs, q.formed) && q.outs != []
    ensures Guards(q.outs, LastFirst(q), snap)
  {
    assert q.outs[|q.outs| - 1].first == LastFirst(q);
  }

  lemma TrackKeeps(c: Config, l: LogQ)
    requires LogInv(c, l) && l.q.tracking.Some?
    ensures LogInv(c, LTrack(l)) && LTrack(l).q.flushing && !Track(l.q).1
  {
    LastGuards(l.q, l.snap);
  }

  /** `start_qflush` with requests waiting: the flush starts by counting them. */
  lemma FlushWaitingKeeps(c: Config, l: LogQ)
    requires LogInv(c, l) && !l.q.flushing && l.q.waitq != []
    ensures LogInv(c, LFlushLoading(c, l)) && LFlushLoading(c, l).q.flushing
  {
    assert |l.accepted[l.q.formed..]| == |l.q.loading| + |l.q.waitq|;
  }

  /** `start_qflush` without waiting requests: afterwards everything is in a batch, and the
      send it may have formed is within the limit. */
  lemma FlushLoadingKeeps(c: Config, l: LogQ)
    requires LogInv(c, l) && !l.q.flushing && l.q.waitq == []
    ensures var l' := LFlushLoading(c, l);
            LogInv(c, l') && !l'.q.flushing && l'.snap == l'.q.formed
  {
    var l' := LFlushLoading(c, l);
    if l.q.loading != [] {
      SizePositive(l.q.loading);
      FifoBatch(l, l', l.q.loading);
      forall k: nat
        ensures Outstanding(l'.q.outs, k) <==>
                Outstanding(l.q.outs, k) || l.q.formed <= k < l.q.formed + |l.q.loading|
      {
        NewBatchReplies(l.q.outs, l.q.formed, l.q.loading, k);
      }
    }
  }

  /** The last part of `start_qflush`: track the youngest output, or find all answered. */
  lemma FlushOutsKeeps(c: Config, l: LogQ)
    requires LogInv(c, l) && !l.q.flushing && l.snap <= l.q.formed
    ensures var l' := LFlushOuts(l);
            LogInv(c, l') && (l'.q.flushing || Settled(l'))
  {
    if l.q.outs != [] {
      LastGuards(l.q, l.snap);
    }
  }

  // ----- how a queue may change, seen from outside -----

  /** Position of the oldest waiting request. */
  function Base(l: LogQ): int {
    |l.accepted| - |l.q.waitq|
  }

  predicate IsWaiting(l: LogQ, k: int) {
    0 <= Base(l) <= k < |l.accepted|
  }

  function WaiterAt(l: LogQ, k: int): Waiter
    requires IsWaiting(l, k)
  {
    l.q.waitq[k - Base(l)]
  }

  /** Requests are only added at the end; outputs are only added, unsent and past what was
      formed before, except that output number `fin` may be gone; waiting requests only
      leave, and the ones that stay keep their owner. */
  ghost predicate Evolves(l: LogQ, l': LogQ, fin: Option<nat>) {
    && l.accepted <= l'.accepted && l.q.formed <= l'.q.formed
    && l'.replied == l.replied + (if fin.Some? && fin.value < |l.q.outs| then Span(l.q.outs[fin.value]) else {})
    && (forall i :: 0 <= i < |l'.q.outs| ==>
          l'.q.outs[i] in l.q.outs || (l'.q.outs[i].first >= l.q.formed && !l'.q.outs[i].sent))
    && (forall i :: 0 <= i < |l.q.outs| && fin != Some(i) ==> l.q.outs[i] in l'.q.outs)
    && Base(l) <= Base(l')
    && (forall k :: k < |l.accepted| && IsWaiting(l', k) ==> IsWaiting(l, k) && WaiterAt(l', k) == WaiterAt(l, k))
  }

  predicate Lens(l: LogQ) {
    l.q.formed + |l.q.loading| + |l.q.waitq| == |l.accepted|
  }

  lemma FifoLens(l: LogQ)
    requires Fifo(l)
    ensures Lens(l)
  {
    assert |l.accepted[l.q.formed..]| == |l.q.loading| + |l.q.waitq|;
  }

  lemma InSnoc(outs: seq<Output>, o: Output)
    ensures forall i :: 0 <= i < |outs| ==> outs[i] in outs + [o]
  {
    forall i | 0 <= i < |outs| ensures outs[i] in outs + [o] {
      assert (outs + [o])[i] == outs[i];
    }
  }

  lemma AcceptEvolves(c: Config, l: LogQ, w: Waiter)
    requires LogInv(c, l)
    ensures Evolves(l, LAccept(c, l, w), None)
  {
    FifoLens(l);
    InSnoc(l.q.outs, Output(l.q.formed, l.q.loading + [w.req], false));
  }

  lemma RemoveKeeps(outs: seq<Output>, i: nat)
    requires i < |outs|
    ensures forall j :: 0 <= j < |outs| && j != i ==> outs[j] in RemoveAt(outs, i)
  {
    forall j | 0 <= j < |outs| && j != i ensures outs[j] in RemoveAt(outs, i) {
      assert RemoveAt(outs, i)[if j < i then j else j - 1] == outs[j];
    }
  }

  /** Retiring output `i` and loading what waited, together. */
  lemma MovedEvolves(c: Config, l: LogQ, i: nat, n: nat, l': LogQ, tosend: bool)
    requires Lens(l) && i < |l.q.outs| && Moved(c, Retire(l.q, i).0, n, l'.q, tosend)
    requires l'.accepted == l.accepted && l'.replied == l.replied + Span(l.q.outs[i])
    ensures Evolves(l, l', Some(i))
  {
    RemoveKeeps(l.q.outs, i);
    InSnoc(RemoveAt(l.q.outs, i), Output(l.q.formed, l.q.loading + Reqs(l.q.waitq[..n]), false));
  }

  lemma LogRoomy(c: Config, l: LogQ)
    requires LogInv(c, l)
    ensures Roomy(c, l.q) && Lens(l)
  {
    FifoLens(l);
  }

  lemma RoomyEvolves(c: Config, l: LogQ, i: nat)
    requires Roomy(c, l.q) && Lens(l) && i < |l.q.outs|
    ensures Evolves(l, LComplete(c, l, i), Some(i))
  {
    var (q', o) := Complete(c, l.q, i);
    CompleteMoved(c, l.q, i);
    MovedEvolves(c, l, i, |l.q.waitq| - |q'.waitq|, LComplete(c, l, i), o.tosend);
  }

  lemma CompleteEvolves(c: Config, l: LogQ, i: nat)
    requires LogInv(c, l) && i < |l.q.outs|
    ensures Evolves(l, LComplete(c, l, i), Some(i))
  {
    LogRoomy(c, l);
    RoomyEvolves(c, l, i);
  }

  lemma FlushLoadingEvolves(c: Config, l: LogQ)
    requires LogInv(c, l)
    ensures Evolves(l, LFlushLoading(c, l), None)
  {
    FifoLens(l);
    InSnoc(l.q.outs, Output(l.q.formed, l.q.loading, false));
  }

  predicate SameContents(l: LogQ, l': LogQ) {
    && l'.accepted == l.accepted && l'.replied == l.replied
    && l'.q.formed == l.q.formed && l'.q.outs == l.q.outs && l'.q.waitq == l.q.waitq
  }

  lemma SameEvolves(c: Config, l: LogQ, l1: LogQ, l2: LogQ)
    requires LogInv(c, l) && (l1 == l || Evolves(l, l1, None)) && SameContents(l1, l2)
    ensures Evolves(l, l2, None)
  {
    FifoLens(l);
  }
}
