/** What requests without data do to a flush: it can hang for good. */
module ZeroLength {
  import opened Messages
  import opened OutQueues
  import opened QueueLogs
  import opened OutSets

  // ----- what holds whatever the lengths are -----

  /** Outputs are named in the order they were formed. */
  predicate Named(outs: seq<Output>, formed: nat) {
    && (forall i :: 0 <= i < |outs| ==> outs[i].first < formed)
    && (forall i, j :: 0 <= i < j < |outs| ==> outs[i].first < outs[j].first)
  }

  /** The flush fields of a queue: waiting requests are counted before anything is tracked. */
  ghost predicate Fields(q: OutQ) {
    && 0 <= q.waitcounter <= |q.waitq| && (q.waitcounter > 0 ==> q.flushing && q.flushOut == None)
    && (q.tracking.Some? ==> q.flushing && q.waitcounter == 0 && q.flushOut == None)
    && (q.flushOut.Some? ==> q.flushing && HasOut(q.outs, q.flushOut.value))
  }

  /** The other fields; requests wait only while the limit is reached. */
  ghost predicate Filled(c: Config, q: OutQ) {
    && Loaded(c, q) && q.nsending == |q.outs| && Named(q.outs, q.formed)
    && (q.waitq != [] ==> q.nsending >= c.maxoqrpc)
  }

  ghost predicate WeakQ(c: Config, q: OutQ) {
    Fields(q) && Filled(c, q)
  }

  ghost predicate WeakInv(s: OutSet) {
    && (forall p :: p in s.qs ==> WeakQ(s.cfg, s.qs[p].q) && (s.qs[p].q.flushing ==> Started(s.flusher, p)))
    && (s.flusher.Resuming? ==> s.flusher.at in s.qs && s.flusher.at !in s.flusher.todo)
    && (forall p :: ToDo(s.flusher, p) ==> p in s.qs)
    && CounterOk(s) && WakeupOk(s)
  }

  // ----- one queue -----

  lemma RetireWeak(c: Config, q: OutQ, i: nat, q1: OutQ)
    requires WeakQ(c, q) && i < |q.outs| && q1 == Retire(q, i).0
    ensures Fields(q1) && Loaded(c, q1) && q1.nsending == |q1.outs| && Named(q1.outs, q1.formed)
    ensures q1.waitq != [] ==> q1.nsending >= c.maxoqrpc - 1
  {
    if q1.flushOut.Some? {
      var k :| 0 <= k < |q.outs| && q.outs[k].first == q.flushOut.value;
      if k == i {
        assert q1.outs[i - 1].first == q1.flushOut.value;
      } else {
        assert q1.outs[if k < i then k else k - 1].first == q1.flushOut.value;
      }
    }
  }

  /** At most one output was added behind the others. */
  lemma OneMoreWeak(q: OutQ, q': OutQ, tosend: bool)
    requires OneMore(q, q', tosend) && Named(q.outs, q.formed) && q.nsending == |q.outs|
    ensures Named(q'.outs, q'.formed) && q'.nsending == |q'.outs|
    ensures forall f :: HasOut(q.outs, f) ==> HasOut(q'.outs, f)
  {
    forall i | 0 <= i < |q.outs| ensures q'.outs[i] == q.outs[i] {
      assert q'.outs[..|q.outs|][i] == q'.outs[i];
    }
    forall f | HasOut(q.outs, f) ensures HasOut(q'.outs, f) {
      var k :| 0 <= k < |q.outs| && q.outs[k].first == f;
      assert q'.outs[k].first == f;
    }
  }

  lemma {:induction false} DrainLoaded(c: Config, q: OutQ, f: bool)
    requires Loaded(c, q)
    ensures Loaded(c, Drain(c, q, f).0)
    decreases |q.waitq|
  {
    if q.waitq != [] {
      FormsOne(c, q);
      var (q2, tosend) := Append(c, PopWaiter(q), Some(q.waitq[0].req), false);
      if !tosend {
        DrainLoaded(c, q2, f || ClearsWait(q));
      }
    }
  }

  lemma DrainWeak(c: Config, q: OutQ, q2: OutQ, tosend: bool, f: bool)
    requires Fields(q) && Loaded(c, q) && q.nsending == |q.outs| && Named(q.outs, q.formed)
    requires q.waitq != [] ==> q.nsending >= c.maxoqrpc - 1
    requires (q2, tosend, f) == Drain(c, q, false)
    ensures WeakQ(c, q2) && (f <==> q.waitcounter > 0 && q2.waitcounter == 0) && q2.flushing == q.flushing
    ensures q2.flushOut == q.flushOut && q2.tracking == q.tracking && OneMore(q, q2, tosend)
    ensures q2.waitcounter <= q.waitcounter && (!tosend ==> q2.waitq == [])
  {
    DrainOuts(c, q, false);
    DrainFlush(c, q, false);
    DrainLoaded(c, q, false);
    OneMoreWeak(q, q2, tosend);
    if q.flushing {
      DrainTakes(c, q, false);
    }
  }

  lemma PushWeak(c: Config, q: OutQ)
    requires WeakQ(c, q) && q.waitq == []
    ensures var (q', sent) := Append(c, q, None, true); WeakQ(c, q') && OneMore(q, q', sent)
  {
    var (q', sent) := Append(c, q, None, true);
    assert q.loading == [] ==> q.loadsize == 0;
    OneMoreWeak(q, q', sent);
  }

  /** What finishing an output does. */
  lemma FinishWeak(c: Config, q: OutQ, i: nat)
    requires WeakQ(c, q) && i < |q.outs|
    ensures var q' := Complete(c, q, i).0;
            && WeakQ(c, q') && q'.flushing == (q.flushing && !Retire(q, i).1)
            && (Hung(q) ==> Hung(q'))
  {
    var q1 := Retire(q, i).0;
    RetireWeak(c, q, i, q1);
    var (q2, tosend, f) := Drain(c, q1, false);
    DrainWeak(c, q1, q2, tosend, f);
    var (q3, sent) := if f && !tosend then Append(c, q2, None, true) else (q2, tosend);
    if f && !tosend {
      PushWeak(c, q2);
    }
    assert WeakQ(c, q3);
  }

  lemma AcceptWeak(c: Config, q: OutQ, w: Waiter)
    requires WeakQ(c, q)
    ensures WeakQ(c, OutQueues.Accept(c, q, w).0)
  {
    if q.nsending < c.maxoqrpc {
      LoadWeak(c, q, w.req);
    }
  }

  lemma LoadWeak(c: Config, q: OutQ, r: Request)
    requires WeakQ(c, q) && q.nsending < c.maxoqrpc
    ensures WeakQ(c, Append(c, q, Some(r), false).0)
  {
    var (q', sent) := Append(c, q, Some(r), false);
    SizeSnoc(q.loading, r);
    assert OneMore(q, q', sent);
    OneMoreWeak(q, q', sent);
  }

  lemma SentWeak(c: Config, q: OutQ, i: nat)
    requires WeakQ(c, q) && i < |q.outs|
    ensures WeakQ(c, MarkSent(q, i))
  {
    if q.flushOut.Some? {
      var k :| 0 <= k < |q.outs| && q.outs[k].first == q.flushOut.value;
      assert MarkSent(q, i).outs[k].first == q.flushOut.value;
    }
  }

  lemma TrackWeak(c: Config, q: OutQ)
    requires WeakQ(c, q) && q.tracking.Some?
    ensures WeakQ(c, OutQueues.Track(q).0) && q.flushing
    ensures OutQueues.Track(q).0.flushing == (q.flushing && !OutQueues.Track(q).1)
  {
  }

  lemma StartWeak(c: Config, q: OutQ)
    requires WeakQ(c, q) && !q.flushing
    ensures WeakQ(c, FlushLoading(c, q).0) && WeakQ(c, FlushOuts(q))
  {
    if q.waitq == [] {
      PushWeak(c, q);
    }
  }

  // ----- every action -----

  /** A step on one queue that clears its flush or leaves it. */
  lemma WeakQueue(s: OutSet, p: Rank, l: LogQ, done: bool, s': OutSet)
    requires WeakInv(s) && p in s.qs && WeakQ(s.cfg, l.q)
    requires l.q.flushing == (s.qs[p].q.flushing && !done) && (done ==> s.qs[p].q.flushing)
    requires s' == s.(qs := s.qs[p := l], undone := s.undone + Bump(done))
    ensures WeakInv(s')
  {
    FlushingUpdate(s.qs, p, l);
  }

  /** The flusher starts queue `p`, or finds nothing to wait for. */
  lemma WeakStart(s: OutSet, p: Rank, l: LogQ, f: Flusher, s': OutSet)
    requires WeakInv(s) && p in s.qs && WeakQ(s.cfg, l.q) && !s.qs[p].q.flushing
    requires (s.flusher.Starting? || s.flusher.Resuming?) && f.Starting? && Started(f, p)
    requires forall r :: r in s.qs && Started(s.flusher, r) ==> Started(f, r)
    requires forall r :: ToDo(f, r) ==> ToDo(s.flusher, r)
    requires s' == s.(qs := s.qs[p := l], counter := s.counter + Bump(l.q.flushing), flusher := f)
    ensures WeakInv(s')
  {
    FlushingUpdate(s.qs, p, l);
  }

  lemma WeakSending(s: OutSet, p: Rank, l: LogQ, s': OutSet)
    requires WeakInv(s) && Enabled(s, StartQ(p)) && WeakQ(s.cfg, l.q) && !s.qs[p].q.flushing && !l.q.flushing
    requires s' == s.(qs := s.qs[p := l], flusher := Resuming(s.flusher.todo - {p}, p))
    ensures WeakInv(s')
  {
    FlushingUpdate(s.qs, p, l);
  }

  lemma WeakStartWaiting(s: OutSet, p: Rank, s': OutSet)
    requires WeakInv(s) && Enabled(s, StartQ(p)) && s' == Apply(s, StartQ(p)) && s.qs[p].q.waitq != []
    requires !s.qs[p].q.flushing
    ensures WeakInv(s')
  {
    StartWeak(s.cfg, s.qs[p].q);
    WeakStart(s, p, LFlushLoading(s.cfg, s.qs[p]), Starting(s.flusher.todo - {p}), s');
  }

  lemma WeakStartSending(s: OutSet, p: Rank, s': OutSet)
    requires WeakInv(s) && Enabled(s, StartQ(p)) && s' == Apply(s, StartQ(p)) && s.qs[p].q.waitq == []
    requires !s.qs[p].q.flushing && FlushLoading(s.cfg, s.qs[p].q).1
    ensures WeakInv(s')
  {
    StartWeak(s.cfg, s.qs[p].q);
    WeakSending(s, p, LFlushLoading(s.cfg, s.qs[p]), s');
  }

  lemma WeakStartOuts(s: OutSet, p: Rank, s': OutSet)
    requires WeakInv(s) && Enabled(s, StartQ(p)) && s' == Apply(s, StartQ(p)) && s.qs[p].q.waitq == []
    requires !s.qs[p].q.flushing && !FlushLoading(s.cfg, s.qs[p].q).1
    ensures WeakInv(s')
  {
    var l1 := LFlushLoading(s.cfg, s.qs[p]);
    StartWeak(s.cfg, s.qs[p].q);
    StartWeak(s.cfg, l1.q);
    WeakStart(s, p, LFlushOuts(l1), Starting(s.flusher.todo - {p}), s');
  }

  lemma WeakStartQ(s: OutSet, p: Rank)
    requires WeakInv(s) && Enabled(s, StartQ(p))
    ensures WeakInv(Apply(s, StartQ(p)))
  {
    assert !s.qs[p].q.flushing;
    if s.qs[p].q.waitq != [] {
      WeakStartWaiting(s, p, Apply(s, StartQ(p)));
    } else if FlushLoading(s.cfg, s.qs[p].q).1 {
      WeakStartSending(s, p, Apply(s, StartQ(p)));
    } else {
      WeakStartOuts(s, p, Apply(s, StartQ(p)));
    }
  }

  lemma WeakBegin(s: OutSet)
    requires WeakInv(s) && Enabled(s, Begin)
    ensures WeakInv(Apply(s, Begin))
  {
    assert FlushingQs(s.qs) == {};
  }

  lemma WeakReturn(s: OutSet)
    requires WeakInv(s) && Enabled(s, Return)
    ensures WeakInv(Apply(s, Return))
  {
    assert FlushingQs(s.qs) == {};
    forall p | p in s.qs ensures !s.qs[p].q.flushing {
      assert p !in FlushingQs(s.qs);
    }
  }

  lemma WeakFinish(s: OutSet, p: Rank, i: nat)
    requires WeakInv(s) && Enabled(s, Finish(p, i))
    ensures WeakInv(Apply(s, Finish(p, i)))
  {
    FinishWeak(s.cfg, s.qs[p].q, i);
    WeakQueue(s, p, LComplete(s.cfg, s.qs[p], i), Retire(s.qs[p].q, i).1, Apply(s, Finish(p, i)));
  }

  lemma WeakAccept(s: OutSet, p: Rank, w: Waiter)
    requires WeakInv(s) && Enabled(s, Accept(p, w))
    ensures WeakInv(Apply(s, Accept(p, w)))
  {
    AcceptWeak(s.cfg, s.qs[p].q, w);
    WeakQueue(s, p, LAccept(s.cfg, s.qs[p], w), false, Apply(s, Accept(p, w)));
  }

  lemma WeakSend(s: OutSet, p: Rank, i: nat)
    requires WeakInv(s) && Enabled(s, Send(p, i))
    ensures WeakInv(Apply(s, Send(p, i)))
  {
    SentWeak(s.cfg, s.qs[p].q, i);
    WeakQueue(s, p, LSent(s.qs[p], i), false, Apply(s, Send(p, i)));
  }

  lemma WeakTrack(s: OutSet, p: Rank)
    requires WeakInv(s) && Enabled(s, Track(p))
    ensures WeakInv(Apply(s, Track(p)))
  {
    TrackWeak(s.cfg, s.qs[p].q);
    WeakQueue(s, p, LTrack(s.qs[p]), OutQueues.Track(s.qs[p].q).1, Apply(s, Track(p)));
  }

  lemma WeakCounterStep(s: OutSet, a: Action)
    requires WeakInv(s) && Enabled(s, a) && (a.CountDone? || a.Signal? || a.DropHold?)
    ensures WeakInv(Apply(s, a))
  {
  }

  /** Every action keeps this much, also with requests without data. */
  lemma WeakStep(s: OutSet, a: Action)
    requires WeakInv(s) && Enabled(s, a)
    ensures WeakInv(Apply(s, a))
  {
    if a.StartQ? {
      WeakStartQ(s, a.p);
    } else if a.ResumeQ? {
      StartWeak(s.cfg, s.qs[s.flusher.at].q);
      WeakStart(s, s.flusher.at, LFlushOuts(s.qs[s.flusher.at]), Starting(s.flusher.todo), Apply(s, a));
    } else if a.Begin? {
      WeakBegin(s);
    } else if a.Return? {
      WeakReturn(s);
    } else if a.CountDone? || a.Signal? || a.DropHold? {
      WeakCounterStep(s, a);
    } else if a.Accept? {
      WeakAccept(s, a.p, a.w);
    } else if a.Finish? {
      WeakFinish(s, a.p, a.i);
    } else if a.Send? {
      WeakSend(s, a.p, a.i);
    } else {
      WeakTrack(s, a.p);
    }
  }

  lemma FreshWeak(s: OutSet)
    requires Fresh(s)
    ensures WeakInv(s)
  {
    assert FlushingQs(s.qs) == {};
  }

  // ----- a hung queue stays hung -----

  lemma HungStep(s: OutSet, a: Action, p: Rank)
    requires WeakInv(s) && Enabled(s, a) && p in s.qs && Hung(s.qs[p].q)
    ensures p in Apply(s, a).qs && Hung(Apply(s, a).qs[p].q) && !a.Return?
  {
    if a.Finish? && a.p == p {
      FinishWeak(s.cfg, s.qs[p].q, a.i);
    }
    assert p in FlushingQs(s.qs);
  }

  /** Queue `p` hangs. */
  ghost predicate Stuck(s: OutSet, p: Rank) {
    WeakInv(s) && p in s.qs && Hung(s.qs[p].q)
  }

  lemma StuckStep(s: OutSet, a: Action, p: Rank)
    requires Stuck(s, p) && Enabled(s, a)
    ensures Stuck(Apply(s, a), p) && !a.Return?
  {
    WeakStep(s, a);
    HungStep(s, a, p);
  }

  lemma {:induction false} StaysStuck(states: seq<OutSet>, acts: seq<Action>, n: nat, p: Rank)
    requires Steps(states, acts) && Stuck(states[0], p) && n < |states|
    ensures Stuck(states[n], p)
  {
    if n > 0 {
      StaysStuck(states, acts, n - 1, p);
      StuckStep(states[n - 1], acts[n - 1], p);
    }
  }

  /** Once a queue hangs, the flush never returns: in every continuation, with whatever
      requests, the queue still hangs and the flusher is still waiting for it. */
  lemma NeverReturns(states: seq<OutSet>, acts: seq<Action>, n: nat, p: Rank)
    requires Steps(states, acts) && WeakInv(states[0]) && n < |states| && p in states[0].qs && Hung(states[0].qs[p].q)
    ensures WeakInv(states[n]) && p in states[n].qs && Hung(states[n].qs[p].q)
    ensures n < |acts| ==> !acts[n].Return?
  {
    StaysStuck(states, acts, n, p);
    if n < |acts| {
      StuckStep(states[n], acts[n], p);
    }
  }

  // ----- such a run -----

  const CFG := Config(1, 1)
  const FULL := Waiter(Request(0, 0, 1, 1, [7]), Sender)
  const EMPTY := Waiter(Request(1, 0, 1, 1, []), Sender)

  ghost function One(l: LogQ, f: Flusher, n: int, on: bool): OutSet {
    OutSet(CFG, map[0 := l], f, n, on, on, 0, 0)
  }

  const OUT := Output(0, [FULL.req], true)

  /** One output is out, and a request without data waits behind it. */
  const BUSY := LogQ(OutQ([], 0, [OUT], 1, [EMPTY], false, 0, None, None, 1), [FULL.req, EMPTY.req], {}, 0)

  lemma Fills() returns (states: seq<OutSet>, acts: seq<Action>)
    ensures Steps(states, acts) && Fresh(states[0]) && states[|acts|] == One(BUSY, Idle, 0, false)
  {
    var s0 := One(EMPTYLOG, Idle, 0, false);
    var s1 := Apply(s0, Accept(0, FULL));
    assert s1.qs[0].q == OutQ([], 0, [Output(0, [FULL.req], false)], 1, [], false, 0, None, None, 1) by {
      assert [] + [FULL.req] == [FULL.req];
    }
    var s2 := Apply(s1, Send(0, 0));
    assert s2.qs[0].q.outs == [OUT];
    var s3 := Apply(s2, Accept(0, EMPTY));
    assert s3.qs[0] == BUSY;
    states, acts := [s0, s1, s2, s3], [Accept(0, FULL), Send(0, 0), Accept(0, EMPTY)];
    assert s3.qs == map[0 := BUSY];
  }

  lemma HangsOne(q: OutQ)
    requires q == OutQ([], 0, [OUT], 1, [EMPTY], true, 1, None, None, 1)
    ensures Hung(Complete(CFG, q, 0).0)
  {
    assert q.loading + Reqs(q.waitq) == [EMPTY.req];
    HangsIff(CFG, q, 0);
  }

  /** The flush counts the waiting request; the completion takes it off and has nothing to
      send or to track. */
  lemma Hangs(s: OutSet) returns (s1: OutSet, s2: OutSet, s3: OutSet)
    requires s == One(BUSY, Idle, 0, false)
    ensures Enabled(s, Begin) && s1 == Apply(s, Begin) && Enabled(s1, StartQ(0)) && s2 == Apply(s1, StartQ(0))
    ensures Enabled(s2, Finish(0, 0)) && s3 == Apply(s2, Finish(0, 0)) && Hung(s3.qs[0].q)
  {
    s1 := Apply(s, Begin);
    assert 0 in s1.qs.Keys;
    s2 := Apply(s1, StartQ(0));
    assert s2.qs[0].q.waitcounter == 1 && s2.qs[0].q.flushing;
    s3 := Apply(s2, Finish(0, 0));
    HangsOne(s2.qs[0].q);
  }

  lemma {:induction false} WeakAlong(states: seq<OutSet>, acts: seq<Action>, n: nat)
    requires Steps(states, acts) && Fresh(states[0]) && n < |states|
    ensures WeakInv(states[n])
  {
    if n == 0 {
      FreshWeak(states[0]);
    } else {
      WeakAlong(states, acts, n - 1);
      WeakStep(states[n - 1], acts[n - 1]);
    }
  }

  lemma Snoc(states: seq<OutSet>, acts: seq<Action>, a: Action, s: OutSet)
    requires Steps(states, acts) && Enabled(states[|acts|], a) && s == Apply(states[|acts|], a)
    ensures Steps(states + [s], acts + [a])
  {
  }

  /** From a fresh set, a flush begun with one request without data on a wait queue hangs. */
  lemma FlushHangs() returns (states: seq<OutSet>, acts: seq<Action>)
    ensures Steps(states, acts) && Fresh(states[0]) && Begin in acts && WeakInv(states[|acts|])
    ensures 0 in states[|acts|].qs && Hung(states[|acts|].qs[0].q)
  {
    states, acts := Fills();
    var s1, s2, s3 := Hangs(states[|acts|]);
    Snoc(states, acts, Begin, s1);
    Snoc(states + [s1], acts + [Begin], StartQ(0), s2);
    Snoc(states + [s1] + [s2], acts + [Begin] + [StartQ(0)], Finish(0, 0), s3);
    assert (acts + [Begin] + [StartQ(0)] + [Finish(0, 0)])[|acts|] == Begin;
    states, acts := states + [s1] + [s2] + [s3], acts + [Begin] + [StartQ(0)] + [Finish(0, 0)];
    WeakAlong(states, acts, |acts|);
  }
}
