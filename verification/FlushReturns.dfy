/** When a flush can return, for requests of any length: exactly when no queue hangs. */
module FlushReturns {
  import opened Messages
  import opened OutQueues
  import opened QueueLogs
  import opened OutSets
  import opened ZeroLength

  // ----- one queue: there is always a step that helps -----

  /** The next completion would hang the flush. */
  predicate Doomed(q: OutQ) {
    q.waitcounter > 0 && !HasData(q.loading + Reqs(q.waitq))
  }

  function Place(outs: seq<Output>, f: nat): nat {
    if outs == [] || outs[0].first == f then 0 else 1 + Place(outs[1..], f)
  }

  /** How many outputs are ahead of the tracked one. */
  function Ahead(q: OutQ): nat {
    if q.flushOut.Some? then Place(q.outs, q.flushOut.value) else 0
  }

  lemma {:induction false} PlaceKept(outs: seq<Output>, more: seq<Output>, f: nat)
    requires HasOut(outs, f)
    ensures Place(outs + more, f) == Place(outs, f)
  {
    if outs[0].first != f {
      var k :| 0 <= k < |outs| && outs[k].first == f;
      assert outs[1..][k - 1].first == f;
      PlaceKept(outs[1..], more, f);
      assert (outs + more)[1..] == outs[1..] + more;
    }
  }

  lemma {:induction false} PlaceAlike(outs: seq<Output>, outs': seq<Output>, f: nat)
    requires |outs'| == |outs| && forall i :: 0 <= i < |outs| ==> outs'[i].first == outs[i].first
    ensures Place(outs', f) == Place(outs, f)
  {
    if outs != [] {
      PlaceAlike(outs[1..], outs'[1..], f);
    }
  }

  function Unsent(q: OutQ): nat {
    if q.outs != [] && !q.outs[0].sent then 1 else 0
  }

  /** The queue is further on: fewer requests counted; or one output tracked now; or a request
      with data came; or fewer outputs ahead of the tracked one; or the oldest was sent. */
  ghost predicate Closer(q: OutQ, q': OutQ) {
    || q'.waitcounter < q.waitcounter
    || (q'.waitcounter == q.waitcounter &&
        (|| (q.flushOut.None? && q'.flushOut.Some?)
         || (q'.flushOut == q.flushOut &&
             (|| (Doomed(q) && !Doomed(q'))
              || (Doomed(q) == Doomed(q') &&
                  (Ahead(q') < Ahead(q) || (Ahead(q') == Ahead(q) && Unsent(q') < Unsent(q))))))))
  }

  /** The flush of this queue ended, or it is further on and does not hang. */
  ghost predicate Helped(q: OutQ, q': OutQ) {
    !q'.flushing || (q'.flushing && !Hung(q') && Closer(q, q'))
  }

  lemma TrackHelps(q: OutQ)
    requires Fields(q) && q.tracking.Some?
    ensures Helped(q, OutQueues.Track(q).0)
  {
  }

  /** A request with data parks behind the others. */
  lemma AcceptHelps(c: Config, q: OutQ)
    requires WeakQ(c, q) && q.flushing && Doomed(q)
    ensures Helped(q, OutQueues.Accept(c, q, FULL).0)
  {
    var rs := q.loading + Reqs(q.waitq + [FULL]);
    assert Reqs(q.waitq + [FULL])[|q.waitq|] == FULL.req;
    assert rs[|q.loading| + |q.waitq|].data != [];
  }

  lemma SendHelps(c: Config, q: OutQ)
    requires WeakQ(c, q) && q.flushing && !Hung(q) && q.outs != [] && !q.outs[0].sent
    ensures Helped(q, MarkSent(q, 0))
  {
    if q.flushOut.Some? {
      PlaceAlike(q.outs, MarkSent(q, 0).outs, q.flushOut.value);
    }
  }

  /** Finishing the oldest output while requests are counted. */
  lemma FinishCounts(c: Config, q: OutQ)
    requires WeakQ(c, q) && q.flushing && q.waitcounter > 0 && !Doomed(q) && q.outs != []
    ensures Helped(q, Complete(c, q, 0).0)
  {
    HangsIff(c, q, 0);
    DrainTakes(c, Retire(q, 0).0, false);
  }

  /** Finishing the oldest output while one is tracked. */
  lemma FinishTracked(c: Config, q: OutQ)
    requires WeakQ(c, q) && q.flushing && q.flushOut.Some? && q.outs != []
    ensures Helped(q, Complete(c, q, 0).0)
  {
    var q1, q' := Retire(q, 0).0, Complete(c, q, 0).0;
    CompleteCounts(c, q, 0);
    TrackedDrain(c, q1, q');
    if q.flushOut.value == q.outs[0].first {
      assert !q1.flushing;
    } else {
      FinishFirst(c, q, q1);
      PlaceLess(q, q', q1.outs);
      NearerHelps(q, q');
    }
  }

  /** The oldest output is not the tracked one. */
  lemma FinishFirst(c: Config, q: OutQ, q1: OutQ)
    requires WeakQ(c, q) && q.flushing && q.flushOut.Some? && q.outs != [] && q.flushOut.value != q.outs[0].first
    requires q1 == Retire(q, 0).0
    ensures q1.outs == q.outs[1..] && HasOut(q1.outs, q.flushOut.value)
    ensures q1.flushing && q1.flushOut == q.flushOut && q1.tracking == q.tracking && q1.waitcounter == 0
  {
    RetireWeak(c, q, 0, q1);
  }

  lemma NearerHelps(q: OutQ, q': OutQ)
    requires q.flushOut.Some? && q'.flushOut == q.flushOut && q'.waitcounter == q.waitcounter == 0
    requires Ahead(q') < Ahead(q)
    ensures Helped(q, q')
  {
  }

  /** The drain loop when nothing is counted. */
  lemma TrackedDrain(c: Config, q: OutQ, q': OutQ)
    requires q.waitcounter == 0 && (!Drain(c, q, false).2 ==> q' == Drain(c, q, false).0)
    ensures q'.flushing == q.flushing && q'.flushOut == q.flushOut && q'.tracking == q.tracking && q'.waitcounter == 0
    ensures |q'.outs| >= |q.outs| && q'.outs[..|q.outs|] == q.outs
  {
    DrainFlush(c, q, false);
    DrainOuts(c, q, false);
  }

  /** The oldest output is gone, and at most one came behind the others. */
  lemma PlaceLess(q: OutQ, q': OutQ, rest: seq<Output>)
    requires q.flushOut.Some? && q'.flushOut == q.flushOut && q.outs != [] && rest == q.outs[1..]
    requires q.outs[0].first != q.flushOut.value && HasOut(rest, q.flushOut.value)
    requires |q'.outs| >= |rest| && q'.outs[..|rest|] == rest
    ensures Ahead(q') < Ahead(q)
  {
    assert q'.outs == rest + q'.outs[|rest|..];
    PlaceKept(rest, q'.outs[|rest|..], q.flushOut.value);
  }

  // ----- one queue settles -----

  /** A step on queue `p` that helps. */
  function Help(s: OutSet, p: Rank): Action
    requires p in s.qs
  {
    var q := s.qs[p].q;
    if q.tracking.Some? then Track(p)
    else if Doomed(q) then Accept(p, FULL)
    else if q.outs != [] && q.outs[0].sent then Finish(p, 0)
    else Send(p, 0)
  }

  lemma HelpWorks(s: OutSet, p: Rank)
    requires WeakInv(s) && s.cfg.maxoqrpc >= 1 && p in s.qs && s.qs[p].q.flushing && !Hung(s.qs[p].q)
    ensures Enabled(s, Help(s, p)) && Helped(s.qs[p].q, Apply(s, Help(s, p)).qs[p].q)
  {
    var q := s.qs[p].q;
    if q.tracking.Some? {
      TrackHelps(q);
    } else if Doomed(q) {
      AcceptHelps(s.cfg, q);
    } else if !q.outs[0].sent {
      SendHelps(s.cfg, q);
    } else if q.waitcounter > 0 {
      FinishCounts(s.cfg, q);
    } else {
      FinishTracked(s.cfg, q);
    }
  }

  /** Only queue `p` changed. */
  ghost predicate OnlyQueue(s: OutSet, s': OutSet, p: Rank) {
    && s'.cfg == s.cfg && s'.flusher == s.flusher && s'.qs.Keys == s.qs.Keys
    && forall x :: x in s.qs && x != p ==> s'.qs[x] == s.qs[x]
  }

  lemma HelpLocal(s: OutSet, p: Rank)
    requires p in s.qs && Enabled(s, Help(s, p))
    ensures OnlyQueue(s, Apply(s, Help(s, p)), p)
  {
  }

  /** Some run leads from `s` to `t`. */
  ghost predicate Reaches(s: OutSet, t: OutSet) {
    exists states: seq<OutSet>, acts: seq<Action> ::
      Steps(states, acts) && states[0] == s && states[|acts|] == t
  }

  lemma ReachesSelf(s: OutSet)
    ensures Reaches(s, s)
  {
    assert Steps([s], []);
  }

  lemma ReachesMore(s: OutSet, a: Action, t: OutSet)
    requires Enabled(s, a) && Reaches(Apply(s, a), t)
    ensures Reaches(s, t)
  {
    var states: seq<OutSet>, acts: seq<Action> :|
      Steps(states, acts) && states[0] == Apply(s, a) && states[|acts|] == t;
    var states', acts' := [s] + states, [a] + acts;
    assert Steps(states', acts') && states'[0] == s && states'[|acts'|] == t;
  }

  lemma {:induction false} ReachesThen(states: seq<OutSet>, acts: seq<Action>, t: OutSet)
    requires Steps(states, acts) && Reaches(states[|acts|], t)
    ensures Reaches(states[0], t)
    decreases |acts|
  {
    if acts != [] {
      ReachesThen(states[1..], acts[1..], t);
      ReachesMore(states[0], acts[0], t);
    }
  }

  lemma ReachesTrans(s: OutSet, t: OutSet, u: OutSet)
    requires Reaches(s, t) && Reaches(t, u)
    ensures Reaches(s, u)
  {
    var states: seq<OutSet>, acts: seq<Action> :|
      Steps(states, acts) && states[0] == s && states[|acts|] == t;
    ReachesThen(states, acts, u);
  }

  lemma HelpStep(s: OutSet, p: Rank) returns (s': OutSet)
    requires WeakInv(s) && s.cfg.maxoqrpc >= 1 && p in s.qs && s.qs[p].q.flushing && !Hung(s.qs[p].q)
    ensures Enabled(s, Help(s, p)) && s' == Apply(s, Help(s, p)) && WeakInv(s') && OnlyQueue(s, s', p)
    ensures Helped(s.qs[p].q, s'.qs[p].q)
  {
    HelpWorks(s, p);
    HelpLocal(s, p);
    WeakStep(s, Help(s, p));
    s' := Apply(s, Help(s, p));
  }

  /** The flush of one queue is brought to its end. */
  lemma {:induction false} Settles(s: OutSet, p: Rank) returns (t: OutSet)
    requires WeakInv(s) && s.cfg.maxoqrpc >= 1 && p in s.qs && s.qs[p].q.flushing && !Hung(s.qs[p].q)
    ensures Reaches(s, t) && WeakInv(t) && OnlyQueue(s, t, p) && !t.qs[p].q.flushing
    decreases s.qs[p].q.waitcounter, s.qs[p].q.flushOut.None?, Doomed(s.qs[p].q), Ahead(s.qs[p].q), Unsent(s.qs[p].q)
  {
    var s' := HelpStep(s, p);
    if s'.qs[p].q.flushing {
      t := Settles(s', p);
    } else {
      t := s';
      ReachesSelf(t);
    }
    ReachesMore(s, Help(s, p), t);
  }

  // ----- the flush returns -----

  ghost predicate NoneHung(s: OutSet) {
    forall p :: p in s.qs ==> !Hung(s.qs[p].q)
  }

  lemma FewerFlushing(s: OutSet, s': OutSet, p: Rank)
    requires OnlyQueue(s, s', p) && p in s.qs && s.qs[p].q.flushing && !s'.qs[p].q.flushing
    ensures |FlushingQs(s'.qs)| < |FlushingQs(s.qs)| && (NoneHung(s) ==> NoneHung(s'))
  {
    assert FlushingQs(s'.qs) == FlushingQs(s.qs) - {p};
  }

  /** Some continuation reaches the return of the flush. */
  ghost predicate CanReturn(s: OutSet) {
    exists t: OutSet :: Reaches(s, t) && Enabled(t, Return)
  }

  lemma CanReturnAfter(s: OutSet, t: OutSet)
    requires Reaches(s, t) && CanReturn(t)
    ensures CanReturn(s)
  {
    var u: OutSet :| Reaches(t, u) && Enabled(u, Return);
    ReachesTrans(s, t, u);
  }

  lemma CanReturnNext(s: OutSet, a: Action)
    requires Enabled(s, a) && CanReturn(Apply(s, a))
    ensures CanReturn(s)
  {
    ReachesSelf(Apply(s, a));
    ReachesMore(s, a, Apply(s, a));
    CanReturnAfter(s, Apply(s, a));
  }

  lemma CountsDown(s: OutSet, a: Action)
    requires WeakInv(s) && s.flusher.Waiting? && Enabled(s, a) && (a.CountDone? || a.Signal?)
    ensures var s' := Apply(s, a);
            && WeakInv(s') && s'.flusher.Waiting? && s'.qs == s.qs && s'.cfg == s.cfg
            && (a.CountDone? ==> s'.undone < s.undone) && (a.Signal? ==> !s'.osetflushing)
  {
    WeakStep(s, a);
  }

  /** The blocked flusher can wake up and return. */
  lemma {:induction false} WakesUp(s: OutSet)
    requires WeakInv(s) && s.cfg.maxoqrpc >= 1 && s.flusher.Waiting? && NoneHung(s)
    ensures CanReturn(s)
    decreases |FlushingQs(s.qs)|, s.undone, s.osetflushing
  {
    if !s.osetflushing {
      ReachesSelf(s);
    } else if s.undone > 0 {
      CountsDown(s, CountDone);
      WakesUp(Apply(s, CountDone));
      CanReturnNext(s, CountDone);
    } else if s.signalers > 0 {
      CountsDown(s, Signal);
      WakesUp(Apply(s, Signal));
      CanReturnNext(s, Signal);
    } else {
      var p :| p in FlushingQs(s.qs);
      var t := Settles(s, p);
      FewerFlushing(s, t, p);
      WakesUp(t);
      CanReturnAfter(s, t);
    }
  }

  /** The flusher's next step before it waits. */
  ghost predicate GoesOn(s: OutSet, a: Action, s': OutSet) {
    && Enabled(s, a) && s' == Apply(s, a) && WeakInv(s') && NoneHung(s') && s'.cfg == s.cfg && !s'.flusher.Idle?
    && Left(s'.flusher) < Left(s.flusher)
  }

  function Left(f: Flusher): nat {
    if f.Starting? then 2 * |f.todo| + 1 else if f.Resuming? then 2 * |f.todo| + 2 else 0
  }

  lemma StartsOne(s: OutSet, p: Rank)
    requires WeakInv(s) && NoneHung(s) && s.flusher.Starting? && p in s.flusher.todo
    ensures Enabled(s, StartQ(p)) && GoesOn(s, StartQ(p), Apply(s, StartQ(p)))
  {
    assert ToDo(s.flusher, p);
    assert !s.qs[p].q.flushing;
    WeakStep(s, StartQ(p));
  }

  lemma ResumesOne(s: OutSet)
    requires WeakInv(s) && NoneHung(s) && s.flusher.Resuming?
    ensures Enabled(s, ResumeQ) && GoesOn(s, ResumeQ, Apply(s, ResumeQ))
  {
    WeakStep(s, ResumeQ);
  }

  lemma DropsHold(s: OutSet)
    requires WeakInv(s) && NoneHung(s) && s.flusher == Starting({})
    ensures Enabled(s, DropHold) && GoesOn(s, DropHold, Apply(s, DropHold))
  {
    WeakStep(s, DropHold);
  }

  lemma NextOfFlusher(s: OutSet) returns (a: Action)
    requires WeakInv(s) && NoneHung(s) && (s.flusher.Starting? || s.flusher.Resuming?)
    ensures Enabled(s, a) && GoesOn(s, a, Apply(s, a))
  {
    if s.flusher.Resuming? {
      ResumesOne(s);
      a := ResumeQ;
    } else if p :| p in s.flusher.todo {
      StartsOne(s, p);
      a := StartQ(p);
    } else {
      assert s.flusher == Starting({});
      DropsHold(s);
      a := DropHold;
    }
  }

  /** The flusher can come through all queues and return. */
  lemma {:induction false} ComesThrough(s: OutSet)
    requires WeakInv(s) && s.cfg.maxoqrpc >= 1 && !s.flusher.Idle? && NoneHung(s)
    ensures CanReturn(s)
    decreases Left(s.flusher)
  {
    if s.flusher.Waiting? {
      WakesUp(s);
    } else {
      var a := NextOfFlusher(s);
      ComesThrough(Apply(s, a));
      CanReturnNext(s, a);
    }
  }

  lemma HungStays(s: OutSet, t: OutSet, p: Rank)
    requires WeakInv(s) && p in s.qs && Hung(s.qs[p].q) && Reaches(s, t)
    ensures !Enabled(t, Return)
  {
    var states: seq<OutSet>, acts: seq<Action> :|
      Steps(states, acts) && states[0] == s && states[|acts|] == t;
    NeverReturns(states, acts, |acts|, p);
    if Enabled(t, Return) {
      HungStep(t, Return, p);
    }
  }

  /** In any state a run with requests of any length can reach while a flush is under way: the
      flush can still return if and only if no queue hangs. */
  lemma ReturnsIff(s: OutSet)
    requires WeakInv(s) && s.cfg.maxoqrpc >= 1 && !s.flusher.Idle?
    ensures CanReturn(s) <==> NoneHung(s)
  {
    if NoneHung(s) {
      ComesThrough(s);
    } else {
      var p :| p in s.qs && Hung(s.qs[p].q);
      forall t | Reaches(s, t) ensures !Enabled(t, Return) {
        HungStays(s, t, p);
      }
    }
  }

  // ----- what a flush will come to if no further request arrives -----

  /** Cutting full batches off `load` and the waiting requests, from the front: what remains in
      the end has waiting requests in it (`some`: so far) and no data. */
  predicate BareRest(c: Config, load: seq<Request>, ws: seq<Waiter>, some: bool)
    decreases |ws|
  {
    if ws == [] then some && !HasData(load)
    else
      var more := load + [ws[0].req];
      if Size(more) != 0 && Size(more) >= c.buftarget then BareRest(c, [], ws[1..], false)
      else BareRest(c, more, ws[1..], true)
  }

  /** The flush of this queue hangs, or will. */
  ghost predicate Fated(c: Config, q: OutQ) {
    Hung(q) || (q.waitcounter > 0 && BareRest(c, q.loading, q.waitq, false))
  }

  lemma {:induction false} DrainRest(c: Config, q: OutQ, f: bool, some: bool)
    requires Loaded(c, q)
    ensures var (q', tosend, g) := Drain(c, q, f);
            BareRest(c, q.loading, q.waitq, some)
            <==> if tosend then BareRest(c, [], q'.waitq, false) else (some || q.waitq != []) && !HasData(q'.loading)
    decreases |q.waitq|
  {
    if q.waitq != [] {
      FormsOne(c, q);
      SizeSnoc(q.loading, q.waitq[0].req);
      var (q2, tosend) := Append(c, PopWaiter(q), Some(q.waitq[0].req), false);
      if !tosend {
        DrainRest(c, q2, f || ClearsWait(q), true);
      }
    }
  }

  lemma DrainFate(c: Config, q: OutQ)
    requires Loaded(c, q) && q.flushing && 0 < q.waitcounter == |q.waitq|
    ensures var (q', tosend, f) := Drain(c, q, false);
            && (q'.waitcounter > 0 ==> q'.waitcounter == |q'.waitq| && !f)
            && (BareRest(c, q.loading, q.waitq, false)
                <==> if q'.waitcounter > 0 then BareRest(c, q'.loading, q'.waitq, false)
                     else !HasData(q.loading + Reqs(q.waitq)))
  {
    DrainData(c, q);
    DrainRest(c, q, false, false);
    DrainTakes(c, q, false);
    DrainOuts(c, q, false);
    DrainFlush(c, q, false);
    DrainForms(c, q, false);
    if !Drain(c, q, false).1 {
      TakenAll(q, Drain(c, q, false).0);
    }
  }

  /** The forced push after the drain loop leaves the counter alone. */
  lemma CompleteCounts(c: Config, q: OutQ, i: nat)
    requires i < |q.outs|
    ensures var (q2, tosend, f) := Drain(c, Retire(q, i).0, false);
            Complete(c, q, i).0.waitcounter == q2.waitcounter && (!f ==> Complete(c, q, i).0 == q2)
  {
  }

  /** While a flush counts all waiting requests, a completion changes nothing about its fate. */
  lemma FinishFate(c: Config, q: OutQ, i: nat)
    requires WeakQ(c, q) && i < |q.outs| && q.flushing && 0 < q.waitcounter == |q.waitq|
    ensures var q' := Complete(c, q, i).0;
            && (Fated(c, q') <==> Fated(c, q)) && (q'.waitcounter > 0 ==> q'.waitcounter == |q'.waitq|)
  {
    HangsIff(c, q, i);
    CompleteCounts(c, q, i);
    DrainFate(c, Retire(q, i).0);
  }

  /** Every waiting request is counted, if any. */
  predicate AllCounted(q: OutQ) {
    q.waitcounter > 0 ==> q.waitcounter == |q.waitq|
  }

  /** A completion when nothing is counted any more. */
  lemma FinishSettled(c: Config, q: OutQ, i: nat)
    requires WeakQ(c, q) && i < |q.outs| && q.waitcounter == 0
    ensures var q' := Complete(c, q, i).0; q'.waitcounter == 0 && (Hung(q') <==> Hung(q))
  {
    RetireWeak(c, q, i, Retire(q, i).0);
    DrainFlush(c, Retire(q, i).0, false);
  }

  lemma FinishFixed(c: Config, q: OutQ, i: nat)
    requires WeakQ(c, q) && i < |q.outs| && AllCounted(q)
    ensures var q' := Complete(c, q, i).0; AllCounted(q') && (Fated(c, q') <==> Fated(c, q))
  {
    if q.waitcounter > 0 {
      FinishFate(c, q, i);
    } else {
      FinishSettled(c, q, i);
    }
  }

  lemma TrackFixed(c: Config, q: OutQ)
    requires WeakQ(c, q) && q.tracking.Some?
    ensures var q' := OutQueues.Track(q).0; AllCounted(q') && (Fated(c, q') <==> Fated(c, q))
  {
  }

  /** The flusher has been at queue `p`, and no later flush has begun. */
  ghost predicate Past(s: OutSet, p: Rank) {
    && p in s.qs && AllCounted(s.qs[p].q)
    && (Started(s.flusher, p) || s.flusher.Idle? || (s.flusher.Resuming? && s.flusher.at == p))
  }

  /** No new request for the queue, and no new flush. */
  predicate Calm(a: Action, p: Rank) {
    !a.Begin? && !(a.Accept? && a.p == p)
  }

  lemma FixedStep(s: OutSet, a: Action, p: Rank)
    requires WeakInv(s) && Enabled(s, a) && Calm(a, p) && Past(s, p)
    ensures Past(Apply(s, a), p) && Apply(s, a).cfg == s.cfg
    ensures Fated(s.cfg, Apply(s, a).qs[p].q) <==> Fated(s.cfg, s.qs[p].q)
  {
    if a.Finish? && a.p == p {
      FinishFixed(s.cfg, s.qs[p].q, a.i);
    } else if a.Track? && a.p == p {
      TrackFixed(s.cfg, s.qs[p].q);
    }
  }

  lemma StartFixed(s: OutSet, p: Rank)
    requires WeakInv(s) && Enabled(s, StartQ(p))
    ensures var s' := Apply(s, StartQ(p));
            s'.cfg == s.cfg && Past(s', p)
    ensures Fated(s.cfg, Apply(s, StartQ(p)).qs[p].q) <==> BareRest(s.cfg, s.qs[p].q.loading, s.qs[p].q.waitq, false)
  {
    assert !s.qs[p].q.flushing;
  }

  /** The fate of the flush on queue `p`, past the flusher's visit. */
  ghost predicate FateIs(s: OutSet, p: Rank, c: Config, fate: bool) {
    WeakInv(s) && Past(s, p) && s.cfg == c && (Fated(c, s.qs[p].q) <==> fate)
  }

  lemma FateStarts(s: OutSet, p: Rank)
    requires WeakInv(s) && Enabled(s, StartQ(p))
    ensures FateIs(Apply(s, StartQ(p)), p, s.cfg, BareRest(s.cfg, s.qs[p].q.loading, s.qs[p].q.waitq, false))
  {
    StartFixed(s, p);
    WeakStep(s, StartQ(p));
  }

  lemma FateStep(s: OutSet, a: Action, p: Rank, c: Config, fate: bool)
    requires FateIs(s, p, c, fate) && Enabled(s, a) && Calm(a, p)
    ensures FateIs(Apply(s, a), p, c, fate)
  {
    FixedStep(s, a, p);
    WeakStep(s, a);
  }

  lemma {:induction false} FateFixed(states: seq<OutSet>, acts: seq<Action>, i: nat, n: nat, p: Rank)
    requires Steps(states, acts) && i < n < |states| && WeakInv(states[i]) && acts[i] == StartQ(p)
    requires forall k: nat :: i < k < n ==> Calm(acts[k], p)
    ensures p in states[i].qs
    ensures FateIs(states[n], p, states[i].cfg,
                   BareRest(states[i].cfg, states[i].qs[p].q.loading, states[i].qs[p].q.waitq, false))
    decreases n
  {
    if n == i + 1 {
      FateStarts(states[i], p);
    } else {
      FateFixed(states, acts, i, n - 1, p);
      FateStep(states[n - 1], acts[n - 1], p, states[i].cfg,
               BareRest(states[i].cfg, states[i].qs[p].q.loading, states[i].qs[p].q.waitq, false));
    }
  }

  /** Exactly when a flush hangs on a queue, judged when `start_qflush` looks at it.  If no
      further request arrives for the queue: if full batches cut off from the front of what is
      loading and waiting leave waiting requests without any data, the flush does not return;
      otherwise it never hangs on this queue. */
  lemma HangsFromStart(states: seq<OutSet>, acts: seq<Action>, i: nat, n: nat, p: Rank)
    requires Steps(states, acts) && i < n < |states| && WeakInv(states[i]) && acts[i] == StartQ(p)
    requires forall k: nat :: i < k < n ==> Calm(acts[k], p)
    ensures p in states[n].qs
    ensures var q := states[i].qs[p].q;
            if BareRest(states[i].cfg, q.loading, q.waitq, false) then !Enabled(states[n], Return)
            else !Hung(states[n].qs[p].q)
  {
    FateFixed(states, acts, i, n, p);
    FatedMeans(states[n], p);
  }

  lemma FatedMeans(s: OutSet, p: Rank)
    requires WeakInv(s) && p in s.qs
    ensures if Fated(s.cfg, s.qs[p].q) then !Enabled(s, Return) else !Hung(s.qs[p].q)
  {
    if Fated(s.cfg, s.qs[p].q) {
      assert p in FlushingQs(s.qs);
    }
  }
}
