/** A set of output queues and the flush operation over it (`shuffler_flush_qs`), as a
    state machine.  One action is one critical section of some thread; any order of
    actions is a possible interleaving. */
module OutSets {
  import opened Messages
  import opened OutQueues
  import opened QueueLogs

  /** Program counter of the thread in `shuffler_flush_qs`. */
  datatype Flusher =
    | Idle
    | Starting(todo: set<Rank>)            // queues `start_qflush` has not reached
    | Resuming(todo: set<Rank>, at: Rank)  // inside `start_qflush` of `at`, lock dropped
    | Waiting                              // own reference dropped, on the condition

  /** `counter` is `oqflush_counter`.  `undone` counts threads that cleared a queue's
      flush and have not entered `done_oq_flush`; `signalers` counts threads that took
      the counter to zero and do not yet hold `flushlock`. */
  datatype OutSet = OutSet(
    cfg: Config, qs: map<Rank, LogQ>,
    flusher: Flusher, counter: int, osetflushing: bool, curflush: bool,
    undone: nat, signalers: nat)

  datatype Action =
    | Accept(p: Rank, w: Waiter)  // req_via_mercury
    | Send(p: Rank, i: nat)       // forward_reqs_now
    | Finish(p: Rank, i: nat)     // forw_start_next, first critical section
    | Track(p: Rank)              // forw_start_next, second critical section
    | CountDone                   // done_oq_flush: drop the counter
    | Signal                      // done_oq_flush: under flushlock
    | Begin                       // aquire_flush
    | StartQ(p: Rank)             // start_qflush
    | ResumeQ                     // start_qflush after sending
    | DropHold                    // shuffler_flush_qs: drop own reference
    | Return                      // shuffler_flush_qs: wake up, drop_curflush

  predicate Enabled(s: OutSet, a: Action) {
    match a
    case Accept(p, w) => p in s.qs
    case Send(p, i) =>
      p in s.qs && i < |s.qs[p].q.outs| && !s.qs[p].q.outs[i].sent
      && s.qs[p].q.tracking != Some(s.qs[p].q.outs[i].first)
    case Finish(p, i) => p in s.qs && i < |s.qs[p].q.outs| && s.qs[p].q.outs[i].sent
    case Track(p) => p in s.qs && s.qs[p].q.tracking.Some?
    case CountDone => s.undone > 0
    case Signal => s.signalers > 0
    case Begin => s.flusher.Idle?
    case StartQ(p) => s.flusher.Starting? && p in s.flusher.todo && p in s.qs
    case ResumeQ => s.flusher.Resuming? && s.flusher.at in s.qs
    case DropHold => s.flusher == Starting({})
    case Return => s.flusher.Waiting? && !s.osetflushing
  }

  /** The request accepted, if any, has data. */
  predicate Proper(a: Action) {
    a.Accept? ==> a.w.req.data != []
  }

  function Bump(b: bool): nat { if b then 1 else 0 }

  function Apply(s: OutSet, a: Action): OutSet
    requires Enabled(s, a)
  {
    match a
    case Accept(p, w) => s.(qs := s.qs[p := LAccept(s.cfg, s.qs[p], w)])
    case Send(p, i) => s.(qs := s.qs[p := LSent(s.qs[p], i)])
    case Finish(p, i) =>
      s.(qs := s.qs[p := LComplete(s.cfg, s.qs[p], i)],
         undone := s.undone + Bump(Complete(s.cfg, s.qs[p].q, i).1.flushdone))
    case Track(p) =>
      s.(qs := s.qs[p := LTrack(s.qs[p])], undone := s.undone + Bump(OutQueues.Track(s.qs[p].q).1))
    case CountDone =>
      s.(undone := s.undone - 1, counter := s.counter - 1, signalers := s.signalers + Bump(s.counter - 1 == 0))
    case Signal => s.(signalers := s.signalers - 1, osetflushing := false)
    case Begin =>
      s.(flusher := Starting(s.qs.Keys), counter := 1, osetflushing := true, curflush := true)
    case StartQ(p) =>
      var l1 := LFlushLoading(s.cfg, s.qs[p]);
      var rest := s.flusher.todo - {p};
      if s.qs[p].q.waitq != [] then
        s.(qs := s.qs[p := l1], counter := s.counter + 1, flusher := Starting(rest))
      else if FlushLoading(s.cfg, s.qs[p].q).1 then
        s.(qs := s.qs[p := l1], flusher := Resuming(rest, p))
      else
        s.(qs := s.qs[p := LFlushOuts(l1)], counter := s.counter + Bump(l1.q.outs != []),
           flusher := Starting(rest))
    case ResumeQ =>
      var p := s.flusher.at;
      s.(qs := s.qs[p := LFlushOuts(s.qs[p])], counter := s.counter + Bump(s.qs[p].q.outs != []),
         flusher := Starting(s.flusher.todo))
    case DropHold =>
      s.(counter := s.counter - 1, osetflushing := s.osetflushing && s.counter - 1 != 0, flusher := Waiting)
    case Return => s.(flusher := Idle, curflush := false)
  }

  /** The abort and assert checks of the flush code. */
  predicate Aborts(s: OutSet, a: Action)
    requires Enabled(s, a)
  {
    match a
    case Finish(p, i) => s.qs[p].q.flushing && !s.curflush
    case StartQ(p) => s.qs[p].q.flushing
    case Signal => s.osetflushing && !s.curflush
    case _ => false
  }

  // ----- invariant -----

  function FlushingQs(qs: map<Rank, LogQ>): set<Rank> {
    set p | p in qs && qs[p].q.flushing
  }

  /** `start_qflush` has been through queue `p`. */
  predicate Started(f: Flusher, p: Rank) {
    match f
    case Idle => false
    case Starting(todo) => p !in todo
    case Resuming(todo, at) => p !in todo && p != at
    case Waiting => true
  }

  /** `start_qflush` has yet to reach queue `p`. */
  predicate ToDo(f: Flusher, p: Rank) {
    (f.Starting? || f.Resuming?) && p in f.todo
  }

  ghost predicate QueuesOk(s: OutSet) {
    forall p :: p in s.qs ==> LogInv(s.cfg, s.qs[p])
  }

  /** A queue flushes only after it was started, and then until it is settled. */
  ghost predicate StartedOk(s: OutSet) {
    forall p :: p in s.qs ==>
      if Started(s.flusher, p) then s.qs[p].q.flushing || Settled(s.qs[p]) else !s.qs[p].q.flushing
  }

  ghost predicate ResumingOk(s: OutSet) {
    && (forall p :: ToDo(s.flusher, p) ==> p in s.qs)
    && (s.flusher.Resuming? ==>
      && s.flusher.at in s.qs && s.flusher.at !in s.flusher.todo
      && s.qs[s.flusher.at].snap <= s.qs[s.flusher.at].q.formed)
  }

  /** The counter: the flusher's own reference, the queues still flushing, and the
      completions not yet counted. */
  ghost predicate CounterOk(s: OutSet) {
    && (s.flusher.Idle? ==> s.counter == 0)
    && s.counter == Bump(s.flusher.Starting? || s.flusher.Resuming?) + |FlushingQs(s.qs)| + s.undone
  }

  /** Exactly one thread ends up responsible for waking the flusher. */
  ghost predicate WakeupOk(s: OutSet) {
    && s.signalers <= 1
    && s.curflush == !s.flusher.Idle?
    && (s.flusher.Starting? || s.flusher.Resuming? ==> s.osetflushing && s.signalers == 0)
    && (s.flusher.Waiting? ==> (s.osetflushing <==> s.counter + s.signalers > 0))
    && (s.signalers == 1 ==> s.flusher.Waiting? && s.counter == 0)
    && (s.flusher.Idle? ==> !s.osetflushing)
  }

  ghost predicate Inv(s: OutSet) {
    QueuesOk(s) && StartedOk(s) && ResumingOk(s) && CounterOk(s) && WakeupOk(s)
  }

  // ----- every action keeps the invariant -----

  /** Flipping one queue's flush flag changes the number of flushing queues by one. */
  lemma FlushingUpdate(qs: map<Rank, LogQ>, p: Rank, l: LogQ)
    requires p in qs
    ensures |FlushingQs(qs[p := l])| == |FlushingQs(qs)| - Bump(qs[p].q.flushing) + Bump(l.q.flushing)
  {
    var rest := FlushingQs(qs) - {p};
    assert FlushingQs(qs) == if qs[p].q.flushing then rest + {p} else rest;
    assert FlushingQs(qs[p := l]) == if l.q.flushing then rest + {p} else rest;
  }

  /** A step on one queue by a thread other than the flusher: the queue may finish its
      flush, and then it is settled; otherwise its flush state is kept. */
  ghost predicate QuietStep(c: Config, l: LogQ, l': LogQ, done: bool) {
    && LogInv(c, l') && l'.snap == l.snap && l.replied <= l'.replied
    && l.q.formed <= l'.q.formed && l'.q.flushing == (l.q.flushing && !done)
    && (done ==> l.q.flushing && Settled(l'))
  }

  lemma QuietKeeps(s: OutSet, p: Rank, l': LogQ, done: bool)
    requires Inv(s) && p in s.qs && QuietStep(s.cfg, s.qs[p], l', done)
    ensures Inv(s.(qs := s.qs[p := l'], undone := s.undone + Bump(done)))
  {
    FlushingUpdate(s.qs, p, l');
  }

  /** What finishing an output does to the flush fields. */
  lemma FinishFields(c: Config, l: LogQ, i: nat)
    requires LogInv(c, l) && i < |l.q.outs|
    ensures var l' := LComplete(c, l, i);
            l.q.formed <= l'.q.formed && l'.q.flushing == (l.q.flushing && !Retire(l.q, i).1)
  {
    var (q', o) := Complete(c, l.q, i);
    CompleteMoves(c, l.q, i);
    assert DrainSpec(c, Retire(l.q, i).0, false, q'.(tracking := l.q.tracking), o.tosend, o.flushnow);
  }

  lemma FinishQuiet(c: Config, l: LogQ, i: nat)
    requires LogInv(c, l) && i < |l.q.outs| && l.q.outs[i].sent
    ensures QuietStep(c, l, LComplete(c, l, i), Retire(l.q, i).1)
  {
    CompleteKeeps(c, l, i);
    FinishFields(c, l, i);
    if Retire(l.q, i).1 {
      FlushDoneSettles(c, l, i);
    }
  }

  lemma AcceptQuiet(c: Config, l: LogQ, w: Waiter)
    requires LogInv(c, l) && w.req.data != []
    ensures QuietStep(c, l, LAccept(c, l, w), false)
  {
    AcceptKeeps(c, l, w);
  }

  lemma QueueActionKeeps(s: OutSet, a: Action)
    requires Inv(s) && Enabled(s, a) && Proper(a) && (a.Accept? || a.Send? || a.Finish? || a.Track?)
    ensures Inv(Apply(s, a))
  {
    match a
    case Accept(p, w) =>
      AcceptQuiet(s.cfg, s.qs[p], w);
      QuietKeeps(s, p, LAccept(s.cfg, s.qs[p], w), false);
    case Send(p, i) =>
      SentKeeps(s.cfg, s.qs[p], i);
      QuietKeeps(s, p, LSent(s.qs[p], i), false);
    case Finish(p, i) =>
      FinishQuiet(s.cfg, s.qs[p], i);
      QuietKeeps(s, p, LComplete(s.cfg, s.qs[p], i), Retire(s.qs[p].q, i).1);
    case Track(p) =>
      TrackKeeps(s.cfg, s.qs[p]);
      QuietKeeps(s, p, LTrack(s.qs[p]), false);
  }

  /** The flusher leaves queue `p` flushing (and counted) or already settled. */
  lemma StartKeeps(s: OutSet, p: Rank, l': LogQ, todo: set<Rank>)
    requires QueuesOk(s) && CounterOk(s) && WakeupOk(s) && p in s.qs && !s.qs[p].q.flushing
    requires s.flusher.Starting? || s.flusher.Resuming?
    requires forall r :: r in s.qs && r != p ==> (Started(s.flusher, r) <==> r !in todo)
    requires StartedOk(s) && p !in todo && todo <= s.qs.Keys
    requires LogInv(s.cfg, l') && (l'.q.flushing || Settled(l'))
    ensures Inv(s.(qs := s.qs[p := l'], counter := s.counter + Bump(l'.q.flushing), flusher := Starting(todo)))
  {
    FlushingUpdate(s.qs, p, l');
  }

  /** `start_qflush` turned the loading list into a batch and dropped the lock. */
  lemma StartSendingKeeps(s: OutSet, p: Rank, l1: LogQ)
    requires Inv(s) && Enabled(s, StartQ(p)) && LogInv(s.cfg, l1)
    requires !s.qs[p].q.flushing && !l1.q.flushing && l1.snap <= l1.q.formed
    ensures Inv(s.(qs := s.qs[p := l1], flusher := Resuming(s.flusher.todo - {p}, p)))
  {
    FlushingUpdate(s.qs, p, l1);
  }

  lemma StartWaiting(s: OutSet, p: Rank)
    requires Inv(s) && Enabled(s, StartQ(p)) && !s.qs[p].q.flushing && s.qs[p].q.waitq != []
    ensures Inv(Apply(s, StartQ(p)))
  {
    FlushWaitingKeeps(s.cfg, s.qs[p]);
    StartKeeps(s, p, LFlushLoading(s.cfg, s.qs[p]), s.flusher.todo - {p});
  }

  lemma StartLoading(s: OutSet, p: Rank)
    requires Inv(s) && Enabled(s, StartQ(p)) && !s.qs[p].q.flushing && s.qs[p].q.waitq == []
    requires FlushLoading(s.cfg, s.qs[p].q).1
    ensures Inv(Apply(s, StartQ(p)))
  {
    FlushLoadingKeeps(s.cfg, s.qs[p]);
    StartSendingKeeps(s, p, LFlushLoading(s.cfg, s.qs[p]));
  }

  lemma StartOuts(s: OutSet, p: Rank)
    requires Inv(s) && Enabled(s, StartQ(p)) && !s.qs[p].q.flushing && s.qs[p].q.waitq == []
    requires !FlushLoading(s.cfg, s.qs[p].q).1
    ensures Inv(Apply(s, StartQ(p)))
  {
    FlushLoadingKeeps(s.cfg, s.qs[p]);
    FlushOutsKeeps(s.cfg, LFlushLoading(s.cfg, s.qs[p]));
    StartKeeps(s, p, LFlushOuts(LFlushLoading(s.cfg, s.qs[p])), s.flusher.todo - {p});
  }

  lemma StartQKeeps(s: OutSet, p: Rank)
    requires Inv(s) && Enabled(s, StartQ(p))
    ensures !s.qs[p].q.flushing && Inv(Apply(s, StartQ(p)))
  {
    assert !Started(s.flusher, p);
    if s.qs[p].q.waitq != [] {
      StartWaiting(s, p);
    } else if FlushLoading(s.cfg, s.qs[p].q).1 {
      StartLoading(s, p);
    } else {
      StartOuts(s, p);
    }
  }

  lemma ResumeQKeeps(s: OutSet)
    requires Inv(s) && Enabled(s, ResumeQ)
    ensures Inv(Apply(s, ResumeQ))
  {
    var p := s.flusher.at;
    assert !Started(s.flusher, p);
    FlushOutsKeeps(s.cfg, s.qs[p]);
    StartKeeps(s, p, LFlushOuts(s.qs[p]), s.flusher.todo);
  }

  lemma BeginKeeps(s: OutSet)
    requires Inv(s) && Enabled(s, Begin)
    ensures Inv(Apply(s, Begin))
  {
    assert FlushingQs(s.qs) == {} by {
      assert forall p :: p in s.qs ==> !Started(s.flusher, p);
    }
  }

  /** When the flusher wakes, no reference is left, so no queue is flushing. */
  lemma QuietAtReturn(s: OutSet)
    requires Inv(s) && Enabled(s, Return)
    ensures s.counter == 0 && s.undone == 0 && s.signalers == 0
    ensures forall p :: p in s.qs ==> !s.qs[p].q.flushing && Settled(s.qs[p])
  {
    assert FlushingQs(s.qs) == {};
    forall p | p in s.qs ensures !s.qs[p].q.flushing && Settled(s.qs[p]) {
      assert p !in FlushingQs(s.qs);
      assert Started(s.flusher, p);
    }
  }

  /** Every action of every thread keeps the invariant, and none of the flush code's
      abort or assert checks can fire. */
  lemma StepKeeps(s: OutSet, a: Action)
    requires Inv(s) && Enabled(s, a) && Proper(a)
    ensures Inv(Apply(s, a)) && !Aborts(s, a)
  {
    if a.StartQ? {
      StartQKeeps(s, a.p);
    } else if a.ResumeQ? {
      ResumeQKeeps(s);
    } else if a.Begin? {
      BeginKeeps(s);
    } else if a.Return? {
      QuietAtReturn(s);
    } else if a.Accept? || a.Send? || a.Finish? || a.Track? {
      QueueActionKeeps(s, a);
      assert s.qs[a.p].q.flushing ==> Started(s.flusher, a.p);
    }
  }

  // ----- how the queues may change, seen from outside -----

  function Finished(a: Action, p: Rank): Option<nat> {
    if a.Finish? && a.p == p then Some(a.i) else None
  }

  lemma StartQEvolves(s: OutSet, p: Rank)
    requires Inv(s) && Enabled(s, StartQ(p))
    ensures Evolves(s.qs[p], Apply(s, StartQ(p)).qs[p], None)
  {
    var l1 := LFlushLoading(s.cfg, s.qs[p]);
    FlushLoadingEvolves(s.cfg, s.qs[p]);
    assert SameContents(l1, LFlushOuts(l1));
    SameEvolves(s.cfg, s.qs[p], l1, Apply(s, StartQ(p)).qs[p]);
  }

  /** Actions of the flush bookkeeping, and actions on another queue. */
  lemma OthersSame(s: OutSet, a: Action, p: Rank)
    requires Enabled(s, a) && p in s.qs && a != StartQ(p)
    requires !(a.Accept? || a.Send? || a.Finish?) || a.p != p
    ensures p in Apply(s, a).qs && SameContents(s.qs[p], Apply(s, a).qs[p])
  {
  }

  lemma StepEvolves(s: OutSet, a: Action, p: Rank)
    requires Inv(s) && Enabled(s, a) && !a.Send? && p in s.qs
    ensures p in Apply(s, a).qs && Evolves(s.qs[p], Apply(s, a).qs[p], Finished(a, p))
  {
    if a.Accept? && a.p == p {
      AcceptEvolves(s.cfg, s.qs[p], a.w);
    } else if a.Finish? && a.p == p {
      CompleteEvolves(s.cfg, s.qs[p], a.i);
    } else if a == StartQ(p) {
      StartQEvolves(s, p);
    } else {
      OthersSame(s, a, p);
      SameEvolves(s.cfg, s.qs[p], s.qs[p], Apply(s, a).qs[p]);
    }
  }

  /** All queues evolve; output `fin.1` of queue `fin.0` may be gone. */
  ghost predicate SetEvolves(s: OutSet, s': OutSet, fin: Option<(Rank, nat)>) {
    && s'.qs.Keys == s.qs.Keys
    && (forall p :: p in s.qs ==> Evolves(s.qs[p], s'.qs[p], FinAt(fin, p)))
  }

  function FinAt(fin: Option<(Rank, nat)>, p: Rank): Option<nat> {
    if fin.Some? && fin.value.0 == p then Some(fin.value.1) else None
  }

  function FinOf(a: Action): Option<(Rank, nat)> {
    if a.Finish? then Some((a.p, a.i)) else None
  }

  lemma SetStepEvolves(s: OutSet, a: Action)
    requires Inv(s) && Enabled(s, a) && !a.Send?
    ensures SetEvolves(s, Apply(s, a), FinOf(a))
  {
    forall p | p in s.qs ensures p in Apply(s, a).qs && Evolves(s.qs[p], Apply(s, a).qs[p], FinAt(FinOf(a), p)) {
      StepEvolves(s, a, p);
    }
    KeysKept(s, a);
  }

  lemma KeysKept(s: OutSet, a: Action)
    requires Enabled(s, a)
    ensures Apply(s, a).qs.Keys == s.qs.Keys
  {
  }

  lemma AcceptedAfter(s: OutSet, a: Action, p: Rank)
    requires Enabled(s, a) && p in s.qs
    ensures p in Apply(s, a).qs && Apply(s, a).qs.Keys == s.qs.Keys
    ensures Apply(s, a).qs[p].accepted == s.qs[p].accepted + (if a.Accept? && a.p == p then [a.w.req] else [])
  {
    assert s.qs[p].accepted + [] == s.qs[p].accepted;
  }

  /** The part of `Evolves` that concerns places rather than outputs. */
  ghost predicate Longer(l: LogQ, l': LogQ, n: nat) {
    && l.accepted <= l'.accepted && |l'.accepted| == |l.accepted| + n
    && (forall k :: k < |l.accepted| && IsWaiting(l', k) ==> IsWaiting(l, k) && WaiterAt(l', k) == WaiterAt(l, k))
  }

  /** At most one queue, `at`, got one more request. */
  ghost predicate SetLonger(s: OutSet, s': OutSet, at: Option<Rank>) {
    && s'.qs.Keys == s.qs.Keys
    && (forall p :: p in s.qs ==> Longer(s.qs[p], s'.qs[p], Bump(at == Some(p))))
  }

  function AcceptedBy(a: Action): Option<Rank> {
    if a.Accept? then Some(a.p) else None
  }

  lemma EvolvesLonger(l: LogQ, l': LogQ, fin: Option<nat>, n: nat)
    requires Evolves(l, l', fin) && |l'.accepted| == |l.accepted| + n
    ensures Longer(l, l', n)
  {
  }

  lemma SendLonger(s: OutSet, p: Rank, i: nat, r: Rank)
    requires Enabled(s, Send(p, i)) && r in s.qs
    ensures Longer(s.qs[r], Apply(s, Send(p, i)).qs[r], 0)
  {
  }

  lemma QueueLonger(s: OutSet, a: Action, p: Rank)
    requires Inv(s) && Enabled(s, a) && p in s.qs
    ensures p in Apply(s, a).qs && Longer(s.qs[p], Apply(s, a).qs[p], Bump(AcceptedBy(a) == Some(p)))
  {
    if a.Send? {
      SendLonger(s, a.p, a.i, p);
    } else {
      AcceptedAfter(s, a, p);
      StepEvolves(s, a, p);
      EvolvesLonger(s.qs[p], Apply(s, a).qs[p], Finished(a, p), Bump(AcceptedBy(a) == Some(p)));
    }
  }

  lemma StepLonger(s: OutSet, a: Action)
    requires Inv(s) && Enabled(s, a)
    ensures SetLonger(s, Apply(s, a), AcceptedBy(a))
  {
    forall p | p in s.qs
      ensures p in Apply(s, a).qs && Longer(s.qs[p], Apply(s, a).qs[p], Bump(AcceptedBy(a) == Some(p)))
    {
      QueueLonger(s, a, p);
    }
    KeysKept(s, a);
  }

  /** An accepted request waits exactly when the queue had no room, and then under the
      owner it came with. */
  lemma AcceptedParks(s: OutSet, p: Rank, w: Waiter)
    requires Inv(s) && Enabled(s, Accept(p, w))
    ensures var l, l' := s.qs[p], Apply(s, Accept(p, w)).qs[p];
            && (IsWaiting(l', |l.accepted|) <==> l.q.nsending >= s.cfg.maxoqrpc)
            && (IsWaiting(l', |l.accepted|) ==> WaiterAt(l', |l.accepted|) == w)
  {
    FifoLens(s.qs[p]);
  }

  // ----- whole runs -----

  ghost predicate Steps(states: seq<OutSet>, acts: seq<Action>) {
    && |states| == |acts| + 1
    && (forall i :: 0 <= i < |acts| ==> Enabled(states[i], acts[i]) && states[i + 1] == Apply(states[i], acts[i]))
  }

  /** A run in which every request has data. */
  ghost predicate Run(states: seq<OutSet>, acts: seq<Action>) {
    Steps(states, acts) && forall i :: 0 <= i < |acts| ==> Proper(acts[i])
  }

  lemma {:induction false} RunKeeps(states: seq<OutSet>, acts: seq<Action>, n: nat)
    requires Run(states, acts) && Inv(states[0]) && n < |states|
    ensures Inv(states[n])
  {
    if n > 0 {
      RunKeeps(states, acts, n - 1);
      StepKeeps(states[n - 1], acts[n - 1]);
    }
  }

  /** What a queue looks like from outside whenever its lock is free: a FIFO of batches,
      then loading, then waiting requests, within its limit. */
  ghost predicate BoundedFifo(c: Config, l: LogQ) {
    && l.q.formed <= |l.accepted| && l.accepted == l.accepted[..l.q.formed] + l.q.loading + Reqs(l.q.waitq)
    && (forall i :: 0 <= i < |l.q.outs| ==> Carries(l.accepted[..l.q.formed], l.q.outs[i]))
    && (forall i, j :: 0 <= i < j < |l.q.outs| ==> l.q.outs[i].first + |l.q.outs[i].batch| <= l.q.outs[j].first)
    && l.q.loadsize == Size(l.q.loading) && l.q.nsending == |l.q.outs| <= c.maxoqrpc
    && (l.q.nsending == c.maxoqrpc ==> l.q.loading == []) && (l.q.waitq != [] ==> l.q.nsending == c.maxoqrpc)
  }

  /** In every run, every queue is a bounded FIFO: no waiter is stranded and no flush exceeds
      the limit. */
  lemma RunFifo(states: seq<OutSet>, acts: seq<Action>, n: nat, p: Rank)
    requires Run(states, acts) && Inv(states[0]) && n < |states| && p in states[n].qs
    ensures BoundedFifo(states[n].cfg, states[n].qs[p])
  {
    RunKeeps(states, acts, n);
    var l := states[n].qs[p];
    assert LogInv(states[n].cfg, l);
    assert l.accepted == l.accepted[..l.q.formed] + l.accepted[l.q.formed..];
    forall i | 0 <= i < |l.q.outs| ensures Carries(l.accepted[..l.q.formed], l.q.outs[i]) {
      assert Carries(l.accepted, l.q.outs[i]);
    }
  }

  /** The running flush has been to queue `p` and found `n` requests accepted there. */
  predicate Looked(s: OutSet, p: Rank, n: nat) {
    && p in s.qs && s.qs[p].snap == n
    && (s.flusher.Starting? || s.flusher.Resuming? ==> p !in s.flusher.todo)
  }

  lemma LookedStep(s: OutSet, a: Action, p: Rank, n: nat)
    requires Enabled(s, a) && !a.Begin? && Looked(s, p, n)
    ensures Looked(Apply(s, a), p, n)
  {
  }

  lemma LookStep(s: OutSet, p: Rank)
    requires Enabled(s, StartQ(p))
    ensures Looked(Apply(s, StartQ(p)), p, |s.qs[p].accepted|)
  {
  }

  lemma {:induction false} LookedKept(states: seq<OutSet>, acts: seq<Action>, p: Rank, i: nat, j: nat)
    requires Run(states, acts) && i < j < |states| && acts[i] == StartQ(p)
    requires forall k :: i < k < j ==> !acts[k].Begin?
    ensures Looked(states[j], p, |states[i].qs[p].accepted|)
  {
    if j == i + 1 {
      LookStep(states[i], p);
    } else {
      LookedKept(states, acts, p, i, j - 1);
      LookedStep(states[j - 1], acts[j - 1], p, |states[i].qs[p].accepted|);
    }
  }

  /** Queues are never added or removed, and what a queue accepted stays accepted. */
  lemma GrowStep(s: OutSet, a: Action, p: Rank)
    requires Enabled(s, a) && p in s.qs
    ensures p in Apply(s, a).qs && s.qs[p].accepted <= Apply(s, a).qs[p].accepted
  {
  }

  /** Whatever every step keeps holds along a run. */
  lemma {:induction false} Along(states: seq<OutSet>, acts: seq<Action>, i: nat, n: nat, p: OutSet -> bool)
    requires Steps(states, acts) && i <= n < |states| && p(states[i])
    requires forall s, a :: p(s) && Enabled(s, a) ==> p(Apply(s, a))
    ensures p(states[n])
    decreases n
  {
    if i < n {
      Along(states, acts, i, n - 1, p);
      assert Enabled(states[n - 1], acts[n - 1]);
    }
  }

  lemma Grows(states: seq<OutSet>, acts: seq<Action>, i: nat, j: nat, p: Rank)
    requires Steps(states, acts) && i <= j < |states| && p in states[i].qs
    ensures p in states[j].qs && states[i].qs[p].accepted <= states[j].qs[p].accepted
  {
    var was := states[i].qs[p].accepted;
    forall s: OutSet, a: Action | p in s.qs && was <= s.qs[p].accepted && Enabled(s, a)
      ensures p in Apply(s, a).qs && was <= Apply(s, a).qs[p].accepted
    {
      GrowStep(s, a, p);
    }
    Along(states, acts, i, j, (s: OutSet) => p in s.qs && was <= s.qs[p].accepted);
  }

  /** Flush barrier.  Take any run of any number of threads over the set, any two moments
      b and e where a flush begins and where that flush returns, and the moment i in
      between where `start_qflush` looks at queue p.  Every request that had been given
      to p by moment i was answered by moment e. */
  lemma FlushBarrier(states: seq<OutSet>, acts: seq<Action>, b: nat, i: nat, e: nat, p: Rank, k: nat)
    requires Run(states, acts) && Inv(states[0])
    requires b < i < e < |acts| && acts[b].Begin? && acts[e].Return?
    requires forall j :: b < j < e ==> !acts[j].Begin?
    requires acts[i] == StartQ(p) && k < |states[i].qs[p].accepted|
    ensures p in states[e].qs && k in states[e].qs[p].replied
    ensures states[i].qs[p].accepted <= states[e].qs[p].accepted
  {
    RunKeeps(states, acts, e);
    LookedKept(states, acts, p, i, e);
    QuietAtReturn(states[e]);
    Grows(states, acts, i, e, p);
  }

  lemma ToDoStep(s: OutSet, a: Action, p: Rank)
    requires Enabled(s, a) && ToDo(s.flusher, p) && a != StartQ(p)
    ensures ToDo(Apply(s, a).flusher, p)
  {
  }

  /** Until `start_qflush` reaches a queue, the queue stays on the flusher's list. */
  lemma {:induction false} ToDoUntilStarted(states: seq<OutSet>, acts: seq<Action>, b: nat, j: nat, p: Rank)
    requires Run(states, acts) && b < j < |states| && acts[b].Begin? && p in states[b].qs
    requires forall i :: b < i < j ==> acts[i] != StartQ(p)
    ensures ToDo(states[j].flusher, p)
  {
    if j > b + 1 {
      ToDoUntilStarted(states, acts, b, j - 1, p);
      ToDoStep(states[j - 1], acts[j - 1], p);
    }
  }

  /** The flush reaches every queue, so everything given to the set before the flush was
      called was answered when it returns. */
  lemma FlushCoversAll(states: seq<OutSet>, acts: seq<Action>, b: nat, e: nat, p: Rank, k: nat)
    requires Run(states, acts) && Inv(states[0])
    requires b < e < |acts| && acts[b].Begin? && acts[e].Return?
    requires forall j :: b < j < e ==> !acts[j].Begin?
    requires p in states[b].qs && k < |states[b].qs[p].accepted|
    ensures p in states[e].qs && k in states[e].qs[p].replied
  {
    if i :| b < i < e && acts[i] == StartQ(p) {
      Grows(states, acts, b, i, p);
      FlushBarrier(states, acts, b, i, e, p, k);
    } else {
      ToDoUntilStarted(states, acts, b, e, p);
      assert false;
    }
  }

  // ----- a blocked flusher is never stranded -----

  lemma FlushingHasOutput(c: Config, l: LogQ)
    requires LogInv(c, l) && l.q.flushing
    ensures l.q.outs != []
  {
  }

  /** While the flusher is blocked, some other thread still has a step to take that leads
      to its wakeup: a signal, an uncounted completion, a tracker update, or an RPC of a
      flushing queue to send or to be answered. */
  lemma FlusherNotStranded(s: OutSet)
    requires Inv(s) && s.flusher.Waiting? && s.osetflushing
    ensures Enabled(s, Signal) || Enabled(s, CountDone)
            || exists p :: p in s.qs && s.qs[p].q.flushing
                        && (Enabled(s, Track(p)) || Enabled(s, Send(p, 0)) || Enabled(s, Finish(p, 0)))
  {
    if s.signalers == 0 && s.undone == 0 {
      var p :| p in FlushingQs(s.qs);
      FlushingHasOutput(s.cfg, s.qs[p]);
      assert Enabled(s, Track(p)) || Enabled(s, Send(p, 0)) || Enabled(s, Finish(p, 0));
    }
  }

  // ----- the limit must allow at least one RPC -----

  /** A set as `shuffler_init` leaves it. */
  predicate Fresh(s: OutSet) {
    s == OutSet(s.cfg, s.qs, Idle, 0, false, false, 0, 0) && (forall p :: p in s.qs ==> s.qs[p] == EMPTYLOG)
  }

  lemma FreshInv(s: OutSet)
    requires Fresh(s) && s.cfg.maxoqrpc >= 1
    ensures Inv(s)
  {
    assert FlushingQs(s.qs) == {};
    forall p | p in s.qs ensures LogInv(s.cfg, s.qs[p]) {
      assert Reqs([]) == [];
    }
  }

  /** A request is waiting and no RPC is out whose completion could release it. */
  predicate Stranded(s: OutSet, p: Rank) {
    p in s.qs && s.qs[p].q.waitq != [] && s.qs[p].q.outs == []
  }

  ghost predicate CanStrand(c: Config, p: Rank) {
    exists states: seq<OutSet>, acts: seq<Action> :: Run(states, acts) && Fresh(states[0]) && states[0].cfg == c
        && Stranded(states[|acts|], p)
  }

  /** With limit zero, a stranded request stays stranded, whatever happens. */
  lemma {:induction false} StrandedForever(states: seq<OutSet>, acts: seq<Action>, n: nat, p: Rank)
    requires Steps(states, acts) && n < |states| && states[0].cfg.maxoqrpc == 0
    requires Stranded(states[0], p) && states[0].qs[p].q.nsending == 0
    ensures Stranded(states[n], p) && states[n].qs[p].q.nsending == 0 && states[n].cfg.maxoqrpc == 0
    ensures states[0].qs[p].q.waitq <= states[n].qs[p].q.waitq
  {
    if n > 0 {
      StrandedForever(states, acts, n - 1, p);
      StrandedStep(states[n - 1], acts[n - 1], p);
    }
  }

  lemma StrandedStep(s: OutSet, a: Action, p: Rank)
    requires Enabled(s, a) && s.cfg.maxoqrpc == 0 && Stranded(s, p) && s.qs[p].q.nsending == 0
    ensures var s' := Apply(s, a);
            Stranded(s', p) && s'.qs[p].q.nsending == 0 && s'.cfg == s.cfg && s.qs[p].q.waitq <= s'.qs[p].q.waitq
  {
  }

  lemma NotStranded(s: OutSet, p: Rank)
    requires Inv(s)
    ensures !Stranded(s, p)
  {
    assert p in s.qs ==> LogInv(s.cfg, s.qs[p]);
  }

  /** A sender or an inbound RPC can be left waiting for nothing if and only if the limit
      is zero, which the configuration allows for the relay queues. */
  lemma StrandsIff(c: Config, p: Rank, w: Waiter)
    requires w.req.data != []
    ensures CanStrand(c, p) <==> c.maxoqrpc == 0
  {
    if c.maxoqrpc == 0 {
      var s := OutSet(c, map[p := EMPTYLOG], Idle, 0, false, false, 0, 0);
      var states, acts := [s, Apply(s, Accept(p, w))], [Accept(p, w)];
      assert Run(states, acts) && Stranded(states[|acts|], p) && states[|acts|].qs[p].q.nsending == 0;
    } else {
      forall states: seq<OutSet>, acts: seq<Action> | Run(states, acts) && Fresh(states[0]) && states[0].cfg == c
        ensures !Stranded(states[|acts|], p)
      {
        FreshInv(states[0]);
        RunKeeps(states, acts, |acts|);
        NotStranded(states[|acts|], p);
      }
    }
  }
}
