/** Runs on two ranks in which the checks of the N-N shuffler fire or epochs mix, and which
    barriers keep epochs apart. */
module NNFaults {
  import opened Messages
  import opened NNJobs
  import opened NNConservation
  import opened NNMonitor
  import opened NNRuns
  import opened NNSkew

  lemma TwoRanks(flags: Flags, sync: bool) returns (j: Job)
    ensures Start(j) && j.n == 2 && j.flags == flags && j.sync == sync
  {
    var q := Queue([], 0);
    var qs := map[(0, 0) := q, (0, 1) := q, (1, 0) := q, (1, 1) := q];
    var stats := Stats([ZERO, ZERO], [[], []], [ZERO, ZERO], map[], map[]);
    j := Job(2, flags, sync, [At(0, 0), At(0, 0)], qs, [], [[], []], stats, map[], map[]);
  }

  /** Two ranks, at `a` and `b`; nothing is queued and every message is answered, except that
      the last one may still be `x`. */
  ghost predicate Calm(j: Job, a: At, b: At, x: Option<Batch>) {
    && Shape(j) && j.n == 2 && j.pc == [a, b] && (forall k :: k in j.queues ==> j.queues[k].items == [])
    && (x.Some? ==> j.batches != [] && j.batches[|j.batches| - 1] == x.value)
    && (forall b: nat :: b < |j.batches| && (x.Some? ==> b < |j.batches| - 1) ==> j.batches[b].stage.Closed?)
  }

  /** A rank at `a` is not held up at a barrier by one at `b`. */
  predicate MayGo(f: Flags, a: At, b: At) {
    BarrierAt(f, a.ph) ==> Reach(b, a.epoch, a.ph)
  }

  lemma CalmNext(j: Job, a: At, b: At, r: Rank)
    requires Calm(j, a, b, None) && r < 2 && MayGo(j.flags, if r == 0 then a else b, if r == 0 then b else a)
    ensures Enabled(j, Next(r))
    ensures Calm(Apply(j, Next(r)), if r == 0 then Succ(a) else a, if r == 1 then Succ(b) else b, None)
  {
    ShapeStep(j, Next(r));
  }

  /** Rank 0's write to rank 1 in epoch `e`, and the message with it. */
  function W(e: nat): Write { Write(7, 0, 1, e) }
  function X(e: nat): Batch { Batch(0, 1, e, [W(e)], 0, Flying) }

  lemma CalmPut(j: Job, e: nat, b: At)
    requires Calm(j, At(e, 2), b, None) && W(e).id !in j.at
    ensures Enabled(j, Put(W(e))) && Enabled(Apply(j, Put(W(e))), Send(0, 1))
    ensures var j2 := Apply(Apply(j, Put(W(e))), Send(0, 1));
            Calm(j2, At(e, 2), b, Some(X(e))) && |j2.batches| == |j.batches| + 1 && j2.logs == j.logs
  {
    PutEffect(j, W(e), Apply(j, Put(W(e))));
    assert [] + [W(e)] == [W(e)];
    SendEffect(Apply(j, Put(W(e))), 0, 1, Apply(Apply(j, Put(W(e))), Send(0, 1)));
  }

  /** The last message goes from one stage to the next. */
  lemma CalmMail(j: Job, a: At, b: At, x: Batch, c: Action)
    requires Calm(j, a, b, Some(x)) && x.dst < 2 && x.src < 2
    requires c == match x.stage
                  case Flying => Receive(|j.batches| - 1)
                  case Open => if x.done < |x.frames| then ExecOne(|j.batches| - 1) else Reply(|j.batches| - 1)
                  case Replied => Close(|j.batches| - 1)
                  case Closed => Close(|j.batches| - 1)
    requires !x.stage.Closed? && x.done <= |x.frames|
    ensures Enabled(j, c)
    ensures var x' := match x.stage
                      case Flying => x.(stage := Open)
                      case Open => if x.done < |x.frames| then x.(done := x.done + 1) else x.(stage := Replied)
                      case Replied => x.(stage := Closed)
                      case Closed => x;
            Calm(Apply(j, c), a, b, Some(x')) && |Apply(j, c).batches| == |j.batches|
  {
    ShapeStep(j, c);
  }

  lemma CalmClosed(j: Job, a: At, b: At, x: Batch)
    requires Calm(j, a, b, Some(x)) && x.stage.Closed?
    ensures Calm(j, a, b, None)
  {
  }

  /** Rank 0 opens epoch 0 and is ready to write; rank 1 has not opened it. */
  lemma FastOpen(flags: Flags, sync: bool) returns (js: seq<Job>, acts: seq<Action>)
    ensures Run(js, acts) && js[0].flags == flags && Calm(js[|acts|], At(0, 2), At(0, 0), None)
    ensures js[|acts|].at == map[]
            && js[|acts|].batches == []
  {
    var j := TwoRanks(flags, sync);
    CalmNext(j, At(0, 0), At(0, 0), 0);
    var j1 := Apply(j, Next(0));
    CalmNext(j1, At(0, 1), At(0, 0), 0);
    Snoc([j], [], Next(0));
    Snoc([j] + [j1], [] + [Next(0)], Next(0));
    js, acts := [j] + [j1] + [Apply(j1, Next(0))], [] + [Next(0)] + [Next(0)];
  }

  /** A message is sent. */
  lemma Mails(js: seq<Job>, acts: seq<Action>, e: nat, b: At) returns (js': seq<Job>, acts': seq<Action>)
    requires Steps(js, acts) && Calm(js[|acts|], At(e, 2), b, None) && W(e).id !in js[|acts|].at
    ensures Extends(js, acts, js', acts') && Calm(js'[|acts'|], At(e, 2), b, Some(X(e)))
    ensures |js'[|acts'|].batches| == |js[|acts|].batches| + 1 && js'[|acts'|].logs == js[|acts|].logs
  {
    var j := js[|acts|];
    CalmPut(j, e, b);
    var j1 := Apply(j, Put(W(e)));
    var j2 := Apply(j1, Send(0, 1));
    Snoc(js, acts, Put(W(e)));
    Snoc(js + [j1], acts + [Put(W(e))], Send(0, 1));
    js', acts' := js + [j1] + [j2], acts + [Put(W(e))] + [Send(0, 1)];
  }

  /** It is received and executed at once. */
  lemma Arrives(js: seq<Job>, acts: seq<Action>, e: nat, b: At) returns (js': seq<Job>, acts': seq<Action>)
    requires Steps(js, acts) && Calm(js[|acts|], At(e, 2), b, Some(X(e)))
    ensures Extends(js, acts, js', acts') && |acts'| == |acts| + 2
    ensures Calm(js'[|acts'|], At(e, 2), b, Some(X(e).(stage := Open, done := 1)))
    ensures var m, j, j1 := |js[|acts|].batches| - 1, js[|acts|], js'[|acts| + 1];
            && |js'[|acts'|].batches| == |j.batches| && j.batches[m] == X(e)
            && acts'[|acts|] == Receive(m) && Enabled(j, Receive(m))
            && j1.pc == j.pc && acts'[|acts| + 1] == ExecOne(m) && Enabled(j1, ExecOne(m))
            && j1.batches[m] == X(e).(stage := Open)
    ensures js'[|acts'|].logs == Append(js[|acts|], 1, Exec(W(e), e, b))
  {
    var j, m := js[|acts|], |js[|acts|].batches| - 1;
    CalmMail(j, At(e, 2), b, X(e), Receive(m));
    var j1 := Apply(j, Receive(m));
    CalmMail(j1, At(e, 2), b, X(e).(stage := Open), ExecOne(m));
    Snoc(js, acts, Receive(m));
    Snoc(js + [j1], acts + [Receive(m)], ExecOne(m));
    js', acts' := js + [j1] + [Apply(j1, ExecOne(m))], acts + [Receive(m)] + [ExecOne(m)];
  }

  /** And answered. */
  lemma Closes(js: seq<Job>, acts: seq<Action>, e: nat, b: At) returns (js': seq<Job>, acts': seq<Action>)
    requires Steps(js, acts) && Calm(js[|acts|], At(e, 2), b, Some(X(e).(stage := Open, done := 1)))
    ensures Extends(js, acts, js', acts') && Calm(js'[|acts'|], At(e, 2), b, None)
    ensures js'[|acts'|].logs == js[|acts|].logs
  {
    var x, j, m := X(e).(stage := Open, done := 1), js[|acts|], |js[|acts|].batches| - 1;
    CalmMail(j, At(e, 2), b, x, Reply(m));
    var j1 := Apply(j, Reply(m));
    CalmMail(j1, At(e, 2), b, x.(stage := Replied), Close(m));
    var j2 := Apply(j1, Close(m));
    CalmClosed(j2, At(e, 2), b, x.(stage := Closed));
    Snoc(js, acts, Reply(m));
    Snoc(js + [j1], acts + [Reply(m)], Close(m));
    js', acts' := js + [j1] + [j2], acts + [Reply(m)] + [Close(m)];
  }

  /** Rank 1 receives and executes a write before it has opened the epoch. */
  lemma FastReceive(flags: Flags, sync: bool) returns (js: seq<Job>, acts: seq<Action>, n: nat)
    ensures Run(js, acts) && js[0].flags == flags
    ensures Calm(js[|acts|], At(0, 2), At(0, 0), Some(X(0).(stage := Open, done := 1))) && n + 2 == |acts|
    ensures BeforeReset(js[n], acts[n], 0, NMR) && BeforeReset(js[n + 1], acts[n + 1], 0, NFW)
    ensures ExecutesWrite(js[n + 1], acts[n + 1], W(0)) && !CheckPasses(js[n + 1], acts[n + 1].b)
  {
    js, acts := FastOpen(flags, sync);
    js, acts := Mails(js, acts, 0, At(0, 0));
    n := |acts|;
    js, acts := Arrives(js, acts, 0, At(0, 0));
  }

  /** Both dump what they counted in epoch 0. */
  lemma FastDump(flags: Flags, sync: bool) returns (js: seq<Job>, acts: seq<Action>, n: nat)
    ensures Run(js, acts) && js[0].flags == flags && Calm(js[|acts|], At(0, 11), At(0, 11), None) && n + 1 < |acts|
    ensures BeforeReset(js[n], acts[n], 0, NMR) && BeforeReset(js[n + 1], acts[n + 1], 0, NFW)
  {
    js, acts, n := FastReceive(flags, sync);
    ghost var js0, acts0 := js, acts;
    js, acts := Closes(js, acts, 0, At(0, 0));
    js, acts := GoOn(js, acts, At(0, 2), At(0, 0), 1);
    js, acts := GoOn(js, acts, At(0, 2), At(0, 1), 1);
    js, acts := LockStep(js, acts, 2, 11);
    assert js[0] == js0[0] && js[n] == js0[n] && acts[n] == acts0[n] && js[n + 1] == js0[n + 1]
        && acts[n + 1] == acts0[n + 1];
  }

  /** One rank goes on. */
  lemma GoOn(js: seq<Job>, acts: seq<Action>, a: At, b: At, r: Rank) returns (js': seq<Job>, acts': seq<Action>)
    requires Steps(js, acts) && Calm(js[|acts|], a, b, None) && r < 2
    requires MayGo(js[0].flags, if r == 0 then a else b, if r == 0 then b else a)
    ensures Extends(js, acts, js', acts')
    ensures Calm(js'[|acts'|], if r == 0 then Succ(a) else a, if r == 1 then Succ(b) else b, None)
    ensures js'[|acts'|].at == js[|acts|].at
    ensures js'[|acts'|].logs[1]
         == js[|acts|].logs[1] + if r == 1 && b.ph == 9 then [Flushed(b.epoch)] else []
  {
    FlagsKept(js, acts, |acts|);
    CalmNext(js[|acts|], a, b, r);
    Snoc(js, acts, Next(r));
    js', acts' := js + [Apply(js[|acts|], Next(r))], acts + [Next(r)];
  }

  /** Both ranks go on from phase `p` to phase `q`, one after the other. */
  lemma {:induction false} LockStep(js: seq<Job>, acts: seq<Action>, p: nat, q: nat)
      returns (js': seq<Job>, acts': seq<Action>)
    requires Steps(js, acts) && p <= q <= 11 && Calm(js[|acts|], At(0, p), At(0, p), None)
    ensures Extends(js, acts, js', acts') && Calm(js'[|acts'|], At(0, q), At(0, q), None)
    ensures js'[|acts'|].at == js[|acts|].at
    decreases q - p
  {
    js', acts' := js, acts;
    if p < q {
      js', acts' := GoOn(js', acts', At(0, p), At(0, p), 0);
      js', acts' := GoOn(js', acts', At(0, p + 1), At(0, p), 1);
      js', acts' := LockStep(js', acts', p + 1, q);
    }
  }

  /** A run in which both "lost rpcs" and "lost writes" fire on the dumps of
      epoch 0 although nothing was lost: the receiver counted the message before its reset. */
  lemma EpochTotalsMayDiffer(flags: Flags, sync: bool) returns (js: seq<Job>, acts: seq<Action>)
    requires Guarded(flags)
    ensures Run(js, acts) && js[0].flags == flags && AllDumped(js[|acts|], 0)
    ensures var st, k := js[|acts|].stats, js[|acts|].n;
            && DumpTotal(st, k, 0, NMR) != DumpTotal(st, k, 0, NMS)
            && DumpTotal(st, k, 0, NLW) + DumpTotal(st, k, 0, NFW) != DumpTotal(st, k, 0, NW)
  {
    var n;
    js, acts, n := FastDump(flags, sync);
    EpochTotals(js, acts, |acts|, 0);
  }

  // ----- which barriers keep epochs apart -----

  /** On every rank, a write was executed after the flush of every earlier epoch and before the
      flush of its own and every later one. */
  ghost predicate Isolated(j: Job) {
    forall r: Rank, i: nat, k: nat ::
      r < |j.logs| && i < |j.logs[r]| && k < |j.logs[r]| && j.logs[r][i].Exec? && j.logs[r][k].Flushed?
      ==> (k < i <==> j.logs[r][k].e < j.logs[r][i].w.epoch)
  }

  ghost predicate AllIsolated(flags: Flags) {
    forall js: seq<Job>, acts: seq<Action>, n: nat ::
      Run(js, acts) && js[0].flags == flags && n < |js| ==> Isolated(js[n])
  }

  lemma Mixes(js: seq<Job>, acts: seq<Action>, i: nat, k: nat)
    requires Run(js, acts) && |js[|acts|].logs| == 2
    requires var log := js[|acts|].logs[1];
             && i < |log| && k < |log| && log[i].Exec? && log[k].Flushed?
             && (k < i) != (log[k].e < log[i].w.epoch)
    ensures !AllIsolated(js[0].flags)
  {
    assert !Isolated(js[|acts|]);
  }

  /** Rank 1 goes on alone up to its flush, while rank 0 is writing. */
  lemma {:induction false} Alone(js: seq<Job>, acts: seq<Action>, p: nat) returns (js': seq<Job>, acts': seq<Action>)
    requires Steps(js, acts) && p <= 9 && Calm(js[|acts|], At(0, 2), At(0, p), None)
    requires !js[0].flags.pre && !js[0].flags.main
    ensures Extends(js, acts, js', acts') && Calm(js'[|acts'|], At(0, 2), At(0, 9), None)
    ensures js'[|acts'|].at == js[|acts|].at
    decreases 9 - p
  {
    js', acts' := js, acts;
    if p < 9 {
      js', acts' := GoOn(js, acts, At(0, 2), At(0, p), 1);
      js', acts' := Alone(js', acts', p + 1);
    }
  }

  /** Without a barrier before the flush, a rank flushes epoch 0 and executes a write of it
      afterwards. */
  lemma MixesLate(flags: Flags, sync: bool)
    requires !flags.pre && !flags.main
    ensures !AllIsolated(flags)
  {
    var js, acts := FastOpen(flags, sync);
    js, acts := Alone(js, acts, 0);
    ghost var log := js[|acts|].logs[1];
    js, acts := GoOn(js, acts, At(0, 2), At(0, 9), 1);
    js, acts := Mails(js, acts, 0, At(0, 10));
    js, acts := Arrives(js, acts, 0, At(0, 10));
    assert js[|acts|].logs[1] == log + [Flushed(0)] + [Exec(W(0), 0, At(0, 10))];
    Mixes(js, acts, |log| + 1, |log|);
  }

  /** Rank 0 goes on alone from the end of the round to the writes of the next epoch. */
  lemma Ahead(js: seq<Job>, acts: seq<Action>) returns (js': seq<Job>, acts': seq<Action>)
    requires Steps(js, acts) && Calm(js[|acts|], At(0, 8), At(0, 8), None) && !js[0].flags.post
    ensures Extends(js, acts, js', acts') && Calm(js'[|acts'|], At(1, 2), At(0, 8), None)
    ensures js'[|acts'|].at == js[|acts|].at
  {
    js', acts' := GoOn(js, acts, At(0, 8), At(0, 8), 0);
    js', acts' := GoOn(js', acts', At(0, 9), At(0, 8), 0);
    js', acts' := GoOn(js', acts', At(0, 10), At(0, 8), 0);
    js', acts' := GoOn(js', acts', At(0, 11), At(0, 8), 0);
    js', acts' := GoOn(js', acts', At(1, 0), At(0, 8), 0);
    js', acts' := GoOn(js', acts', At(1, 1), At(0, 8), 0);
  }

  /** Rank 1 executes a write of epoch 1 before its flush of epoch 0. */
  lemma EarlyWrite(flags: Flags, sync: bool) returns (js: seq<Job>, acts: seq<Action>, log: seq<Event>)
    requires !flags.post
    ensures Run(js, acts) && js[0].flags == flags && Calm(js[|acts|], At(1, 2), At(0, 8), None)
    ensures js[|acts|].logs[1] == log && log != [] && log[|log| - 1] == Exec(W(1), 1, At(0, 8))
  {
    var j := TwoRanks(flags, sync);
    js, acts := LockStep([j], [], 0, 8);
    js, acts := Ahead(js, acts);
    js, acts := Mails(js, acts, 1, At(0, 8));
    js, acts := Arrives(js, acts, 1, At(0, 8));
    js, acts := Closes(js, acts, 1, At(0, 8));
    log := js[|acts|].logs[1];
  }

  /** Without the one after it, a rank executes a write of epoch 1 and flushes epoch 0
      afterwards. */
  lemma MixesEarly(flags: Flags, sync: bool)
    requires !flags.post
    ensures !AllIsolated(flags)
  {
    var js, acts, log := EarlyWrite(flags, sync);
    js, acts := GoOn(js, acts, At(1, 2), At(0, 8), 1);
    js, acts := GoOn(js, acts, At(1, 2), At(0, 9), 1);
    assert js[|acts|].logs[1] == log + [Flushed(0)];
    Mixes(js, acts, |log| - 1, |log|);
  }

  /** Which barriers are needed: every run keeps epochs apart if and only if a barrier before the
      epoch flush and the one after it are on. */
  lemma IsolationIff(flags: Flags)
    ensures AllIsolated(flags) <==> Guarded(flags)
  {
    if Guarded(flags) {
      forall js: seq<Job>, acts: seq<Action>, n: nat | Run(js, acts) && js[0].flags == flags && n < |js|
        ensures Isolated(js[n])
      {
        RunKeeps(js, acts, n);
        forall r: Rank, i: nat, k: nat |
          r < |js[n].logs| && i < |js[n].logs[r]| && k < |js[n].logs[r]| && js[n].logs[r][i].Exec?
          && js[n].logs[r][k].Flushed?
          ensures k < i <==> js[n].logs[r][k].e < js[n].logs[r][i].w.epoch
        {
          EpochIsolation(js, acts, n, r, i, k);
        }
      }
    } else if flags.post {
      MixesLate(flags, false);
    } else {
      MixesEarly(flags, false);
    }
  }
}
