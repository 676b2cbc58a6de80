/** What holds in every run of a job on the N-N shuffler. */
module NNRuns {
  import opened Messages
  import opened NNJobs
  import opened NNConservation
  import opened NNMonitor

  // ----- runs -----

  ghost predicate Counted(j: Job, s: Scope) {
    WritesCounted(j, s) && MessagesCounted(j, s)
  }

  /** What holds in every state of every job, whichever barriers are on. */
  ghost predicate Inv(j: Job) {
    JobInv(j) && Places(j) && Recorded(j) && forall s: Scope :: Counted(j, s)
  }

  /** What holds besides if the epoch flush is guarded by barriers. */
  ghost predicate GuardedInv(j: Job) {
    Inv(j) && EpochInv(j) && MonOk(j)
  }

  /** Before the first opendir on every rank. */
  ghost predicate Start(j: Job) {
    && Shape(j) && j.batches == [] && j.at == map[] && j.ep == map[]
    && j.stats.tally == map[] && j.stats.lost == map[]
    && (forall r: Rank :: r < j.n ==>
          j.pc[r] == At(0, 0) && j.logs[r] == [] && j.stats.cnt[r] == ZERO && j.stats.dumped[r] == [])
    && (forall k :: k in j.queues ==> j.queues[k].items == [])
  }

  ghost predicate Step(j: Job, a: Action, j': Job) {
    Enabled(j, a) && j' == Apply(j, a)
  }

  ghost predicate Steps(js: seq<Job>, acts: seq<Action>) {
    |js| == |acts| + 1 && forall i :: 0 <= i < |acts| ==> Step(js[i], acts[i], js[i + 1])
  }

  ghost predicate Run(js: seq<Job>, acts: seq<Action>) {
    Steps(js, acts) && Start(js[0])
  }

  lemma {:induction false} TotalZero(st: Stats, n: nat, s: Scope, f: Field)
    requires st.tally == map[] && forall r: Rank :: r < |st.cnt| ==> st.cnt[r] == ZERO
    ensures Total(st, n, s, f) == 0
  {
    if n > 0 {
      TotalZero(st, n - 1, s, f);
    }
  }

  lemma StartCounted(j: Job, s: Scope)
    requires Start(j)
    ensures Counted(j, s)
  {
    forall f ensures Total(j.stats, j.n, s, f) == 0 && Mail(j.batches, f, s) == {} {
      TotalZero(j.stats, j.n, s, f);
    }
    assert Ids(j.ep, s) == {} && DoneIds(j.at, j.ep, s) == {};
  }

  lemma StartInv(j: Job)
    requires Start(j)
    ensures Inv(j)
  {
    forall s: Scope ensures Counted(j, s) {
      StartCounted(j, s);
    }
    forall p ensures !Live(j, p) {}
  }

  lemma StartGuarded(j: Job)
    requires Start(j) && Guarded(j.flags)
    ensures GuardedInv(j)
  {
    StartInv(j);
  }

  lemma CountedStep(j: Job, a: Action, j': Job, s: Scope)
    requires Inv(j) && Step(j, a, j')
    ensures Counted(j', s)
  {
    assert Counted(j, s);
    WritesStep(j, a, s);
    MessagesStep(j, a, s);
  }

  lemma StepInv(j: Job, a: Action, j': Job)
    requires Inv(j) && Step(j, a, j')
    ensures Inv(j')
  {
    JobStep(j, a);
    PlacesStep(j, a);
    RecordedStep(j, a);
    forall s: Scope ensures Counted(j', s) {
      CountedStep(j, a, j', s);
    }
  }

  lemma StepGuarded(j: Job, a: Action, j': Job)
    requires GuardedInv(j) && Step(j, a, j')
    ensures GuardedInv(j')
  {
    StepInv(j, a, j');
    EpochStep(j, a);
    MonStep(j, a);
  }

  /** Whatever every step keeps holds along a run. */
  lemma {:induction false} Along(js: seq<Job>, acts: seq<Action>, i: nat, n: nat, p: Job -> bool)
    requires Steps(js, acts) && i <= n < |js| && p(js[i])
    requires forall j, a, j' :: p(j) && Step(j, a, j') ==> p(j')
    ensures p(js[n])
    decreases n
  {
    if i < n {
      Along(js, acts, i, n - 1, p);
      assert Step(js[n - 1], acts[n - 1], js[n]);
    }
  }

  lemma InvAlong(js: seq<Job>, acts: seq<Action>, n: nat)
    requires Steps(js, acts) && Inv(js[0]) && n < |js|
    ensures Inv(js[n])
  {
    forall j, a, j' | Inv(j) && Step(j, a, j') ensures Inv(j') {
      StepInv(j, a, j');
    }
    Along(js, acts, 0, n, Inv);
  }

  lemma RunKeeps(js: seq<Job>, acts: seq<Action>, n: nat)
    requires Run(js, acts) && n < |js|
    ensures Inv(js[n])
  {
    StartInv(js[0]);
    InvAlong(js, acts, n);
  }

  lemma GuardedAlong(js: seq<Job>, acts: seq<Action>, n: nat)
    requires Steps(js, acts) && GuardedInv(js[0]) && n < |js|
    ensures GuardedInv(js[n])
  {
    forall j, a, j' | GuardedInv(j) && Step(j, a, j') ensures GuardedInv(j') {
      StepGuarded(j, a, j');
    }
    Along(js, acts, 0, n, GuardedInv);
  }

  lemma RunGuarded(js: seq<Job>, acts: seq<Action>, n: nat)
    requires Run(js, acts) && Guarded(js[0].flags) && n < |js|
    ensures GuardedInv(js[n])
  {
    StartGuarded(js[0]);
    GuardedAlong(js, acts, n);
  }

  /** A rank never goes back. */
  lemma {:induction false} ReachKept(js: seq<Job>, acts: seq<Action>, i: nat, n: nat, r: Rank, e: nat, p: int)
    requires Steps(js, acts) && i <= n < |js| && r < |js[i].pc| && Reach(js[i].pc[r], e, p)
    ensures r < |js[n].pc| && Reach(js[n].pc[r], e, p)
    decreases n
  {
    if i < n {
      ReachKept(js, acts, i, n - 1, r, e, p);
      assert Step(js[n - 1], acts[n - 1], js[n]);
    }
  }

  // ----- epoch isolation -----

  lemma {:induction false} FlushCountGrows(log: seq<Event>, i: nat, k: nat)
    requires i <= k <= |log|
    ensures FlushCount(log[..i]) <= FlushCount(log[..k])
    ensures i < k && log[i].Flushed? ==> FlushCount(log[..i]) < FlushCount(log[..k])
    decreases k
  {
    if i < k {
      FlushCountGrows(log, i, k - 1);
      assert log[..k][..k - 1] == log[..k - 1];
    }
  }

  /** Epoch isolation.  On every rank, in every run with a barrier on either side of the epoch
      flush: a write is executed on its destination, under the epoch it was issued in, after the
      rank's flush of every earlier epoch and before its flush of that epoch and every later
      one. */
  lemma EpochIsolation(js: seq<Job>, acts: seq<Action>, n: nat, r: Rank, i: nat, k: nat)
    requires Run(js, acts) && Guarded(js[0].flags) && n < |js| && r < js[n].n && |js[n].logs| == js[n].n
    requires i < |js[n].logs[r]| && js[n].logs[r][i].Exec? && k < |js[n].logs[r]| && js[n].logs[r][k].Flushed?
    ensures var x, f := js[n].logs[r][i], js[n].logs[r][k];
            x.w.dst == r && x.epo == x.w.epoch && (k < i <==> f.e < x.w.epoch)
  {
    RunGuarded(js, acts, n);
    var log := js[n].logs[r];
    assert LogOk(log, r) && Timed(log) && EventOk(log, r, i) && EventOk(log, r, k);
    if k < i {
      FlushCountGrows(log, k, i);
    } else {
      FlushCountGrows(log, i, k);
    }
  }

  /** Whichever barriers are on: a write is executed on its destination and under the epoch it
      was issued in. */
  lemma OwnEpoch(js: seq<Job>, acts: seq<Action>, n: nat, r: Rank, i: nat)
    requires Run(js, acts) && n < |js| && r < js[n].n && |js[n].logs| == js[n].n
    requires i < |js[n].logs[r]| && js[n].logs[r][i].Exec?
    ensures js[n].logs[r][i].w.dst == r && js[n].logs[r][i].epo == js[n].logs[r][i].w.epoch
  {
    RunKeeps(js, acts, n);
    assert LogOk(js[n].logs[r], r) && EventOk(js[n].logs[r], r, i);
  }

  /** The flush of epoch e is the e-th flush of the rank, so every epoch is flushed once. */
  lemma FlushesInOrder(js: seq<Job>, acts: seq<Action>, n: nat, r: Rank, k: nat, m: nat)
    requires Run(js, acts) && n < |js| && r < js[n].n && |js[n].logs| == js[n].n
    requires k < m < |js[n].logs[r]| && js[n].logs[r][k].Flushed? && js[n].logs[r][m].Flushed?
    ensures js[n].logs[r][k].e < js[n].logs[r][m].e
  {
    RunKeeps(js, acts, n);
    var log := js[n].logs[r];
    assert LogOk(log, r) && EventOk(log, r, k) && EventOk(log, r, m);
    FlushCountGrows(log, k, m);
  }

  // ----- exactly once -----

  ghost predicate Kept(j: Job, w: Write) {
    w.id in j.at && Live(j, j.at[w.id]) && WriteAt(j, j.at[w.id]) == w
  }

  lemma KeptMoves(j: Job, j': Job, w: Write, x: Write, to: Place)
    requires Places(j) && Kept(j, w) && OneMoved(j, j', x, to) && (x.id == w.id ==> x == w)
    ensures Kept(j', w)
  {
    if x.id != w.id {
      assert Live(j', j.at[w.id]);
    }
  }

  lemma KeptExec(j: Job, b: nat, w: Write)
    requires Places(j) && Kept(j, w) && Enabled(j, ExecOne(b))
    ensures Kept(Apply(j, ExecOne(b)), w)
  {
    var x := j.batches[b];
    assert Live(j, InBatch(b, x.done)) && Placed(j, InBatch(b, x.done));
    ExecMoves(j, b);
    KeptMoves(j, Apply(j, ExecOne(b)), w, x.frames[x.done], Done(x.dst, |j.logs[x.dst]|));
  }

  lemma KeptSend(j: Job, r: Rank, d: Rank, w: Write)
    requires Kept(j, w) && Enabled(j, Send(r, d))
    ensures Kept(Apply(j, Send(r, d)), w)
  {
  }

  lemma KeptStill(j: Job, a: Action, w: Write)
    requires Kept(j, w) && Enabled(j, a) && (a.Next? || a.Receive? || a.Reply? || a.Close?)
    ensures Kept(Apply(j, a), w)
  {
    StillLive(j, a, j.at[w.id]);
  }

  lemma KeptStep(j: Job, a: Action, j': Job, w: Write)
    requires Places(j) && Step(j, a, j') && Kept(j, w)
    ensures Kept(j', w)
  {
    match a
    case Put(x) =>
      PutMoves(j, x);
      KeptMoves(j, j', w, x, InQueue(x.src, x.dst, |j.queues[(x.src, x.dst)].items|));
    case Local(x) =>
      LocalMoves(j, x);
      KeptMoves(j, j', w, x, Done(x.src, |j.logs[x.src]|));
    case ExecOne(b) => KeptExec(j, b, w);
    case Send(r, d) => KeptSend(j, r, d, w);
    case Next(r) => KeptStill(j, a, w);
    case Receive(b) => KeptStill(j, a, w);
    case Reply(b) => KeptStill(j, a, w);
    case Close(b) => KeptStill(j, a, w);
  }

  /** The action issues that write. */
  predicate Issues(a: Action, w: Write) {
    a == Put(w) || a == Local(w)
  }

  lemma IssuedKept(j: Job, a: Action, j': Job, w: Write)
    requires Places(j) && Step(j, a, j') && Issues(a, w)
    ensures Kept(j', w)
  {
    if a.Put? {
      PutMoves(j, w);
    } else {
      LocalMoves(j, w);
    }
  }

  lemma KeptAlong(js: seq<Job>, acts: seq<Action>, i: nat, n: nat, w: Write)
    requires Steps(js, acts) && i <= n < |js| && Inv(js[i]) && Kept(js[i], w)
    ensures Kept(js[n], w)
  {
    forall j, a, j' | Inv(j) && Kept(j, w) && Step(j, a, j') ensures Inv(j') && Kept(j', w) {
      StepInv(j, a, j');
      KeptStep(j, a, j', w);
    }
    Along(js, acts, i, n, j => Inv(j) && Kept(j, w));
  }

  /** The write is executed at place i of its destination's log, under its own epoch, and
      nowhere else. */
  ghost predicate ExecutedOnce(j: Job, w: Write) {
    && w.dst < |j.logs|
    && (exists i: nat :: i < |j.logs[w.dst]| && j.logs[w.dst][i].Exec? && j.logs[w.dst][i].w == w
                         && j.logs[w.dst][i].epo == w.epoch)
    && (forall p, q :: Executes(j, p, w.id) && Executes(j, q, w.id) ==> p == q)
  }

  predicate Executes(j: Job, p: Place, id: nat) {
    p.Done? && Live(j, p) && WriteAt(j, p).id == id
  }

  /** A write that was not executed yet: its sender is still in the epoch it belongs to. */
  lemma NotYetDone(j: Job, p: Place)
    requires JobInv(j) && Live(j, p) && !p.Done?
    ensures var w := WriteAt(j, p); w.src < j.n && j.pc[w.src].epoch == w.epoch && 2 <= j.pc[w.src].ph <= 4
  {
    if p.InQueue? {
      assert QueueOk(j.queues[(p.src, p.dst)], p.src, p.dst, j.pc[p.src]);
    } else {
      assert BatchOk(j.batches[p.b], j.pc, j.sync);
    }
  }

  lemma DoneBy(j: Job, w: Write)
    requires Inv(j) && Kept(j, w) && w.src < j.n && Reach(j.pc[w.src], w.epoch, 5)
    ensures ExecutedOnce(j, w)
  {
    var p := j.at[w.id];
    if !p.Done? {
      NotYetDone(j, p);
    }
    assert p.Done?;
    assert LogOk(j.logs[p.r], p.r) && EventOk(j.logs[p.r], p.r, p.i);
    forall p, q | Executes(j, p, w.id) && Executes(j, q, w.id) ensures p == q {
      assert Placed(j, p) && Placed(j, q);
    }
  }

  /** Exactly-once N-N shuffle: a write issued at moment i has been executed exactly once, on
      its destination and under its epoch, at every moment n at which its sender has finished
      flushq and waitcb. */
  lemma ExactlyOnce(js: seq<Job>, acts: seq<Action>, i: nat, n: nat, w: Write)
    requires Run(js, acts) && i < n < |js| && Issues(acts[i], w)
    requires w.src < js[n].n && |js[n].pc| == js[n].n && Reach(js[n].pc[w.src], w.epoch, 5)
    ensures ExecutedOnce(js[n], w)
  {
    RunKeeps(js, acts, i);
    RunKeeps(js, acts, i + 1);
    RunKeeps(js, acts, n);
    IssuedKept(js[i], acts[i], js[i + 1], w);
    KeptAlong(js, acts, i + 1, n, w);
    DoneBy(js[n], w);
  }

  // ----- totals -----

  /** Every rank has finished waitcb of that epoch; or, for all epochs, none is between the
      start of its writes and the end of waitcb. */
  ghost predicate Finished(j: Job, s: Scope) {
    forall r: nat :: r < |j.pc| ==>
      if s.Some? then Reach(j.pc[r], s.value, 5) else j.pc[r].ph < 2 || j.pc[r].ph >= 5
  }

  lemma FinishedDone(j: Job, s: Scope)
    requires Inv(j) && Finished(j, s)
    ensures DoneIds(j.at, j.ep, s) == Ids(j.ep, s)
    ensures Mail(j.batches, NMR, s) == Mail(j.batches, NMD, s) == Mail(j.batches, NMS, s)
  {
    forall b: nat | b < |j.batches| && InScope(j.batches[b].epo, s) ensures j.batches[b].stage.Closed? {
      assert BatchOk(j.batches[b], j.pc, j.sync);
    }
    forall id | id in j.ep && InScope(j.ep[id], s) ensures id in j.at && j.at[id].Done? {
      assert Live(j, j.at[id]);
      if !j.at[id].Done? {
        NotYetDone(j, j.at[id]);
      }
    }
  }

  /** No write, no message and no reply is lost, in one epoch or in all, by counters that are
      never cleared. */
  lemma FinishedTotals(j: Job, s: Scope)
    requires Inv(j) && Finished(j, s)
    ensures Total(j.stats, j.n, s, NLW) + Total(j.stats, j.n, s, NFW) == Total(j.stats, j.n, s, NW)
    ensures Total(j.stats, j.n, s, NMS) == Total(j.stats, j.n, s, NMD) == Total(j.stats, j.n, s, NMR)
  {
    FinishedDone(j, s);
    assert Counted(j, s);
  }

  /** Counted from the start of the job: whenever no rank is between the start of its writes
      and the end of waitcb, nothing is lost. */
  lemma NothingLost(js: seq<Job>, acts: seq<Action>, n: nat)
    requires Run(js, acts) && n < |js| && Finished(js[n], None)
    ensures var st, k := js[n].stats, js[n].n;
            && Total(st, k, None, NLW) + Total(st, k, None, NFW) == Total(st, k, None, NW)
            && Total(st, k, None, NMS) == Total(st, k, None, NMD) == Total(st, k, None, NMR)
  {
    RunKeeps(js, acts, n);
    FinishedTotals(js[n], None);
  }

  /** Writes of these actions that a rank executes for itself. */
  function Locals(acts: seq<Action>, s: Scope): nat {
    if acts == [] then 0
    else
      var a := acts[|acts| - 1];
      Locals(acts[..|acts| - 1], s) + One(a.Local? && InScope(a.w.epoch, s))
  }

  lemma LocalsSnoc(acts: seq<Action>, n: nat, s: Scope)
    requires n < |acts|
    ensures Locals(acts[..n + 1], s) == Locals(acts[..n], s) + One(acts[n].Local? && InScope(acts[n].w.epoch, s))
  {
    assert acts[..n + 1][..n] == acts[..n];
  }

  ghost predicate SplitUp(j: Job, own: nat, s: Scope) {
    Total(j.stats, j.n, s, NLW) == own && Total(j.stats, j.n, s, NFW) == FromMail(j.batches, s)
  }

  lemma SplitNext(j: Job, a: Action, j': Job, own: nat, s: Scope)
    requires SplitUp(j, own, s) && Step(j, a, j')
    ensures SplitUp(j', own + One(a.Local? && InScope(a.w.epoch, s)), s)
  {
    SplitStep(j, a, s);
  }

  /** In every run, of one epoch and of all: nlw is the number of writes that ranks issued for
      themselves, and nfw the number of writes executed out of messages. */
  lemma {:induction false} OwnAndForeign(js: seq<Job>, acts: seq<Action>, n: nat, s: Scope)
    requires Run(js, acts) && n < |js|
    ensures Total(js[n].stats, js[n].n, s, NLW) == Locals(acts[..n], s)
    ensures Total(js[n].stats, js[n].n, s, NFW) == FromMail(js[n].batches, s)
  {
    if n == 0 {
      TotalZero(js[0].stats, js[0].n, s, NLW);
      TotalZero(js[0].stats, js[0].n, s, NFW);
    } else {
      OwnAndForeign(js, acts, n - 1, s);
      assert Step(js[n - 1], acts[n - 1], js[n]);
      SplitNext(js[n - 1], acts[n - 1], js[n], Locals(acts[..n - 1], s), s);
      LocalsSnoc(acts, n - 1, s);
    }
  }

  // ----- the totals of one epoch, as dumped -----

  ghost predicate AllDumped(j: Job, e: nat) {
    |j.pc| == |j.stats.dumped| == j.n && forall r: nat :: r < j.n ==> Reach(j.pc[r], e, 11) && e < |j.stats.dumped[r]|
  }

  /** What mon_reduce adds up for epoch `e`. */
  ghost function DumpTotal(st: Stats, n: nat, e: nat, f: Field): nat
    requires n <= |st.dumped| && forall r: nat :: r < n ==> e < |st.dumped[r]|
  {
    if n == 0 then 0 else DumpTotal(st, n - 1, e, f) + Get(st.dumped[n - 1][e], f)
  }

  function LostTotal(st: Stats, n: nat, e: nat, f: Field): nat {
    if n == 0 then 0 else LostTotal(st, n - 1, e, f) + Get(Entry(st.lost, n - 1, e), f)
  }

  lemma {:induction false} DumpSplits(j: Job, n: nat, e: nat, f: Field)
    requires Shape(j) && MonOk(j) && n <= j.n && AllDumped(j, e)
    ensures DumpTotal(j.stats, n, e, f) + LostTotal(j.stats, n, e, f) == Total(j.stats, n, Some(e), f)
  {
    if n > 0 {
      DumpSplits(j, n - 1, e, f);
      assert RankOk(j.stats, n - 1, j.pc[n - 1]);
      assert Balanced(j.stats.dumped[n - 1][e], j.stats, n - 1, e);
    }
  }

  lemma {:induction false} LostOwn(j: Job, n: nat, e: nat, f: Field)
    requires Shape(j) && MonOk(j) && n <= j.n && !FromPeer(f)
    ensures LostTotal(j.stats, n, e, f) == 0
  {
    if n > 0 {
      LostOwn(j, n - 1, e, f);
      assert RankOk(j.stats, n - 1, j.pc[n - 1]);
    }
  }

  lemma {:induction false} LostCount(st: Stats, n: nat, a: At, r: Rank, e: nat, f: Field, x: nat, g: Field)
    requires r < |st.mon| && r < |st.cnt|
    ensures LostTotal(Count(st, a, r, e, f), n, x, g)
         == LostTotal(st, n, x, g) + One(r < n && g == f && e == x && !Reach(a, e, 2))
  {
    if n > 0 {
      LostCount(st, n - 1, a, r, e, f, x, g);
    }
  }

  lemma {:induction false} LostMoved(st: Stats, n: nat, ph: Phase, r: Rank, x: nat, g: Field)
    requires r < |st.mon| && r < |st.dumped|
    ensures LostTotal(Moved(st, ph, r), n, x, g) == LostTotal(st, n, x, g)
  {
    if n > 0 {
      LostMoved(st, n - 1, ph, r, x, g);
    }
  }

  /** A rank receives (field NMR) or executes part of (field NFW) a message of epoch `e` before
      its own reset for that epoch. */
  ghost predicate BeforeReset(j: Job, a: Action, e: nat, f: Field) {
    && Enabled(j, a)
    && ((a.Receive? && f.NMR?) || (a.ExecOne? && f.NFW?))
    && j.batches[a.b].epo == e && !Reach(j.pc[j.batches[a.b].dst], e, 2)
  }

  /** One event was counted. */
  lemma LostTick(j: Job, j': Job, r: Rank, x: nat, g: Field, e: nat, f: Field)
    requires Shape(j) && r < j.n && j'.n == j.n && j'.stats == Count(j.stats, j.pc[r], r, x, g)
    ensures LostTotal(j'.stats, j'.n, e, f)
            == LostTotal(j.stats, j.n, e, f) + One(f == g && x == e && !Reach(j.pc[r], e, 2))
  {
    LostCount(j.stats, j.n, j.pc[r], r, x, g, e, f);
  }

  lemma LostLocal(j: Job, w: Write, e: nat, f: Field)
    requires Enabled(j, Local(w)) && FromPeer(f)
    ensures LostTotal(Apply(j, Local(w)).stats, j.n, e, f) == LostTotal(j.stats, j.n, e, f)
  {
    LostCount(j.stats, j.n, j.pc[w.src], w.src, w.epoch, NW, e, f);
    LostCount(Count(j.stats, j.pc[w.src], w.src, w.epoch, NW), j.n, j.pc[w.src], w.src, w.epoch, NLW, e, f);
  }

  lemma LostMail(j: Job, a: Action, j': Job, e: nat, f: Field)
    requires Step(j, a, j') && FromPeer(f) && (a.Receive? || a.ExecOne?)
    ensures LostTotal(j'.stats, j'.n, e, f) == LostTotal(j.stats, j.n, e, f) + One(BeforeReset(j, a, e, f))
  {
    LostTick(j, j', j.batches[a.b].dst, j.batches[a.b].epo, if a.Receive? then NMR else NFW, e, f);
  }

  lemma LostStep(j: Job, a: Action, j': Job, e: nat, f: Field)
    requires Step(j, a, j') && FromPeer(f)
    ensures LostTotal(j'.stats, j'.n, e, f) == LostTotal(j.stats, j.n, e, f) + One(BeforeReset(j, a, e, f))
  {
    match a
    case Put(w) => LostTick(j, j', w.src, w.epoch, NW, e, f);
    case Local(w) => LostLocal(j, w, e, f);
    case Send(r, d) => LostTick(j, j', r, j.queues[(r, d)].lepo, NMS, e, f);
    case Next(r) => LostMoved(j.stats, j.n, j.pc[r].ph, r, e, f);
    case Receive(b) => LostMail(j, a, j', e, f);
    case ExecOne(b) => LostMail(j, a, j', e, f);
    case Reply(b) =>
    case Close(b) => LostTick(j, j', j.batches[b].src, j.batches[b].epo, NMD, e, f);
  }

  /** Nothing of epoch `e` came before a reset up to moment `n`. */
  ghost predicate NoneEarly(js: seq<Job>, acts: seq<Action>, n: nat, e: nat, f: Field)
    requires |js| == |acts| + 1 && n <= |acts|
  {
    forall i: nat :: i < n ==> !BeforeReset(js[i], acts[i], e, f)
  }

  lemma {:induction false} LostZero(st: Stats, n: nat, e: nat, f: Field)
    requires st.lost == map[]
    ensures LostTotal(st, n, e, f) == 0
  {
    if n > 0 {
      LostZero(st, n - 1, e, f);
    }
  }

  lemma LostNext(js: seq<Job>, acts: seq<Action>, n: nat, e: nat, f: Field)
    requires Run(js, acts) && n < |acts| && FromPeer(f)
    ensures LostTotal(js[n + 1].stats, js[n + 1].n, e, f)
         == LostTotal(js[n].stats, js[n].n, e, f) + One(BeforeReset(js[n], acts[n], e, f))
  {
    LostStep(js[n], acts[n], js[n + 1], e, f);
  }

  lemma {:induction false} LostIffEarly(js: seq<Job>, acts: seq<Action>, n: nat, e: nat, f: Field)
    requires Run(js, acts) && n <= |acts| && FromPeer(f)
    ensures LostTotal(js[n].stats, js[n].n, e, f) == 0 <==> NoneEarly(js, acts, n, e, f)
  {
    if n == 0 {
      LostZero(js[0].stats, js[0].n, e, f);
    } else {
      LostIffEarly(js, acts, n - 1, e, f);
      LostNext(js, acts, n - 1, e, f);
    }
  }

  lemma DumpedBy(j: Job, e: nat)
    requires GuardedInv(j) && forall r: nat :: r < j.n ==> Reach(j.pc[r], e, 11)
    ensures AllDumped(j, e) && Finished(j, Some(e))
  {
    forall r: nat | r < j.n ensures e < |j.stats.dumped[r]| {
      assert RankOk(j.stats, r, j.pc[r]);
    }
  }

  lemma EpochDumps(j: Job, e: nat)
    requires GuardedInv(j) && AllDumped(j, e) && Finished(j, Some(e))
    ensures DumpTotal(j.stats, j.n, e, NMS) == DumpTotal(j.stats, j.n, e, NMD)
    ensures DumpTotal(j.stats, j.n, e, NMR) + LostTotal(j.stats, j.n, e, NMR) == DumpTotal(j.stats, j.n, e, NMS)
    ensures DumpTotal(j.stats, j.n, e, NLW) + DumpTotal(j.stats, j.n, e, NFW) + LostTotal(j.stats, j.n, e, NFW)
         == DumpTotal(j.stats, j.n, e, NW)
  {
    FinishedTotals(j, Some(e));
    forall f ensures DumpTotal(j.stats, j.n, e, f) + LostTotal(j.stats, j.n, e, f) == Total(j.stats, j.n, Some(e), f)
             ensures !FromPeer(f) ==> LostTotal(j.stats, j.n, e, f) == 0 {
      DumpSplits(j, j.n, e, f);
      if !FromPeer(f) {
        LostOwn(j, j.n, e, f);
      }
    }
  }

  /** The checks "lost writes", "lost rpc replies" and "lost rpcs" on the dumps of one epoch.
      Once every rank has dumped epoch e: replies never get lost; "lost rpcs" stays silent if
      and only if no rank received a message of the epoch before its own reset for it, and
      "lost writes" if and only if no rank executed one before its reset. */
  lemma EpochTotals(js: seq<Job>, acts: seq<Action>, n: nat, e: nat)
    requires Run(js, acts) && Guarded(js[0].flags) && n < |js| && |js[n].pc| == js[n].n
             && forall r: nat :: r < js[n].n ==> Reach(js[n].pc[r], e, 11)
    ensures AllDumped(js[n], e)
    ensures var st, k := js[n].stats, js[n].n;
            && DumpTotal(st, k, e, NMS) == DumpTotal(st, k, e, NMD)
            && (DumpTotal(st, k, e, NMR) == DumpTotal(st, k, e, NMS) <==> NoneEarly(js, acts, n, e, NMR))
            && (DumpTotal(st, k, e, NLW) + DumpTotal(st, k, e, NFW) == DumpTotal(st, k, e, NW)
                <==> NoneEarly(js, acts, n, e, NFW))
  {
    RunGuarded(js, acts, n);
    DumpedBy(js[n], e);
    EpochDumps(js[n], e);
    LostIffEarly(js, acts, n, e, NMR);
    LostIffEarly(js, acts, n, e, NFW);
  }

  // ----- progress -----

  lemma {:induction false} FindSlowest(pc: seq<At>) returns (r: nat)
    requires pc != []
    ensures r < |pc| && forall q: nat :: q < |pc| ==> Reach(pc[q], pc[r].epoch, pc[r].ph)
  {
    r := 0;
    var n := |pc| - 1;
    if n > 0 {
      r := FindSlowest(pc[..n]);
      assert forall q: nat :: q < n ==> pc[..n][q] == pc[q];
      if !Reach(pc[n], pc[r].epoch, pc[r].ph) {
        r := n;
      }
    }
  }

  /** A step that issues no write. */
  ghost predicate CanGoOn(j: Job) {
    exists a: Action :: !a.Put? && !a.Local? && Enabled(j, a)
  }

  /** What a message does next. */
  function MailStep(x: Batch, b: nat): Action {
    match x.stage
    case Flying => Receive(b)
    case Open => if x.done < |x.frames| then ExecOne(b) else Reply(b)
    case Replied => Close(b)
    case Closed => Close(b)
  }

  lemma BatchGoesOn(j: Job, b: nat)
    requires Shape(j) && BatchesOk(j) && b < |j.batches| && !j.batches[b].stage.Closed?
    ensures Enabled(j, MailStep(j.batches[b], b)) && CanGoOn(j)
  {
    assert BatchOk(j.batches[b], j.pc, j.sync);
    var a := MailStep(j.batches[b], b);
    assert !a.Put? && !a.Local? && Enabled(j, a);
  }

  /** No deadlock: in every reachable state some rank can go on with its epoch, or some
      message can be sent, handled, answered or closed. */
  lemma NeverDeadlocks(js: seq<Job>, acts: seq<Action>, n: nat)
    requires Run(js, acts) && n < |js| && js[n].n > 0
    ensures CanGoOn(js[n])
  {
    RunKeeps(js, acts, n);
    var j := js[n];
    var r := FindSlowest(j.pc);
    if b: nat :| b < |j.batches| && !j.batches[b].stage.Closed? {
      BatchGoesOn(j, b);
    } else if d: Rank :| d < j.n && j.pc[r].ph == 3 && j.queues[(r, d)].items != [] {
      assert Enabled(j, Send(r, d));
    } else {
      assert Enabled(j, Next(r));
    }
  }
}
