/** The "bad epoch num" check on the N-N shuffler: what a receiver that is slow to open an epoch,
    or ahead of it, does to a write. */
module NNSkew {
  import opened Messages
  import opened NNJobs
  import opened NNConservation
  import opened NNRuns
  import opened NNProgress

  // ----- the check, when a write is executed -----

  /** The "bad epoch num" check on a message: the epoch it carries against the executing
      rank's num_epochs - 1. */
  ghost predicate CheckPasses(j: Job, b: nat)
    requires b < |j.batches| && j.batches[b].dst < |j.pc|
  {
    j.batches[b].epo == NumEpochs(j.pc[j.batches[b].dst]) - 1
  }

  /** The action executes write `w`. */
  ghost predicate ExecutesWrite(j: Job, a: Action, w: Write) {
    a.ExecOne? && Enabled(j, a) && j.batches[a.b].frames[j.batches[a.b].done] == w
  }

  /** Some barrier is on. */
  predicate AnyBarrier(f: Flags) {
    f.pre || f.main || f.post
  }

  /** While a sender is in an epoch up to the end of waitcb, nobody has made the num_epochs++ of
      the next one: any one barrier sees to that, and a sender never outruns itself. */
  lemma NotAhead(f: Flags, pc: seq<At>, s: nat, r: nat)
    requires Barriers(f, pc) && s < |pc| && r < |pc| && 2 <= pc[s].ph <= 4 && (AnyBarrier(f) || r == s)
    ensures NumEpochs(pc[r]) <= pc[s].epoch + 1
  {
    var e := pc[s].epoch;
    assert f.pre && Reach(pc[r], e, 6) ==> Reach(pc[s], e, 5);
    assert f.main && Reach(pc[r], e, 8) ==> Reach(pc[s], e, 7);
    assert f.post && Reach(pc[r], e, 12) ==> Reach(pc[s], e, 11);
  }

  lemma CheckAt(j: Job, b: nat)
    requires Inv(j) && Enabled(j, ExecOne(b)) && (AnyBarrier(j.flags) || j.batches[b].dst == j.batches[b].src)
    ensures CheckPasses(j, b) <==> Reach(j.pc[j.batches[b].dst], j.batches[b].epo, 1)
  {
    var x := j.batches[b];
    assert BatchOk(x, j.pc, j.sync);
    NotAhead(j.flags, j.pc, x.src, x.dst);
  }

  // ----- the check, when a write is issued -----

  /** Whatever happens after `w` is put into its queue, the check passes when it is executed. */
  ghost predicate AlwaysPasses(j: Job, w: Write) {
    forall js: seq<Job>, acts: seq<Action>, n: nat ::
      Steps(js, acts) && n < |acts| && js[0] == j && acts[0] == Put(w) && ExecutesWrite(js[n], acts[n], w)
      ==> CheckPasses(js[n], acts[n].b)
  }

  /** If the receiver has opened the epoch when the write is issued, and cannot run ahead. */
  lemma OpenPasses(js: seq<Job>, acts: seq<Action>, n: nat, w: Write)
    requires Steps(js, acts) && Inv(js[0]) && n < |acts| && ExecutesWrite(js[n], acts[n], w)
    requires w.dst < |js[0].pc| && Reach(js[0].pc[w.dst], w.epoch, 1)
    requires AnyBarrier(js[0].flags) || w.dst == w.src
    ensures CheckPasses(js[n], acts[n].b)
  {
    InvAlong(js, acts, n);
    ReachKept(js, acts, 0, n, w.dst, w.epoch, 1);
    FlagsKept(js, acts, n);
    assert BatchOk(js[n].batches[acts[n].b], js[n].pc, js[n].sync);
    CheckAt(js[n], acts[n].b);
  }

  lemma FlagsKept(js: seq<Job>, acts: seq<Action>, n: nat)
    requires Steps(js, acts) && n < |js|
    ensures js[n].flags == js[0].flags
  {
    Along(js, acts, 0, n, (j: Job) => j.flags == js[0].flags);
  }

  /** The second run goes on from the first. */
  ghost predicate Extends(js: seq<Job>, acts: seq<Action>, js': seq<Job>, acts': seq<Action>) {
    Steps(js, acts) && Steps(js', acts') && js <= js' && acts <= acts'
  }

  lemma Snoc(js: seq<Job>, acts: seq<Action>, a: Action)
    requires Steps(js, acts) && Enabled(js[|acts|], a)
    ensures Extends(js, acts, js + [Apply(js[|acts|], a)], acts + [a])
  {
    var js', acts' := js + [Apply(js[|acts|], a)], acts + [a];
    forall i | 0 <= i < |acts'| ensures Step(js'[i], acts'[i], js'[i + 1]) {
      if i < |acts| {
        assert Step(js[i], acts[i], js[i + 1]);
      }
    }
  }

  /** Batch `b` is being executed at `k`; its frames, epoch and receiver are as given. */
  ghost predicate Executing(j: Job, b: nat, k: nat, pc: seq<At>, dst: Rank, epo: nat, frames: seq<Write>) {
    && Shape(j) && b < |j.batches| && j.pc == pc && dst < j.n && k <= |frames|
    && j.batches[b].stage.Open? && j.batches[b].done == k && j.batches[b].frames == frames
    && j.batches[b].dst == dst && j.batches[b].epo == epo
  }

  lemma ExecutesNext(j: Job, b: nat, k: nat, pc: seq<At>, dst: Rank, epo: nat, frames: seq<Write>)
    requires Executing(j, b, k, pc, dst, epo, frames) && k < |frames|
    ensures Enabled(j, ExecOne(b)) && Executing(Apply(j, ExecOne(b)), b, k + 1, pc, dst, epo, frames)
  {
    ShapeStep(j, ExecOne(b));
  }

  /** Executing on, up to frame `k`. */
  lemma {:induction false} ExecuteUpTo(
      js: seq<Job>, acts: seq<Action>, b: nat, d: nat, k: nat, pc: seq<At>, dst: Rank, epo: nat, frames: seq<Write>)
      returns (js': seq<Job>, acts': seq<Action>)
    requires Steps(js, acts) && d <= k <= |frames| && Executing(js[|acts|], b, d, pc, dst, epo, frames)
    ensures Extends(js, acts, js', acts') && Executing(js'[|acts'|], b, k, pc, dst, epo, frames)
    decreases k - d
  {
    js', acts' := js, acts;
    if d < k {
      ExecutesNext(js[|acts|], b, d, pc, dst, epo, frames);
      Snoc(js, acts, ExecOne(b));
      js', acts' := ExecuteUpTo(js + [Apply(js[|acts|], ExecOne(b))], acts + [ExecOne(b)], b, d + 1, k, pc, dst, epo,
          frames);
    }
  }

  lemma PutEffect(j: Job, w: Write, j1: Job)
    requires Enabled(j, Put(w)) && j1 == Apply(j, Put(w))
    ensures Shape(j1) && j1.pc == j.pc && j1.n == j.n && j1.batches == j.batches
    ensures j1.queues[(w.src, w.dst)] == Queue(j.queues[(w.src, w.dst)].items + [w], w.epoch)
  {
    ShapeStep(j, Put(w));
  }

  lemma SendEffect(j: Job, r: Rank, d: Rank, j1: Job)
    requires Enabled(j, Send(r, d)) && j1 == Apply(j, Send(r, d))
    ensures Shape(j1) && j1.pc == j.pc && j1.n == j.n
    ensures j1.queues == j.queues[(r, d) := Queue([], j.queues[(r, d)].lepo)]
    ensures j1.batches == j.batches + [Batch(r, d, j.queues[(r, d)].lepo, j.queues[(r, d)].items, 0, Flying)]
  {
    ShapeStep(j, Send(r, d));
  }

  lemma ReceiveEffect(j: Job, b: nat, j1: Job)
    requires Enabled(j, Receive(b)) && j1 == Apply(j, Receive(b)) && j.batches[b].done == 0
    ensures Executing(j1, b, 0, j.pc, j.batches[b].dst, j.batches[b].epo, j.batches[b].frames)
  {
    ShapeStep(j, Receive(b));
  }

  /** `w` is the last write in its queue, and its sender is still writing. */
  ghost predicate Holding(j: Job, w: Write) {
    && Inv(j) && w.src < j.n && w.dst < j.n && j.pc[w.src] == At(w.epoch, 2)
    && j.queues[(w.src, w.dst)].items != [] && Last(j.queues[(w.src, w.dst)].items) == w
  }

  function Last(s: seq<Write>): Write
    requires s != []
  {
    s[|s| - 1]
  }

  lemma HoldsPut(j: Job, w: Write)
    requires Inv(j) && Enabled(j, Put(w))
    ensures Holding(Apply(j, Put(w)), w)
  {
    StepInv(j, Put(w), Apply(j, Put(w)));
    PutEffect(j, w, Apply(j, Put(w)));
  }

  /** The queue is sent, and the message is received at once. */
  lemma Delivers(js: seq<Job>, acts: seq<Action>, w: Write) returns (js': seq<Job>, acts': seq<Action>)
    requires Steps(js, acts) && Holding(js[|acts|], w)
    ensures Extends(js, acts, js', acts')
    ensures var j := js[|acts|];
            Executing(js'[|acts'|], |j.batches|, 0, j.pc, w.dst, w.epoch, j.queues[(w.src, w.dst)].items)
  {
    var j := js[|acts|];
    assert QueueOk(j.queues[(w.src, w.dst)], w.src, w.dst, j.pc[w.src]);
    var j1 := Apply(j, Send(w.src, w.dst));
    Snoc(js, acts, Send(w.src, w.dst));
    SendEffect(j, w.src, w.dst, j1);
    js', acts' := js + [j1], acts + [Send(w.src, w.dst)];
    Snoc(js', acts', Receive(|j.batches|));
    ReceiveEffect(j1, |j.batches|, Apply(j1, Receive(|j.batches|)));
    js', acts' := js' + [Apply(j1, Receive(|j.batches|))], acts' + [Receive(|j.batches|)];
  }

  lemma NotAlways(js: seq<Job>, acts: seq<Action>, n: nat, w: Write)
    requires Steps(js, acts) && n < |acts| && acts[0] == Put(w) && ExecutesWrite(js[n], acts[n], w)
    requires !CheckPasses(js[n], acts[n].b)
    ensures !AlwaysPasses(js[0], w)
  {
  }

  lemma FailsAt(js: seq<Job>, acts: seq<Action>, w: Write, b: nat)
    requires Steps(js, acts) && acts != [] && acts[0] == Put(w) && ExecutesWrite(js[|acts|], ExecOne(b), w)
    requires !CheckPasses(js[|acts|], b)
    ensures !AlwaysPasses(js[0], w)
  {
    var n := |acts|;
    Snoc(js, acts, ExecOne(b));
    var js', acts' := js + [Apply(js[n], ExecOne(b))], acts + [ExecOne(b)];
    assert js'[0] == js[0] && acts'[0] == Put(w) && js'[n] == js[n] && acts'[n] == ExecOne(b);
    NotAlways(js', acts', n, w);
  }

  /** With the receiver at another epoch, there is a continuation in which the check fails on a
      write that is still queued: the message gets there first. */
  lemma OffFails(js: seq<Job>, acts: seq<Action>, w: Write)
    requires Steps(js, acts) && acts != [] && acts[0] == Put(w) && Holding(js[|acts|], w)
    requires NumEpochs(js[|acts|].pc[w.dst]) != w.epoch + 1
    ensures !AlwaysPasses(js[0], w)
  {
    var j := js[|acts|];
    var b, frames := |j.batches|, j.queues[(w.src, w.dst)].items;
    var js', acts' := Delivers(js, acts, w);
    js', acts' := ExecuteUpTo(js', acts', b, 0, |frames| - 1, j.pc, w.dst, w.epoch, frames);
    ExecutesNext(js'[|acts'|], b, |frames| - 1, j.pc, w.dst, w.epoch, frames);
    assert js'[0] == js[0] && acts'[0] == acts[0];
    FailsAt(js', acts', w, b);
  }

  /** If the receiver is not in the epoch yet, or no longer. */
  lemma SlowFails(j: Job, w: Write)
    requires Inv(j) && Enabled(j, Put(w)) && NumEpochs(j.pc[w.dst]) != w.epoch + 1
    ensures !AlwaysPasses(j, w)
  {
    HoldsPut(j, w);
    Snoc([j], [], Put(w));
    OffFails([j] + [Apply(j, Put(w))], [] + [Put(w)], w);
  }

  // ----- without any barrier a receiver can run ahead -----

  /** Nothing that concerns ranks' positions or the write's queue has changed. */
  ghost predicate Waits(j: Job, j': Job, w: Write) {
    Holding(j, w) && Holding(j', w) && j'.pc == j.pc && j'.n == j.n && j'.flags == j.flags
  }

  /** One queue of rank `d` is sent. */
  lemma SendOwn(js: seq<Job>, acts: seq<Action>, d: Rank, x: Rank, w: Write)
      returns (js': seq<Job>, acts': seq<Action>)
    requires Steps(js, acts) && Holding(js[|acts|], w) && d < js[|acts|].n && x < js[|acts|].n && d != w.src
    requires js[|acts|].pc[d].ph == 3
    ensures Extends(js, acts, js', acts') && Waits(js[|acts|], js'[|acts'|], w)
    ensures var j, j' := js[|acts|], js'[|acts'|];
            j'.queues[(d, x)].items == [] && forall y: Rank :: y < j.n && y != x ==>
              j'.queues[(d, y)] == j.queues[(d, y)]
  {
    var j := js[|acts|];
    js', acts' := js, acts;
    if j.queues[(d, x)].items != [] {
      Snoc(js, acts, Send(d, x));
      StepInv(j, Send(d, x), Apply(j, Send(d, x)));
      SendEffect(j, d, x, Apply(j, Send(d, x)));
      js', acts' := js + [Apply(j, Send(d, x))], acts + [Send(d, x)];
    }
  }

  /** All its queues from `x` on are sent. */
  lemma {:induction false} SendAll(js: seq<Job>, acts: seq<Action>, d: Rank, x: Rank, w: Write)
      returns (js': seq<Job>, acts': seq<Action>)
    requires Steps(js, acts) && Holding(js[|acts|], w) && d < js[|acts|].n && x <= js[|acts|].n && d != w.src
    requires js[|acts|].pc[d].ph == 3 && forall y: Rank :: y < x ==> js[|acts|].queues[(d, y)].items == []
    ensures Extends(js, acts, js', acts') && Waits(js[|acts|], js'[|acts'|], w)
    ensures QueuesEmpty(js'[|acts'|], d)
    decreases js[|acts|].n - x
  {
    js', acts' := js, acts;
    if x < js[|acts|].n {
      js', acts' := SendOwn(js, acts, d, x, w);
      js', acts' := SendAll(js', acts', d, x + 1, w);
    }
  }

  /** A message one step on. */
  function MailNext(x: Batch): Batch {
    match x.stage
    case Flying => x.(stage := Open)
    case Open => if x.done < |x.frames| then x.(done := x.done + 1) else x.(stage := Replied)
    case Replied => x.(stage := Closed)
    case Closed => x
  }

  lemma MailNextFalls(x: Batch)
    requires !x.stage.Closed? && x.done <= |x.frames|
    ensures MailLeft(MailNext(x)) < MailLeft(x)
  {
  }

  /** What a message's step does to it, and that it does nothing to queues and positions. */
  lemma MailEffect(j: Job, b: nat, j': Job)
    requires b < |j.batches| && !j.batches[b].stage.Closed? && Enabled(j, MailStep(j.batches[b], b))
    requires j' == Apply(j, MailStep(j.batches[b], b))
    ensures j'.queues == j.queues && j'.pc == j.pc && j'.n == j.n && j'.flags == j.flags
    ensures j'.batches == j.batches[b := MailNext(j.batches[b])]
  {
  }

  lemma MailGoes(j: Job, b: nat, w: Write, j': Job)
    requires Holding(j, w) && b < |j.batches| && !j.batches[b].stage.Closed?
    requires Enabled(j, MailStep(j.batches[b], b)) ==> j' == Apply(j, MailStep(j.batches[b], b))
    ensures Enabled(j, MailStep(j.batches[b], b)) && Waits(j, j', w) && j'.queues == j.queues
    ensures |j'.batches| == |j.batches| && j'.batches == j.batches[b := j'.batches[b]]
    ensures MailLeft(j'.batches[b]) < MailLeft(j.batches[b])
  {
    BatchGoesOn(j, b);
    StepInv(j, MailStep(j.batches[b], b), j');
    MailEffect(j, b, j');
    assert BatchOk(j.batches[b], j.pc, j.sync);
    MailNextFalls(j.batches[b]);
  }

  /** Message `b` is brought to its end. */
  lemma {:induction false} CloseOne(js: seq<Job>, acts: seq<Action>, b: nat, w: Write)
      returns (js': seq<Job>, acts': seq<Action>)
    requires Steps(js, acts) && Holding(js[|acts|], w) && b < |js[|acts|].batches|
    ensures Extends(js, acts, js', acts') && Waits(js[|acts|], js'[|acts'|], w)
    ensures var j, j' := js[|acts|], js'[|acts'|];
            && j'.queues == j.queues && |j'.batches| == |j.batches| && j'.batches == j.batches[b := j'.batches[b]]
            && j'.batches[b].stage.Closed?
    decreases MailLeft(js[|acts|].batches[b])
  {
    var j := js[|acts|];
    js', acts' := js, acts;
    if !j.batches[b].stage.Closed? {
      var a := MailStep(j.batches[b], b);
      assert BatchOk(j.batches[b], j.pc, j.sync);
      MailGoes(j, b, w, Apply(j, a));
      Snoc(js, acts, a);
      js', acts' := CloseOne(js + [Apply(j, a)], acts + [a], b, w);
    }
  }

  /** All messages from `b` on. */
  lemma {:induction false} CloseAll(js: seq<Job>, acts: seq<Action>, b: nat, w: Write)
      returns (js': seq<Job>, acts': seq<Action>)
    requires Steps(js, acts) && Holding(js[|acts|], w) && b <= |js[|acts|].batches|
    requires forall i: nat :: i < b ==> js[|acts|].batches[i].stage.Closed?
    ensures Extends(js, acts, js', acts') && Waits(js[|acts|], js'[|acts'|], w)
    ensures js'[|acts'|].queues == js[|acts|].queues
    ensures forall i: nat :: i < |js'[|acts'|].batches| ==> js'[|acts'|].batches[i].stage.Closed?
    decreases |js[|acts|].batches| - b
  {
    js', acts' := js, acts;
    if b < |js[|acts|].batches| {
      assert BatchOk(js[|acts|].batches[b], js[|acts|].pc, js[|acts|].sync);
      js', acts' := CloseOne(js, acts, b, w);
      js', acts' := CloseAll(js', acts', b + 1, w);
    }
  }

  lemma NextEffect(j: Job, d: Rank, w: Write, j': Job)
    requires Holding(j, w) && d < j.n && d != w.src && Enabled(j, Next(d)) && j' == Apply(j, Next(d))
    ensures Holding(j', w) && j'.pc == j.pc[d := Succ(j.pc[d])] && j'.flags == j.flags && j'.n == j.n
  {
    StepInv(j, Next(d), j');
  }

  /** Rank `d` sends and closes what it has to, and leaves its phase. */
  lemma Leaves(js: seq<Job>, acts: seq<Action>, d: Rank, w: Write) returns (js': seq<Job>, acts': seq<Action>)
    requires Steps(js, acts) && Holding(js[|acts|], w) && d < js[|acts|].n && d != w.src
    requires !AnyBarrier(js[|acts|].flags)
    ensures Extends(js, acts, js', acts') && Holding(js'[|acts'|], w)
    ensures var j, j' := js[|acts|], js'[|acts'|];
            j'.pc == j.pc[d := Succ(j.pc[d])] && j'.flags == j.flags && j'.n == j.n
  {
    js', acts' := js, acts;
    if js[|acts|].pc[d].ph == 3 {
      js', acts' := SendAll(js', acts', d, 0, w);
    }
    js', acts' := CloseAll(js', acts', 0, w);
    var j := js'[|acts'|];
    assert Enabled(j, Next(d));
    NextEffect(j, d, w, Apply(j, Next(d)));
    Snoc(js', acts', Next(d));
    js', acts' := js' + [Apply(j, Next(d))], acts' + [Next(d)];
  }

  /** Phases from `a` to the opening of epoch `e`. */
  function Distance(a: At, e: nat): int {
    12 * e + 1 - (12 * a.epoch + a.ph)
  }

  lemma {:induction false} RunsAhead(js: seq<Job>, acts: seq<Action>, d: Rank, e: nat, w: Write)
      returns (js': seq<Job>, acts': seq<Action>)
    requires Steps(js, acts) && Holding(js[|acts|], w) && d < js[|acts|].n && d != w.src
    requires !AnyBarrier(js[|acts|].flags)
    ensures Extends(js, acts, js', acts') && Holding(js'[|acts'|], w) && d < js'[|acts'|].n
    ensures Reach(js'[|acts'|].pc[d], e, 1)
    decreases Distance(js[|acts|].pc[d], e)
  {
    js', acts' := js, acts;
    if !Reach(js[|acts|].pc[d], e, 1) {
      js', acts' := Leaves(js, acts, d, w);
      js', acts' := RunsAhead(js', acts', d, e, w);
    }
  }

  /** Without any barrier, whatever the receiver has done so far. */
  lemma FastFails(j: Job, w: Write)
    requires Inv(j) && Enabled(j, Put(w)) && !AnyBarrier(j.flags) && w.dst != w.src
    ensures !AlwaysPasses(j, w)
  {
    HoldsPut(j, w);
    Snoc([j], [], Put(w));
    var js, acts := RunsAhead([j] + [Apply(j, Put(w))], [] + [Put(w)], w.dst, w.epoch + 1, w);
    assert js[0] == j && acts[0] == Put(w);
    OffFails(js, acts, w);
  }

  /** The "bad epoch num" check, for every setting of the barriers.  In any state a run can
      reach, a write that is now put into its queue passes the check however the run goes on, if
      and only if its destination's num_epochs is now that of the sender, and it is the sender
      itself or some barrier is on. */
  lemma CheckIff(j: Job, w: Write)
    requires Inv(j) && Enabled(j, Put(w))
    ensures AlwaysPasses(j, w)
       <==> NumEpochs(j.pc[w.dst]) == NumEpochs(j.pc[w.src]) && (AnyBarrier(j.flags) || w.dst == w.src)
  {
    if NumEpochs(j.pc[w.dst]) != w.epoch + 1 {
      SlowFails(j, w);
    } else if AnyBarrier(j.flags) || w.dst == w.src {
      forall js: seq<Job>, acts: seq<Action>, n: nat |
        Steps(js, acts) && n < |acts| && js[0] == j && acts[0] == Put(w) && ExecutesWrite(js[n], acts[n], w)
        ensures CheckPasses(js[n], acts[n].b)
      {
        OpenPasses(js, acts, n, w);
      }
    } else {
      FastFails(j, w);
    }
  }
}
