/** A whole job on the N-N shuffler: any number of ranks, each going through epochs of
    `opendir`, writes and `closedir`, with batches, replies and barriers between them. */
module NNJobs {
  import opened Messages

  /** How far a rank is within an epoch:
        0 before num_epochs++ in opendir               1 before mon_reinit
        2 writing                                      3 closedir: flushq
        4 closedir: waitcb                             5 at the pre barrier
        6 closedir: bgwait                             7 at the barrier of the next opendir
        8 bgwait                                       9 before the epoch flush
       10 flushed, before dump_mon                    11 dumped, at the post barrier */
  type Phase = p: int | 0 <= p <= 11

  datatype At = At(epoch: nat, ph: Phase)

  predicate Reach(a: At, e: nat, p: int) {
    a.epoch > e || (a.epoch == e && a.ph >= p)
  }

  /** `num_epochs` of a rank. */
  function NumEpochs(a: At): nat {
    if a.ph == 0 then a.epoch else a.epoch + 1
  }

  /** A particle write; `epoch` is the sender's num_epochs - 1 when it was issued. */
  datatype Write = Write(id: nat, src: Rank, dst: Rank, epoch: nat)

  datatype Queue = Queue(items: seq<Write>, lepo: nat)

  /** Flying: not yet at its handler.  Open: the handler is executing its writes.  Replied:
      HG_Respond was called.  Closed: the reply is back at the sender. */
  datatype Stage = Flying | Open | Replied | Closed

  datatype Batch = Batch(src: Rank, dst: Rank, epo: nat, frames: seq<Write>, done: nat, stage: Stage)

  /** What happens to a rank's storage: a write executed under an epoch (with the position of
      the executing rank at that moment), or an epoch flush. */
  datatype Event = Exec(w: Write, epo: nat, a: At) | Flushed(e: nat)

  /** Where a write is. */
  datatype Place = InQueue(src: Rank, dst: Rank, k: nat) | InBatch(b: nat, k: nat) | Done(r: Rank, i: nat)

  // ----- counters -----

  datatype Counters = Counters(nw: nat, nlw: nat, nfw: nat, nms: nat, nmd: nat, nmr: nat)

  const ZERO := Counters(0, 0, 0, 0, 0, 0)

  /** Writes issued, executed for oneself, executed for others; messages sent, acknowledged,
      received. */
  datatype Field = NW | NLW | NFW | NMS | NMD | NMR

  function Get(c: Counters, f: Field): nat {
    match f
    case NW => c.nw case NLW => c.nlw case NFW => c.nfw
    case NMS => c.nms case NMD => c.nmd case NMR => c.nmr
  }

  function Bump(c: Counters, f: Field): (b: Counters)
    ensures forall g :: Get(b, g) == Get(c, g) + (if g == f then 1 else 0)
  {
    match f
    case NW => c.(nw := c.nw + 1) case NLW => c.(nlw := c.nlw + 1) case NFW => c.(nfw := c.nfw + 1)
    case NMS => c.(nms := c.nms + 1) case NMD => c.(nmd := c.nmd + 1) case NMR => c.(nmr := c.nmr + 1)
  }

  type Book = map<(Rank, nat), Counters>

  function Entry(b: Book, r: Rank, e: nat): Counters {
    if (r, e) in b then b[(r, e)] else ZERO
  }

  /** `mon` is what each rank's `mctx` holds and `dumped` what its dump_mon wrote, epoch by
      epoch.  The rest is history: `cnt` is never cleared; `tally` counts by the epoch of the
      write or message; `lost` is the part of the tally that a rank counted before its own
      reset for that epoch. */
  datatype Stats = Stats(mon: seq<Counters>, dumped: seq<seq<Counters>>, cnt: seq<Counters>, tally: Book, lost: Book)

  /** Rank `r`, at `a`, counts one event of epoch `e`. */
  function Count(s: Stats, a: At, r: Rank, e: nat, f: Field): Stats
    requires r < |s.mon| && r < |s.cnt|
  {
    s.(mon := s.mon[r := Bump(s.mon[r], f)], cnt := s.cnt[r := Bump(s.cnt[r], f)],
       tally := s.tally[(r, e) := Bump(Entry(s.tally, r, e), f)],
       lost := if Reach(a, e, 2) then s.lost else s.lost[(r, e) := Bump(Entry(s.lost, r, e), f)])
  }

  /** What leaving a phase does to the counters: mon_reinit and dump_mon. */
  function Moved(s: Stats, ph: Phase, r: Rank): Stats
    requires r < |s.mon| && r < |s.dumped|
  {
    if ph == 1 then s.(mon := s.mon[r := ZERO])
    else if ph == 10 then s.(dumped := s.dumped[r := s.dumped[r] + [s.mon[r]]])
    else s
  }

  /** `sync` is `force_sync`: every send waits for its reply.  `ep` is history: the epoch of
      every write issued. */
  datatype Job = Job(
    n: nat, flags: Flags, sync: bool, pc: seq<At>, queues: map<(Rank, Rank), Queue>, batches: seq<Batch>,
    logs: seq<seq<Event>>, stats: Stats, at: map<nat, Place>, ep: map<nat, nat>)

  datatype Action =
    | Put(w: Write)              // shuffle_write to a peer
    | Local(w: Write)            // shuffle_write to oneself
    | Send(r: Rank, d: Rank)     // one rpc queue is sent
    | Next(r: Rank)              // the rank leaves its phase
    | Receive(b: nat)            // the write handler starts
    | ExecOne(b: nat)            // it executes one write
    | Reply(b: nat)              // HG_Respond
    | Close(b: nat)              // the reply arrives at the sender

  // ----- steps -----

  ghost predicate Shape(j: Job) {
    && |j.pc| == |j.logs| == |j.stats.cnt| == |j.stats.mon| == |j.stats.dumped| == j.n
    && (forall r: Rank, d: Rank :: r < j.n && d < j.n <==> (r, d) in j.queues)
  }

  ghost predicate Writes(j: Job, w: Write)
    requires Shape(j)
  {
    w.id !in j.at && w.src < j.n && w.dst < j.n && j.pc[w.src] == At(w.epoch, 2)
  }

  ghost predicate QueuesEmpty(j: Job, r: Rank)
    requires Shape(j) && r < j.n
  {
    forall d: Rank :: d < j.n ==> j.queues[(r, d)].items == []
  }

  ghost predicate AllClosed(j: Job, r: Rank) {
    forall b: nat :: b < |j.batches| && j.batches[b].src == r ==> j.batches[b].stage.Closed?
  }

  /** The barrier a rank waits at in phase `ph`, if it is on. */
  predicate BarrierAt(f: Flags, ph: Phase) {
    (ph == 5 && f.pre) || (ph == 7 && f.main) || (ph == 11 && f.post)
  }

  /** A rank leaves flushq when its queues are empty, waitcb when all its slots are back (with
      `force_sync` there is no waitcb, but flushq has its replies), and a barrier when
      everybody has come that far. */
  ghost predicate CanLeave(j: Job, r: Rank)
    requires Shape(j) && r < j.n
  {
    var a := j.pc[r];
    && (a.ph == 3 ==> QueuesEmpty(j, r) && (j.sync ==> AllClosed(j, r)))
    && (a.ph == 4 && !j.sync ==> AllClosed(j, r))
    && (BarrierAt(j.flags, a.ph) ==> forall q: Rank :: q < j.n ==> Reach(j.pc[q], a.epoch, a.ph))
  }

  ghost predicate Enabled(j: Job, a: Action) {
    Shape(j) &&
    match a
    case Put(w) => Writes(j, w)
    case Local(w) => Writes(j, w) && w.dst == w.src
    case Send(r, d) => r < j.n && d < j.n && 2 <= j.pc[r].ph <= 3 && j.queues[(r, d)].items != []
    case Next(r) => r < j.n && CanLeave(j, r)
    case Receive(b) => b < |j.batches| && j.batches[b].stage.Flying? && j.batches[b].dst < j.n
    case ExecOne(b) =>
      && b < |j.batches| && j.batches[b].stage.Open? && j.batches[b].done < |j.batches[b].frames|
      && j.batches[b].dst < j.n
    case Reply(b) => b < |j.batches| && j.batches[b].stage.Open? && j.batches[b].done == |j.batches[b].frames|
    case Close(b) => b < |j.batches| && j.batches[b].stage.Replied? && j.batches[b].src < j.n
  }

  function Succ(a: At): At {
    if a.ph < 11 then At(a.epoch, a.ph + 1) else At(a.epoch + 1, 0)
  }

  function Append(j: Job, r: Rank, e: Event): seq<seq<Event>>
    requires r < |j.logs|
  {
    j.logs[r := j.logs[r] + [e]]
  }

  /** The writes of one queue move into batch `nb`. */
  function MoveQueue(at: map<nat, Place>, r: Rank, d: Rank, nb: nat): map<nat, Place> {
    map id | id in at :: if at[id].InQueue? && at[id].src == r && at[id].dst == d then InBatch(nb, at[id].k) else at[id]
  }

  ghost function Apply(j: Job, a: Action): Job
    requires Enabled(j, a)
  {
    match a
    case Put(w) =>
      var q := j.queues[(w.src, w.dst)];
      j.(queues := j.queues[(w.src, w.dst) := Queue(q.items + [w], w.epoch)],
         at := j.at[w.id := InQueue(w.src, w.dst, |q.items|)], ep := j.ep[w.id := w.epoch],
         stats := Count(j.stats, j.pc[w.src], w.src, w.epoch, NW))
    case Local(w) =>
      j.(logs := Append(j, w.src, Exec(w, w.epoch, j.pc[w.src])),
         at := j.at[w.id := Done(w.src, |j.logs[w.src]|)], ep := j.ep[w.id := w.epoch],
         stats := Count(Count(j.stats, j.pc[w.src], w.src, w.epoch, NW), j.pc[w.src], w.src, w.epoch, NLW))
    case Send(r, d) =>
      var q := j.queues[(r, d)];
      j.(queues := j.queues[(r, d) := q.(items := [])],
         batches := j.batches + [Batch(r, d, q.lepo, q.items, 0, Flying)],
         at := MoveQueue(j.at, r, d, |j.batches|),
         stats := Count(j.stats, j.pc[r], r, q.lepo, NMS))
    case Next(r) =>
      var j1 := j.(pc := j.pc[r := Succ(j.pc[r])], stats := Moved(j.stats, j.pc[r].ph, r));
      if j.pc[r].ph == 9 then j1.(logs := Append(j, r, Flushed(NumEpochs(j.pc[r]) - 1))) else j1
    case Receive(b) =>
      var x := j.batches[b];
      j.(batches := j.batches[b := x.(stage := Open)], stats := Count(j.stats, j.pc[x.dst], x.dst, x.epo, NMR))
    case ExecOne(b) =>
      var x := j.batches[b];
      j.(batches := j.batches[b := x.(done := x.done + 1)],
         logs := Append(j, x.dst, Exec(x.frames[x.done], x.epo, j.pc[x.dst])),
         at := j.at[x.frames[x.done].id := Done(x.dst, |j.logs[x.dst]|)],
         stats := Count(j.stats, j.pc[x.dst], x.dst, x.epo, NFW))
    case Reply(b) => j.(batches := j.batches[b := j.batches[b].(stage := Replied)])
    case Close(b) =>
      var x := j.batches[b];
      j.(batches := j.batches[b := x.(stage := Closed)], stats := Count(j.stats, j.pc[x.src], x.src, x.epo, NMD))
  }

  // ----- epochs -----

  function FlushCount(log: seq<Event>): nat {
    if log == [] then 0 else FlushCount(log[..|log| - 1]) + (if log[|log| - 1].Flushed? then 1 else 0)
  }

  /** Epoch flushes a rank has made by then. */
  function Flushes(a: At): nat {
    a.epoch + (if a.ph >= 10 then 1 else 0)
  }

  /** Every write is executed on its destination and under its own epoch; and flushes come in
      order. */
  predicate EventOk(log: seq<Event>, r: Rank, i: nat)
    requires i < |log|
  {
    match log[i]
    case Exec(w, epo, a) => w.dst == r && epo == w.epoch
    case Flushed(e) => e == FlushCount(log[..i])
  }

  ghost predicate LogOk(log: seq<Event>, r: Rank) {
    forall i: nat :: i < |log| ==> EventOk(log, r, i)
  }

  ghost predicate LogsOk(j: Job)
    requires Shape(j)
  {
    forall r: Rank :: r < j.n ==> LogOk(j.logs[r], r) && FlushCount(j.logs[r]) == Flushes(j.pc[r])
  }

  /** Every write is executed after exactly as many epoch flushes as its epoch says. */
  ghost predicate Timed(log: seq<Event>) {
    forall i: nat :: i < |log| && log[i].Exec? ==> FlushCount(log[..i]) == log[i].w.epoch
  }

  ghost predicate LogsTimed(j: Job) {
    forall r: Rank :: r < |j.logs| ==> Timed(j.logs[r])
  }

  /** What the barriers that are on have established. */
  ghost predicate Barriers(f: Flags, pc: seq<At>) {
    && (f.pre ==> forall r: nat, q: nat, e: nat :: r < |pc| && q < |pc| && Reach(pc[r], e, 6) ==> Reach(pc[q], e, 5))
    && (f.main ==> forall r: nat, q: nat, e: nat :: r < |pc| && q < |pc| && Reach(pc[r], e, 8) ==> Reach(pc[q], e, 7))
    && (f.post ==> forall r: nat, q: nat, e: nat :: r < |pc| && q < |pc| && Reach(pc[r], e, 12) ==> Reach(pc[q], e, 11))
  }

  /** A barrier between waitcb and the epoch flush, and the one after it. */
  predicate Guarded(f: Flags) {
    (f.pre || f.main) && f.post
  }

  predicate QueueOk(q: Queue, r: Rank, d: Rank, a: At) {
    && (forall k :: 0 <= k < |q.items| ==> q.items[k].src == r && q.items[k].dst == d && q.items[k].epoch == a.epoch)
    && (q.items != [] ==> 2 <= a.ph <= 3 && q.lepo == a.epoch)
  }

  ghost predicate QueuesOk(j: Job)
    requires Shape(j)
  {
    forall r: Rank, d: Rank :: r < j.n && d < j.n ==> QueueOk(j.queues[(r, d)], r, d, j.pc[r])
  }

  /** A batch carries the writes of one epoch; until it is closed its sender is in it. */
  predicate BatchOk(x: Batch, pc: seq<At>, sync: bool) {
    && x.src < |pc| && x.dst < |pc| && x.done <= |x.frames|
    && (forall k :: 0 <= k < |x.frames| ==>
          x.frames[k].src == x.src && x.frames[k].dst == x.dst && x.frames[k].epoch == x.epo)
    && (x.stage.Flying? ==> x.done == 0) && (x.stage.Replied? || x.stage.Closed? ==> x.done == |x.frames|)
    && (!x.stage.Closed? ==> pc[x.src].epoch == x.epo && 2 <= pc[x.src].ph <= (if sync then 3 else 4))
  }

  ghost predicate BatchesOk(j: Job) {
    forall b: nat :: b < |j.batches| ==> BatchOk(j.batches[b], j.pc, j.sync)
  }

  /** What holds whichever barriers are on. */
  ghost predicate JobInv(j: Job) {
    Shape(j) && Barriers(j.flags, j.pc) && QueuesOk(j) && BatchesOk(j) && LogsOk(j)
  }

  /** What holds with a barrier on either side of the epoch flush. */
  ghost predicate EpochInv(j: Job) {
    JobInv(j) && Guarded(j.flags) && LogsTimed(j)
  }

  lemma BarriersNext(f: Flags, pc: seq<At>, r: nat)
    requires Barriers(f, pc) && r < |pc|
    requires BarrierAt(f, pc[r].ph) ==> forall q: nat :: q < |pc| ==> Reach(pc[q], pc[r].epoch, pc[r].ph)
    ensures Barriers(f, pc[r := Succ(pc[r])])
  {
    var pc' := pc[r := Succ(pc[r])];
    forall q: nat, e: nat, p: int | q < |pc| && Reach(pc[q], e, p) ensures Reach(pc'[q], e, p) {}
    forall q: nat, e: nat, p: int | q < |pc| && 0 < p <= 12 && Reach(pc'[q], e, p) && !Reach(pc[q], e, p)
      ensures q == r && pc[r] == At(e, p - 1) {}
  }

  /** While a sender writes, flushes or waits in epoch e, every rank is between its dump of the
      epoch before and its epoch flush of e. */
  lemma ExecTime(f: Flags, pc: seq<At>, s: nat, r: nat)
    requires Guarded(f) && Barriers(f, pc) && s < |pc| && r < |pc| && 2 <= pc[s].ph <= 4
    ensures Flushes(pc[r]) == pc[s].epoch
    ensures !Reach(pc[r], pc[s].epoch, 8) && (pc[s].epoch > 0 ==> Reach(pc[r], pc[s].epoch - 1, 11))
  {
    var e := pc[s].epoch;
    assert f.pre && Reach(pc[r], e, 6) ==> Reach(pc[s], e, 5);
    assert f.main && Reach(pc[r], e, 8) ==> Reach(pc[s], e, 7);
    if e > 0 {
      assert Reach(pc[s], e - 1, 12);
    }
  }

  lemma LogSnoc(log: seq<Event>, e: Event, r: Rank)
    requires LogOk(log, r)
    requires match e
             case Exec(w, epo, a) => w.dst == r && epo == w.epoch
             case Flushed(x) => x == FlushCount(log)
    ensures LogOk(log + [e], r) && FlushCount(log + [e]) == FlushCount(log) + (if e.Flushed? then 1 else 0)
  {
    var log' := log + [e];
    assert log'[..|log|] == log;
    forall i: nat | i < |log'| ensures EventOk(log', r, i) {
      if i < |log| {
        assert log'[..i] == log[..i] && EventOk(log, r, i);
      }
    }
  }

  lemma TimedSnoc(log: seq<Event>, e: Event)
    requires Timed(log) && (e.Exec? ==> FlushCount(log) == e.w.epoch)
    ensures Timed(log + [e])
  {
    var log' := log + [e];
    forall i: nat | i < |log'| && log'[i].Exec? ensures FlushCount(log'[..i]) == log'[i].w.epoch {
      assert log'[..i] == log[..i];
      assert i == |log| ==> log[..i] == log;
    }
  }

  lemma LogsAppend(j: Job, r: Rank, e: Event, pc': seq<At>)
    requires Shape(j) && LogsOk(j) && r < j.n && |pc'| == j.n
    requires LogOk(j.logs[r] + [e], r) && FlushCount(j.logs[r] + [e]) == Flushes(pc'[r])
    requires forall q: nat :: q < j.n && q != r ==> pc'[q] == j.pc[q]
    ensures LogsOk(j.(logs := Append(j, r, e), pc := pc'))
  {
    forall q: Rank | q < j.n
      ensures LogOk(Append(j, r, e)[q], q) && FlushCount(Append(j, r, e)[q]) == Flushes(pc'[q])
    {
      if q != r {
        assert Append(j, r, e)[q] == j.logs[q];
      }
    }
  }

  lemma NextLogs(j: Job, r: Rank, j': Job)
    requires Shape(j) && LogsOk(j) && r < j.n && Shape(j') && j'.n == j.n && j'.pc == j.pc[r := Succ(j.pc[r])]
    requires j'.logs == if j.pc[r].ph == 9 then Append(j, r, Flushed(NumEpochs(j.pc[r]) - 1)) else j.logs
    ensures LogsOk(j')
  {
    if j.pc[r].ph == 9 {
      LogSnoc(j.logs[r], Flushed(NumEpochs(j.pc[r]) - 1), r);
    }
  }

  lemma NextQueues(j: Job, r: Rank, j': Job)
    requires Shape(j) && QueuesOk(j) && r < j.n && CanLeave(j, r)
    requires j'.n == j.n && j'.queues == j.queues && j'.pc == j.pc[r := Succ(j.pc[r])] && Shape(j')
    ensures QueuesOk(j')
  {
    forall s: Rank, d: Rank | s < j.n && d < j.n ensures QueueOk(j'.queues[(s, d)], s, d, j'.pc[s]) {
      assert QueueOk(j.queues[(s, d)], s, d, j.pc[s]);
    }
  }

  lemma NextBatches(j: Job, r: Rank, j': Job)
    requires Shape(j) && BatchesOk(j) && r < j.n && CanLeave(j, r)
    requires j'.batches == j.batches && j'.pc == j.pc[r := Succ(j.pc[r])] && j'.sync == j.sync
    ensures BatchesOk(j')
  {
    forall b: nat | b < |j'.batches| ensures BatchOk(j'.batches[b], j'.pc, j'.sync) {
      assert BatchOk(j.batches[b], j.pc, j.sync);
    }
  }

  lemma ShapeStep(j: Job, a: Action)
    requires Enabled(j, a)
    ensures Shape(Apply(j, a))
  {
  }

  lemma NextJob(j: Job, r: Rank)
    requires JobInv(j) && Enabled(j, Next(r))
    ensures JobInv(Apply(j, Next(r)))
  {
    var j' := Apply(j, Next(r));
    ShapeStep(j, Next(r));
    BarriersNext(j.flags, j.pc, r);
    NextLogs(j, r, j');
    NextQueues(j, r, j');
    NextBatches(j, r, j');
  }

  lemma ExecLogs(j: Job, r: Rank, w: Write)
    requires Shape(j) && LogsOk(j) && r < j.n && w.dst == r
    ensures LogsOk(j.(logs := Append(j, r, Exec(w, w.epoch, j.pc[r]))))
  {
    var e := Exec(w, w.epoch, j.pc[r]);
    LogSnoc(j.logs[r], e, r);
    LogsAppend(j, r, e, j.pc);
  }

  lemma SameLogs(j: Job, j': Job)
    requires Shape(j) && Shape(j') && j'.n == j.n && j'.pc == j.pc && j'.logs == j.logs && LogsOk(j)
    ensures LogsOk(j')
  {
  }

  lemma OtherQueues(j: Job, a: Action)
    requires Shape(j) && QueuesOk(j) && Enabled(j, a) && !a.Next? && Shape(Apply(j, a))
    ensures QueuesOk(Apply(j, a))
  {
    var j' := Apply(j, a);
    forall r: Rank, d: Rank | r < j.n && d < j.n ensures QueueOk(j'.queues[(r, d)], r, d, j'.pc[r]) {
      assert QueueOk(j.queues[(r, d)], r, d, j.pc[r]);
    }
  }

  lemma NewBatchOk(q: Queue, r: Rank, d: Rank, pc: seq<At>, sync: bool)
    requires r < |pc| && d < |pc| && QueueOk(q, r, d, pc[r]) && q.items != []
    ensures BatchOk(Batch(r, d, q.lepo, q.items, 0, Flying), pc, sync)
  {
  }

  lemma SendBatches(j: Job, r: Rank, d: Rank)
    requires Shape(j) && QueuesOk(j) && BatchesOk(j) && Enabled(j, Send(r, d))
    ensures BatchesOk(Apply(j, Send(r, d)))
  {
    var j' := Apply(j, Send(r, d));
    NewBatchOk(j.queues[(r, d)], r, d, j.pc, j.sync);
    forall b: nat | b < |j'.batches| ensures BatchOk(j'.batches[b], j'.pc, j'.sync) {
      if b < |j.batches| {
        assert BatchOk(j.batches[b], j.pc, j.sync);
      }
    }
  }

  lemma OtherBatches(j: Job, a: Action)
    requires Shape(j) && QueuesOk(j) && BatchesOk(j) && Enabled(j, a) && !a.Next?
    ensures BatchesOk(Apply(j, a))
  {
    if a.Send? {
      SendBatches(j, a.r, a.d);
    } else {
      var j' := Apply(j, a);
      forall b: nat | b < |j'.batches| ensures BatchOk(j'.batches[b], j'.pc, j'.sync) {
        assert BatchOk(j.batches[b], j.pc, j.sync);
      }
    }
  }

  lemma OtherJob(j: Job, a: Action, j': Job)
    requires JobInv(j) && Enabled(j, a) && !a.Next? && j' == Apply(j, a) && LogsOk(j.(logs := j'.logs))
    ensures JobInv(j')
  {
    ShapeStep(j, a);
    OtherQueues(j, a);
    OtherBatches(j, a);
    SameLogs(j.(logs := j'.logs), j');
  }

  /** Every action keeps this, whichever barriers are on. */
  lemma JobStep(j: Job, a: Action)
    requires JobInv(j) && Enabled(j, a)
    ensures JobInv(Apply(j, a))
  {
    if a.Next? {
      NextJob(j, a.r);
    } else {
      if a.ExecOne? {
        var x := j.batches[a.b];
        assert BatchOk(x, j.pc, j.sync);
        ExecLogs(j, x.dst, x.frames[x.done]);
      } else if a.Local? {
        ExecLogs(j, a.w.src, a.w);
      }
      OtherJob(j, a, Apply(j, a));
    }
  }

  /** One event was logged. */
  lemma TimedAppend(j: Job, r: Rank, e: Event, j': Job)
    requires Shape(j) && LogsTimed(j) && r < j.n && j'.logs == Append(j, r, e)
    requires e.Exec? ==> FlushCount(j.logs[r]) == e.w.epoch
    ensures LogsTimed(j')
  {
    TimedSnoc(j.logs[r], e);
  }

  /** A write of a sender that has not finished waitcb is executed. */
  lemma TimedExec(j: Job, r: Rank, w: Write, s: Rank, j': Job)
    requires EpochInv(j) && r < j.n && s < j.n && j.pc[s].epoch == w.epoch && 2 <= j.pc[s].ph <= 4
    requires j'.logs == Append(j, r, Exec(w, w.epoch, j.pc[r]))
    ensures LogsTimed(j')
  {
    ExecTime(j.flags, j.pc, s, r);
    TimedAppend(j, r, Exec(w, w.epoch, j.pc[r]), j');
  }

  lemma TimedStep(j: Job, a: Action)
    requires EpochInv(j) && Enabled(j, a)
    ensures LogsTimed(Apply(j, a))
  {
    var j' := Apply(j, a);
    if a.Next? && j.pc[a.r].ph == 9 {
      TimedAppend(j, a.r, Flushed(NumEpochs(j.pc[a.r]) - 1), j');
    } else if a.ExecOne? {
      var x := j.batches[a.b];
      assert BatchOk(x, j.pc, j.sync);
      TimedExec(j, x.dst, x.frames[x.done], x.src, j');
    } else if a.Local? {
      TimedExec(j, a.w.src, a.w, a.w.src, j');
    }
  }

  lemma EpochStep(j: Job, a: Action)
    requires EpochInv(j) && Enabled(j, a)
    ensures EpochInv(Apply(j, a))
  {
    JobStep(j, a);
    TimedStep(j, a);
  }
}
