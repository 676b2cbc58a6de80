/** Conservation on the N-N shuffler: every write is at one place, moves towards its
    destination's log, and the counters count exactly that. */
module NNConservation {
  import opened Messages
  import opened NNJobs

  // ----- places -----

  /** Some write is at that place: queued, in a message and not yet executed, or executed. */
  predicate Live(j: Job, p: Place) {
    match p
    case InQueue(r, d, k) => (r, d) in j.queues && k < |j.queues[(r, d)].items|
    case InBatch(b, k) => b < |j.batches| && j.batches[b].done <= k < |j.batches[b].frames|
    case Done(r, i) => r < |j.logs| && i < |j.logs[r]| && j.logs[r][i].Exec?
  }

  function WriteAt(j: Job, p: Place): Write
    requires Live(j, p)
  {
    match p
    case InQueue(r, d, k) => j.queues[(r, d)].items[k]
    case InBatch(b, k) => j.batches[b].frames[k]
    case Done(r, i) => j.logs[r][i].w
  }

  /** The place holds a write, and that write is at this place only. */
  predicate Placed(j: Job, p: Place)
    requires Live(j, p)
  {
    WriteAt(j, p).id in j.at && j.at[WriteAt(j, p).id] == p
  }

  ghost predicate Places(j: Job) {
    && (forall id :: id in j.at ==> Live(j, j.at[id]) && WriteAt(j, j.at[id]).id == id)
    && (forall p :: Live(j, p) ==> Placed(j, p))
  }

  /** How an action changes the places: the write at `from` (or a new one) is at `to` now. */
  ghost predicate OneMoved(j: Job, j': Job, w: Write, to: Place) {
    && Live(j', to) && WriteAt(j', to) == w && !Live(j, to) && j'.at == j.at[w.id := to]
    && (forall p :: Live(j', p) && p != to ==> Live(j, p) && WriteAt(j', p) == WriteAt(j, p))
    && (forall p :: Live(j, p) && !Live(j', p) ==> WriteAt(j, p).id == w.id)
    && (forall p :: Live(j', p) && p != to ==> !(w.id in j.at && j.at[w.id] == p))
  }

  lemma MovedPlaces(j: Job, j': Job, w: Write, to: Place)
    requires Places(j) && OneMoved(j, j', w, to)
    ensures Places(j')
  {
    forall p | Live(j', p) ensures Placed(j', p) {
      if p != to {
        assert Placed(j, p);
      }
    }
    forall id | id in j'.at ensures Live(j', j'.at[id]) && WriteAt(j', j'.at[id]).id == id {
      if id != w.id {
        var p := j.at[id];
        assert Live(j, p) && WriteAt(j, p).id == id;
        assert Live(j', p);
      }
    }
  }

  lemma PutMoves(j: Job, w: Write)
    requires Enabled(j, Put(w)) && Places(j)
    ensures OneMoved(j, Apply(j, Put(w)), w, InQueue(w.src, w.dst, |j.queues[(w.src, w.dst)].items|))
  {
  }

  lemma LocalMoves(j: Job, w: Write)
    requires Enabled(j, Local(w)) && Places(j)
    ensures OneMoved(j, Apply(j, Local(w)), w, Done(w.src, |j.logs[w.src]|))
  {
  }

  /** Frame `x.done` of batch `b` goes to the end of a log. */
  lemma FrameMoves(j: Job, j': Job, b: nat, x: Batch, e: Event)
    requires Places(j) && b < |j.batches| && x == j.batches[b] && x.done < |x.frames| && x.dst < |j.logs|
    requires j'.queues == j.queues && j'.batches == j.batches[b := x.(done := x.done + 1)]
    requires e.Exec? && e.w == x.frames[x.done] && j'.logs == j.logs[x.dst := j.logs[x.dst] + [e]]
    requires j'.at == j.at[e.w.id := Done(x.dst, |j.logs[x.dst]|)]
    ensures OneMoved(j, j', e.w, Done(x.dst, |j.logs[x.dst]|))
  {
    assert Live(j, InBatch(b, x.done)) && Placed(j, InBatch(b, x.done));
    forall p | Live(j', p) && p != Done(x.dst, |j.logs[x.dst]|)
      ensures Live(j, p) && WriteAt(j', p) == WriteAt(j, p) {}
  }

  lemma ExecMoves(j: Job, b: nat)
    requires Enabled(j, ExecOne(b)) && Places(j)
    ensures var x := j.batches[b];
            OneMoved(j, Apply(j, ExecOne(b)), x.frames[x.done], Done(x.dst, |j.logs[x.dst]|))
  {
    var x := j.batches[b];
    FrameMoves(j, Apply(j, ExecOne(b)), b, x, Exec(x.frames[x.done], x.epo, j.pc[x.dst]));
  }

  /** Sending a queue: its writes keep their order in the message. */
  lemma SendPlaces(j: Job, r: Rank, d: Rank)
    requires Enabled(j, Send(r, d)) && Places(j)
    ensures Places(Apply(j, Send(r, d)))
  {
    var j', nb := Apply(j, Send(r, d)), |j.batches|;
    forall p | Live(j', p) ensures Placed(j', p) {
      if p.InBatch? && p.b == nb {
        assert Live(j, InQueue(r, d, p.k)) && Placed(j, InQueue(r, d, p.k));
      } else {
        assert Live(j, p) && Placed(j, p);
      }
    }
    forall id | id in j'.at ensures Live(j', j'.at[id]) && WriteAt(j', j'.at[id]).id == id {
      assert Live(j, j.at[id]) && WriteAt(j, j.at[id]).id == id;
    }
  }

  lemma NextLive(j: Job, r: Rank, p: Place)
    requires Enabled(j, Next(r))
    ensures var j' := Apply(j, Next(r));
            && j'.at == j.at && j'.ep == j.ep && (Live(j', p) <==> Live(j, p))
            && (Live(j, p) ==> WriteAt(j', p) == WriteAt(j, p))
  {
  }

  /** Actions that move nothing. */
  lemma StillLive(j: Job, a: Action, p: Place)
    requires Enabled(j, a) && (a.Next? || a.Receive? || a.Reply? || a.Close?)
    ensures var j' := Apply(j, a);
            && j'.at == j.at && j'.ep == j.ep && (Live(j', p) <==> Live(j, p))
            && (Live(j, p) ==> WriteAt(j', p) == WriteAt(j, p))
  {
    if a.Next? {
      NextLive(j, a.r, p);
    }
  }

  lemma StillPlaces(j: Job, a: Action)
    requires Places(j) && Enabled(j, a) && (a.Next? || a.Receive? || a.Reply? || a.Close?)
    ensures Places(Apply(j, a))
  {
    var j' := Apply(j, a);
    forall p | Live(j', p) ensures Placed(j', p) {
      StillLive(j, a, p);
      assert Placed(j, p);
    }
    forall id | id in j'.at ensures Live(j', j'.at[id]) && WriteAt(j', j'.at[id]).id == id {
      StillLive(j, a, j.at[id]);
    }
  }

  lemma PutPlaces(j: Job, w: Write)
    requires Places(j) && Enabled(j, Put(w))
    ensures Places(Apply(j, Put(w)))
  {
    PutMoves(j, w);
    MovedPlaces(j, Apply(j, Put(w)), w, InQueue(w.src, w.dst, |j.queues[(w.src, w.dst)].items|));
  }

  lemma LocalPlaces(j: Job, w: Write)
    requires Places(j) && Enabled(j, Local(w))
    ensures Places(Apply(j, Local(w)))
  {
    LocalMoves(j, w);
    MovedPlaces(j, Apply(j, Local(w)), w, Done(w.src, |j.logs[w.src]|));
  }

  lemma ExecPlaces(j: Job, b: nat)
    requires Places(j) && Enabled(j, ExecOne(b))
    ensures Places(Apply(j, ExecOne(b)))
  {
    var x := j.batches[b];
    ExecMoves(j, b);
    MovedPlaces(j, Apply(j, ExecOne(b)), x.frames[x.done], Done(x.dst, |j.logs[x.dst]|));
  }

  lemma PlacesStep(j: Job, a: Action)
    requires Places(j) && Enabled(j, a)
    ensures Places(Apply(j, a))
  {
    match a
    case Put(w) => PutPlaces(j, w);
    case Local(w) => LocalPlaces(j, w);
    case ExecOne(b) => ExecPlaces(j, b);
    case Send(r, d) => SendPlaces(j, r, d);
    case Next(r) => StillPlaces(j, a);
    case Receive(b) => StillPlaces(j, a);
    case Reply(b) => StillPlaces(j, a);
    case Close(b) => StillPlaces(j, a);
  }

  // ----- counters -----

  /** Which events are counted: those of one epoch, or all. */
  type Scope = Option<nat>

  predicate InScope(e: nat, s: Scope) {
    s.None? || s.value == e
  }

  function Of(st: Stats, r: Rank, s: Scope): Counters {
    if s.Some? then Entry(st.tally, r, s.value) else if r < |st.cnt| then st.cnt[r] else ZERO
  }

  /** A counter added up over the first `n` ranks. */
  function Total(st: Stats, n: nat, s: Scope, f: Field): nat {
    if n == 0 then 0 else Total(st, n - 1, s, f) + Get(Of(st, n - 1, s), f)
  }

  lemma {:induction false} TotalCount(st: Stats, n: nat, a: At, r: Rank, e: nat, f: Field, s: Scope, g: Field)
    requires r < |st.mon| && r < |st.cnt|
    ensures Total(Count(st, a, r, e, f), n, s, g)
         == Total(st, n, s, g) + (if r < n && g == f && InScope(e, s) then 1 else 0)
  {
    if n > 0 {
      TotalCount(st, n - 1, a, r, e, f, s, g);
    }
  }

  lemma {:induction false} TotalMoved(st: Stats, n: nat, ph: Phase, r: Rank, s: Scope, g: Field)
    requires r < |st.mon| && r < |st.dumped|
    ensures Total(Moved(st, ph, r), n, s, g) == Total(st, n, s, g)
  {
    if n > 0 {
      TotalMoved(st, n - 1, ph, r, s, g);
    }
  }

  function Ids(ep: map<nat, nat>, s: Scope): set<nat> {
    set id | id in ep && InScope(ep[id], s)
  }

  function DoneIds(at: map<nat, Place>, ep: map<nat, nat>, s: Scope): set<nat> {
    set id | id in at && at[id].Done? && id in ep && InScope(ep[id], s)
  }

  /** Is a message counted as sent, received, acknowledged? */
  predicate IsCounted(x: Batch, f: Field, s: Scope) {
    && InScope(x.epo, s)
    && match f
       case NMS => true
       case NMR => !x.stage.Flying?
       case NMD => x.stage.Closed?
       case NW => false
       case NLW => false
       case NFW => false
  }

  function Mail(bs: seq<Batch>, f: Field, s: Scope): set<nat> {
    set b: nat | b < |bs| && IsCounted(bs[b], f, s)
  }

  /** Writes issued and writes executed, in one epoch or in all. */
  ghost predicate WritesCounted(j: Job, s: Scope) {
    && Total(j.stats, j.n, s, NW) == |Ids(j.ep, s)|
    && Total(j.stats, j.n, s, NLW) + Total(j.stats, j.n, s, NFW) == |DoneIds(j.at, j.ep, s)|
  }

  /** Messages sent, received and acknowledged. */
  ghost predicate MessagesCounted(j: Job, s: Scope) {
    && Total(j.stats, j.n, s, NMS) == |Mail(j.batches, NMS, s)|
    && Total(j.stats, j.n, s, NMR) == |Mail(j.batches, NMR, s)|
    && Total(j.stats, j.n, s, NMD) == |Mail(j.batches, NMD, s)|
  }

  /** `ep` records the epoch of every write, wherever it is. */
  ghost predicate Recorded(j: Job) {
    && (forall id :: id in j.at <==> id in j.ep)
    && (forall p :: Live(j, p) ==> WriteAt(j, p).id in j.ep && j.ep[WriteAt(j, p).id] == WriteAt(j, p).epoch)
  }

  lemma TotalsCount(st: Stats, n: nat, a: At, r: Rank, e: nat, f: Field, s: Scope)
    requires r < |st.mon| && r < |st.cnt| && r < n
    ensures forall g :: Total(Count(st, a, r, e, f), n, s, g)
                     == Total(st, n, s, g) + (if g == f && InScope(e, s) then 1 else 0)
  {
    forall g ensures Total(Count(st, a, r, e, f), n, s, g)
                  == Total(st, n, s, g) + (if g == f && InScope(e, s) then 1 else 0) {
      TotalCount(st, n, a, r, e, f, s, g);
    }
  }

  // ----- writes -----

  lemma NewId(ep: map<nat, nat>, id: nat, e: nat, s: Scope)
    requires id !in ep
    ensures |Ids(ep[id := e], s)| == |Ids(ep, s)| + (if InScope(e, s) then 1 else 0)
  {
    assert Ids(ep[id := e], s) == if InScope(e, s) then Ids(ep, s) + {id} else Ids(ep, s);
  }

  lemma NewDone(at: map<nat, Place>, ep: map<nat, nat>, id: nat, e: nat, p: Place, s: Scope)
    requires !(id in at && at[id].Done?) && p.Done? && InScope(e, s)
    requires forall i :: i in at && i != id ==> (i in ep[id := e] <==> i in ep)
    ensures DoneIds(at[id := p], ep[id := e], s) == DoneIds(at, ep, s) + {id} && id !in DoneIds(at, ep, s)
  {
  }

  lemma NotNewDone(at: map<nat, Place>, ep: map<nat, nat>, id: nat, e: nat, p: Place, s: Scope)
    requires !(id in at && at[id].Done?) && !(p.Done? && InScope(e, s))
    ensures DoneIds(at[id := p], ep[id := e], s) == DoneIds(at, ep, s)
  {
  }

  /** Write `id` of epoch `e` was placed at `p`; it was not executed before. */
  lemma NewPlace(at: map<nat, Place>, ep: map<nat, nat>, id: nat, e: nat, p: Place, s: Scope)
    requires !(id in at && at[id].Done?) && (id in ep ==> ep[id] == e)
    ensures |DoneIds(at[id := p], ep[id := e], s)| == |DoneIds(at, ep, s)| + (if p.Done? && InScope(e, s) then 1 else 0)
  {
    if p.Done? && InScope(e, s) {
      NewDone(at, ep, id, e, p, s);
    } else {
      NotNewDone(at, ep, id, e, p, s);
    }
  }

  lemma MoveQueueDone(at: map<nat, Place>, ep: map<nat, nat>, r: Rank, d: Rank, nb: nat, s: Scope)
    ensures DoneIds(MoveQueue(at, r, d, nb), ep, s) == DoneIds(at, ep, s)
  {
  }

  lemma PutCounts(j: Job, w: Write, s: Scope)
    requires Recorded(j) && WritesCounted(j, s) && Enabled(j, Put(w))
    ensures WritesCounted(Apply(j, Put(w)), s)
  {
    NewId(j.ep, w.id, w.epoch, s);
    NewPlace(j.at, j.ep, w.id, w.epoch, InQueue(w.src, w.dst, |j.queues[(w.src, w.dst)].items|), s);
    TotalsCount(j.stats, j.n, j.pc[w.src], w.src, w.epoch, NW, s);
  }

  lemma LocalCounts(j: Job, w: Write, s: Scope)
    requires Recorded(j) && WritesCounted(j, s) && Enabled(j, Local(w))
    ensures WritesCounted(Apply(j, Local(w)), s)
  {
    NewId(j.ep, w.id, w.epoch, s);
    NewPlace(j.at, j.ep, w.id, w.epoch, Done(w.src, |j.logs[w.src]|), s);
    TotalsCount(j.stats, j.n, j.pc[w.src], w.src, w.epoch, NW, s);
    TotalsCount(Count(j.stats, j.pc[w.src], w.src, w.epoch, NW), j.n, j.pc[w.src], w.src, w.epoch, NLW, s);
  }

  lemma ExecCounts(j: Job, b: nat, s: Scope)
    requires Places(j) && Recorded(j) && WritesCounted(j, s) && Enabled(j, ExecOne(b))
    requires j.batches[b].frames[j.batches[b].done].epoch == j.batches[b].epo
    ensures WritesCounted(Apply(j, ExecOne(b)), s)
  {
    var x := j.batches[b];
    var w := x.frames[x.done];
    assert Live(j, InBatch(b, x.done)) && Placed(j, InBatch(b, x.done));
    NewPlace(j.at, j.ep, w.id, w.epoch, Done(x.dst, |j.logs[x.dst]|), s);
    assert j.ep[w.id := w.epoch] == j.ep;
    TotalsCount(j.stats, j.n, j.pc[x.dst], x.dst, x.epo, NFW, s);
  }

  /** Actions that only count a message. */
  lemma TickCounts(j: Job, j': Job, s: Scope, a: At, r: Rank, e: nat, f: Field)
    requires WritesCounted(j, s) && j'.n == j.n && r < j.n && r < |j.stats.mon| && r < |j.stats.cnt|
    requires j'.stats == Count(j.stats, a, r, e, f) && !(f.NW? || f.NLW? || f.NFW?)
    requires j'.ep == j.ep && DoneIds(j'.at, j.ep, s) == DoneIds(j.at, j.ep, s)
    ensures WritesCounted(j', s)
  {
    TotalsCount(j.stats, j.n, a, r, e, f, s);
  }

  lemma MovedCounts(j: Job, j': Job, ph: Phase, r: Rank, s: Scope)
    requires r < |j.stats.mon| && r < |j.stats.dumped| && j'.stats == Moved(j.stats, ph, r) && j'.n == j.n
    ensures forall g :: Total(j'.stats, j'.n, s, g) == Total(j.stats, j.n, s, g)
  {
    forall g ensures Total(j'.stats, j'.n, s, g) == Total(j.stats, j.n, s, g) {
      TotalMoved(j.stats, j.n, ph, r, s, g);
    }
  }

  lemma WritesStep(j: Job, a: Action, s: Scope)
    requires JobInv(j) && Places(j) && Recorded(j) && WritesCounted(j, s) && Enabled(j, a)
    ensures WritesCounted(Apply(j, a), s)
  {
    var j' := Apply(j, a);
    match a
    case Put(w) => PutCounts(j, w, s);
    case Local(w) => LocalCounts(j, w, s);
    case Send(r, d) =>
      MoveQueueDone(j.at, j.ep, r, d, |j.batches|, s);
      TickCounts(j, j', s, j.pc[r], r, j.queues[(r, d)].lepo, NMS);
    case Next(r) => MovedCounts(j, j', j.pc[r].ph, r, s);
    case Receive(b) => TickCounts(j, j', s, j.pc[j.batches[b].dst], j.batches[b].dst, j.batches[b].epo, NMR);
    case ExecOne(b) =>
      assert BatchOk(j.batches[b], j.pc, j.sync);
      ExecCounts(j, b, s);
    case Reply(b) =>
    case Close(b) => TickCounts(j, j', s, j.pc[j.batches[b].src], j.batches[b].src, j.batches[b].epo, NMD);
  }

  lemma RecordedMoves(j: Job, j': Job, w: Write, to: Place)
    requires Places(j) && Recorded(j) && OneMoved(j, j', w, to) && j'.ep == j.ep[w.id := w.epoch]
    requires w.id in j.ep ==> j.ep[w.id] == w.epoch
    ensures Recorded(j')
  {
    forall p | Live(j', p) ensures WriteAt(j', p).id in j'.ep && j'.ep[WriteAt(j', p).id] == WriteAt(j', p).epoch {
      if p != to {
        assert Live(j, p);
      }
    }
  }

  lemma RecordedExec(j: Job, b: nat)
    requires Places(j) && Recorded(j) && Enabled(j, ExecOne(b))
    ensures Recorded(Apply(j, ExecOne(b)))
  {
    var x := j.batches[b];
    var w := x.frames[x.done];
    assert Live(j, InBatch(b, x.done)) && WriteAt(j, InBatch(b, x.done)) == w;
    ExecMoves(j, b);
    assert j.ep[w.id := w.epoch] == j.ep;
    RecordedMoves(j, Apply(j, ExecOne(b)), w, Done(x.dst, |j.logs[x.dst]|));
  }

  lemma RecordedSend(j: Job, r: Rank, d: Rank)
    requires Recorded(j) && Enabled(j, Send(r, d))
    ensures Recorded(Apply(j, Send(r, d)))
  {
    var j' := Apply(j, Send(r, d));
    forall p | Live(j', p) ensures WriteAt(j', p).id in j'.ep && j'.ep[WriteAt(j', p).id] == WriteAt(j', p).epoch {
      if p.InBatch? && p.b == |j.batches| {
        assert Live(j, InQueue(r, d, p.k));
      } else {
        assert Live(j, p);
      }
    }
  }

  lemma RecordedStill(j: Job, a: Action)
    requires Recorded(j) && Enabled(j, a) && (a.Next? || a.Receive? || a.Reply? || a.Close?)
    ensures Recorded(Apply(j, a))
  {
    var j' := Apply(j, a);
    forall p | Live(j', p) ensures WriteAt(j', p).id in j'.ep && j'.ep[WriteAt(j', p).id] == WriteAt(j', p).epoch {
      StillLive(j, a, p);
    }
  }

  lemma RecordedStep(j: Job, a: Action)
    requires Places(j) && Recorded(j) && Enabled(j, a)
    ensures Recorded(Apply(j, a))
  {
    var j' := Apply(j, a);
    match a
    case Put(w) =>
      PutMoves(j, w);
      RecordedMoves(j, j', w, InQueue(w.src, w.dst, |j.queues[(w.src, w.dst)].items|));
    case Local(w) =>
      LocalMoves(j, w);
      RecordedMoves(j, j', w, Done(w.src, |j.logs[w.src]|));
    case Send(r, d) => RecordedSend(j, r, d);
    case ExecOne(b) => RecordedExec(j, b);
    case Next(r) => RecordedStill(j, a);
    case Receive(b) => RecordedStill(j, a);
    case Reply(b) => RecordedStill(j, a);
    case Close(b) => RecordedStill(j, a);
  }

  // ----- own writes and those of others -----

  /** Writes executed out of messages. */
  function FromMail(bs: seq<Batch>, s: Scope): nat {
    if bs == [] then 0
    else FromMail(bs[..|bs| - 1], s) + (if InScope(bs[|bs| - 1].epo, s) then bs[|bs| - 1].done else 0)
  }

  lemma FromMailSnoc(bs: seq<Batch>, x: Batch, s: Scope)
    ensures FromMail(bs + [x], s) == FromMail(bs, s) + (if InScope(x.epo, s) then x.done else 0)
  {
    assert (bs + [x])[..|bs|] == bs;
  }

  lemma {:induction false} FromMailUpdate(bs: seq<Batch>, b: nat, x: Batch, s: Scope)
    requires b < |bs| && x.epo == bs[b].epo
    ensures FromMail(bs[b := x], s) == FromMail(bs, s) + (if InScope(x.epo, s) then x.done - bs[b].done else 0)
  {
    var n := |bs| - 1;
    if b < n {
      FromMailUpdate(bs[..n], b, x, s);
      assert bs[b := x][..n] == bs[..n][b := x];
    } else {
      assert bs[b := x][..n] == bs[..n];
    }
  }

  /** What one action adds to nlw and nfw: nlw counts the writes a rank executes for itself,
      nfw those it executes out of messages. */
  ghost predicate Splits(j: Job, a: Action, j': Job, s: Scope) {
    && Total(j'.stats, j'.n, s, NLW) == Total(j.stats, j.n, s, NLW) + One(a.Local? && InScope(a.w.epoch, s))
    && Total(j'.stats, j'.n, s, NFW) + FromMail(j.batches, s) == Total(j.stats, j.n, s, NFW) + FromMail(j'.batches, s)
  }

  lemma TickSplits(j: Job, j': Job, a: Action, r: Rank, e: nat, f: Field, s: Scope)
    requires r < j.n && r < |j.stats.mon| && r < |j.stats.cnt| && r < |j.pc| && j'.n == j.n
    requires j'.stats == Count(j.stats, j.pc[r], r, e, f) && !f.NLW? && !a.Local?
    requires FromMail(j'.batches, s) == FromMail(j.batches, s) + One(f.NFW? && InScope(e, s))
    ensures Splits(j, a, j', s)
  {
    TotalsCount(j.stats, j.n, j.pc[r], r, e, f, s);
  }

  lemma LocalSplits(j: Job, w: Write, s: Scope)
    requires Enabled(j, Local(w))
    ensures Splits(j, Local(w), Apply(j, Local(w)), s)
  {
    TotalsCount(j.stats, j.n, j.pc[w.src], w.src, w.epoch, NW, s);
    TotalsCount(Count(j.stats, j.pc[w.src], w.src, w.epoch, NW), j.n, j.pc[w.src], w.src, w.epoch, NLW, s);
  }

  lemma MailSplits(j: Job, a: Action, s: Scope)
    requires Enabled(j, a) && (a.Receive? || a.ExecOne? || a.Close?)
    ensures Splits(j, a, Apply(j, a), s)
  {
    var j', x := Apply(j, a), j.batches[a.b];
    FromMailUpdate(j.batches, a.b, j'.batches[a.b], s);
    TickSplits(j, j', a, if a.Close? then x.src else x.dst, x.epo,
               if a.Receive? then NMR else if a.ExecOne? then NFW else NMD, s);
  }

  lemma SplitStep(j: Job, a: Action, s: Scope)
    requires Enabled(j, a)
    ensures Splits(j, a, Apply(j, a), s)
  {
    var j' := Apply(j, a);
    match a
    case Put(w) => TickSplits(j, j', a, w.src, w.epoch, NW, s);
    case Local(w) => LocalSplits(j, w, s);
    case Send(r, d) =>
      FromMailSnoc(j.batches, j'.batches[|j.batches|], s);
      TickSplits(j, j', a, r, j.queues[(r, d)].lepo, NMS, s);
    case Next(r) => MovedCounts(j, j', j.pc[r].ph, r, s);
    case Receive(b) => MailSplits(j, a, s);
    case ExecOne(b) => MailSplits(j, a, s);
    case Close(b) => MailSplits(j, a, s);
    case Reply(b) => FromMailUpdate(j.batches, b, j'.batches[b], s);
  }

  // ----- messages -----

  function One(b: bool): nat { if b then 1 else 0 }

  lemma NewMessage(bs: seq<Batch>, x: Batch, f: Field, s: Scope)
    ensures |Mail(bs + [x], f, s)| == |Mail(bs, f, s)| + One(IsCounted(x, f, s))
  {
    if IsCounted(x, f, s) {
      assert Mail(bs + [x], f, s) == Mail(bs, f, s) + {|bs|};
    } else {
      assert Mail(bs + [x], f, s) == Mail(bs, f, s);
    }
  }

  lemma MessageWithout(bs: seq<Batch>, b: nat, x: Batch, f: Field, s: Scope)
    requires b < |bs|
    ensures Mail(bs[b := x], f, s) - {b} == Mail(bs, f, s) - {b}
    ensures b in Mail(bs[b := x], f, s) <==> IsCounted(x, f, s)
    ensures b in Mail(bs, f, s) <==> IsCounted(bs[b], f, s)
  {
  }

  lemma CountWithout(m: set<nat>, b: nat)
    ensures |m| == |m - {b}| + One(b in m)
  {
    if b in m {
      assert m == (m - {b}) + {b};
    } else {
      assert m - {b} == m;
    }
  }

  lemma MessageUpdate(bs: seq<Batch>, b: nat, x: Batch, f: Field, s: Scope)
    requires b < |bs|
    ensures |Mail(bs[b := x], f, s)| == |Mail(bs, f, s)| - One(IsCounted(bs[b], f, s)) + One(IsCounted(x, f, s))
  {
    MessageWithout(bs, b, x, f, s);
    CountWithout(Mail(bs, f, s), b);
    CountWithout(Mail(bs[b := x], f, s), b);
  }

  lemma MessageUpdates(bs: seq<Batch>, b: nat, x: Batch, s: Scope)
    requires b < |bs|
    ensures forall f :: |Mail(bs[b := x], f, s)|
                     == |Mail(bs, f, s)| - One(IsCounted(bs[b], f, s)) + One(IsCounted(x, f, s))
  {
    forall f ensures |Mail(bs[b := x], f, s)|
                  == |Mail(bs, f, s)| - One(IsCounted(bs[b], f, s)) + One(IsCounted(x, f, s)) {
      MessageUpdate(bs, b, x, f, s);
    }
  }

  /** Batch `b` became `x`; field `f` was counted. */
  lemma BatchCounts(j: Job, j': Job, b: nat, x: Batch, s: Scope, a: At, r: Rank, f: Field)
    requires MessagesCounted(j, s) && j'.n == j.n && b < |j.batches| && j'.batches == j.batches[b := x]
    requires r < j.n && r < |j.stats.mon| && r < |j.stats.cnt| && j'.stats == Count(j.stats, a, r, x.epo, f)
    requires x.epo == j.batches[b].epo
    requires match f
             case NMR => j.batches[b].stage.Flying? && x.stage.Open?
             case NFW => j.batches[b].stage.Open? && x.stage.Open?
             case NMD => j.batches[b].stage.Replied? && x.stage.Closed?
             case NW => false
             case NLW => false
             case NMS => false
    ensures MessagesCounted(j', s)
  {
    MessageUpdates(j.batches, b, x, s);
    TotalsCount(j.stats, j.n, a, r, x.epo, f, s);
  }

  lemma ReplyCounts(j: Job, b: nat, s: Scope)
    requires MessagesCounted(j, s) && Enabled(j, Reply(b))
    ensures MessagesCounted(Apply(j, Reply(b)), s)
  {
    MessageUpdates(j.batches, b, j.batches[b].(stage := Replied), s);
  }

  lemma SendCounts(j: Job, r: Rank, d: Rank, s: Scope)
    requires MessagesCounted(j, s) && Enabled(j, Send(r, d))
    ensures MessagesCounted(Apply(j, Send(r, d)), s)
  {
    var q := j.queues[(r, d)];
    var x := Batch(r, d, q.lepo, q.items, 0, Flying);
    NewMessage(j.batches, x, NMS, s);
    NewMessage(j.batches, x, NMR, s);
    NewMessage(j.batches, x, NMD, s);
    TotalsCount(j.stats, j.n, j.pc[r], r, q.lepo, NMS, s);
  }

  lemma IssueCounts(j: Job, w: Write, s: Scope)
    requires MessagesCounted(j, s) && Shape(j) && w.src < j.n
    ensures Enabled(j, Put(w)) ==> MessagesCounted(Apply(j, Put(w)), s)
    ensures Enabled(j, Local(w)) ==> MessagesCounted(Apply(j, Local(w)), s)
  {
    TotalsCount(j.stats, j.n, j.pc[w.src], w.src, w.epoch, NW, s);
    TotalsCount(Count(j.stats, j.pc[w.src], w.src, w.epoch, NW), j.n, j.pc[w.src], w.src, w.epoch, NLW, s);
  }

  lemma MessagesStep(j: Job, a: Action, s: Scope)
    requires MessagesCounted(j, s) && Enabled(j, a)
    ensures MessagesCounted(Apply(j, a), s)
  {
    var j' := Apply(j, a);
    match a
    case Put(w) => IssueCounts(j, w, s);
    case Local(w) => IssueCounts(j, w, s);
    case Send(r, d) => SendCounts(j, r, d, s);
    case Next(r) => MovedCounts(j, j', j.pc[r].ph, r, s);
    case Receive(b) => BatchCounts(j, j', b, j'.batches[b], s, j.pc[j.batches[b].dst], j.batches[b].dst, NMR);
    case ExecOne(b) => BatchCounts(j, j', b, j'.batches[b], s, j.pc[j.batches[b].dst], j.batches[b].dst, NFW);
    case Reply(b) => ReplyCounts(j, b, s);
    case Close(b) => BatchCounts(j, j', b, j'.batches[b], s, j.pc[j.batches[b].src], j.batches[b].src, NMD);
  }
}
