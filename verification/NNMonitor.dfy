/** The counters of an epoch on the N-N shuffler: cleared by every rank when it opens the
    epoch, dumped when it opens the next one. */
module NNMonitor {
  import opened Messages
  import opened NNJobs

  /** A rank at `a` may count an event of epoch `e`: it is in that epoch, past its reset and
      before its dump; or it counts early, after its dump of the epoch before and before its
      reset, and then only what others send to it. */
  predicate OnTime(a: At, e: nat) {
    a.epoch == e && 2 <= a.ph <= 10
  }

  predicate Early(a: At, e: nat) {
    !Reach(a, e, 2) && !(2 <= a.ph <= 10)
  }

  predicate FromPeer(f: Field) {
    f.NFW? || f.NMR?
  }

  /** What the dumps and the live counters of rank `r` hold: the tally of the epoch less what
      was lost. */
  ghost predicate Balanced(c: Counters, st: Stats, r: Rank, e: nat) {
    forall f :: Get(c, f) + Get(Entry(st.lost, r, e), f) == Get(Entry(st.tally, r, e), f)
  }

  ghost predicate RankOk(st: Stats, r: Rank, a: At)
    requires r < |st.mon| && r < |st.dumped|
  {
    && |st.dumped[r]| == a.epoch + (if a.ph == 11 then 1 else 0)
    && (forall e: nat :: e < |st.dumped[r]| ==> Balanced(st.dumped[r][e], st, r, e))
    && (2 <= a.ph <= 10 ==> Balanced(st.mon[r], st, r, a.epoch))
    && (forall e: nat :: !Reach(a, e, 2) ==> Entry(st.lost, r, e) == Entry(st.tally, r, e))
    && (forall e: nat, f :: !FromPeer(f) ==> Get(Entry(st.lost, r, e), f) == 0)
  }

  ghost predicate MonOk(j: Job)
    requires Shape(j)
  {
    forall r: Rank :: r < j.n ==> RankOk(j.stats, r, j.pc[r])
  }

  lemma CountOther(st: Stats, a: At, r: Rank, e: nat, f: Field, q: Rank, b: At)
    requires r < |st.mon| && r < |st.cnt| && q < |st.mon| && q < |st.dumped| && q != r && RankOk(st, q, b)
    ensures RankOk(Count(st, a, r, e, f), q, b)
  {
    var st' := Count(st, a, r, e, f);
    forall x: nat ensures Entry(st'.tally, q, x) == Entry(st.tally, q, x)
        && Entry(st'.lost, q, x) == Entry(st.lost, q, x) {}
    forall x: nat | x < |st'.dumped[q]| ensures Balanced(st'.dumped[q][x], st', q, x) {
      assert Balanced(st.dumped[q][x], st, q, x);
    }
  }

  lemma CountSelf(st: Stats, a: At, r: Rank, e: nat, f: Field)
    requires r < |st.mon| && r < |st.cnt| && r < |st.dumped| && RankOk(st, r, a)
    requires OnTime(a, e) || (Early(a, e) && FromPeer(f) && e >= |st.dumped[r]|)
    ensures RankOk(Count(st, a, r, e, f), r, a)
  {
    var st' := Count(st, a, r, e, f);
    forall x: nat | x != e
      ensures Entry(st'.tally, r, x) == Entry(st.tally, r, x) && Entry(st'.lost, r, x) == Entry(st.lost, r, x) {}
    forall x: nat | x < |st'.dumped[r]| ensures Balanced(st'.dumped[r][x], st', r, x) {
      assert Balanced(st.dumped[r][x], st, r, x);
    }
    if OnTime(a, e) {
      assert Balanced(st.mon[r], st, r, e);
      assert Balanced(st'.mon[r], st', r, e);
    }
  }

  /** The rank is allowed to count that now. */
  predicate Timely(st: Stats, a: At, r: Rank, e: nat, f: Field) {
    OnTime(a, e) || (Early(a, e) && FromPeer(f) && (r < |st.dumped| ==> e >= |st.dumped[r]|))
  }

  lemma CountKeeps(j: Job, st: Stats, r: Rank, e: nat, f: Field)
    requires |j.pc| == j.n == |st.mon| == |st.cnt| == |st.dumped| && r < j.n && Timely(st, j.pc[r], r, e, f)
    requires forall q: Rank :: q < j.n ==> RankOk(st, q, j.pc[q])
    ensures forall q: Rank :: q < j.n ==> RankOk(Count(st, j.pc[r], r, e, f), q, j.pc[q])
  {
    forall q: Rank | q < j.n ensures RankOk(Count(st, j.pc[r], r, e, f), q, j.pc[q]) {
      if q == r {
        CountSelf(st, j.pc[r], r, e, f);
      } else {
        CountOther(st, j.pc[r], r, e, f, q, j.pc[q]);
      }
    }
  }

  /** A rank leaves its phase: clears, dumps, or does nothing with its counters. */
  lemma MoveSelf(st: Stats, r: Rank, a: At)
    requires r < |st.mon| && r < |st.dumped| && RankOk(st, r, a)
    ensures RankOk(Moved(st, a.ph, r), r, Succ(a))
  {
    var st' := Moved(st, a.ph, r);
    forall x: nat | x < |st'.dumped[r]| ensures Balanced(st'.dumped[r][x], st', r, x) {
      if x < |st.dumped[r]| {
        assert Balanced(st.dumped[r][x], st, r, x);
      } else {
        assert Balanced(st.mon[r], st, r, a.epoch);
      }
    }
    if a.ph == 1 {
      assert Entry(st.lost, r, a.epoch) == Entry(st.tally, r, a.epoch);
      assert Balanced(ZERO, st', r, a.epoch);
    } else if 2 <= a.ph <= 9 {
      assert Balanced(st.mon[r], st, r, a.epoch);
      assert Balanced(st'.mon[r], st', r, a.epoch);
    }
  }

  lemma MoveOther(st: Stats, r: Rank, ph: Phase, q: Rank, b: At)
    requires r < |st.mon| && r < |st.dumped| && q < |st.mon| && q < |st.dumped| && q != r && RankOk(st, q, b)
    ensures RankOk(Moved(st, ph, r), q, b)
  {
    var st' := Moved(st, ph, r);
    forall x: nat | x < |st'.dumped[q]| ensures Balanced(st'.dumped[q][x], st', q, x) {
      assert Balanced(st.dumped[q][x], st, q, x);
    }
    if 2 <= b.ph <= 10 {
      assert Balanced(st.mon[q], st, q, b.epoch);
      assert Balanced(st'.mon[q], st', q, b.epoch);
    }
  }

  // ----- every action -----

  /** A message of a sender that has not finished waitcb reaches its receiver in time, or
      early. */
  lemma PeerTimely(j: Job, x: Batch, f: Field)
    requires EpochInv(j) && MonOk(j) && BatchOk(x, j.pc, j.sync) && !x.stage.Closed? && FromPeer(f)
    ensures Timely(j.stats, j.pc[x.dst], x.dst, x.epo, f)
  {
    ExecTime(j.flags, j.pc, x.src, x.dst);
    assert RankOk(j.stats, x.dst, j.pc[x.dst]);
  }

  lemma MonNext(j: Job, r: Rank, j': Job)
    requires Shape(j) && MonOk(j) && r < j.n && Shape(j') && j'.n == j.n
    requires j'.pc == j.pc[r := Succ(j.pc[r])] && j'.stats == Moved(j.stats, j.pc[r].ph, r)
    ensures MonOk(j')
  {
    forall q: Rank | q < j'.n ensures RankOk(j'.stats, q, j'.pc[q]) {
      assert RankOk(j.stats, q, j.pc[q]);
      if q == r {
        MoveSelf(j.stats, r, j.pc[r]);
      } else {
        MoveOther(j.stats, r, j.pc[r].ph, q, j.pc[q]);
      }
    }
  }

  lemma MonCount(j: Job, j': Job, r: Rank, e: nat, f: Field)
    requires Shape(j) && MonOk(j) && r < j.n && Shape(j') && j'.n == j.n && j'.pc == j.pc
    requires Timely(j.stats, j.pc[r], r, e, f) && j'.stats == Count(j.stats, j.pc[r], r, e, f)
    ensures MonOk(j')
  {
    CountKeeps(j, j.stats, r, e, f);
  }

  lemma MonLocal(j: Job, j': Job, w: Write)
    requires Shape(j) && MonOk(j) && w.src < j.n && Shape(j') && j'.n == j.n && j'.pc == j.pc
             && j.pc[w.src] == At(w.epoch, 2)
    requires j'.stats == Count(Count(j.stats, j.pc[w.src], w.src, w.epoch, NW), j.pc[w.src], w.src, w.epoch, NLW)
    ensures MonOk(j')
  {
    CountKeeps(j, j.stats, w.src, w.epoch, NW);
    CountKeeps(j, Count(j.stats, j.pc[w.src], w.src, w.epoch, NW), w.src, w.epoch, NLW);
  }

  lemma MonStep(j: Job, a: Action)
    requires EpochInv(j) && MonOk(j) && Enabled(j, a) && Shape(Apply(j, a))
    ensures MonOk(Apply(j, a))
  {
    var j' := Apply(j, a);
    match a
    case Put(w) => MonCount(j, j', w.src, w.epoch, NW);
    case Local(w) => MonLocal(j, j', w);
    case Send(r, d) =>
      assert QueueOk(j.queues[(r, d)], r, d, j.pc[r]);
      MonCount(j, j', r, j.queues[(r, d)].lepo, NMS);
    case Next(r) => MonNext(j, r, j');
    case Receive(b) =>
      assert BatchOk(j.batches[b], j.pc, j.sync);
      PeerTimely(j, j.batches[b], NMR);
      MonCount(j, j', j.batches[b].dst, j.batches[b].epo, NMR);
    case ExecOne(b) =>
      assert BatchOk(j.batches[b], j.pc, j.sync);
      PeerTimely(j, j.batches[b], NFW);
      MonCount(j, j', j.batches[b].dst, j.batches[b].epo, NFW);
    case Reply(b) =>
    case Close(b) =>
      assert BatchOk(j.batches[b], j.pc, j.sync);
      MonCount(j, j', j.batches[b].src, j.batches[b].epo, NMD);
  }
}
