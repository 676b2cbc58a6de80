/** The collective drain cannot deadlock. */
module DrainProgress {
  import opened Messages
  import opened Routing
  import opened Worlds
  import opened Places
  import opened Shufflers
  import opened Drains
  import opened Progress
  import opened DrainRuns
  import opened Sums
  import opened Ranking
  import O = OutSets
  import D = Deliveries

  // ----- somebody can always go on -----

  /** Drain calls of the ranks and internal steps of the shuffler; no new writes. */
  ghost predicate CanGoOn(t: Topology, d: State) {
    (exists r :: Drains.Enabled(t, d, Next(r))) || Moving(t, d.w)
  }

  lemma {:induction false} FindSlowest(pc: map<Rank, At>, n: nat) returns (r: Rank)
    requires n > 0 && forall q: Rank :: q < n ==> q in pc
    ensures r < n && forall q: Rank :: q < n ==> Reach(pc[q], pc[r].epoch, pc[r].ph)
  {
    r := 0;
    if n > 1 {
      r := FindSlowest(pc, n - 1);
      if !Reach(pc[n - 1], pc[r].epoch, pc[r].ph) {
        r := n - 1;
      }
    }
  }

  lemma FlushSetGoesOn(t: Topology, w: World, s: SetId, p: Phase)
    requires Shufflers.Inv(t, w) && s in w.sets && !w.sets[s].flusher.Idle? && Flushing(p, s.kind)
    ensures CanCall(t, w, FlushCall(s.rank, p)) || Moving(t, w)
  {
    if !O.Enabled(w.sets[s], O.Return) {
      FlushMoves(t, w, s);
    }
  }

  lemma IsFlushing(t: Topology, w: World, pc: map<Rank, At>, s: SetId)
    requires Shape(t, w) && InStep(w, pc) && s.rank < t.n && s.rank in pc && Flushing(pc[s.rank].ph, s.kind)
    ensures s in w.sets && !w.sets[s].flusher.Idle?
  {
  }

  lemma BeginReady(t: Topology, w: World, pc: map<Rank, At>, r: Rank, kind: Kind)
    requires Shape(t, w) && InStep(w, pc) && r < t.n && r in pc && pc[r].ph < 19 && Flushing(pc[r].ph + 1, kind)
    ensures CanCall(t, w, FlushCall(r, pc[r].ph))
  {
    assert SetId(r, kind) in w.sets;
  }

  lemma DeliveryGoesOn(t: Topology, w: World, pc: map<Rank, At>, r: Rank)
    requires Locals(w) && r in w.dels && InStep(w, pc) && r in pc && pc[r].ph in {9, 10, 15, 16}
    ensures CanCall(t, w, FlushCall(r, pc[r].ph)) || Moving(t, w)
  {
    if pc[r].ph in {10, 16} && !D.Enabled(w.dels[r], D.FlushEnd) {
      DeliveryMoves(t, w, r);
    }
  }

  lemma CallGoesOn(t: Topology, d: State, r: Rank)
    requires JobInv(t, d) && r < t.n && r in d.pc
    ensures CanCall(t, d.w, FlushCall(r, d.pc[r].ph)) || Moving(t, d.w)
  {
    var p := d.pc[r].ph;
    if p == 0 || p == 3 || p == 6 || p == 12 {
      BeginReady(t, d.w, d.pc, r, if p == 0 then Origin else if p == 3 then Remote else Relay);
    } else if p == 1 || p == 4 || p == 7 || p == 13 {
      var s := SetId(r, if p == 1 then Origin else if p == 4 then Remote else Relay);
      IsFlushing(t, d.w, d.pc, s);
      FlushSetGoesOn(t, d.w, s, p);
    } else if p in {9, 10, 15, 16} {
      DeliveryGoesOn(t, d.w, d.pc, r);
    }
  }

  /** In every reachable state of every run, whichever barriers are on, some rank can make its
      next call or some thread can take a step: no combination of barriers, flushes and flow
      control is a deadlock. */
  lemma NeverDeadlocks(t: Topology, ds: seq<State>, acts: seq<Drains.Action>, n: nat)
    requires DrainRuns.Run(t, ds, acts) && n < |ds| && t.n > 0
    ensures CanGoOn(t, ds[n])
  {
    StartJob(t, ds[0]);
    StepsKeepJob(t, ds, acts, n);
    var r := FindSlowest(ds[n].pc, t.n);
    CallGoesOn(t, ds[n], r);
    if !Moving(t, ds[n].w) {
      assert Drains.Enabled(t, ds[n], Next(r));
    }
  }

  // ----- the drain completes -----

  /** Phases a rank has left until it has drained epoch `e`. */
  function Left(a: At, e: nat): nat {
    if Reach(a, e, 17) then 0 else (e - a.epoch) * 20 + 17 - a.ph
  }

  ghost function LeftAll(pc: map<Rank, At>, e: nat): nat {
    Sum(pc, (a: At) => Left(a, e))
  }

  lemma LeftNext(f: Flags, a: At, e: nat)
    requires !Reach(a, e, 17)
    ensures Left(Succ(f, a), e) < Left(a, e)
  {
  }

  lemma LeftAllNext(f: Flags, pc: map<Rank, At>, r: Rank, e: nat)
    requires r in pc && !Reach(pc[r], e, 17)
    ensures LeftAll(pc[r := Succ(f, pc[r])], e) < LeftAll(pc, e)
  {
    LeftNext(f, pc[r], e);
    SumUpdate(pc, (a: At) => Left(a, e), r, Succ(f, pc[r]));
  }

  /** A step towards the drain of epoch `e`: a call of a rank that has not drained it, or an
      internal step of the shuffler.  Nothing new is sent. */
  ghost predicate Toward(d: State, a: Drains.Action, e: nat) {
    match a
    case Next(r) => r in d.pc && !Reach(d.pc[r], e, 17)
    case Run(b) => Internal(b)
  }

  ghost predicate DrainRun(t: Topology, ds: seq<State>, acts: seq<Drains.Action>, e: nat) {
    Steps(t, ds, acts) && forall i :: 0 <= i < |acts| ==> Toward(ds[i], acts[i], e)
  }

  ghost predicate AllDrained(t: Topology, pc: map<Rank, At>, e: nat) {
    forall r: Rank :: r < t.n ==> r in pc && Reach(pc[r], e, 17)
  }

  // ----- what a call costs -----

  lemma {:induction false} RankCount(s: set<Rank>, n: nat)
    requires forall r: Rank :: r in s <==> r < n
    ensures |s| == n
  {
    if n > 0 {
      RankCount(s - {n - 1}, n - 1);
    } else {
      assert s == {};
    }
  }

  lemma BeginWeight(t: Topology, w: World, s: SetId)
    requires Shape(t, w) && s in w.sets && O.Enabled(w.sets[s], O.Begin)
    ensures SetWeight(O.Apply(w.sets[s], O.Begin)) == SetWeight(w.sets[s]) + 6 * t.n + 1
  {
    forall p: Rank ensures p in w.sets[s].qs.Keys <==> p < t.n {
      assert HasQ(w, s, p) <==> s.rank < t.n && p < t.n;
    }
    RankCount(w.sets[s].qs.Keys, t.n);
  }

  lemma SetCallWeight(t: Topology, w: World, s: SetId, b: O.Action)
    requires Shape(t, w) && s in w.sets && O.Enabled(w.sets[s], b) && (b.Begin? || b.Return?)
    ensures Work(SetStep(w, s, b)) <= Work(w) + 6 * t.n + 1
  {
    if b.Begin? {
      BeginWeight(t, w, s);
    }
    SetRank(w, s, b);
  }

  lemma DelCallWeight(w: World, r: Rank, b: D.Action)
    requires r in w.dels && D.Enabled(w.dels[r], b) && (b.FlushBegin? || b.FlushEnd?)
    ensures Work(DelStep(w, r, b)) == Work(w)
  {
    DelRank(w, r, b);
  }

  lemma CallWeight(t: Topology, w: World, r: Rank, p: Phase)
    requires Shape(t, w) && CanCall(t, w, FlushCall(r, p))
    ensures Work(After(t, w, FlushCall(r, p))) <= Work(w) + 6 * t.n + 1
  {
    var c := FlushCall(r, p);
    if c.Some? && c.value.Flush? {
      SetCallWeight(t, w, c.value.s, c.value.a);
    } else if c.Some? {
      DelCallWeight(w, c.value.r, c.value.b);
    }
  }

  // ----- every schedule drains -----

  /** More than all steps towards the drain of epoch `e` that can still come. */
  ghost function Budget(t: Topology, d: State, e: nat): nat {
    Times(LeftAll(d.pc, e), 6 * t.n + 2) + Work(d.w)
  }

  lemma BudgetNext(t: Topology, d: State, r: Rank, d': State, e: nat)
    requires Shape(t, d.w) && Step(t, d, Next(r), d') && !Reach(d.pc[r], e, 17)
    ensures Budget(t, d', e) < Budget(t, d, e)
  {
    LeftAllNext(d.flags, d.pc, r, e);
    CallWeight(t, d.w, r, d.pc[r].ph);
    TimesGrows(LeftAll(d'.pc, e), LeftAll(d.pc, e), 6 * t.n + 2);
  }

  lemma BudgetStep(t: Topology, d: State, a: Drains.Action, d': State, e: nat)
    requires JobInv(t, d) && Step(t, d, a, d') && Toward(d, a, e)
    ensures JobInv(t, d') && Budget(t, d', e) < Budget(t, d, e)
  {
    StepJob(t, d, a, d');
    match a
    case Next(r) => BudgetNext(t, d, r, d', e);
    case Run(b) => Decreases(t, d.w, b);
  }

  lemma DrainRunStep(t: Topology, ds: seq<State>, acts: seq<Drains.Action>, n: nat, e: nat)
    requires DrainRun(t, ds, acts, e) && n < |acts|
    ensures Step(t, ds[n], acts[n], ds[n + 1]) && Toward(ds[n], acts[n], e)
  {
  }

  lemma BudgetNextOf(t: Topology, ds: seq<State>, acts: seq<Drains.Action>, n: nat, e: nat)
    requires DrainRun(t, ds, acts, e) && n < |acts| && JobInv(t, ds[n])
    ensures JobInv(t, ds[n + 1]) && Budget(t, ds[n + 1], e) < Budget(t, ds[n], e)
  {
    DrainRunStep(t, ds, acts, n, e);
    BudgetStep(t, ds[n], acts[n], ds[n + 1], e);
  }

  lemma BudgetAlong(t: Topology, ds: seq<State>, acts: seq<Drains.Action>, n: nat, e: nat)
    requires DrainRun(t, ds, acts, e) && JobInv(t, ds[0]) && n < |ds|
    ensures JobInv(t, ds[n]) && Budget(t, ds[n], e) + n <= Budget(t, ds[0], e)
  {
    forall i: nat | i + 1 < |ds| && JobInv(t, ds[i])
      ensures JobInv(t, ds[i + 1]) && Budget(t, ds[i + 1], e) < Budget(t, ds[i], e)
    {
      BudgetNextOf(t, ds, acts, i, e);
    }
    Descends(ds, n, d => JobInv(t, d), d => Budget(t, d, e));
  }

  /** The next step: a call of the slowest rank, or an internal step while its flush is not
      done. */
  lemma NextToward(t: Topology, d: State, e: nat) returns (a: Drains.Action)
    requires JobInv(t, d) && t.n > 0 && !AllDrained(t, d.pc, e)
    ensures Toward(d, a, e) && Drains.Enabled(t, d, a)
  {
    var r := FindSlowest(d.pc, t.n);
    CallGoesOn(t, d, r);
    if Moving(t, d.w) {
      var b :| Internal(b) && Worlds.Enabled(t, d.w, b);
      a := Drains.Run(b);
    } else {
      a := Next(r);
    }
  }

  /** Whichever barriers are on and however threads and ranks are scheduled: as long as nothing
      new is sent, the drain of any epoch takes no more than a number of steps known at its
      start, and it cannot stop before every rank has drained. */
  lemma DrainEnds(t: Topology, ds: seq<State>, acts: seq<Drains.Action>, e: nat)
    requires DrainRun(t, ds, acts, e) && JobInv(t, ds[0]) && t.n > 0
    ensures |acts| <= Budget(t, ds[0], e)
    ensures AllDrained(t, ds[|acts|].pc, e)
            || exists a :: Toward(ds[|acts|], a, e) && Drains.Enabled(t, ds[|acts|], a)
    ensures |acts| == Budget(t, ds[0], e) ==> AllDrained(t, ds[|acts|].pc, e)
  {
    var d := ds[|acts|];
    BudgetAlong(t, ds, acts, |acts|, e);
    if !AllDrained(t, d.pc, e) {
      var a := NextToward(t, d, e);
      BudgetStep(t, d, a, Drains.Apply(t, d, a), e);
    }
  }

  lemma Cons(t: Topology, d: State, a: Drains.Action, ds: seq<State>, acts: seq<Drains.Action>, e: nat)
    requires DrainRun(t, ds, acts, e) && Step(t, d, a, ds[0]) && Toward(d, a, e)
    ensures DrainRun(t, [d] + ds, [a] + acts, e)
  {
    var ds', acts' := [d] + ds, [a] + acts;
    forall i | 0 <= i < |acts'| ensures Step(t, ds'[i], acts'[i], ds'[i + 1]) && Toward(ds'[i], acts'[i], e) {
      if i > 0 {
        assert Step(t, ds[i - 1], acts[i - 1], ds[i]) && Toward(ds[i - 1], acts[i - 1], e);
      }
    }
  }

  lemma StepToward(t: Topology, d: State, e: nat) returns (a: Drains.Action, d': State)
    requires JobInv(t, d) && t.n > 0 && !AllDrained(t, d.pc, e)
    ensures Step(t, d, a, d') && Toward(d, a, e) && JobInv(t, d') && Budget(t, d', e) < Budget(t, d, e)
  {
    a := NextToward(t, d, e);
    d' := Drains.Apply(t, d, a);
    BudgetStep(t, d, a, d', e);
  }

  /** And from every reachable state such a schedule exists. */
  lemma {:induction false} DrainCompletes(t: Topology, d: State, e: nat)
      returns (ds: seq<State>, acts: seq<Drains.Action>)
    requires JobInv(t, d) && t.n > 0
    ensures DrainRun(t, ds, acts, e) && ds[0] == d && AllDrained(t, ds[|acts|].pc, e)
    decreases Budget(t, d, e)
  {
    if AllDrained(t, d.pc, e) {
      ds, acts := [d], [];
    } else {
      var a, d' := StepToward(t, d, e);
      var ds', acts' := DrainCompletes(t, d', e);
      ds, acts := [d] + ds', [a] + acts';
      Cons(t, d, a, ds', acts', e);
    }
  }
}
