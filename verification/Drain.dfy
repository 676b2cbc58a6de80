/** The staged drain that ends every epoch on the three-hop shuffler: the calls of
    `xn_shuffler_epoch_end`, the barriers of `opendir`, `xn_shuffler_epoch_start` and the
    epoch flush, made by every rank, epoch after epoch. */
module Drains {
  import opened Messages
  import opened Routing
  import opened Worlds
  import opened Acks
  import opened Places
  import opened Shufflers
  import Q = QueueLogs
  import O = OutSets
  import D = Deliveries

  /** How far a rank is within an epoch:
        0 writing                 1 flushing origin queues
        2 at the local barrier    3 past it
        4 flushing remote queues  5 at the pre barrier        6 past it
        7 flushing relay queues   8 at the local barrier      9 past it
       10 flushing delivery      11 at the barrier of opendir
       12 past it                13 flushing relay queues
       14 at the local barrier   15 past it
       16 flushing delivery      17 drained, before the epoch flush
       18 epoch flushed, at the post barrier
       19 past it, before num_epochs++
      Without the pre barrier a rank goes from 5 straight to 11.
      Epoch e is the one with num_epochs == e; epoch 0 is the time before the first opendir. */
  type Phase = p: int | 0 <= p <= 19

  datatype At = At(epoch: nat, ph: Phase)

  /** Has a rank come as far as phase `p` of epoch `e`? */
  predicate Reach(a: At, e: nat, p: int) {
    a.epoch > e || (a.epoch == e && a.ph >= p)
  }

  /** `pc` says where every rank is.  `stamp` is history: the epoch whose drain the sender of a
      request had not yet begun when it sent it. */
  datatype State = State(w: World, pc: map<Rank, At>, stamp: map<nat, nat>, flags: Flags)

  /** The first relay flush behind a barrier of all ranks: the one of closedir if the pre
      barrier is on, otherwise the one of opendir. */
  function RelayPhase(f: Flags): (p: Phase)
    ensures p <= 13
  {
    if f.pre then 7 else 13
  }

  /** The phase in which everything of the epoch has been delivered. */
  function Drained(f: Flags): Phase {
    RelayPhase(f) + 4
  }

  function FlushPhase(f: Flags, k: Kind): Phase {
    match k case Origin => 1 case Remote => 4 case Relay => RelayPhase(f)
  }

  datatype Action = Run(a: Worlds.Action) | Next(r: Rank)

  /** World actions other than the drain's own flush calls. */
  predicate Background(a: Worlds.Action) {
    && !(a.Flush? && (a.a.Begin? || a.a.Return?))
    && !(a.Deliver? && (a.b.FlushBegin? || a.b.FlushEnd?))
  }

  /** The call a rank makes to leave its phase, if that is a flush call. */
  function FlushCall(r: Rank, p: Phase): (c: Option<Worlds.Action>)
    ensures c.Some? ==> c.value.Flush? || c.value.Deliver?
  {
    if p == 0 then Some(Flush(SetId(r, Origin), O.Begin))
    else if p == 1 then Some(Flush(SetId(r, Origin), O.Return))
    else if p == 3 then Some(Flush(SetId(r, Remote), O.Begin))
    else if p == 4 then Some(Flush(SetId(r, Remote), O.Return))
    else if p == 6 || p == 12 then Some(Flush(SetId(r, Relay), O.Begin))
    else if p == 7 || p == 13 then Some(Flush(SetId(r, Relay), O.Return))
    else if p == 9 || p == 15 then Some(Deliver(r, D.FlushBegin))
    else if p == 10 || p == 16 then Some(Deliver(r, D.FlushEnd))
    else None
  }

  ghost predicate CanCall(t: Topology, w: World, c: Option<Worlds.Action>) {
    c.Some? ==> Worlds.Enabled(t, w, c.value)
  }

  ghost function After(t: Topology, w: World, c: Option<Worlds.Action>): World
    requires CanCall(t, w, c)
  {
    if c.Some? then Worlds.Apply(t, w, c.value) else w
  }

  /** Barriers of the node, and barriers of all ranks that are on. */
  predicate LocalBarrier(p: Phase) { p == 2 || p == 8 || p == 14 }

  predicate GlobalBarrier(f: Flags, p: Phase) {
    (p == 5 && f.pre) || (p == 11 && f.main) || (p == 18 && f.post)
  }

  /** Everybody concerned has arrived. */
  ghost predicate BarrierOpen(t: Topology, f: Flags, pc: map<Rank, At>, r: Rank, a: At) {
    && (LocalBarrier(a.ph) ==>
          forall q: Rank :: q < t.n && t.node(q) == t.node(r) ==> q in pc && Reach(pc[q], a.epoch, a.ph))
    && (GlobalBarrier(f, a.ph) ==> forall q: Rank :: q < t.n ==> q in pc && Reach(pc[q], a.epoch, a.ph))
  }

  function Succ(f: Flags, a: At): At {
    if a.ph == 5 && !f.pre then At(a.epoch, 11)
    else if a.ph < 19 then At(a.epoch, a.ph + 1) else At(a.epoch + 1, 0)
  }

  ghost predicate Enabled(t: Topology, d: State, a: Action) {
    match a
    case Run(b) => Background(b) && Worlds.Enabled(t, d.w, b) && (b.SendReq? ==> b.g.src in d.pc)
    case Next(r) =>
      r < t.n && r in d.pc && BarrierOpen(t, d.flags, d.pc, r, d.pc[r]) && CanCall(t, d.w, FlushCall(r, d.pc[r].ph))
  }

  /** The first drain that a rank has yet to begin. */
  function Coming(a: At): nat {
    if a.ph == 0 then a.epoch else a.epoch + 1
  }

  ghost function Apply(t: Topology, d: State, a: Action): State
    requires Enabled(t, d, a)
  {
    match a
    case Run(b) =>
      d.(w := Worlds.Apply(t, d.w, b),
         stamp := if b.SendReq? then d.stamp[b.g.id := Coming(d.pc[b.g.src])] else d.stamp)
    case Next(r) => d.(w := After(t, d.w, FlushCall(r, d.pc[r].ph)), pc := d.pc[r := Succ(d.flags, d.pc[r])])
  }

  // ----- invariant -----

  /** The running flush will not return before position `k` of queue `p` is answered. */
  predicate Covered(s: O.OutSet, p: Rank, k: nat) {
    p in s.qs && (O.ToDo(s.flusher, p) || k < s.qs[p].snap)
  }

  predicate HeldAt(f: Flags, s: O.OutSet, kind: Kind, a: At, e: nat, p: Rank, k: nat) {
    !Reach(a, e, FlushPhase(f, kind) + 1) && (a == At(e, FlushPhase(f, kind)) ==> Covered(s, p, k))
  }

  predicate Due(f: Flags, d: D.DelivQ, a: At, e: nat, k: nat) {
    (a == At(e, RelayPhase(f) + 3) ==> k < d.snap) && (Reach(a, e, Drained(f)) ==> k < d.done)
  }

  /** A request stamped `e` may be at `l`: the stages already flushed for epoch `e` are
      empty of such requests. */
  predicate Held(f: Flags, w: World, pc: map<Rank, At>, l: Loc, e: nat) {
    match l
    case AtQueue(s, p, k) => s in w.sets && s.rank in pc && HeldAt(f, w.sets[s], s.kind, pc[s.rank], e, p, k)
    case AtDelivery(r, k) => r in w.dels && r in pc && Due(f, w.dels[r], pc[r], e, k)
  }

  ghost predicate Barriers(t: Topology, f: Flags, pc: map<Rank, At>) {
    && (forall r: Rank :: r in pc <==> r < t.n)
    && (forall r, q, e: nat ::
          r in pc && q in pc && t.node(q) == t.node(r) && Reach(pc[r], e, 3) ==> Reach(pc[q], e, 2))
    && (f.pre ==> forall r, q, e: nat :: r in pc && q in pc && Reach(pc[r], e, 6) ==> Reach(pc[q], e, 5))
    && (f.pre ==> forall r, q, e: nat ::
          r in pc && q in pc && t.node(q) == t.node(r) && Reach(pc[r], e, 9) ==> Reach(pc[q], e, 8))
    && (f.main ==> forall r, q, e: nat :: r in pc && q in pc && Reach(pc[r], e, 12) ==> Reach(pc[q], e, 11))
    && (forall r, q, e: nat ::
          r in pc && q in pc && t.node(q) == t.node(r) && Reach(pc[r], e, 15) ==> Reach(pc[q], e, 14))
    && (f.post ==> forall r, q, e: nat :: r in pc && q in pc && Reach(pc[r], e, 19) ==> Reach(pc[q], e, 18))
  }

  predicate HeldReq(f: Flags, w: World, pc: map<Rank, At>, stamp: map<nat, nat>, g: nat) {
    g in w.loc && g in stamp && Held(f, w, pc, w.loc[g], stamp[g])
  }

  /** A rank in phase `p` is flushing its set of that kind. */
  predicate Flushing(p: Phase, k: Kind) {
    match k case Origin => p == 1 case Remote => p == 4 case Relay => p == 7 || p == 13
  }

  /** A flush is under way exactly where the rank's phase says so. */
  ghost predicate InStep(w: World, pc: map<Rank, At>) {
    && (forall s :: s in w.sets && s.rank in pc ==> (w.sets[s].flusher.Idle? <==> !Flushing(pc[s.rank].ph, s.kind)))
    && (forall r :: r in w.dels && r in pc ==> (w.dels[r].flushing <==> pc[r].ph == 10 || pc[r].ph == 16))
  }

  /** A barrier of all ranks lies between the flush of the remote queues and some flush of the
      relay queues. */
  predicate Synced(f: Flags) {
    f.pre || f.main
  }

  /** What holds whichever barriers of all ranks are on. */
  ghost predicate JobInv(t: Topology, d: State) {
    Shufflers.Inv(t, d.w) && Barriers(t, d.flags, d.pc) && InStep(d.w, d.pc)
  }

  ghost predicate Inv(t: Topology, d: State) {
    Synced(d.flags) && JobInv(t, d) && forall g :: g in d.w.loc ==> HeldReq(d.flags, d.w, d.pc, d.stamp, g)
  }

  lemma BarriersNext(t: Topology, f: Flags, pc: map<Rank, At>, r: Rank)
    requires Barriers(t, f, pc) && r in pc && BarrierOpen(t, f, pc, r, pc[r])
    ensures Barriers(t, f, pc[r := Succ(f, pc[r])])
  {
    var pc' := pc[r := Succ(f, pc[r])];
    forall q, e: nat, p: int | q in pc && Reach(pc[q], e, p) ensures Reach(pc'[q], e, p) {}
    forall q, e: nat, p: int | q in pc && 0 < p <= 19 && Reach(pc'[q], e, p) && !Reach(pc[q], e, p)
      ensures q == r && (pc[r] == At(e, p - 1) || (!f.pre && pc[r] == At(e, 5) && p <= 11)) {}
  }

  // ----- what an action does to a place -----

  lemma CoveredStep(s: O.OutSet, a: O.Action, p: Rank, k: nat)
    requires O.Enabled(s, a) && !a.Begin? && !a.Return? && Covered(s, p, k) && k < |s.qs[p].accepted|
    ensures Covered(O.Apply(s, a), p, k)
  {
    if a == O.StartQ(p) {
      O.LookStep(s, p);
    } else {
      if O.ToDo(s.flusher, p) {
        O.ToDoStep(s, a, p);
      }
      SnapKept(s, a, p);
    }
  }

  lemma SnapKept(s: O.OutSet, a: O.Action, p: Rank)
    requires O.Enabled(s, a) && p in s.qs && a != O.StartQ(p)
    ensures p in O.Apply(s, a).qs && O.Apply(s, a).qs[p].snap == s.qs[p].snap
  {
  }

  lemma HeldQueueStep(t: Topology, f: Flags, w: World, pc: map<Rank, At>, a: Worlds.Action, s: SetId, p: Rank, k: nat,
      e: nat)
    requires Worlds.Enabled(t, w, a) && Background(a) && LocValid(w, AtQueue(s, p, k))
             && Held(f, w, pc, AtQueue(s, p, k), e)
    ensures Held(f, Worlds.Apply(t, w, a), pc, AtQueue(s, p, k), e)
  {
    var b := SetAction(t, w, a, s);
    SetAfter(t, w, a, s);
    if b.Some? && Covered(w.sets[s], p, k) {
      CoveredStep(w.sets[s], b.value, p, k);
    }
  }

  lemma HeldStep(t: Topology, f: Flags, w: World, pc: map<Rank, At>, a: Worlds.Action, l: Loc, e: nat)
    requires Worlds.Enabled(t, w, a) && Background(a) && LocValid(w, l) && Held(f, w, pc, l, e)
    ensures Held(f, Worlds.Apply(t, w, a), pc, l, e)
  {
    match l
    case AtQueue(s, p, k) => HeldQueueStep(t, f, w, pc, a, s, p, k, e);
    case AtDelivery(r, k) => DelivAfter(t, w, a, r);
  }

  /** The flush of that stage for epoch `e` has not begun. */
  predicate Before(f: Flags, pc: map<Rank, At>, tgt: Target, e: nat) {
    match tgt
    case Via(s, p) => s.rank in pc && !Reach(pc[s.rank], e, FlushPhase(f, s.kind))
    case ToSelf(r) => r in pc && !Reach(pc[r], e, RelayPhase(f) + 2)
    case Panic => false
  }

  /** The barriers between two ranks, for one epoch. */
  lemma BarrierAt(t: Topology, f: Flags, pc: map<Rank, At>, r: Rank, q: Rank, e: nat)
    requires Barriers(t, f, pc) && r in pc && q in pc && Synced(f)
    ensures Reach(pc[r], e, RelayPhase(f)) ==> Reach(pc[q], e, 5)
    ensures t.node(q) == t.node(r) && Reach(pc[r], e, 3) ==> Reach(pc[q], e, 2)
    ensures t.node(q) == t.node(r) && Reach(pc[r], e, RelayPhase(f) + 2) ==> Reach(pc[q], e, RelayPhase(f) + 1)
  {
    assert f.pre && Reach(pc[r], e, 6) ==> Reach(pc[q], e, 5);
    assert f.main && Reach(pc[r], e, 12) ==> Reach(pc[q], e, 11);
    assert t.node(q) == t.node(r) && Reach(pc[r], e, 15) ==> Reach(pc[q], e, 14);
  }

  /** A request at a set that is not yet flushed is handed to a stage whose flush has not
      begun. */
  lemma AheadOk(t: Topology, f: Flags, pc: map<Rank, At>, g: Request, l: Loc, tgt: Target, e: nat)
    requires Contract(t) && Barriers(t, f, pc) && Synced(f) && TargetOk(t, g, tgt) && g.dst < t.n
    requires l.AtQueue? && OnPath(t, l.set_, l.peer, g) && !Reach(pc[l.set_.rank], e, FlushPhase(f, l.set_.kind) + 1)
    requires tgt.Via? ==> Stage(tgt.set_.kind) > Stage(l.set_.kind)
    ensures Before(f, pc, tgt, e)
  {
    BarrierAt(t, f, pc, if tgt.Via? then tgt.set_.rank else g.dst, l.set_.rank, e);
    assert HopOk(t, l.set_.rank, g.dst);
  }

  /** A sender that has not begun the drain of epoch `e` sends to such a stage, too. */
  lemma SendAhead(t: Topology, f: Flags, pc: map<Rank, At>, g: Request, tgt: Target, e: nat)
    requires Contract(t) && Barriers(t, f, pc) && Synced(f) && TargetOk(t, g, tgt) && g.dst < t.n
    requires g.src in pc && !Reach(pc[g.src], e, 1)
    ensures Before(f, pc, tgt, e)
  {
    BarrierAt(t, f, pc, if tgt.Via? then tgt.set_.rank else g.dst, g.src, e);
  }

  /** A request put where the flush has not begun is held there. */
  lemma PutHeld(t: Topology, f: Flags, w: World, w': World, pc: map<Rank, At>, tgt: Target, e: nat)
    requires TargetExists(w, tgt) && Before(f, pc, tgt, e)
    requires tgt.Via? ==> tgt.set_ in w'.sets
    requires tgt.ToSelf? ==> tgt.r in w'.dels
    ensures Held(f, w', pc, NextLoc(w, tgt), e)
  {
  }

  lemma HandleAhead(t: Topology, d: State, id: RpcId)
    requires Inv(t, d) && Worlds.Enabled(t, d.w, Handle(id))
    ensures var (g, tgt) := Moved(t, d.w, Handle(id)).value;
            && g.id in d.stamp && g.id in d.w.loc && ReqAt(d.w, d.w.loc[g.id]) == g && TargetExists(d.w, tgt)
            && Before(d.flags, d.pc, tgt, d.stamp[g.id])
  {
    var (g, tgt) := Moved(t, d.w, Handle(id)).value;
    HandleRoute(t, d.w, id);
    assert HeldReq(d.flags, d.w, d.pc, d.stamp, g.id);
    assert PathOk(t, d.w, SourceLoc(d.w, id));
    AheadOk(t, d.flags, d.pc, g, SourceLoc(d.w, id), tgt, d.stamp[g.id]);
  }

  lemma TargetStays(t: Topology, w: World, a: Worlds.Action, tgt: Target)
    requires Worlds.Enabled(t, w, a) && TargetExists(w, tgt)
    ensures tgt.Via? ==> tgt.set_ in Worlds.Apply(t, w, a).sets
    ensures tgt.ToSelf? ==> tgt.r in Worlds.Apply(t, w, a).dels
  {
    if tgt.Via? {
      SetAfter(t, w, a, tgt.set_);
    } else {
      DelAfter(t, w, a, tgt.r);
    }
  }

  /** The request an action moves is put where it is held. */
  lemma MovedHeld(t: Topology, d: State, a: Worlds.Action)
    requires Inv(t, d) && Enabled(t, d, Run(a)) && Moved(t, d.w, a).Some?
    ensures var (g, tgt) := Moved(t, d.w, a).value;
            && TargetExists(d.w, tgt) && g.id in Apply(t, d, Run(a)).stamp
            && Held(d.flags, Worlds.Apply(t, d.w, a), d.pc, NextLoc(d.w, tgt), Apply(t, d, Run(a)).stamp[g.id])
  {
    var (g, tgt) := Moved(t, d.w, a).value;
    if a.Handle? {
      HandleAhead(t, d, a.id);
      TargetStays(t, d.w, a, tgt);
      PutHeld(t, d.flags, d.w, Worlds.Apply(t, d.w, a), d.pc, tgt, d.stamp[g.id]);
    } else {
      SendTarget(t, g);
      SendAhead(t, d.flags, d.pc, g, tgt, Coming(d.pc[g.src]));
      TargetStays(t, d.w, a, tgt);
      PutHeld(t, d.flags, d.w, Worlds.Apply(t, d.w, a), d.pc, tgt, Coming(d.pc[g.src]));
    }
  }

  lemma ReqStays(
      t: Topology, f: Flags, w: World, w': World, pc: map<Rank, At>,
      stamp: map<nat, nat>, stamp': map<nat, nat>, g: nat, m: Option<(Request, Target)>)
    requires Moves(t, w, w', m) && g in w'.loc && (m.Some? ==> m.value.0.id != g)
    requires HeldReq(f, w, pc, stamp, g) ==> g in stamp' && stamp'[g] == stamp[g] && Held(f, w', pc, w.loc[g], stamp[g])
    requires forall i :: i in w.loc ==> HeldReq(f, w, pc, stamp, i)
    ensures HeldReq(f, w', pc, stamp', g)
  {
    assert g in w.loc;
  }

  /** A request that is not moved keeps its epoch and its place. */
  lemma StampKept(t: Topology, d: State, a: Worlds.Action, g: nat)
    requires Inv(t, d) && Enabled(t, d, Run(a)) && (Moved(t, d.w, a).Some? ==> Moved(t, d.w, a).value.0.id != g)
    ensures HeldReq(d.flags, d.w, d.pc, d.stamp, g)
        ==> var stamp' := Apply(t, d, Run(a)).stamp;
            && g in stamp' && stamp'[g] == d.stamp[g]
            && Held(d.flags, Worlds.Apply(t, d.w, a), d.pc, d.w.loc[g], d.stamp[g])
  {
    if HeldReq(d.flags, d.w, d.pc, d.stamp, g) {
      HeldStep(t, d.flags, d.w, d.pc, a, d.w.loc[g], d.stamp[g]);
    }
  }

  /** A background action keeps every request within the stages not yet flushed. */
  lemma ReqStep(t: Topology, d: State, a: Worlds.Action, g: nat)
    requires Inv(t, d) && Enabled(t, d, Run(a)) && g in Worlds.Apply(t, d.w, a).loc
    ensures HeldReq(d.flags, Worlds.Apply(t, d.w, a), d.pc, Apply(t, d, Run(a)).stamp, g)
  {
    StepMoves(t, d.w, a);
    if Moved(t, d.w, a).Some? && Moved(t, d.w, a).value.0.id == g {
      MovedHeld(t, d, a);
    } else {
      StampKept(t, d, a, g);
      ReqStays(t, d.flags, d.w, Worlds.Apply(t, d.w, a), d.pc, d.stamp, Apply(t, d, Run(a)).stamp, g, Moved(t, d.w, a));
    }
  }

  lemma IdleKept(s: O.OutSet, a: O.Action)
    requires O.Enabled(s, a) && !a.Begin? && !a.Return?
    ensures O.Apply(s, a).flusher.Idle? == s.flusher.Idle?
  {
  }

  lemma RunInStep(t: Topology, w: World, pc: map<Rank, At>, a: Worlds.Action, w': World)
    requires InStep(w, pc) && Worlds.Enabled(t, w, a) && Background(a) && w' == Worlds.Apply(t, w, a)
    requires w'.sets.Keys == w.sets.Keys && w'.dels.Keys == w.dels.Keys
    ensures InStep(w', pc)
  {
    forall s | s in w'.sets && s.rank in pc ensures w'.sets[s].flusher.Idle? <==> !Flushing(pc[s.rank].ph, s.kind) {
      assert s in w.sets.Keys;
      SetAfter(t, w, a, s);
      var b := SetAction(t, w, a, s);
      if b.Some? {
        IdleKept(w.sets[s], b.value);
      }
    }
    forall r | r in w'.dels && r in pc ensures w'.dels[r].flushing <==> pc[r].ph == 10 || pc[r].ph == 16 {
      assert r in w.dels.Keys;
      DelAfter(t, w, a, r);
    }
  }

  lemma SameKeys(t: Topology, w: World, w': World)
    requires Shape(t, w) && Shape(t, w')
    ensures w'.sets.Keys == w.sets.Keys && w'.dels.Keys == w.dels.Keys
  {
    forall s: SetId ensures s in w'.sets.Keys <==> s in w.sets.Keys {}
    forall r: Rank ensures r in w'.dels.Keys <==> r in w.dels.Keys {}
  }

  lemma RunKeepsJob(t: Topology, d: State, a: Worlds.Action)
    requires JobInv(t, d) && Enabled(t, d, Run(a))
    ensures JobInv(t, Apply(t, d, Run(a)))
  {
    Shufflers.StepKeeps(t, d.w, a);
    SameKeys(t, d.w, Worlds.Apply(t, d.w, a));
    RunInStep(t, d.w, d.pc, a, Worlds.Apply(t, d.w, a));
  }

  lemma RunKeepsInv(t: Topology, d: State, a: Worlds.Action)
    requires Inv(t, d) && Enabled(t, d, Run(a))
    ensures Inv(t, Apply(t, d, Run(a)))
  {
    RunKeepsJob(t, d, a);
    forall g | g in Worlds.Apply(t, d.w, a).loc
        ensures HeldReq(d.flags, Worlds.Apply(t, d.w, a), d.pc, Apply(t, d, Run(a)).stamp, g) {
      ReqStep(t, d, a, g);
    }
  }

  // ----- what a rank's own drain call does -----

  /** A flush of a set returns: no request it had to wait for is left there. */
  lemma ReturnEmpties(w: World, s: SetId, p: Rank, k: nat)
    requires HasQ(w, s, p) && O.Inv(w.sets[s]) && O.Enabled(w.sets[s], O.Return) && QueuePlaced(w, s, p)
    requires Covered(w.sets[s], p, k)
    ensures !Here(w, AtQueue(s, p, k))
  {
    O.QuietAtReturn(w.sets[s]);
    assert Q.Settled(w.sets[s].qs[p]);
  }

  /** The call on the set of that kind that a rank in phase `ph` makes. */
  function SetCall(ph: Phase, kind: Kind): Option<O.Action> {
    if Flushing(ph, kind) then Some(O.Return) else if ph < 19 && Flushing(ph + 1, kind) then Some(O.Begin) else None
  }

  lemma AfterSet(t: Topology, w: World, r: Rank, ph: Phase, s: SetId)
    requires CanCall(t, w, FlushCall(r, ph)) && s in w.sets
    ensures var c := if s.rank == r then SetCall(ph, s.kind) else None;
            && s in After(t, w, FlushCall(r, ph)).sets && (c.Some? ==> O.Enabled(w.sets[s], c.value))
            && After(t, w, FlushCall(r, ph)).sets[s] == if c.Some? then O.Apply(w.sets[s], c.value) else w.sets[s]
  {
  }

  lemma AfterDel(t: Topology, w: World, r: Rank, ph: Phase, q: Rank)
    requires CanCall(t, w, FlushCall(r, ph)) && q in w.dels
    ensures var d, d' := w.dels[q], After(t, w, FlushCall(r, ph)).dels;
            && q in d'
            && (q == r && (ph == 9 || ph == 15) ==>
                  D.Enabled(d, D.FlushBegin) && d'[q] == D.Apply(w.dcfg, d, D.FlushBegin))
            && (q == r && (ph == 10 || ph == 16) ==>
                  D.Enabled(d, D.FlushEnd) && d'[q] == D.Apply(w.dcfg, d, D.FlushEnd))
            && (q != r || ph < 9 || 10 < ph < 15 || ph > 16 ==> d'[q] == d)
  {
  }

  lemma BeginCovers(s: O.OutSet, p: Rank, k: nat)
    requires O.Enabled(s, O.Begin) && p in s.qs
    ensures Covered(O.Apply(s, O.Begin), p, k)
  {
  }

  /** The call that leads into, or out of, the phase that flushes for the drain. */
  lemma SetCallAt(f: Flags, a: At, e: nat, kind: Kind)
    ensures a == At(e, FlushPhase(f, kind)) ==> SetCall(a.ph, kind) == Some(O.Return)
    ensures Succ(f, a) == At(e, FlushPhase(f, kind)) ==> SetCall(a.ph, kind) == Some(O.Begin)
    ensures Reach(Succ(f, a), e, FlushPhase(f, kind) + 1) && !Reach(a, e, FlushPhase(f, kind) + 1)
            ==> a == At(e, FlushPhase(f, kind))
  {
  }

  lemma HeldQueueNext(f: Flags, w: World, s: SetId, o: O.OutSet, a: At, e: nat, p: Rank, k: nat)
    requires HasQ(w, s, p) && O.Inv(w.sets[s]) && QueuePlaced(w, s, p)
    requires HeldAt(f, w.sets[s], s.kind, a, e, p, k) && Here(w, AtQueue(s, p, k))
    requires var c := SetCall(a.ph, s.kind);
             if c.Some? then O.Enabled(w.sets[s], c.value) && o == O.Apply(w.sets[s], c.value) else o == w.sets[s]
    ensures HeldAt(f, o, s.kind, Succ(f, a), e, p, k)
  {
    SetCallAt(f, a, e, s.kind);
    if a == At(e, FlushPhase(f, s.kind)) {
      ReturnEmpties(w, s, p, k);
    } else if Succ(f, a) == At(e, FlushPhase(f, s.kind)) {
      BeginCovers(w.sets[s], p, k);
    }
  }

  lemma DueNext(f: Flags, c: D.Config, d: D.DelivQ, d': D.DelivQ, a: At, e: nat, k: nat)
    requires k < |d.accepted| && D.Inv(c, d) && Due(f, d, a, e, k)
    requires a.ph == 9 || a.ph == 15 ==> D.Enabled(d, D.FlushBegin) && d' == D.Apply(c, d, D.FlushBegin)
    requires a.ph == 10 || a.ph == 16 ==> D.Enabled(d, D.FlushEnd) && d' == D.Apply(c, d, D.FlushEnd)
    requires a.ph < 9 || 10 < a.ph < 15 || a.ph > 16 ==> d' == d
    ensures Due(f, d', Succ(f, a), e, k)
  {
    if a.ph == 10 || a.ph == 16 {
      D.FlushReturnsExactly(c, d);
    }
  }

  lemma HeldNextQueue(t: Topology, f: Flags, w: World, pc: map<Rank, At>, r: Rank, s: SetId, p: Rank, k: nat, e: nat)
    requires HasQ(w, s, p) && O.Inv(w.sets[s]) && QueuePlaced(w, s, p) && r in pc
             && CanCall(t, w, FlushCall(r, pc[r].ph))
    requires Held(f, w, pc, AtQueue(s, p, k), e) && Here(w, AtQueue(s, p, k))
    ensures Held(f, After(t, w, FlushCall(r, pc[r].ph)), pc[r := Succ(f, pc[r])], AtQueue(s, p, k), e)
  {
    AfterSet(t, w, r, pc[r].ph, s);
    if s.rank == r {
      HeldQueueNext(f, w, s, After(t, w, FlushCall(r, pc[r].ph)).sets[s], pc[r], e, p, k);
    }
  }

  lemma HeldNextDelivery(t: Topology, f: Flags, w: World, pc: map<Rank, At>, r: Rank, q: Rank, k: nat, e: nat)
    requires q in w.dels && D.Inv(w.dcfg, w.dels[q]) && r in pc && CanCall(t, w, FlushCall(r, pc[r].ph))
    requires Held(f, w, pc, AtDelivery(q, k), e) && LocValid(w, AtDelivery(q, k))
    ensures Held(f, After(t, w, FlushCall(r, pc[r].ph)), pc[r := Succ(f, pc[r])], AtDelivery(q, k), e)
  {
    AfterDel(t, w, r, pc[r].ph, q);
    if q == r {
      DueNext(f, w.dcfg, w.dels[q], After(t, w, FlushCall(r, pc[r].ph)).dels[q], pc[r], e, k);
    }
  }

  lemma HeldNext(t: Topology, f: Flags, w: World, pc: map<Rank, At>, r: Rank, l: Loc, e: nat)
    requires Locals(w) && Placed(w) && r in pc && CanCall(t, w, FlushCall(r, pc[r].ph)) && Held(f, w, pc, l, e)
             && Here(w, l)
    ensures Held(f, After(t, w, FlushCall(r, pc[r].ph)), pc[r := Succ(f, pc[r])], l, e)
  {
    match l
    case AtQueue(s, p, k) => HeldNextQueue(t, f, w, pc, r, s, p, k, e);
    case AtDelivery(q, k) => HeldNextDelivery(t, f, w, pc, r, q, k, e);
  }

  lemma CallMoves(t: Topology, w: World, c: Option<Worlds.Action>)
    requires Shufflers.Inv(t, w) && CanCall(t, w, c) && (c.Some? ==> c.value.Flush? || c.value.Deliver?)
    ensures Extends(w, After(t, w, c), None) && After(t, w, c).loc == w.loc
  {
    if c.Some? {
      QuietMoves(t, w, c.value);
    } else {
      ExtendsSelf(w, w);
    }
  }

  lemma CallKeeps(t: Topology, w: World, c: Option<Worlds.Action>)
    requires Shufflers.Inv(t, w) && CanCall(t, w, c)
    ensures Shufflers.Inv(t, After(t, w, c))
  {
    if c.Some? {
      Shufflers.StepKeeps(t, w, c.value);
    }
  }

  lemma NextInStep(t: Topology, f: Flags, w: World, pc: map<Rank, At>, r: Rank, w': World)
    requires InStep(w, pc) && r in pc && CanCall(t, w, FlushCall(r, pc[r].ph))
             && w' == After(t, w, FlushCall(r, pc[r].ph))
    requires w'.sets.Keys == w.sets.Keys && w'.dels.Keys == w.dels.Keys
    ensures InStep(w', pc[r := Succ(f, pc[r])])
  {
    var pc' := pc[r := Succ(f, pc[r])];
    forall s | s in w'.sets && s.rank in pc' ensures w'.sets[s].flusher.Idle? <==> !Flushing(pc'[s.rank].ph, s.kind) {
      assert s in w.sets.Keys;
      AfterSet(t, w, r, pc[r].ph, s);
    }
    forall q | q in w'.dels && q in pc' ensures w'.dels[q].flushing <==> pc'[q].ph == 10 || pc'[q].ph == 16 {
      assert q in w.dels.Keys;
      AfterDel(t, w, r, pc[r].ph, q);
    }
  }

  lemma NextKeepsJob(t: Topology, d: State, r: Rank)
    requires JobInv(t, d) && Enabled(t, d, Next(r))
    ensures JobInv(t, Apply(t, d, Next(r)))
  {
    var c := FlushCall(r, d.pc[r].ph);
    CallKeeps(t, d.w, c);
    BarriersNext(t, d.flags, d.pc, r);
    SameKeys(t, d.w, After(t, d.w, c));
    NextInStep(t, d.flags, d.w, d.pc, r, After(t, d.w, c));
  }

  lemma NextKeepsInv(t: Topology, d: State, r: Rank)
    requires Inv(t, d) && Enabled(t, d, Next(r))
    ensures Inv(t, Apply(t, d, Next(r)))
  {
    var c := FlushCall(r, d.pc[r].ph);
    NextKeepsJob(t, d, r);
    CallMoves(t, d.w, c);
    forall g | g in d.w.loc ensures HeldReq(d.flags, After(t, d.w, c), d.pc[r := Succ(d.flags, d.pc[r])], d.stamp, g) {
      assert HeldReq(d.flags, d.w, d.pc, d.stamp, g);
      HeldNext(t, d.flags, d.w, d.pc, r, d.w.loc[g], d.stamp[g]);
    }
  }

  /** Whichever barriers of all ranks are on. */
  lemma JobStep(t: Topology, d: State, a: Action)
    requires JobInv(t, d) && Enabled(t, d, a)
    ensures JobInv(t, Apply(t, d, a))
  {
    match a
    case Run(b) => RunKeepsJob(t, d, b);
    case Next(r) => NextKeepsJob(t, d, r);
  }

  /** Every step of every thread and every drain call of every rank keeps the invariant. */
  lemma StepKeeps(t: Topology, d: State, a: Action)
    requires Inv(t, d) && Enabled(t, d, a)
    ensures Inv(t, Apply(t, d, a))
  {
    match a
    case Run(b) => RunKeepsInv(t, d, b);
    case Next(r) => NextKeepsInv(t, d, r);
  }
}
