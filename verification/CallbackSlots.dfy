/** The callback slots of the N-N shuffler: the allocator behind `cb_flags` and `cb_left`,
    and the two kinds of threads that wait on its one condition variable. */
module CallbackSlots {
  import opened Messages
  import opened Sums

  // ----- the flags -----

  function Free(flags: seq<bool>): nat {
    if flags == [] then 0 else Free(flags[..|flags| - 1]) + (if flags[|flags| - 1] then 0 else 1)
  }

  lemma {:induction false} FreeUpdate(flags: seq<bool>, i: nat, b: bool)
    requires i < |flags|
    ensures Free(flags[i := b]) == Free(flags) - (if flags[i] then 0 else 1) + (if b then 0 else 1)
  {
    var n := |flags| - 1;
    if i < n {
      FreeUpdate(flags[..n], i, b);
      assert flags[i := b][..n] == flags[..n][i := b];
    } else {
      assert flags[i := b][..n] == flags[..n];
    }
  }

  lemma {:induction false} FreeBounds(flags: seq<bool>)
    ensures Free(flags) <= |flags|
    ensures Free(flags) == 0 <==> forall i :: 0 <= i < |flags| ==> flags[i]
    ensures Free(flags) == |flags| <==> forall i :: 0 <= i < |flags| ==> !flags[i]
  {
    if flags != [] {
      FreeBounds(flags[..|flags| - 1]);
    }
  }

  // ----- the protocol -----

  /** `flags[..cb_allowed]`; `out` lists the slots of RPCs that were sent and not answered.
      A thread waiting for a slot, or in `nn_shuffler_waitcb`, is asleep on the condition
      variable or awake and about to test its condition again. */
  datatype State = State(
    flags: seq<bool>, left: int, out: seq<nat>,
    slotAsleep: nat, slotAwake: nat, allAsleep: nat, allAwake: nat, returned: nat)

  datatype Action =
    | ArriveSlot       // a sender wants a slot
    | ArriveAll        // somebody calls nn_shuffler_waitcb
    | TestSlot         // a sender holds the lock: take a slot or sleep
    | TestAll          // waitcb holds the lock: return or sleep
    | Answer(k: nat)   // write_async_handler for the k-th outstanding RPC

  predicate Enabled(s: State, a: Action) {
    match a
    case ArriveSlot => true
    case ArriveAll => true
    case TestSlot => s.slotAwake > 0
    case TestAll => s.allAwake > 0
    case Answer(k) => k < |s.out| && s.out[k] < |s.flags|
  }

  /** The search for a clear flag. */
  function FirstFree(flags: seq<bool>, i: nat): (k: nat)
    requires i <= |flags|
    ensures i <= k <= |flags| && (k < |flags| ==> !flags[k]) && forall j :: i <= j < k ==> flags[j]
    decreases |flags| - i
  {
    if i == |flags| || !flags[i] then i else FirstFree(flags, i + 1)
  }

  function Apply(s: State, a: Action): State
    requires Enabled(s, a)
  {
    match a
    case ArriveSlot => s.(slotAwake := s.slotAwake + 1)
    case ArriveAll => s.(allAwake := s.allAwake + 1)
    case TestSlot =>
      if s.left == 0 then s.(slotAwake := s.slotAwake - 1, slotAsleep := s.slotAsleep + 1)
      else
        var k := FirstFree(s.flags, 0);
        if k == |s.flags| then s  // assert(slot < cb_allowed)
        else s.(flags := s.flags[k := true], left := s.left - 1, out := s.out + [k], slotAwake := s.slotAwake - 1)
    case TestAll =>
      if s.left != |s.flags| then s.(allAwake := s.allAwake - 1, allAsleep := s.allAsleep + 1)
      else s.(allAwake := s.allAwake - 1, returned := s.returned + 1)
    case Answer(k) =>
      var s1 := s.(flags := s.flags[s.out[k] := false], left := s.left + 1, out := s.out[..k] + s.out[k + 1..]);
      if s.left == 0 || s.left == |s.flags| - 1 then
        s1.(slotAwake := s.slotAwake + s.slotAsleep, slotAsleep := 0,
            allAwake := s.allAwake + s.allAsleep, allAsleep := 0)
      else s1
  }

  /** The assertions of the source. */
  predicate Asserts(s: State, a: Action)
    requires Enabled(s, a)
  {
    match a
    case TestSlot => s.left == 0 || (FirstFree(s.flags, 0) < |s.flags| && s.left > 0)
    case Answer(k) => s.left < |s.flags|
    case ArriveSlot => true
    case ArriveAll => true
    case TestAll => true
  }

  ghost predicate Distinct(out: seq<nat>) {
    forall i, j :: 0 <= i < j < |out| ==> out[i] != out[j]
  }

  /** The counter counts clear flags; a flag is set exactly for one outstanding RPC. */
  ghost predicate Slots(s: State) {
    && s.left == Free(s.flags) && Distinct(s.out) && (forall k :: k in s.out ==> k < |s.flags|)
    && (forall i: nat :: i < |s.flags| ==> (s.flags[i] <==> i in s.out))
  }

  /** Nobody sleeps while its condition holds. */
  ghost predicate Sleepers(s: State) {
    (s.slotAsleep > 0 ==> s.left == 0) && (s.allAsleep > 0 ==> s.left != |s.flags|)
  }

  ghost predicate Inv(s: State) {
    |s.flags| >= 1 && Slots(s) && Sleepers(s)
  }

  lemma TakeKeeps(s: State)
    requires Inv(s) && Enabled(s, TestSlot) && s.left != 0
    ensures FirstFree(s.flags, 0) < |s.flags| && Slots(Apply(s, TestSlot))
  {
    FreeBounds(s.flags);
    var k := FirstFree(s.flags, 0);
    FreeUpdate(s.flags, k, true);
    var s' := Apply(s, TestSlot);
    forall i: nat | i < |s.flags| ensures s'.flags[i] <==> i in s'.out {
      assert i in s'.out <==> i in s.out || i == k;
    }
  }

  lemma RemoveSlot(out: seq<nat>, k: nat)
    requires Distinct(out) && k < |out|
    ensures var rest := out[..k] + out[k + 1..];
            Distinct(rest) && forall i: nat :: i in rest <==> i in out && i != out[k]
  {
    var rest := out[..k] + out[k + 1..];
    forall i: nat ensures i in rest <==> i in out && i != out[k] {
      if i in rest {
        var j :| 0 <= j < |rest| && rest[j] == i;
        assert out[if j < k then j else j + 1] == i;
      }
      if i in out && i != out[k] {
        var j :| 0 <= j < |out| && out[j] == i;
        assert rest[if j < k then j else j - 1] == i;
      }
    }
  }

  lemma AnswerKeeps(s: State, k: nat)
    requires Inv(s) && Enabled(s, Answer(k))
    ensures Slots(Apply(s, Answer(k))) && s.left < |s.flags|
  {
    assert s.out[k] in s.out;
    FreeUpdate(s.flags, s.out[k], false);
    FreeBounds(s.flags);
    RemoveSlot(s.out, k);
    ClearedFlag(s.flags, s.out, s.out[..k] + s.out[k + 1..], s.out[k]);
  }

  lemma ClearedFlag(flags: seq<bool>, out: seq<nat>, rest: seq<nat>, k: nat)
    requires k < |flags| && (forall i: nat :: i < |flags| ==> (flags[i] <==> i in out))
    requires forall i: nat :: i in rest <==> i in out && i != k
    ensures forall i: nat :: i < |flags| ==> (flags[k := false][i] <==> i in rest)
  {
  }

  lemma StepKeeps(s: State, a: Action)
    requires Inv(s) && Enabled(s, a)
    ensures Inv(Apply(s, a)) && Asserts(s, a)
  {
    FreeBounds(s.flags);
    match a
    case ArriveSlot =>
    case ArriveAll =>
    case TestSlot =>
      if s.left != 0 {
        TakeKeeps(s);
      }
    case TestAll =>
    case Answer(k) => AnswerKeeps(s, k);
  }

  ghost predicate Run(ss: seq<State>, acts: seq<Action>) {
    && |ss| == |acts| + 1 && Start(ss[0])
    && (forall i :: 0 <= i < |acts| ==> Enabled(ss[i], acts[i]) && ss[i + 1] == Apply(ss[i], acts[i]))
  }

  predicate Start(s: State) {
    s == State(s.flags, |s.flags|, [], 0, 0, 0, 0, 0) && |s.flags| >= 1
        && forall i :: 0 <= i < |s.flags| ==> !s.flags[i]
  }

  lemma {:induction false} RunKeeps(ss: seq<State>, acts: seq<Action>, n: nat)
    requires Run(ss, acts) && n < |ss|
    ensures Inv(ss[n])
  {
    if n == 0 {
      FreeBounds(ss[0].flags);
    } else {
      RunKeeps(ss, acts, n - 1);
      StepKeeps(ss[n - 1], acts[n - 1]);
    }
  }

  lemma NoneOut(s: State)
    requires Inv(s)
    ensures s.left == |s.flags| ==> s.out == []
  {
    FreeBounds(s.flags);
    if s.out != [] {
      assert s.out[0] in s.out;
    }
  }

  /** Callback slots, in every run of any number of threads: the counter is the number of
      clear flags; no two outstanding RPCs share a slot; waitcb returns only with nothing
      outstanding; and a thread that sleeps has a reason to, and an RPC still to be
      answered that will end it, so no wakeup is lost. */
  lemma SlotsSafe(ss: seq<State>, acts: seq<Action>, n: nat)
    requires Run(ss, acts) && n < |ss|
    ensures ss[n].left == Free(ss[n].flags) && Distinct(ss[n].out)
    ensures n < |acts| && acts[n].TestAll? && ss[n + 1].returned > ss[n].returned ==> ss[n].out == []
    ensures ss[n].slotAsleep > 0 ==> ss[n].left == 0 && exists k :: Enabled(ss[n], Answer(k))
    ensures ss[n].allAsleep > 0 ==> ss[n].left != |ss[n].flags| && exists k :: Enabled(ss[n], Answer(k))
  {
    RunKeeps(ss, acts, n);
    var s := ss[n];
    FreeBounds(s.flags);
    NoneOut(s);
    if s.left != |s.flags| {
      var i :| 0 <= i < |s.flags| && s.flags[i];
      assert i in s.out && s.out[0] in s.out;
      assert Enabled(s, Answer(0));
    }
  }

  // ----- every thread is served -----

  function Count(acts: seq<Action>, p: Action -> bool): nat {
    if acts == [] then 0 else Count(acts[..|acts| - 1], p) + if p(acts[|acts| - 1]) then 1 else 0
  }

  function Senders(s: State): nat { s.slotAsleep + s.slotAwake }

  function AllWaiters(s: State): nat { s.allAsleep + s.allAwake }

  function One(b: bool): nat { if b then 1 else 0 }

  lemma EffectOf(s: State, a: Action)
    requires Inv(s) && Enabled(s, a)
    ensures var s' := Apply(s, a);
            && Senders(s') + |s'.out| == Senders(s) + |s.out| + One(a.ArriveSlot?) - One(a.Answer?)
            && AllWaiters(s') + s'.returned == AllWaiters(s) + s.returned + One(a.ArriveAll?)
  {
    if a.TestSlot? && s.left != 0 {
      TakeKeeps(s);
    }
  }

  lemma OneMoreAction(acts: seq<Action>, n: nat, p: Action -> bool)
    requires n < |acts|
    ensures Count(acts[..n + 1], p) == Count(acts[..n], p) + One(p(acts[n]))
  {
    assert acts[..n + 1][..n] == acts[..n];
  }

  const SLOT := (a: Action) => a.ArriveSlot?
  const ANSWER := (a: Action) => a.Answer?
  const ALL := (a: Action) => a.ArriveAll?

  /** Senders that came and were answered, and calls of waitcb. */
  ghost predicate Tallied(s: State, slots: nat, answers: nat, alls: nat) {
    Senders(s) + |s.out| + answers == slots && AllWaiters(s) + s.returned == alls
  }

  lemma TalliedStep(s: State, a: Action, slots: nat, answers: nat, alls: nat)
    requires Inv(s) && Enabled(s, a) && Tallied(s, slots, answers, alls)
    ensures Tallied(Apply(s, a), slots + One(a.ArriveSlot?), answers + One(a.Answer?), alls + One(a.ArriveAll?))
  {
    EffectOf(s, a);
  }

  /** In every run: every sender that came is waiting for a slot, has an RPC out, or was
      answered; and every caller of waitcb is waiting or has returned. */
  lemma {:induction false} AllAccounted(ss: seq<State>, acts: seq<Action>, n: nat)
    requires Run(ss, acts) && n < |ss|
    ensures Tallied(ss[n], Count(acts[..n], SLOT), Count(acts[..n], ANSWER), Count(acts[..n], ALL))
  {
    if n > 0 {
      AllAccounted(ss, acts, n - 1);
      RunKeeps(ss, acts, n - 1);
      TalliedStep(ss[n - 1], acts[n - 1], Count(acts[..n - 1], SLOT), Count(acts[..n - 1], ANSWER),
                  Count(acts[..n - 1], ALL));
      OneMoreAction(acts, n - 1, SLOT);
      OneMoreAction(acts, n - 1, ANSWER);
      OneMoreAction(acts, n - 1, ALL);
    }
  }

  /** Steps that end or continue a wait. */
  predicate Own(a: Action) {
    a.TestSlot? || a.TestAll? || a.Answer?
  }

  function Threads(s: State): nat {
    2 * Senders(s) + |s.out| + AllWaiters(s)
  }

  function Awake(s: State): nat {
    s.slotAwake + s.allAwake
  }

  /** Every such step serves somebody, or puts somebody to sleep. */
  lemma StepHelps(s: State, a: Action)
    requires Inv(s) && Enabled(s, a) && Own(a)
    ensures var s' := Apply(s, a);
            Inv(s') && (Threads(s') < Threads(s) || (Threads(s') == Threads(s) && Awake(s') < Awake(s)))
  {
    StepKeeps(s, a);
    if a.TestSlot? && s.left != 0 {
      TakeKeeps(s);
    }
  }

  /** If nobody can take such a step, nobody is waiting and nothing is outstanding. */
  lemma AllServed(s: State)
    requires Inv(s) && forall a: Action :: Own(a) ==> !Enabled(s, a)
    ensures Threads(s) == 0
  {
    assert !Enabled(s, TestSlot) && !Enabled(s, TestAll) && !Enabled(s, Answer(0));
    if s.out != [] {
      FirstAnswers(s);
    }
    FreeBounds(s.flags);
  }

  lemma FirstAnswers(s: State)
    requires Slots(s) && s.out != []
    ensures Enabled(s, Answer(0))
  {
    assert s.out[0] in s.out;
  }

  ghost predicate OwnRun(ss: seq<State>, acts: seq<Action>) {
    && |ss| == |acts| + 1 && Inv(ss[0])
    && (forall i :: 0 <= i < |acts| ==> Own(acts[i]) && Enabled(ss[i], acts[i]) && ss[i + 1] == Apply(ss[i], acts[i]))
  }

  /** Every thread counts for at most one that is awake. */
  function Left(s: State, n: nat): nat {
    Times(Threads(s), n + 1) + Awake(s)
  }

  lemma LeftFalls(s: State, a: Action, n: nat)
    requires Inv(s) && Enabled(s, a) && Own(a) && Threads(s) <= n
    ensures Inv(Apply(s, a)) && Threads(Apply(s, a)) <= n && Left(Apply(s, a), n) < Left(s, n)
  {
    StepHelps(s, a);
    if Threads(Apply(s, a)) < Threads(s) {
      TimesGrows(Threads(Apply(s, a)), Threads(s), n + 1);
    }
  }

  lemma {:induction false} OwnRunFalls(ss: seq<State>, acts: seq<Action>, k: nat, n: nat)
    requires OwnRun(ss, acts) && k < |ss| && n == Threads(ss[0])
    ensures Inv(ss[k]) && Threads(ss[k]) <= n && Left(ss[k], n) + k <= Left(ss[0], n)
  {
    if k > 0 {
      OwnRunFalls(ss, acts, k - 1, n);
      LeftFalls(ss[k - 1], acts[k - 1], n);
    }
  }

  /** However they are scheduled: without new threads, the waits take no more steps than a
      number known at the start, and cannot stop before every sender got its slot, every RPC was
      answered and every waitcb has returned. */
  lemma SlotsFinish(ss: seq<State>, acts: seq<Action>)
    requires OwnRun(ss, acts)
    ensures |acts| <= Left(ss[0], Threads(ss[0]))
    ensures (forall a: Action :: Own(a) ==> !Enabled(ss[|acts|], a)) ==> Threads(ss[|acts|]) == 0
  {
    OwnRunFalls(ss, acts, |acts|, Threads(ss[0]));
    if forall a: Action :: Own(a) ==> !Enabled(ss[|acts|], a) {
      AllServed(ss[|acts|]);
    }
  }

  // ----- in place -----

  class SlotTable {
    const cb_flags: array<bool>
    var cb_left: int

    ghost predicate Valid()
      reads this, cb_flags
    {
      cb_left == Free(cb_flags[..])
    }

    constructor (cb_allowed: nat)
      requires cb_allowed >= 1
      ensures Valid() && fresh(cb_flags) && cb_left == cb_flags.Length == cb_allowed
    {
      cb_flags := new bool[cb_allowed](i => false);
      cb_left := cb_allowed;
      new;
      FreeBounds(cb_flags[..]);
    }

    /** The slot search of `nn_shuffler_write_send_async`, once a slot is known to be free. */
    method Take() returns (slot: nat)
      requires Valid() && cb_left > 0
      modifies this, cb_flags
      ensures Valid() && cb_left == old(cb_left) - 1
      ensures slot < cb_flags.Length && slot == FirstFree(old(cb_flags[..]), 0) && !old(cb_flags[slot])
      ensures cb_flags[..] == old(cb_flags[..])[slot := true]
    {
      FreeBounds(cb_flags[..]);
      slot := 0;
      while slot < cb_flags.Length && cb_flags[slot]
        invariant 0 <= slot <= cb_flags.Length
        invariant FirstFree(cb_flags[..], 0) == FirstFree(cb_flags[..], slot)
      {
        slot := slot + 1;
      }
      FreeUpdate(cb_flags[..], slot, true);
      cb_flags[slot] := true;
      cb_left := cb_left - 1;
    }

    /** The end of `nn_shuffler_write_async_handler`. */
    method Give(slot: nat) returns (notify: bool)
      requires Valid() && slot < cb_flags.Length && cb_flags[slot]
      modifies this, cb_flags
      ensures Valid() && cb_left == old(cb_left) + 1 && cb_flags[..] == old(cb_flags[..])[slot := false]
      ensures notify <==> cb_left == 1 || cb_left == cb_flags.Length
    {
      FreeUpdate(cb_flags[..], slot, false);
      cb_flags[slot] := false;
      notify := cb_left == 0 || cb_left == cb_flags.Length - 1;
      cb_left := cb_left + 1;
    }
  }
}
