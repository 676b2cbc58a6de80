/** A flow-controlled `shuffler_send`: the sending thread with its stack-allocated
    req_parent, and the thread that takes the request off its wait queue.  One action is
    one access to shared memory, so any interleaving of the two is a run. */
module SenderWakeup {

  /** The sender: not yet at the lock; holding `pcvlock` before dropping its reference;
      about to set need_wakeup; testing need_wakeup; blocked on `pcv`; woken and waiting
      for the lock; done and about to unlock; gone, with the req_parent freed. */
  datatype SPc = Arriving | Dropping | Arming | Testing | Blocked | Woken | Leaving | Gone

  /** The completing thread: before dropping its reference; dropped the last one and wants
      `pcvlock`; holding it; about to unlock; finished. */
  datatype CPc = Holding | Stopping | Locked | Unlocking | Finished

  datatype Lock = Free | BySender | ByCompleter

  datatype State = State(s: SPc, c: CPc, nrefs: int, need_wakeup: bool, lock: Lock)

  /** After `req_parent_init`: one reference for the request, one for the sender. */
  const START := State(Arriving, Holding, 2, false, Free)

  datatype Action =
    | SLock | SDrop | SArm | STest | SSpurious | SRelock | SLeave
    | CDrop | CLock | CWake | CUnlock

  predicate Enabled(x: State, a: Action) {
    match a
    case SLock => x.s.Arriving? && x.lock.Free?
    case SDrop => x.s.Dropping?
    case SArm => x.s.Arming?
    case STest => x.s.Testing?
    case SSpurious => x.s.Blocked?
    case SRelock => x.s.Woken? && x.lock.Free?
    case SLeave => x.s.Leaving?
    case CDrop => x.c.Holding?
    case CLock => x.c.Stopping? && x.lock.Free?
    case CWake => x.c.Locked?
    case CUnlock => x.c.Unlocking?
  }

  function Apply(x: State, a: Action): State
    requires Enabled(x, a)
  {
    match a
    case SLock => x.(s := Dropping, lock := BySender)
    case SDrop => x.(nrefs := x.nrefs - 1, s := if x.nrefs - 1 < 1 then Leaving else Arming)
    case SArm => x.(need_wakeup := true, s := Testing)
    case STest => if x.need_wakeup then x.(s := Blocked, lock := Free) else x.(s := Leaving)
    case SSpurious => x.(s := Woken)
    case SRelock => x.(s := Testing, lock := BySender)
    case SLeave => x.(s := Gone, lock := Free)
    case CDrop => x.(nrefs := x.nrefs - 1, c := if x.nrefs - 1 > 0 then Finished else Stopping)
    case CLock => x.(c := Locked, lock := ByCompleter)
    case CWake =>
      if x.need_wakeup then x.(need_wakeup := false, c := Unlocking, s := if x.s.Blocked? then Woken else x.s)
      else x.(c := Unlocking)
    case CUnlock => x.(c := Finished, lock := Free)
  }

  /** The action reads or writes the req_parent. */
  predicate Touches(a: Action) {
    a.CDrop? || a.CLock? || a.CWake? || a.CUnlock?
  }

  ghost predicate Inv(x: State) {
    && (x.lock.BySender? <==> x.s.Dropping? || x.s.Arming? || x.s.Testing? || x.s.Leaving?)
    && (x.lock.ByCompleter? <==> x.c.Locked? || x.c.Unlocking?)
    && x.nrefs == (if x.s.Arriving? || x.s.Dropping? then 1 else 0) + (if x.c.Holding? then 1 else 0)
    && (x.s.Arriving? || x.s.Dropping? ==> !x.need_wakeup && (x.c.Holding? || x.c.Finished?))
    && (x.s.Arming? ==> !x.need_wakeup && (x.c.Holding? || x.c.Stopping?))
    && (x.s.Testing? || x.s.Blocked? || x.s.Woken? ==>
          if x.need_wakeup then !x.c.Unlocking? && !x.c.Finished? else x.c.Unlocking? || x.c.Finished?)
    && (x.s.Blocked? ==> x.need_wakeup)
    && (x.s.Leaving? || x.s.Gone? ==> x.c.Finished?)
  }

  lemma StepKeeps(x: State, a: Action)
    requires Inv(x) && Enabled(x, a)
    ensures Inv(Apply(x, a)) && (Touches(a) ==> !x.s.Gone?)
  {
  }

  ghost predicate Run(xs: seq<State>, acts: seq<Action>) {
    && |xs| == |acts| + 1 && xs[0] == START
    && (forall i :: 0 <= i < |acts| ==> Enabled(xs[i], acts[i]) && xs[i + 1] == Apply(xs[i], acts[i]))
  }

  lemma {:induction false} RunKeeps(xs: seq<State>, acts: seq<Action>, n: nat)
    requires Run(xs, acts) && n < |xs|
    ensures Inv(xs[n])
  {
    if n > 0 {
      RunKeeps(xs, acts, n - 1);
      StepKeeps(xs[n - 1], acts[n - 1]);
    }
  }

  /** No lost wakeup.  In every interleaving, a blocked sender still has a completing thread
      that will find need_wakeup set; as long as the sender has not left, something can
      happen that is not a spurious wakeup; and once it left, and its stack frame is gone,
      nobody touches the req_parent any more. */
  lemma NoLostWakeup(xs: seq<State>, acts: seq<Action>, n: nat)
    requires Run(xs, acts) && n < |xs|
    ensures xs[n].s.Blocked? ==> xs[n].need_wakeup && (xs[n].c.Holding? || xs[n].c.Stopping? || xs[n].c.Locked?)
    ensures !xs[n].s.Gone? ==> exists a: Action :: !a.SSpurious? && Enabled(xs[n], a)
    ensures xs[n].s.Gone? ==> forall a :: Touches(a) ==> !Enabled(xs[n], a)
  {
    RunKeeps(xs, acts, n);
    var x := xs[n];
    if !x.s.Gone? {
      var a :=
        if x.c.Holding? then CDrop else if x.c.Locked? then CWake else if x.c.Unlocking? then CUnlock
        else if x.s.Dropping? then SDrop else if x.s.Arming? then SArm else if x.s.Testing? then STest
        else if x.s.Leaving? then SLeave else if x.s.Arriving? then SLock else if x.c.Stopping? then CLock else SRelock;
      assert !a.SSpurious? && Enabled(x, a);
    }
  }

  // ----- the sender returns -----

  /** Steps still to come, but for spurious wakeups. */
  function Left(x: State): nat {
    (match x.s
     case Arriving => 7 case Dropping => 6 case Arming => 5 case Woken => 4
     case Testing => 3 case Blocked => 2 case Leaving => 1 case Gone => 0)
    + (match x.c case Holding => 8 case Stopping => 7 case Locked => 6 case Unlocking => 2 case Finished => 1)
  }

  lemma StepHelps(x: State, a: Action)
    requires Inv(x) && Enabled(x, a)
    ensures if a.SSpurious? then Left(Apply(x, a)) <= Left(x) + 2 else Left(Apply(x, a)) < Left(x)
  {
  }

  function Spurious(acts: seq<Action>): nat {
    if acts == [] then 0 else Spurious(acts[..|acts| - 1]) + if acts[|acts| - 1].SSpurious? then 1 else 0
  }

  lemma {:induction false} LeftFalls(xs: seq<State>, acts: seq<Action>, n: nat)
    requires Run(xs, acts) && n < |xs|
    ensures Left(xs[n]) + n <= Left(START) + 3 * Spurious(acts[..n])
  {
    if n > 0 {
      LeftFalls(xs, acts, n - 1);
      RunKeeps(xs, acts, n - 1);
      StepHelps(xs[n - 1], acts[n - 1]);
      assert acts[..n][..n - 1] == acts[..n - 1];
    }
  }

  /** In every interleaving the sender returns: apart from spurious wakeups, and two more steps
      for each, the two threads take a fixed number of steps, and they cannot stop before the
      sender has left. */
  lemma SenderReturns(xs: seq<State>, acts: seq<Action>)
    requires Run(xs, acts)
    ensures |acts| <= Left(START) + 3 * Spurious(acts)
    ensures (forall a: Action :: !a.SSpurious? ==> !Enabled(xs[|acts|], a)) ==> xs[|acts|].s.Gone?
  {
    LeftFalls(xs, acts, |acts|);
    NoLostWakeup(xs, acts, |acts|);
    assert acts[..|acts|] == acts;
  }
}
