/** The background worker of the N-N shuffler: `wk_items`, the two item counters, and
    `nn_shuffler_bgwait`. */
module RpcWorkers {
  import opened Sums

  /** Where the worker thread is: at the top of its loop with `num` items to report, about to
      look for work, asleep, or executing its private list. */
  datatype Pc = Top | Looking | Asleep | Running

  /** An item is an inbound RPC handle.  `accepted` and `executed` are history. */
  datatype State = State(
    items: seq<nat>, todo: seq<nat>, num: nat, submitted: nat, completed: nat, pc: Pc,
    waitAsleep: nat, waitAwake: nat, returned: nat,
    accepted: seq<nat>, executed: seq<nat>)

  const START := State([], [], 0, 0, 0, Top, 0, 0, 0, [], [])

  datatype Action =
    | Submit(h: nat)  // the handler wrapper
    | Report          // worker: items_completed += num_items
    | Look            // worker: swap the list, or sleep
    | Exec            // worker: execute one RPC
    | Again           // worker: list done
    | Arrive          // somebody calls nn_shuffler_bgwait
    | Test            // bgwait holds the lock: return or sleep

  predicate Enabled(s: State, a: Action) {
    match a
    case Submit(h) => true
    case Report => s.pc.Top?
    case Look => s.pc.Looking?
    case Exec => s.pc.Running? && s.todo != []
    case Again => s.pc.Running? && s.todo == []
    case Arrive => true
    case Test => s.waitAwake > 0
  }

  /** pthread_cond_broadcast on the condition variable they all share. */
  function NotifyAll(s: State): State {
    s.(pc := if s.pc.Asleep? then Looking else s.pc, waitAwake := s.waitAwake + s.waitAsleep, waitAsleep := 0)
  }

  function Apply(s: State, a: Action): State
    requires Enabled(s, a)
  {
    match a
    case Submit(h) =>
      var s1 := s.(items := s.items + [h], submitted := s.submitted + 1, accepted := s.accepted + [h]);
      if |s1.items| == 1 then NotifyAll(s1) else s1
    case Report =>
      var s1 := s.(completed := s.completed + s.num, num := 0, pc := Looking);
      if s1.completed == s1.submitted then NotifyAll(s1) else s1
    case Look =>
      if s.items == [] then s.(pc := Asleep)
      else s.(todo := s.items, items := [], num := |s.items|, pc := Running)
    case Exec => s.(executed := s.executed + [s.todo[0]], todo := s.todo[1..])
    case Again => s.(pc := Top)
    case Arrive => s.(waitAwake := s.waitAwake + 1)
    case Test =>
      if s.completed < s.submitted then s.(waitAwake := s.waitAwake - 1, waitAsleep := s.waitAsleep + 1)
      else s.(waitAwake := s.waitAwake - 1, returned := s.returned + 1)
  }

  ghost predicate Inv(s: State) {
    && s.executed + s.todo + s.items == s.accepted && s.submitted == |s.accepted|
    && s.completed + s.num == |s.executed| + |s.todo| && |s.todo| <= s.num
    && (!s.pc.Running? ==> s.todo == []) && (s.pc.Looking? || s.pc.Asleep? ==> s.num == 0)
    && (s.pc.Running? ==> s.num > 0)
    && (s.pc.Asleep? ==> s.items == []) && (s.waitAsleep > 0 ==> s.completed < s.submitted)
  }

  lemma StepKeeps(s: State, a: Action)
    requires Inv(s) && Enabled(s, a)
    ensures Inv(Apply(s, a))
  {
    if a.Exec? {
      assert s.executed + [s.todo[0]] + s.todo[1..] == s.executed + s.todo;
    } else if a.Submit? {
      assert s.executed + s.todo + (s.items + [a.h]) == s.executed + s.todo + s.items + [a.h];
    } else if a.Look? && s.items != [] {
      assert s.executed + s.items + [] == s.executed + [] + s.items;
    }
  }

  ghost predicate Run(ss: seq<State>, acts: seq<Action>) {
    && |ss| == |acts| + 1 && ss[0] == START
    && (forall i :: 0 <= i < |acts| ==> Enabled(ss[i], acts[i]) && ss[i + 1] == Apply(ss[i], acts[i]))
  }

  lemma {:induction false} RunKeeps(ss: seq<State>, acts: seq<Action>, n: nat)
    requires Run(ss, acts) && n < |ss|
    ensures Inv(ss[n])
  {
    if n > 0 {
      RunKeeps(ss, acts, n - 1);
      StepKeeps(ss[n - 1], acts[n - 1]);
    }
  }

  // ----- from the calls to the executions -----

  /** The handles submitted by these actions, in order. */
  function Submitted(acts: seq<Action>): seq<nat> {
    if acts == [] then []
    else
      var a := acts[|acts| - 1];
      Submitted(acts[..|acts| - 1]) + if a.Submit? then [a.h] else []
  }

  /** How many calls of bgwait these actions began. */
  function Arrivals(acts: seq<Action>): nat {
    if acts == [] then 0 else Arrivals(acts[..|acts| - 1]) + if acts[|acts| - 1].Arrive? then 1 else 0
  }

  function Waiters(s: State): nat {
    s.waitAsleep + s.waitAwake
  }

  lemma EffectOf(s: State, a: Action)
    requires Enabled(s, a)
    ensures Apply(s, a).accepted == s.accepted + if a.Submit? then [a.h] else []
    ensures Waiters(Apply(s, a)) + Apply(s, a).returned == Waiters(s) + s.returned + if a.Arrive? then 1 else 0
  {
  }

  lemma OneMoreAction(acts: seq<Action>, n: nat)
    requires n < |acts|
    ensures Submitted(acts[..n + 1]) == Submitted(acts[..n]) + if acts[n].Submit? then [acts[n].h] else []
    ensures Arrivals(acts[..n + 1]) == Arrivals(acts[..n]) + if acts[n].Arrive? then 1 else 0
  {
    assert acts[..n + 1][..n] == acts[..n];
  }

  /** What was submitted, and how often bgwait was called. */
  ghost predicate Tallied(s: State, handles: seq<nat>, calls: nat) {
    s.accepted == handles && Waiters(s) + s.returned == calls
  }

  lemma TalliedStep(s: State, a: Action, handles: seq<nat>, calls: nat)
    requires Enabled(s, a) && Tallied(s, handles, calls)
    ensures Tallied(Apply(s, a), handles + (if a.Submit? then [a.h] else []), calls + (if a.Arrive? then 1 else 0))
  {
    EffectOf(s, a);
  }

  lemma {:induction false} SubmittedKept(ss: seq<State>, acts: seq<Action>, n: nat)
    requires Run(ss, acts) && n < |ss|
    ensures Tallied(ss[n], Submitted(acts[..n]), Arrivals(acts[..n]))
  {
    if n > 0 {
      SubmittedKept(ss, acts, n - 1);
      TalliedStep(ss[n - 1], acts[n - 1], Submitted(acts[..n - 1]), Arrivals(acts[..n - 1]));
      OneMoreAction(acts, n - 1);
    }
  }

  /** In every run: RPCs are executed in the order in which they were submitted, none twice;
      bgwait returns only when every RPC submitted so far was executed, and every call of it
      returned or is still waiting; and whenever somebody sleeps in bgwait the worker has a
      step to take. */
  lemma WorkerSafe(ss: seq<State>, acts: seq<Action>, n: nat)
    requires Run(ss, acts) && n < |ss|
    ensures ss[n].executed <= Submitted(acts[..n]) && ss[n].completed <= |ss[n].executed|
    ensures n < |acts| && acts[n].Test? && ss[n + 1].returned > ss[n].returned ==>
              ss[n].executed == Submitted(acts[..n])
    ensures Waiters(ss[n]) + ss[n].returned == Arrivals(acts[..n])
    ensures ss[n].waitAsleep > 0 ==> WorkerMoves(ss[n])
  {
    RunKeeps(ss, acts, n);
    SubmittedKept(ss, acts, n);
    var s := ss[n];
    assert s.accepted == s.executed + (s.todo + s.items);
    if s.completed >= s.submitted {
      assert |s.executed| + |s.todo| + |s.items| == |s.accepted|;
    }
  }

  // ----- the worker gets everything done -----

  predicate WorkerMoves(s: State) {
    Enabled(s, Report) || Enabled(s, Look) || Enabled(s, Exec) || Enabled(s, Again)
  }

  /** Steps the worker and those in bgwait take by themselves. */
  predicate Own(a: Action) {
    !a.Submit? && !a.Arrive?
  }

  /** Worker steps still to come, and tests of bgwait. */
  function WorkLeft(s: State): nat {
    6 * |s.items| + 3 * |s.todo| + (match s.pc case Top => 2 case Looking => 1 case Asleep => 0 case Running => 3)
  }

  function Left(s: State): nat {
    Times(WorkLeft(s), Waiters(s) + 1) + s.waitAwake
  }

  /** Every such step is a step forward. */
  lemma StepHelps(s: State, a: Action)
    requires Inv(s) && Enabled(s, a) && Own(a)
    ensures Inv(Apply(s, a))
    ensures !a.Test? ==> WorkLeft(Apply(s, a)) < WorkLeft(s) && Waiters(Apply(s, a)) == Waiters(s)
    ensures a.Test? ==> WorkLeft(Apply(s, a)) == WorkLeft(s) && Waiters(Apply(s, a)) <= Waiters(s)
                        && Apply(s, a).waitAwake < s.waitAwake
  {
    StepKeeps(s, a);
  }

  lemma LeftFalls(s: State, a: Action)
    requires Inv(s) && Enabled(s, a) && Own(a)
    ensures Left(Apply(s, a)) < Left(s)
  {
    StepHelps(s, a);
    var s' := Apply(s, a);
    if a.Test? {
      TimesMore(WorkLeft(s), Waiters(s') + 1, Waiters(s) + 1);
    } else {
      TimesGrows(WorkLeft(s'), WorkLeft(s), Waiters(s) + 1);
    }
  }

  ghost predicate OwnRun(ss: seq<State>, acts: seq<Action>) {
    && |ss| == |acts| + 1 && Inv(ss[0])
    && (forall i :: 0 <= i < |acts| ==> Own(acts[i]) && Enabled(ss[i], acts[i]) && ss[i + 1] == Apply(ss[i], acts[i]))
  }

  lemma {:induction false} OwnRunFalls(ss: seq<State>, acts: seq<Action>, n: nat)
    requires OwnRun(ss, acts) && n < |ss|
    ensures Inv(ss[n]) && Left(ss[n]) + n <= Left(ss[0]) && ss[n].accepted == ss[0].accepted
  {
    if n > 0 {
      OwnRunFalls(ss, acts, n - 1);
      StepKeeps(ss[n - 1], acts[n - 1]);
      LeftFalls(ss[n - 1], acts[n - 1]);
      EffectOf(ss[n - 1], acts[n - 1]);
    }
  }

  /** However they are scheduled: without new RPCs and new calls of bgwait, worker and waiters
      take no more steps than a number known at the start, and cannot stop before every RPC was
      executed and every bgwait has returned. */
  lemma WorkerFinishes(ss: seq<State>, acts: seq<Action>)
    requires OwnRun(ss, acts)
    ensures |acts| <= Left(ss[0])
    ensures (forall a: Action :: Own(a) ==> !Enabled(ss[|acts|], a)) ==>
              ss[|acts|].executed == ss[0].accepted && Waiters(ss[|acts|]) == 0
  {
    OwnRunFalls(ss, acts, |acts|);
    var s := ss[|acts|];
    if forall a: Action :: Own(a) ==> !Enabled(s, a) {
      assert !Enabled(s, Report) && !Enabled(s, Look) && !Enabled(s, Exec) && !Enabled(s, Again) && !Enabled(s, Test);
      assert s.executed + s.todo + s.items == s.executed;
    }
  }
}
