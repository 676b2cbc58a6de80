/** Who sends a batch: every batch that is formed is handed to exactly one thread to send. */
module SendDuties {
  import opened Messages
  import opened OutQueues
  import opened QueueLogs
  import opened OutSets

  // ----- outputs that are not sent yet -----

  function Unsent(outs: seq<Output>): nat {
    if outs == [] then 0 else Unsent(outs[..|outs| - 1]) + Bump(!outs[|outs| - 1].sent)
  }

  lemma UnsentSnoc(outs: seq<Output>, o: Output)
    ensures Unsent(outs + [o]) == Unsent(outs) + Bump(!o.sent)
  {
    assert (outs + [o])[..|outs|] == outs;
  }

  lemma {:induction false} UnsentConcat(xs: seq<Output>, ys: seq<Output>)
    ensures Unsent(xs + ys) == Unsent(xs) + Unsent(ys)
  {
    if ys == [] {
      assert xs + ys == xs;
    } else {
      var n := |ys| - 1;
      UnsentConcat(xs, ys[..n]);
      UnsentSnoc(xs + ys[..n], ys[n]);
      assert xs + ys == xs + ys[..n] + [ys[n]];
    }
  }

  lemma UnsentAt(outs: seq<Output>, i: nat)
    requires i < |outs|
    ensures Unsent(RemoveAt(outs, i)) == Unsent(outs) - Bump(!outs[i].sent)
    ensures Unsent(outs[i := outs[i].(sent := true)]) == Unsent(outs) - Bump(!outs[i].sent)
  {
    var x, y, o := outs[..i], outs[i + 1..], outs[i].(sent := true);
    assert outs == x + [outs[i]] + y && outs[i := o] == x + [o] + y;
    UnsentConcat(x, y);
    UnsentConcat(x + [outs[i]], y);
    UnsentConcat(x + [o], y);
    UnsentSnoc(x, outs[i]);
    UnsentSnoc(x, o);
  }

  // ----- what the threads are told -----

  /** Batches of queue `p` that the thread which takes this action is told to send, by what the
      critical section returns. */
  function Told(s: OutSet, a: Action, p: Rank): nat
    requires Enabled(s, a)
  {
    match a
    case Accept(r, w) => Bump(r == p && OutQueues.Accept(s.cfg, s.qs[r].q, w).1)
    case Finish(r, i) => Bump(r == p && Complete(s.cfg, s.qs[r].q, i).1.tosend)
    case StartQ(r) => Bump(r == p && FlushLoading(s.cfg, s.qs[r].q).1)
    case _ => 0
  }

  predicate Sends(a: Action, p: Rank) {
    a.Send? && a.p == p
  }

  lemma FinishDuty(c: Config, q: OutQ, i: nat)
    requires i < |q.outs| && q.outs[i].sent
    ensures Unsent(Complete(c, q, i).0.outs) == Unsent(q.outs) + Bump(Complete(c, q, i).1.tosend)
  {
    var (q', o) := Complete(c, q, i);
    var rest := RemoveAt(q.outs, i);
    CompleteTells(c, q, i);
    UnsentAt(q.outs, i);
    if o.tosend {
      assert q'.outs == rest + [q'.outs[|rest|]];
      UnsentSnoc(rest, q'.outs[|rest|]);
    } else {
      assert q'.outs == rest;
    }
  }

  lemma AcceptDuty(c: Config, q: OutQ, w: Waiter)
    ensures Unsent(OutQueues.Accept(c, q, w).0.outs) == Unsent(q.outs) + Bump(OutQueues.Accept(c, q, w).1)
  {
    AcceptTells(c, q, w);
    UnsentSnoc(q.outs, Output(q.formed, q.loading + [w.req], false));
  }

  lemma FlushDuty(c: Config, q: OutQ)
    ensures Unsent(FlushLoading(c, q).0.outs) == Unsent(q.outs) + Bump(FlushLoading(c, q).1)
  {
    FlushTells(c, q);
    UnsentSnoc(q.outs, Output(q.formed, q.loading + [], false));
  }

  /** Actions that neither form nor send nor finish a batch of this queue. */
  lemma OthersKeep(s: OutSet, a: Action, p: Rank)
    requires Enabled(s, a) && p in s.qs && !((a.Accept? || a.Finish? || a.Send? || a.StartQ?) && a.p == p)
    ensures p in Apply(s, a).qs && Apply(s, a).qs[p].q.outs == s.qs[p].q.outs && Told(s, a, p) == 0
  {
  }

  lemma DutyStep(s: OutSet, a: Action, p: Rank)
    requires Enabled(s, a) && p in s.qs
    ensures p in Apply(s, a).qs
    ensures Unsent(Apply(s, a).qs[p].q.outs) + Bump(Sends(a, p)) == Unsent(s.qs[p].q.outs) + Told(s, a, p)
  {
    if a.Accept? && a.p == p {
      AcceptDuty(s.cfg, s.qs[p].q, a.w);
    } else if a.Finish? && a.p == p {
      FinishDuty(s.cfg, s.qs[p].q, a.i);
    } else if a.Send? && a.p == p {
      UnsentAt(s.qs[p].q.outs, a.i);
    } else if a.StartQ? && a.p == p {
      FlushDuty(s.cfg, s.qs[p].q);
    } else {
      OthersKeep(s, a, p);
    }
  }

  // ----- over a run -----

  function ToldBy(states: seq<OutSet>, acts: seq<Action>, n: nat, p: Rank): nat
    requires Steps(states, acts) && n <= |acts|
  {
    if n == 0 then 0 else ToldBy(states, acts, n - 1, p) + Told(states[n - 1], acts[n - 1], p)
  }

  function SentBy(acts: seq<Action>, n: nat, p: Rank): nat
    requires n <= |acts|
  {
    if n == 0 then 0 else SentBy(acts, n - 1, p) + Bump(Sends(acts[n - 1], p))
  }

  /** In every run, with requests of any length: threads were told to send a queue's batches
      exactly as often as batches were sent or are still to be sent.  No batch is formed that
      nobody sends, and none is given to two threads. */
  lemma {:induction false} EveryBatchTold(states: seq<OutSet>, acts: seq<Action>, n: nat, p: Rank)
    requires Steps(states, acts) && Fresh(states[0]) && p in states[0].qs && n <= |acts|
    ensures p in states[n].qs
    ensures Unsent(states[n].qs[p].q.outs) + SentBy(acts, n, p) == ToldBy(states, acts, n, p)
  {
    if n > 0 {
      EveryBatchTold(states, acts, n - 1, p);
      DutyStep(states[n - 1], acts[n - 1], p);
    }
  }
}
