/** A job on the N-N shuffler gets through its epochs: every step that issues no write makes the
    work left smaller. */
module NNProgress {
  import opened Messages
  import opened Sums
  import opened NNJobs
  import opened NNRuns

  // ----- the work left -----

  /** Steps a message has still to go. */
  function MailLeft(x: Batch): nat {
    var frames := if x.done <= |x.frames| then |x.frames| - x.done else 0;
    match x.stage
    case Flying => frames + 3
    case Open => frames + 2
    case Replied => 1
    case Closed => 0
  }

  function MailsLeft(bs: seq<Batch>): nat {
    if bs == [] then 0 else MailsLeft(bs[..|bs| - 1]) + MailLeft(bs[|bs| - 1])
  }

  /** A queue with writes has to be sent first. */
  function QueueLeft(q: Queue): nat {
    if q.items == [] then 0 else |q.items| + 4
  }

  /** Phases a rank has left until it has dumped epoch `e`. */
  function PhasesLeft(a: At, e: nat): nat {
    if Reach(a, e, 11) then 0 else 12 * (e - a.epoch) + 11 - a.ph
  }

  function RanksLeft(pc: seq<At>, e: nat): nat {
    if pc == [] then 0 else RanksLeft(pc[..|pc| - 1], e) + PhasesLeft(pc[|pc| - 1], e)
  }

  ghost function JobLeft(j: Job, e: nat): nat {
    Sum(j.queues, QueueLeft) + MailsLeft(j.batches) + RanksLeft(j.pc, e)
  }

  lemma MailsSnoc(bs: seq<Batch>, x: Batch)
    ensures MailsLeft(bs + [x]) == MailsLeft(bs) + MailLeft(x)
  {
    assert (bs + [x])[..|bs|] == bs;
  }

  lemma {:induction false} MailsUpdate(bs: seq<Batch>, b: nat, x: Batch)
    requires b < |bs|
    ensures MailsLeft(bs[b := x]) == MailsLeft(bs) - MailLeft(bs[b]) + MailLeft(x)
  {
    var n := |bs| - 1;
    if b < n {
      MailsUpdate(bs[..n], b, x);
      assert bs[b := x][..n] == bs[..n][b := x];
    } else {
      assert bs[b := x][..n] == bs[..n];
    }
  }

  lemma {:induction false} RanksUpdate(pc: seq<At>, r: nat, a: At, e: nat)
    requires r < |pc|
    ensures RanksLeft(pc[r := a], e) == RanksLeft(pc, e) - PhasesLeft(pc[r], e) + PhasesLeft(a, e)
  {
    var n := |pc| - 1;
    if r < n {
      RanksUpdate(pc[..n], r, a, e);
      assert pc[r := a][..n] == pc[..n][r := a];
    } else {
      assert pc[r := a][..n] == pc[..n];
    }
  }

  // ----- every step helps -----

  /** A step towards the end of epoch `e`: no write is issued, and only ranks that have not
      dumped that epoch go on. */
  ghost predicate Toward(j: Job, a: Action, e: nat) {
    !a.Put? && !a.Local? && (a.Next? ==> a.r < |j.pc| && !Reach(j.pc[a.r], e, 11))
  }

  lemma SendHelps(j: Job, r: Rank, d: Rank, e: nat)
    requires Enabled(j, Send(r, d))
    ensures JobLeft(Apply(j, Send(r, d)), e) < JobLeft(j, e)
  {
    var q := j.queues[(r, d)];
    SumUpdate(j.queues, QueueLeft, (r, d), q.(items := []));
    MailsSnoc(j.batches, Batch(r, d, q.lepo, q.items, 0, Flying));
  }

  lemma NextHelps(j: Job, r: Rank, e: nat)
    requires Enabled(j, Next(r)) && !Reach(j.pc[r], e, 11)
    ensures JobLeft(Apply(j, Next(r)), e) < JobLeft(j, e)
  {
    RanksUpdate(j.pc, r, Succ(j.pc[r]), e);
  }

  lemma MailHelps(j: Job, a: Action, e: nat)
    requires Enabled(j, a) && (a.Receive? || a.ExecOne? || a.Reply? || a.Close?)
    ensures JobLeft(Apply(j, a), e) < JobLeft(j, e)
  {
    MailsUpdate(j.batches, a.b, Apply(j, a).batches[a.b]);
  }

  lemma StepHelps(j: Job, a: Action, j': Job, e: nat)
    requires JobInv(j) && Step(j, a, j') && Toward(j, a, e)
    ensures JobInv(j') && JobLeft(j', e) < JobLeft(j, e)
  {
    JobStep(j, a);
    match a
    case Send(r, d) => SendHelps(j, r, d, e);
    case Next(r) => NextHelps(j, r, e);
    case Receive(b) => MailHelps(j, a, e);
    case ExecOne(b) => MailHelps(j, a, e);
    case Reply(b) => MailHelps(j, a, e);
    case Close(b) => MailHelps(j, a, e);
  }

  /** Until all ranks have dumped the epoch, there is such a step: of an open message, of a queue
      to be sent, or of the slowest rank. */
  lemma NextToward(j: Job, e: nat) returns (a: Action)
    requires JobInv(j) && (exists r: nat :: r < j.n && !Reach(j.pc[r], e, 11))
    ensures Enabled(j, a) && Toward(j, a, e)
  {
    var r := FindSlowest(j.pc);
    if b: nat :| b < |j.batches| && !j.batches[b].stage.Closed? {
      BatchGoesOn(j, b);
      a := MailStep(j.batches[b], b);
    } else if d: Rank :| d < j.n && j.pc[r].ph == 3 && j.queues[(r, d)].items != [] {
      a := Send(r, d);
    } else {
      a := Next(r);
    }
  }

  ghost predicate EndRun(js: seq<Job>, acts: seq<Action>, e: nat) {
    Steps(js, acts) && forall i :: 0 <= i < |acts| ==> Toward(js[i], acts[i], e)
  }

  lemma EndRunStep(js: seq<Job>, acts: seq<Action>, n: nat, e: nat)
    requires EndRun(js, acts, e) && n < |acts| && JobInv(js[n])
    ensures JobInv(js[n + 1]) && JobLeft(js[n + 1], e) < JobLeft(js[n], e)
  {
    assert Step(js[n], acts[n], js[n + 1]);
    StepHelps(js[n], acts[n], js[n + 1], e);
  }

  lemma EndRunFalls(js: seq<Job>, acts: seq<Action>, e: nat)
    requires EndRun(js, acts, e) && JobInv(js[0])
    ensures JobInv(js[|acts|]) && |acts| <= JobLeft(js[0], e)
  {
    forall i: nat | i + 1 < |js| && JobInv(js[i])
      ensures JobInv(js[i + 1]) && JobLeft(js[i + 1], e) < JobLeft(js[i], e)
    {
      EndRunStep(js, acts, i, e);
    }
    Descends(js, |acts|, JobInv, j => JobLeft(j, e));
  }

  /** Whichever barriers are on and however ranks and messages are scheduled: without new writes,
      the ranks get to the dump of any epoch within a number of steps known at the start, and
      cannot stop before all of them are there. */
  lemma EpochEnds(js: seq<Job>, acts: seq<Action>, e: nat)
    requires EndRun(js, acts, e) && JobInv(js[0])
    ensures |acts| <= JobLeft(js[0], e)
    ensures var j := js[|acts|];
            (forall r: nat :: r < j.n ==> r < |j.pc| && Reach(j.pc[r], e, 11))
            || exists a: Action :: Toward(j, a, e) && Enabled(j, a)
  {
    EndRunFalls(js, acts, e);
    var j := js[|acts|];
    if exists r: nat :: r < j.n && !Reach(j.pc[r], e, 11) {
      var a := NextToward(j, e);
    }
  }
}
