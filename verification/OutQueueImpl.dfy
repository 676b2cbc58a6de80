/** `struct outqueue` updated in place.  Every method is one critical section under
    `oqlock`; its contract is the function of module OutQueues of the same step. */
module OutQueueImpl {
  import opened Messages
  import OutQueues
  import QueueLogs

  /** What the queue accepted, which of it was answered, and how much of it the running flush
      has to wait for. */
  datatype History = History(accepted: seq<Request>, replied: set<nat>, snap: nat)

  /** What holds of a queue after output `i` was finished, and of what the thread is told. */
  lemma CompleteSafe(
      c: OutQueues.Config, l: QueueLogs.LogQ, i: nat, l': QueueLogs.LogQ, o: OutQueues.Outcome)
    requires i < |l.q.outs| && l' == QueueLogs.LComplete(c, l, i) && o == OutQueues.Complete(c, l.q, i).1
    ensures o.tosend <==> |l'.q.outs| == |l.q.outs|
    ensures QueueLogs.LogInv(c, l) && l.q.outs[i].sent ==>
              QueueLogs.LogInv(c, l') && (o.flushdone <==> l.q.flushing && !l'.q.flushing)
  {
    OutQueues.CompleteTells(c, l.q, i);
    if QueueLogs.LogInv(c, l) && l.q.outs[i].sent {
      QueueLogs.CompleteKeeps(c, l, i);
    }
  }

  class OutQueue {
    const cfg: OutQueues.Config
    var loading: seq<Request>
    var loadsize: int
    var outs: seq<OutQueues.Output>
    var nsending: int
    var oqwaitq: seq<Waiter>
    var oqflushing: bool
    var oqflush_waitcounter: int
    var oqflush_output: Option<nat>
    ghost var tracking: Option<nat>
    var formed: nat
    ghost var hist: History

    ghost function State(): OutQueues.OutQ
      reads this
    {
      OutQueues.OutQ(loading, loadsize, outs, nsending, oqwaitq, oqflushing, oqflush_waitcounter, oqflush_output,
                     tracking, formed)
    }

    ghost function Log(): QueueLogs.LogQ
      reads this
    {
      QueueLogs.LogQ(State(), hist.accepted, hist.replied, hist.snap)
    }

    /** Order, limit, answered requests and flush tracker are as they should be. */
    ghost predicate Valid()
      reads this
    {
      QueueLogs.LogInv(cfg, Log())
    }

    constructor (c: OutQueues.Config)
      ensures cfg == c && Log() == QueueLogs.EMPTYLOG && (c.maxoqrpc >= 1 ==> Valid())
    {
      cfg := c;
      hist := History([], {}, 0);
      loading, loadsize, outs, nsending, oqwaitq := [], 0, [], 0, [];
      oqflushing, oqflush_waitcounter, oqflush_output, tracking, formed := false, 0, None, None, 0;
      new;
      assert Reqs([]) == [];
    }

    /** `append_req_to_locked_outqueue`. */
    method AppendReq(req: Option<Request>, flushnow: bool) returns (tosend: bool)
      modifies this
      ensures (State(), tosend) == OutQueues.Append(cfg, old(State()), req, flushnow) && hist == old(hist)
    {
      var newloadsize := loadsize + (if req.Some? then |req.value.data| else 0);
      if newloadsize == 0 || (newloadsize < cfg.buftarget && !flushnow) {
        if req.Some? {
          loading := loading + [req.value];
          loadsize := newloadsize;
        }
        return false;
      }
      var batch := loading;
      loading := [];
      if req.Some? {
        batch := batch + [req.value];
      }
      outs := outs + [OutQueues.Output(formed, batch, false)];
      loadsize := 0;
      nsending := nsending + 1;
      formed := formed + |batch|;
      return true;
    }

    /** `req_via_mercury`: load the request, or park it when the queue is full. */
    method Accept(w: Waiter) returns (needwait: bool, tosend: bool)
      modifies this
      ensures Log() == QueueLogs.LAccept(cfg, old(Log()), w) && tosend == OutQueues.Accept(cfg, old(State()), w).1
      ensures needwait <==> old(nsending) >= cfg.maxoqrpc
      ensures tosend <==> |outs| == |old(outs)| + 1
      ensures old(Valid()) && w.req.data != [] ==> Valid()
    {
      OutQueues.AcceptTells(cfg, State(), w);
      if QueueLogs.LogInv(cfg, Log()) && w.req.data != [] {
        QueueLogs.AcceptKeeps(cfg, Log(), w);
      }
      needwait, tosend := nsending >= cfg.maxoqrpc, false;
      if !needwait {
        tosend := AppendReq(Some(w.req), false);
      } else {
        oqwaitq := oqwaitq + [w];
      }
      hist := hist.(accepted := hist.accepted + [w.req]);
    }

    /** `forward_reqs_now`: the output goes from OSTEP_PREP to OSTEP_SEND. */
    method MarkSent(i: nat)
      requires i < |outs|
      modifies this
      ensures Log() == QueueLogs.LSent(old(Log()), i)
      ensures old(Valid()) && old(tracking) != Some(old(outs[i].first)) ==> Valid()
    {
      if QueueLogs.LogInv(cfg, Log()) && tracking != Some(outs[i].first) {
        QueueLogs.SentKeeps(cfg, Log(), i);
      }
      outs := outs[i := outs[i].(sent := true)];
    }

    /** `forw_start_next`: move the flush tracker past output `i` and take it off the list. */
    method Retire(i: nat) returns (flushdone: bool)
      requires i < |outs|
      modifies this
      ensures (State(), flushdone) == OutQueues.Retire(old(State()), i) && hist == old(hist)
    {
      flushdone := false;
      if oqflushing && oqflush_output == Some(outs[i].first) {
        if i == 0 {
          flushdone := true;
          oqflushing := false;
          oqflush_output := None;
        } else {
          oqflush_output := Some(outs[i - 1].first);
        }
      }
      outs := outs[..i] + outs[i + 1..];
      if nsending > 0 {
        nsending := nsending - 1;
      }
    }

    /** One turn of the loop of `forw_start_next`. */
    method PopOne() returns (w: Waiter, tosend: bool, cleared: bool)
      requires oqwaitq != []
      modifies this
      ensures w == old(oqwaitq)[0] && cleared == OutQueues.ClearsWait(old(State()))
      ensures (State(), tosend) == OutQueues.Append(cfg, OutQueues.PopWaiter(old(State())), Some(w.req), false)
      ensures hist == old(hist)
    {
      w := oqwaitq[0];
      oqwaitq := oqwaitq[1..];
      cleared := false;
      if oqflushing && oqflush_waitcounter > 0 {
        oqflush_waitcounter := oqflush_waitcounter - 1;
        cleared := oqflush_waitcounter == 0;
      }
      tosend := AppendReq(Some(w.req), false);
    }

    /** The loop of `forw_start_next`: load waiting requests until a batch forms.  `woken`
        are the requests taken off, whose owners are told to stop waiting. */
    method DrainWaiting() returns (tosend: bool, flushloadingnow: bool, woken: seq<Waiter>)
      modifies this
      ensures (State(), tosend, flushloadingnow) == OutQueues.Drain(cfg, old(State()), false)
      ensures old(oqwaitq) == woken + oqwaitq && hist == old(hist)
    {
      tosend, flushloadingnow, woken := false, false, [];
      ghost var result := OutQueues.Drain(cfg, State(), false);
      while oqwaitq != [] && !tosend
        invariant old(oqwaitq) == woken + oqwaitq && hist == old(hist)
        invariant tosend ==> result == (State(), true, flushloadingnow)
        invariant !tosend ==> result == OutQueues.Drain(cfg, State(), flushloadingnow)
        decreases |oqwaitq|
      {
        ghost var q := State();
        var w, s, cleared := PopOne();
        OutQueues.DrainTurn(cfg, q, flushloadingnow, State(), s, cleared);
        tosend, woken := s, woken + [w];
        flushloadingnow := flushloadingnow || cleared;
      }
    }

    /** `forw_start_next` up to the first unlock: output `i` was answered. */
    method StartNext(i: nat) returns (o: OutQueues.Outcome, woken: seq<Waiter>)
      requires i < |outs|
      modifies this
      ensures Log() == QueueLogs.LComplete(cfg, old(Log()), i) && o == OutQueues.Complete(cfg, old(State()), i).1
      ensures old(oqwaitq) == woken + oqwaitq && (o.tosend <==> |outs| == |old(outs)|)
      ensures o.flushdone <==> old(oqflushing) && old(oqflush_output) == Some(old(outs)[i].first) && i == 0
      ensures old(Valid()) && old(outs[i].sent) ==> Valid() && (o.flushdone <==> old(oqflushing) && !oqflushing)
    {
      ghost var before, after := Log(), QueueLogs.LComplete(cfg, Log(), i);
      CompleteSafe(cfg, before, i, after, OutQueues.Complete(cfg, State(), i).1);
      hist := hist.(replied := hist.replied + QueueLogs.Span(outs[i]));
      var flushdone := Retire(i);
      var tosend, flushloadingnow, w := DrainWaiting();
      woken := w;
      if flushloadingnow && !tosend {
        tosend := AppendReq(None, true);
      }
      if flushloadingnow && tosend {
        tracking := Some(OutQueues.LastFirst(State()));
      }
      o := OutQueues.Outcome(tosend, flushloadingnow, flushdone);
      assert Log() == after;
    }

    /** `forw_start_next`, second critical section: track the youngest output. */
    method StartTracking() returns (flushdone: bool)
      modifies this
      ensures Log() == QueueLogs.LTrack(old(Log())) && flushdone == OutQueues.Track(old(State())).1
      ensures old(Valid()) && old(tracking).Some? ==> Valid() && !flushdone
    {
      if QueueLogs.LogInv(cfg, Log()) && tracking.Some? {
        QueueLogs.TrackKeeps(cfg, Log());
      }
      tracking := None;
      flushdone := outs == [];
      if flushdone {
        oqflush_output := None;
        oqflushing := false;
      } else {
        oqflush_output := Some(outs[|outs| - 1].first);
      }
    }

    /** `start_qflush` until it may drop the lock to send. */
    method FlushLoading() returns (tosend: bool)
      modifies this
      ensures Log() == QueueLogs.LFlushLoading(cfg, old(Log())) && tosend == OutQueues.FlushLoading(cfg, old(State())).1
      ensures tosend <==> |outs| == |old(outs)| + 1
      ensures old(Valid()) && !old(oqflushing) ==> Valid()
    {
      OutQueues.FlushTells(cfg, State());
      if QueueLogs.LogInv(cfg, Log()) && !oqflushing {
        if oqwaitq != [] {
          QueueLogs.FlushWaitingKeeps(cfg, Log());
        } else {
          QueueLogs.FlushLoadingKeeps(cfg, Log());
        }
      }
      hist := hist.(snap := |hist.accepted|);
      tosend := false;
      if oqwaitq != [] {
        oqflush_waitcounter := |oqwaitq|;
        oqflush_output := None;
        oqflushing := true;
      } else {
        tosend := AppendReq(None, true);
      }
    }

    /** The last part of `start_qflush`. */
    method FlushOuts()
      modifies this
      ensures Log() == QueueLogs.LFlushOuts(old(Log()))
      ensures old(Valid()) && !old(oqflushing) && hist.snap <= formed ==> Valid()
    {
      if QueueLogs.LogInv(cfg, Log()) && !oqflushing && hist.snap <= formed {
        QueueLogs.FlushOutsKeeps(cfg, Log());
      }
      if outs != [] {
        oqflush_waitcounter := 0;
        oqflush_output := Some(outs[|outs| - 1].first);
        oqflushing := true;
      }
    }
  }
}
