# A verified model of the preload shuffle

This project models how particle writes travel between the ranks of a job, and proves what
the design relies on. It is in Dafny 4.11; `dafny verify dfyconfig.toml` checks all of it.

There are two shufflers. The **three-hop shuffler** sends a request from its source over a
representative of the source's node and a representative of the destination's node, through
batched, flow-controlled output queues, into the destination's delivery queue. The **N-N
shuffler** sends framed batches straight to the destination. On top of either, every rank goes
through epochs: writes, `closedir`, and the next `opendir`, with barriers in between. Two
small parts of the code base are modelled beside them: the circular message buffer of the
logger and the histogram with its percentile.

## How it is modelled

- A critical section, from taking a lock to releasing it, is one function on values, and one
  method of a class that updates the same fields in place and is proved equal to it
  (`OutQueueImpl`, `DeliveryImpl`, `RpcQueueImpl`, `SlotTable`, `MsgBuf`). A protocol is a
  state machine whose actions are these critical sections; a run is any sequence of enabled
  actions, so every theorem about runs holds for every interleaving of any number of threads.
- Histories (what a queue accepted, which requests were answered, what the callback was
  called with) are part of the states, so that "everything", "exactly once" and "in order"
  can be said.
- The layers of the three-hop shuffler: `Messages`, `OutQueues` (one queue), `QueueLogs` (a
  queue with its history and the flush tracker), `OutSets` (a set of queues and
  `shuffler_flush_qs`), `SendDuties` (who sends a batch), `ZeroLength` and `FlushReturns` (requests without data), `Deliveries`,
  `Routing`, `Worlds` (all ranks, all RPCs in flight), `Acks` and `Places` (the two halves of
  the invariant), `Shufflers` (every action keeps it), `Progress` and `Ranking` (it comes to
  rest), `Trails` (requests push each other on), `Drains`, `DrainRuns`, `DrainProgress`,
  `DrainBarriers`, `Filing`, `EarlyFiling` (epochs), `SenderWakeup`, `Wire`.
- The layers of the N-N shuffler: `Framing`, `RpcQueues`, `CallbackSlots`, `RpcWorkers`,
  `NNJobs` (all ranks and epochs), `NNConservation`, `NNMonitor`, `NNRuns`, `NNProgress`, `NNSkew`, `NNFaults`,
  `Targets`.
- Foreign code is abstract: nexus is a next-hop function with a stated contract
  (`Routing.Contract`), Mercury delivers every RPC and every reply once in any order, MPI
  barriers open when everybody has arrived, hashing and placement are any function.

## Results that differ from what one might expect

- Requests without data break a flush. A loading list that holds nothing else stays behind
  (`OutQueues.FlushEmptiesLoading`). While a flush counts waiting requests, it hangs at a
  completion if and only if nothing loading or waiting has data at that moment
  (`OutQueues.HangsIff`); and it can still return if and only if no queue hangs
  (`FlushReturns.ReturnsIff`). Judged when the flush begins, and if no further request arrives for
  the queue: cut full batches off from the front of what is loading and waiting; the flush hangs
  if and only if what remains has waiting requests in it and no data
  (`FlushReturns.HangsFromStart`). `ZeroLength.FlushHangs` is such a run. The other theorems about
  whole runs of the three-hop shuffler are about requests with data.
- A relay limit of zero, which the configuration accepts, can leave a request waiting, and
  nothing else can (`OutSets.StrandsIff`); it then waits forever (`OutSets.StrandedForever`).
  Likewise a delivery threshold that is not below the delivery limit lets the delivery thread
  sleep on a waiting request (`Deliveries.StrandsIff`).
- A request with no data and type 0 ends the list it travels in (`Wire.RoundTrip`).
- With every barrier on, a receiver may still execute a write of epoch e before its own
  `num_epochs++`. On the N-N shuffler the epoch in the message is right, but the receiver's
  "bad epoch num" check can fail. `NNSkew.CheckIff`, for every setting of the barriers: a write is
  safe from it, however the run goes on, if and only if its destination's `num_epochs` equals the
  sender's when the write is issued, and the destination is the sender or some barrier is on. The
  three-hop shuffler files writes under the receiver's own counter; `Filing.FiledIff`, with the pre
  barrier or the barrier of opendir on: a write is filed right, however the run goes on, if and
  only if the two counters are equal when it is sent. It is never filed more than one epoch early
  (`DrainRuns.ExecutedDuring`), and `EarlyFiling.FiledEarly` is a run in which it is.
- Which barriers are needed: on the N-N shuffler epochs are kept apart in every run if and only if
  a barrier before the epoch flush and the one after it are on (`NNFaults.IsolationIff`); the drain
  of the three-hop shuffler delivers everything in every run if and only if the pre barrier or the
  barrier of opendir is on (`DrainBarriers.DrainIff`). Exactly-once execution, the totals and the
  absence of deadlock need none.
- The same skew makes the checks on an epoch's counters fail although nothing is lost: a rank
  that receives or executes a message before its own `mon_reinit` for the epoch clears what it
  counted. `NNRuns.EpochTotals` shows that "lost rpcs" and "lost writes" stay silent if and only
  if no rank did so, and that "lost rpc replies" never fires; `NNFaults.EpochTotalsMayDiffer` is a
  run in which the first two fire.
- A percentile can be the upper limit of the bucket of its sample, which is not in that
  bucket (`Histograms.HalfOpenFails`; `Histograms.PtileInBucket` says exactly when).

## Model

| member | source | states |
|---|---|---|
| `OutQueues.DrainMoves` | src/shuffler/shuffler.cc:2427-2468 | the drain loop moves a prefix of the wait queue, in order, into loading or into one new batch, all of it unless a batch formed, and raises `flushloadingnow` exactly when the flush's last request was among them |
| `OutQueues.CompleteMoves` | src/shuffler/shuffler.cc:2397-2477 | for requests with data, what one finished output does to its queue in one critical section; a forced push always has something to send |
| `OutQueues.AcceptTells` | src/shuffler/shuffler.cc:2003-2037 | the caller is told to send exactly when a batch was formed, which is when there is room for an RPC and the request fills the load; the batch holds what was loading and then the request |
| `OutQueues.CompleteTells` | src/shuffler/shuffler.cc:2397-2519 | the completing thread is told to send exactly when a batch was formed, and reports the flush finished exactly when the tracked output finished as the oldest, and then the queue no longer flushes |
| `OutQueues.FlushTells` | src/shuffler/shuffler.cc:3001-3016 | the flusher is told to send exactly when nothing waits and the load is not empty |
| `SendDuties.EveryBatchTold` | src/shuffler/shuffler.cc:2033-2037 | in every run threads were told to send a queue's batches exactly as often as batches were sent or are still unsent: every batch formed has one thread to send it |
| `OutQueues.FlushEmptiesLoading` | src/shuffler/shuffler.cc:2115-2127 | a flush that finds nothing waiting pushes the loading list out if and only if some request in it has data |
| `OutQueues.DrainForms` | src/shuffler/shuffler.cc:2427-2468 | for requests of any length, the drain loop forms a batch only out of requests some of which have data, and otherwise loads the whole wait queue |
| `OutQueues.FlushFormsIff` | src/shuffler/shuffler.cc:2427-2477 | for requests of any length: while a flush counts waiting requests, finishing an output forms a batch if and only if some request loading or waiting has data |
| `OutQueues.HangsIff` | src/shuffler/shuffler.cc:2427-2508 | and that completion hangs the flush (nothing counted, nothing tracked) if and only if none has; the condition is on the queue before the completion |
| `ZeroLength.WeakStep` | src/shuffler/shuffler.cc:2387-2519 | for requests of any length every action keeps the flush counter, the wakeup, the order of the tracker's fields and of the outputs, and that requests wait only at the limit |
| `ZeroLength.NeverReturns` | src/shuffler/shuffler.cc:2912-2943 | once a queue hangs, in every continuation it still hangs and the flush does not return |
| `ZeroLength.FlushHangs` | src/shuffler/shuffler.cc:2990-2999 | a run from a fresh set into such a hang |
| `FlushReturns.ReturnsIff` | src/shuffler/shuffler.cc:2867-2957 | for requests of any length, in every reachable state of a flush: some continuation gets it to return if and only if no queue hangs |
| `FlushReturns.HangsFromStart` | src/shuffler/shuffler.cc:2963-3027 | as long as no further request arrives for the queue: if the full batches of what is loading and waiting when `start_qflush` looks leave waiting requests without data, the flush does not return; otherwise it never hangs on this queue |
| `QueueLogs.AcceptKeeps` | src/shuffler/shuffler.cc:2003-2032 | accepting a request keeps FIFO order, limit, answered-set and the three-phase flush tracker |
| `QueueLogs.CompleteKeeps` | src/shuffler/shuffler.cc:2387-2477 | so does finishing any output, in any order |
| `QueueLogs.FlushDoneSettles` | src/shuffler/shuffler.cc:2399-2416 | when the tracked output finishes as the oldest, everything accepted before the flush was answered |
| `QueueLogs.TrackKeeps` | src/shuffler/shuffler.cc:2494-2508 | tracking the youngest output covers everything the flush waits for, and there is one to track |
| `QueueLogs.FlushWaitingKeeps` | src/shuffler/shuffler.cc:2990-2999 | a flush that starts with waiting requests counts all of them |
| `QueueLogs.FlushLoadingKeeps` | src/shuffler/shuffler.cc:3001-3016 | a flush without waiting requests puts everything into a batch, within the limit |
| `QueueLogs.FlushOutsKeeps` | src/shuffler/shuffler.cc:3018-3027 | afterwards the queue is tracked, or everything was already answered |
| `OutSets.StepKeeps` | src/shuffler/shuffler.cc:2387-2395 | every action keeps the set's invariant: the flush counter is the flusher's hold plus queues flushing plus completions not counted; no abort or assert of the flush code can fire |
| `OutSets.RunFifo` | src/shuffler/shuffler.cc:3236-3262 | in every run a queue is a bounded FIFO: batches, loading, waiting in acceptance order; loadsize, nsending and the limit are as the state dump checks |
| `OutSets.FlushBarrier` | src/shuffler/shuffler.cc:2912-2943 | in every run, when a flush returns, every request a queue had when `start_qflush` looked at it was answered |
| `OutSets.FlushCoversAll` | src/shuffler/shuffler.cc:2867-2957 | so was every request given to any queue of the set before the flush was called |
| `OutSets.FlusherNotStranded` | src/shuffler/shuffler.cc:3074-3097 | a blocked flusher always has another thread with a step that leads to its wakeup |
| `OutSets.StrandsIff` | src/xn_shuffler.cc:175-183 | a request can wait with no RPC out if and only if the limit is zero |
| `OutSets.StrandedForever` | src/shuffler/shuffler.cc:2004-2025 | it then stays so in every continuation |
| `Deliveries.StepKeeps` | src/shuffler/shuffler.cc:1204-1281 | deliverq then dwaitq are the acceptance order, dwaitq is used only when deliverq is full, callbacks run in order, the flush count is exact, nobody waits while delivery sleeps |
| `Deliveries.PushDoes` | src/shuffler/shuffler.cc:1885-1925 | a request is discarded, queued or parked by the limit; the thread is woken exactly when the request queued takes the queue over the threshold |
| `Deliveries.FlushDoes` | src/shuffler/shuffler.cc:2843-2854 | a flush begins with everything present to wait for and a thread that is awake if there is any, and ends with nothing else changed |
| `Deliveries.FlushReturnsExactly` | src/shuffler/shuffler.cc:2843-2852 | a delivery flush may return if and only if everything present at its start came out of the callback, one that was mid-callback included |
| `Deliveries.DeliveryRuns` | src/shuffler/shuffler.cc:1893-1906 | whenever somebody waits for delivery the thread is not asleep |
| `Deliveries.StrandsIff` | src/xn_shuffler.cc:235-253 | delivery can sleep on a waiting request if and only if the threshold is not below the limit |
| `Routing.SendTarget` | src/shuffler/shuffler.cc:1773-1804 | the queue `shuffler_send` picks lies on the request's path |
| `Routing.RpcTarget` | src/shuffler/shuffler.cc:2606-2652 | a handler never takes the PANIC branch and hands a request to delivery or to a queue of the very next stage |
| `Routing.SixPaths` | src/shuffler/shuffler.cc:60-76 | every request takes one of the six allowed paths, so at most three hops, for every topology that keeps the contract |
| `Routing.RepsKeepContract` | src/shuffler/shuffler.cc:60-76 | any choice of representatives that lie on the right nodes keeps the contract |
| `Shufflers.StepKeeps` | src/shuffler/shuffler.cc:2538-2692 | every action of every thread on every rank keeps the invariant of the whole shuffler: routing, queues, RPC counters, and each request at exactly one place |
| `Shufflers.HandleRoute` | src/shuffler/shuffler.cc:2599-2662 | the request a handler takes up is still at the sending queue, its target exists and is delivery or the next stage |
| `Shufflers.CarriedStep` | src/shuffler/shuffler.cc:1766-1773 | a request keeps source, destination, type and data on its way |
| `Shufflers.AtMostOnce` | src/shuffler/shuffler.cc:1218-1236 | no request is passed to a callback twice, on whichever ranks |
| `Shufflers.InitialInv` | src/shuffler/shuffler.cc:676-760 | the freshly initialised shuffler satisfies the invariant |
| `Progress.AckSound` | src/shuffler/shuffler.cc:1300-1413 | `nrefs` is the RPC's requests on wait queues plus detached references plus the handler's hold; an RPC is answered at most once, and only when its whole batch was handed on and nothing waits for it; a delayed reply on an origin hop waits only for remote queues or delivery, on a remote hop only for relay queues or delivery, on a relay hop only for delivery |
| `Progress.ParkedMoves` | src/shuffler/shuffler.cc:2429-2468 | no circular flow-control wait: if any request is on any wait queue, some step of the system is enabled |
| `Progress.RestIsQuiet` | src/shuffler/shuffler.cc:2205-2330 | when no step is enabled no RPC is out and no wait queue is in use |
| `Progress.FlushMoves` | src/shuffler/shuffler.cc:2920-2943 | a flush that may not return yet always leaves some step of the system enabled |
| `Ranking.Decreases` | src/shuffler/shuffler.cc:2194-2692 | every step the shuffler takes by itself decreases the work left to do |
| `Ranking.ComesToRest` | src/shuffler/shuffler.cc:2194-2692 | without new requests no schedule takes more steps than there was work, and none stops before every parked request has left its wait queue, every RPC was answered and every flush may return |
| `Ranking.RestReachable` | src/shuffler/shuffler.cc:2194-2692 | from every reachable state such a rest is reached |
| `Drains.StepKeeps` | src/xn_shuffler.cc:61-100 | every step of every thread and rank keeps: a request of epoch e is never at a stage already flushed for e; with the round of closedir behind the pre barrier, the round of opendir, or both |
| `Drains.AheadOk` | src/xn_shuffler.cc:64-73 | the barriers make every hand-over go to a stage whose flush has not begun |
| `DrainRuns.DrainDelivers` | src/xn_shuffler.cc:61-100 | in every run over any number of epochs, with the pre barrier or the barrier of opendir on: once a destination has ended the first round behind such a barrier, every request its sender sent before beginning that drain was passed to the callback exactly once, unchanged, and the callback returned |
| `DrainRuns.EpochIsolation` | src/preload.cc:2036-2137 | three-hop shuffler with the pre barrier or the barrier of opendir: a rank's flush of the write's epoch or a later one follows its execution; with the post barrier its flush of an earlier epoch precedes the sending |
| `DrainRuns.FiledRight` | src/preload.cc:2730-2732 | the sufficient half of `Filing.FiledIff`, over every continuation of every reachable state |
| `Trails.CanBeCalled` | src/shuffler/shuffler.cc:2101-2179 | from every reachable state, without any flush and with nobody but its sender sending, a request that was sent can be brought to its destination's callback: a later, large write on the same way pushes it on at every stage |
| `Filing.FiledWrong` | src/preload.cc:2730-2732 | the other half: from every reachable state in which the receiver's num_epochs is another one, the continuation in which the write is filed under that |
| `Filing.FiledIff` | src/preload.cc:2730-2732 | with the pre barrier or the barrier of opendir on: a write sent now in epoch e is filed under e in every continuation, if and only if the destination's num_epochs is e now |
| `DrainRuns.ExecutedDuring` | src/preload.cc:2730-2732 | with the post barrier and one of the other two, when a write of epoch e is executed the receiver's num_epochs is e, or e - 1 after its flush of e - 1 |
| `EarlyFiling.StartExists` | src/shuffler/shuffler.cc:676-760 | runs exist for every topology and every sensible configuration |
| `EarlyFiling.FiledEarly` | src/xn_shuffler.cc:102-112 | a run in which a write of epoch 1 is filed under a receiver's num_epochs of 0 |
| `DrainProgress.NeverDeadlocks` | src/preload.cc:2036-2137 | whichever barriers are on, no reachable state of barriers, flushes and flow control is a deadlock |
| `DrainProgress.DrainEnds` | src/preload.cc:2212-2243 | whichever barriers are on and however ranks and threads are scheduled: without new requests the drain of any epoch takes no more steps than a number known at its start, and it cannot stop before every rank has drained |
| `DrainProgress.DrainCompletes` | src/preload.cc:2212-2243 | from every reachable state such a schedule exists |
| `DrainBarriers.DrainIff` | src/preload.cc:384-393 | the drain delivers everything in every run over every topology, if and only if the pre barrier or the barrier of opendir is on |
| `OutQueueImpl.OutQueue.AppendReq` | src/shuffler/shuffler.cc:2101-2179 | in-place form of `OutQueues.Append` |
| `OutQueueImpl.OutQueue.Accept` | src/shuffler/shuffler.cc:2003-2037 | in-place form of `QueueLogs.LAccept`; says when the caller waits, and that it is to send exactly when an output was added; keeps the queue valid |
| `OutQueueImpl.OutQueue.MarkSent` | src/shuffler/shuffler.cc:2216-2236 | in-place form of `QueueLogs.LSent`; keeps the queue valid |
| `OutQueueImpl.OutQueue.DrainWaiting` | src/shuffler/shuffler.cc:2427-2468 | the loop equals the recursive `OutQueues.Drain`; the woken requests are the front of the wait queue |
| `OutQueueImpl.OutQueue.StartNext` | src/shuffler/shuffler.cc:2397-2519 | in-place form of `QueueLogs.LComplete`; says when to send, and that the flush is reported exactly when it ended here; keeps the queue valid |
| `OutQueueImpl.OutQueue.StartTracking` | src/shuffler/shuffler.cc:2495-2506 | in-place form of `QueueLogs.LTrack`; keeps the queue valid |
| `OutQueueImpl.OutQueue.FlushLoading` | src/shuffler/shuffler.cc:2990-3016 | in-place form of `QueueLogs.LFlushLoading`; to send exactly when an output was added; keeps the queue valid |
| `OutQueueImpl.OutQueue.FlushOuts` | src/shuffler/shuffler.cc:3018-3027 | in-place form of `QueueLogs.LFlushOuts`; keeps the queue valid |
| `DeliveryImpl.Delivery.Push` | src/shuffler/shuffler.cc:1885-1925 | in-place form of the `Push` action; a negative limit discards |
| `DeliveryImpl.Delivery.Front` | src/shuffler/shuffler.cc:1220-1236 | in-place form of the `Call` action |
| `DeliveryImpl.Delivery.Finish` | src/shuffler/shuffler.cc:1238-1281 | in-place form of the `Pop` action; whom to wake |
| `DeliveryImpl.Delivery.FlushBegin` | src/shuffler/shuffler.cc:2843-2849 | in-place form of the `FlushBegin` action |
| `DeliveryImpl.Delivery.FlushEnd` | src/shuffler/shuffler.cc:2848-2854 | in-place form of the `FlushEnd` action |
| `SenderWakeup.StepKeeps` | src/shuffler/shuffler.cc:1933-1949 | every access by sender and completing thread keeps the reference and wakeup invariant; nothing touches a req_parent after its sender left |
| `SenderWakeup.NoLostWakeup` | src/shuffler/shuffler.cc:1373-1382 | in every interleaving a blocked sender has a thread that will signal it, and the pair never deadlocks |
| `SenderWakeup.SenderReturns` | src/shuffler/shuffler.cc:1933-1949 | in every interleaving the sender returns: apart from spurious wakeups the two threads take a bounded number of steps and cannot stop before it has left |
| `Wire.RoundTrip` | src/shuffler/shuffler.cc:515-574 | decoding gives back the header and exactly the requests before the first one that looks like the end marker; the message itself if and only if there is none; iseq is the first word and forwardrank the second |
| `Wire.ReqsBack` | src/shuffler/shuffler.cc:547-574 | whatever decodes starts with the encoding of what it decodes to |
| `Wire.TruncationDetected` | src/shuffler/shuffler.cc:548-552 | a prefix of an encoded message decodes if and only if it holds all that the receiver reads of the whole, and then to the same; without a request that looks like the end marker no strict prefix decodes |
| `Wire.EncodeRpc` | src/shuffler/shuffler.cc:519-545 | the encode loop produces the format |
| `Wire.DecodeReqs` | src/shuffler/shuffler.cc:547-574 | the decode loop reads it, errors included |
| `Wire.DecodeRpc` | src/shuffler/shuffler.cc:503-574 | header and list together |
| `MessageBuffer.StoredRotates` | src/shuffler/mlog.c:638-664 | seen oldest first, storing a message drops as many old bytes as it adds new ones, wrapped or not |
| `MessageBuffer.KeepsHistory` | src/shuffler/mlog.c:638-671 | after any messages of any lengths both ways of reading give the last min(len, total) bytes ever logged |
| `MessageBuffer.SplitJoins` | src/shuffler/mlog.c:201-221 | the two pieces concatenate to the newest bytes, oldest first |
| `MessageBuffer.SplitsAgree` | src/shuffler/mlog.c:1498-1513 | the split of `mlog_findmesgbuf` has the same concatenation, and differs exactly when the used bytes end at the write pointer |
| `MessageBuffer.Split` | src/shuffler/mlog.c:201-221 | the pointer adjustments compute that split |
| `MessageBuffer.PullBack` | src/shuffler/mlog.c:1355-1371 | pulling back from the newest data cuts the end of the concatenation |
| `MessageBuffer.SkipOld` | src/shuffler/mlog.c:1372-1390 | skipping keeps the last bytes of the concatenation |
| `MessageBuffer.MsgBuf.Store` | src/shuffler/mlog.c:647-657 | the two copies |
| `MessageBuffer.MsgBuf.Advance` | src/shuffler/mlog.c:658-670 | the header update |
| `MessageBuffer.MsgBuf.LogBytes` | src/shuffler/mlog.c:638-671 | both together equal `Logged` |
| `MessageBuffer.MsgBuf.Log` | src/shuffler/mlog.c:638-671 | the buffer holds the newest bytes of the history extended by the message |
| `MessageBuffer.MsgBuf.Dmesg` | src/shuffler/mlog.c:201-221 | the pieces are the last min(len, total) bytes of the history |
| `MessageBuffer.MsgBuf.MbCopy` | src/shuffler/mlog.c:1341-1399 | the bytes of the history that end `offset` before the newest, at most `len` of them; a length below one is an error |
| `Histograms.LimitsTable` | src/hstg.cc:36-53 | the 142 limits are positive and increase |
| `Histograms.LimitsAre` | src/hstg.cc:36-53 | every entry of the table by a rule: 1 to 10, then the same sixteen multiples of each power of ten up to 10^9, then 2, 4, 8 times 10^9 and 10^200 |
| `Histograms.Add` | src/hstg.cc:73-83 | the search loop and the cell updates equal `Added` |
| `Histograms.Summary` | src/hstg.cc:79-82 | number, maximum and minimum are those of the samples |
| `Histograms.SumCell` | src/hstg.cc:82-83 | the sum cell is the sum of the samples |
| `Histograms.BeforeCounts` | src/hstg.cc:75-78 | the buckets below a limit count the samples below that limit |
| `Histograms.Search` | src/hstg.cc:88-102 | the search loop finds what `Found` says, for any threshold, NaN included |
| `Histograms.Ptile` | src/hstg.cc:85-105 | so for any histogram and any p |
| `Histograms.PtileIs` | src/hstg.cc:85-105 | for a positive threshold the answer is the dividing point of the bucket in which the counts reach it, clamped |
| `Histograms.PointLinear` | src/hstg.cc:91-96 | the point divides the bucket as the threshold divides its samples |
| `Histograms.ClampIs` | src/hstg.cc:97-98 | clamping leaves a value between the smallest and the largest sample alone and brings any other to the nearer of the two |
| `Histograms.PtileMax` | src/hstg.cc:104-104 | if the counts never reach the threshold the answer is the largest sample |
| `Histograms.PtileLow` | src/hstg.cc:85-105 | for p at or below 0 the smallest sample is returned, except a NaN for p == 0 with an empty first bucket; an empty histogram gives a NaN |
| `Histograms.PtileInBucket` | src/hstg.cc:85-105 | the percentile lies within the ends of the bucket of the ceil(num * p / 100)-th smallest sample and between minimum and maximum; it lies below the upper end unless num * p / 100 is exactly the count below that end and a sample is not below it |
| `Histograms.HalfOpenFails` | src/hstg.cc:85-105 | samples 0 and 1, median: the answer is not in the bucket of the median sample |
| `Histograms.PtileMonotone` | src/hstg.cc:85-105 | monotone in p, for every histogram |
| `Histograms.MergeIsHist` | src/hstg.cc:59-71 | reducing two histograms gives the histogram of all samples |
| `Histograms.ReduceIsHist` | src/hstg.cc:59-71 | so for any number of ranks |
| `Framing.FrameLayout` | src/nn_shuffler.cc:949-957 | a frame is the length in one byte and then the request |
| `Framing.UnframeFrames` | src/nn_shuffler.cc:447-484 | decoding the frames of any requests of up to 255 bytes gives them back |
| `Framing.FramesUnframe` | src/nn_shuffler.cc:447-484 | whatever decodes is the framing of what it decodes to |
| `Framing.Execute` | src/nn_shuffler.cc:447-484 | the handler executes the requests in order up to and including the first failure; it aborts only on a message that ends early |
| `RpcQueues.StepKeeps` | src/nn_shuffler.cc:913-960 | every action of every writer keeps the buffer a framing of the accepted requests not yet sent; the overflow aborts fire exactly for a request that does not fit an empty buffer |
| `RpcQueues.CallsKept` | src/nn_shuffler.cc:913-960 | in every run, what was put into the buffer and then what a busy writer still holds are the requests of all calls of `nn_shuffler_enqueue`, in order, except those too large for any buffer |
| `RpcQueues.NothingLost` | src/nn_shuffler.cc:875-960 | in every run, all messages decoded, then the buffer, then what a busy writer holds are exactly the requests of all calls, in order; only one that is too large for any buffer is missing, and that is the overflow abort |
| `RpcQueues.HolderLetsGo` | src/nn_shuffler.cc:925-960 | the thread that claimed a queue frees it in two steps: everything buffered was sent, and the buffer holds its own request and nothing else |
| `RpcQueues.TransmitEpochs` | src/nn_shuffler.cc:925-934 | a message handles every request under its own epoch if and only if the buffer held one epoch only |
| `RpcQueues.EpochsKept` | src/nn_shuffler.cc:977-1014 | if a flush comes between any two requests of different epochs, what the receivers handle is, with its epochs, a prefix of the calls |
| `RpcQueues.BufferLimit` | src/nn_shuffler.cc:1306-1319 | the size is the default if none is configured, else the configured one, 128 if that is less, the message limit if that is more |
| `RpcQueueImpl.RpcQueue.Store` | src/nn_shuffler.cc:949-957 | in-place append of a frame |
| `RpcQueueImpl.RpcQueue.Enqueue` | src/nn_shuffler.cc:913-924 | a full queue is claimed with the request held; otherwise its frame is appended |
| `RpcQueueImpl.RpcQueue.FlushClaim` | src/nn_shuffler.cc:979-988 | claim for a flush unless empty |
| `RpcQueueImpl.RpcQueue.Transmit` | src/nn_shuffler.cc:925-941 | what is sent, and under which epoch |
| `RpcQueueImpl.RpcQueue.Finish` | src/nn_shuffler.cc:942-957 | the buffer then holds exactly the frame of the holder's own request, or nothing for a flush or on overflow; the queue is free |
| `CallbackSlots.StepKeeps` | src/nn_shuffler.cc:529-541 | every action keeps: the counter counts clear flags, a set flag is one outstanding RPC, nobody sleeps while its condition holds; the assertions hold |
| `CallbackSlots.SlotsSafe` | src/nn_shuffler.cc:593-633 | in every run: no shared slot, waitcb returns only with nothing outstanding, a sleeper always has an RPC whose reply will end its wait |
| `CallbackSlots.AllAccounted` | src/nn_shuffler.cc:593-633 | in every run every sender that came is waiting, has an RPC out or was answered, and every caller of waitcb is waiting or has returned |
| `CallbackSlots.SlotsFinish` | src/nn_shuffler.cc:593-712 | however scheduled, without new threads the waits end within a known number of steps, and not before every sender was served and answered and every waitcb has returned |
| `CallbackSlots.SlotTable.Take` | src/nn_shuffler.cc:621-631 | the search finds the first clear flag |
| `CallbackSlots.SlotTable.Give` | src/nn_shuffler.cc:529-541 | the slot is returned; when to broadcast |
| `RpcWorkers.StepKeeps` | src/nn_shuffler.cc:232-252 | every action keeps the item accounting |
| `RpcWorkers.WorkerSafe` | src/nn_shuffler.cc:314-362 | in every run what was executed is a prefix of the RPCs submitted, in order; bgwait returns only when all submitted so far were executed; every call of it is waiting or has returned; and a thread asleep in it has a worker with a step to take |
| `RpcWorkers.WorkerFinishes` | src/nn_shuffler.cc:232-362 | however scheduled, without new RPCs the worker finishes within a known number of steps, and not before every RPC was executed and every bgwait has returned |
| `NNJobs.JobStep` | src/preload.cc:2036-2137 | every action of a job keeps the barrier, queue, message and log invariants, whichever barriers are on |
| `NNJobs.EpochStep` | src/preload.cc:2036-2137 | with a barrier on either side of the epoch flush, every action also keeps that each write is executed after exactly the flushes of the earlier epochs |
| `NNJobs.ExecTime` | src/preload.cc:2036-2137 | with these barriers, while a sender is in epoch e up to the end of waitcb every rank has flushed and dumped exactly the epochs before e |
| `NNConservation.PlacesStep` | src/nn_shuffler.cc:843-1015 | every action keeps each write at exactly one place |
| `NNConservation.WritesStep` | src/preload.cc:2410-2412 | of one epoch and of all, nw counts the writes issued, and nlw + nfw (src/preload_internal.cc:38-56) those executed |
| `NNConservation.MessagesStep` | src/preload_shuffle.cc:882-896 | of one epoch and of all, nms, nmr and nmd count messages sent, handled and acknowledged |
| `NNMonitor.MonStep` | src/preload.cc:2115-2141 | with these barriers, every action keeps: a rank's live counters between reset and dump, and its dumps, are the counts of the epoch less what it counted before the reset |
| `NNRuns.EpochIsolation` | src/preload.cc:2036-2137 | with these barriers, in every run, every rank executes a write under its epoch, after its flush of every earlier epoch and before its flush of that epoch and later ones |
| `NNFaults.IsolationIff` | src/preload.cc:384-393 | that order holds in every run if and only if the post barrier and one of the other two are on |
| `NNRuns.OwnEpoch` | src/preload_shuffle.cc:328-339 | whichever barriers are on, a write is executed on its destination under the epoch it was issued in |
| `NNRuns.FlushesInOrder` | src/preload.cc:2086-2087 | whichever barriers are on, a rank flushes epochs in order, each once |
| `NNRuns.ExactlyOnce` | src/preload_shuffle.cc:328-339 | whichever barriers are on: once the sender has finished flushq and waitcb, each of its writes was executed exactly once, on its destination |
| `NNRuns.NothingLost` | src/nn_shuffler.cc:670-712 | whichever barriers are on, by counters that are never cleared: when no rank is between its writes and the end of waitcb, globally nlw + nfw = nw and nms = nmd = nmr |
| `NNRuns.OwnAndForeign` | src/preload_internal.cc:38-56 | in every run, of one epoch and of all: nlw is the number of writes ranks issued for themselves, and nfw the number of writes executed out of messages |
| `NNRuns.EpochTotals` | src/preload.cc:1646-1651 | with the post barrier and one of the other two, the checks on the dumps of an epoch: nms = nmd always; nmr = nms if and only if no rank received a message of the epoch before its own reset; nlw + nfw = nw if and only if no rank executed one before it |
| `NNRuns.NeverDeadlocks` | src/preload.cc:2036-2137 | whichever barriers are on, some rank or some message can always go on |
| `NNProgress.EpochEnds` | src/preload.cc:2036-2137 | whichever barriers are on and however ranks and messages are scheduled: without new writes all ranks get to the dump of any epoch within a number of steps known at the start, and cannot stop before |
| `NNSkew.CheckIff` | src/preload.cc:2748-2750 | for every setting of the barriers: a write put into its queue now passes the "bad epoch num" check in every continuation, if and only if its destination's num_epochs is now the sender's, and it is the sender itself or some barrier is on |
| `NNSkew.OpenPasses` | src/preload.cc:2748-2750 | the sufficient half, over every continuation |
| `NNSkew.SlowFails` | src/preload.cc:2126-2137 | the other half: from every reachable state in which the destination's num_epochs is another one, the continuation in which the check fails on that write |
| `NNSkew.FastFails` | src/preload.cc:384-393 | without any barrier, from every reachable state: the continuation in which the destination runs ahead and the check fails |
| `NNFaults.FastReceive` | src/preload.cc:2126-2137 | for every setting of the barriers, a run in which a rank receives and executes a write before it opens the epoch |
| `NNFaults.EpochTotalsMayDiffer` | src/preload.cc:1646-1651 | with the barriers of `NNRuns.EpochTotals`, a run in which "lost writes" and "lost rpcs" fire on the dumps of an epoch |
| `Targets.TargetIs` | src/preload_shuffle.cc:341-365 | the target is the hash rounded down to a multiple of the receiver rate, so with radix 0 the hash itself; a job of one rank rounds its own number |
| `Targets.ReceiverIff` | src/preload_shuffle.cc:840-844 | a rank is a receiver if and only if the rate divides it |
| `Targets.TargetIsReceiver` | src/preload_shuffle.cc:341-365 | the target is a rank of the job and a receiver, whatever the radix; a receiver is the target of its own number |
| `Targets.Radix` | src/preload_shuffle.cc:699-710 | the configured radix, brought between 0 and 8 |
| `Targets.WriteArrives` | src/preload_shuffle.cc:394-438 | the layout is name, a zero byte, data and zero padding; name and data survive it; and the receiver computes the sender's target |

## Left out

- Mercury, nexus, mssg, MPI, ch-placement, xxhash and deltafs: abstract, as said above; failures of Mercury calls, of malloc and of pthread calls are not modelled.
- OutQueues.CompleteMoves: for requests with data; `OutQueues.FlushFormsIff`, `OutQueues.HangsIff`, `ZeroLength` and `FlushReturns` say what those without do.
- FlushReturns.ReturnsIff: for a limit of at least one; what a limit of zero does is `OutSets.StrandsIff`.
- Shufflers.InitialInv: limits of at least one and a delivery threshold below the delivery limit; what other values do is `OutSets.StrandsIff` and `Deliveries.StrandsIff`.
- Zero-length requests are excluded from the theorems about all ranks, because a flush can hang on them.
- Several threads calling a flush at the same time: one caller at a time is assumed, since `drop_curflush` clears `curflush` before the next operation installs itself.
- Shutdown, cancel and purge paths, the cancelled return of a flush included.
- `sender_limit` and `shufsendq`; timeouts; polling with usleep in testing mode; statistics other than the counters named, logging calls and state dumps.
- A handler decrements `nrefs` under the queue lock and replies after it; the model does both in one later step, which allows more interleavings.
- Shufflers.StepKeeps: a sender blocked in `shuffler_send` is not tied to its later sends, so the model also allows runs in which it goes on; its wakeup is modelled in `SenderWakeup`.
- Drains.StepKeeps: the pre barrier or the barrier of opendir is on, without which the drain does not deliver (`DrainBarriers.DrainIff`); the barrier over all ranks that `force_global_barrier` puts in place of the local one is a stronger guard and not a separate case.
- Filing.FiledIff: the pre barrier or the barrier of opendir is on, without which not even delivery within the epoch is certain. The failing continuation uses a spurious wakeup of the delivery thread, which pthread_cond_wait allows, and further writes of the same sender.
- NNJobs.JobStep: `nn_shuffler_flushq` does not overlap an enqueue, which it would not notice.
- NNRuns.EpochTotals: the post barrier and one of the other two are on, since otherwise late counts of one epoch get into the dump of the next; the dump of the last epoch, made by MPI_Finalize, is not a separate step; nw is counted when a write is issued, where the code counts it when the file is opened.
- NNJobs.EpochStep: a write is one step to its queue; that the queue, byte for byte and with contending writers, does this is `RpcQueues`; bgwait is allowed to return at any time there, and `RpcWorkers` says when it does. With `force_sync` a rank's replies are required at the end of flushq, not after each send.
- Integer widths: sizes and counters are unbounded except where a byte, a 32-bit word of the wire format or an unsigned char length is named; `mbh_cnt` and `mbh_wp` are assumed not to overflow.
- Histograms are over real numbers, without rounding; a NaN and minus infinity are the only other values modelled.
- MessageBuffer.MsgBuf.MbCopy: the closed log and the missing buffer, which return -1 and 0, are not modelled.
- Path interception, file claiming, sampling, side I/O, environment parsing other than the limits named, monitoring output, PAPI, logger files and masks, tools and benchmarks.
