# Pure's intra-node core, modelled and proved

Pure runs the ranks of a process as threads and replaces message passing inside a
node by small lock-free protocols.  This project models that core as state machines
with one step per atomic action and proves what the protocols promise over every
schedule of every number of threads.  Beside each machine stands a class with the
code's own fields, updated in place, whose methods are shown to take exactly the
machine's steps; its `RunSchedule` shows that any interleaving of calls is a run of
the machine.  The ring-backed channels and queues refine data (wrapped indices in an
array against counters that never wrap); the other classes give the machine's fields
in the code's own form.  `dafny verify dfyconfig.toml` checks the whole project.

| files | what they model |
|---|---|
| `WorkStealing*.dfy`, `PurePipeline.dfy`, `VictimScan.dfy` | a collaborative stage run any number of times by an owner and thieves: claims by fetch-and-add (single chunks or guided), local reduction, compare-and-swap merge, done counter, victim pointer |
| `ReduceRounds*.dfy`, `ReduceResult.dfy`, `ReduceProcessChannel.dfy` | reduce rounds: sense flag, ticket or root leader, three counters, offered source buffers, chunk boundaries |
| `BufferedChannel*.dfy`, `BufferedProcessChannel.dfy`, `RingIndices.dfy` | the buffered channel (version 4): ring with cached indices, delayed pop, user buffers |
| `RendezvousChannel*.dfy`, `RendezvousWindow.dfy`, `RendezvousProcessChannel.dfy`, `ProducerConsumerQueue.dfy` | its rendezvous mode: two opposing queues |
| `RecyclingChannel*.dfy`, `RecyclingProcessChannel.dfy` | version 2: pointer queue and free list |
| `LockedChannel*.dfy`, `LockedProcessChannel.dfy` | version 1: one lock, direct copy, pooled buffers |
| `DirectBcast*.dfy`, `BcastProcessChannel.dfy` | direct-copy broadcast |
| `SenseBarrier*.dfy` | the sense-reversing barrier |
| `SplitRendezvous*.dfy`, `SplitRenumbering.dfy` | communicator split: the count-up/count-down rendezvous, and the loops that number the new communicators |
| `SenderReceiverCollab*.dfy` | a message's pipeline shared by its receiver and its sender |
| `BundleRounds*.dfy` | send and receive bundle rounds |
| `HeaderCodec.dfy`, `HeaderLayout.dfy` | the fixed-width header of a bundled message, as a codec and character by character |
| `Delivery.dfy`, `Buffers.dfy`, `Counting.dfy` | shared vocabulary |

How to read a machine: `State` holds the shared fields, each thread's program counter
and locals, and a history; `Step` is total and deterministic in the moving thread and a
choice (arguments, an address malloc returns, a spurious compare-and-swap failure), so
"every run" is "every schedule" and `After(schedule)` is every reachable state.  A
waiting thread's step leaves the state unchanged.  Histories such as `sent` and `given`
are written by the steps; the `Calls` files, and `GivenIsCalled` for the pipeline, tie
them to the calls in the schedule, and the `Progress` and `Visits` files prove that calls
get done, not only that nothing wrong happens.

Atomic steps are sequentially consistent.  MPI calls are one step.  Reducers are any
operation with the stated laws, and the guided share is an exact ceiling.  Capacities,
numbers of threads, chunks, ranks and rounds are arbitrary; sequence numbers of the
broadcast and the header's values wrap at 32 bits as in the code, other counters are
unbounded.

Where code and text disagree, the code is modelled:

- `ReduceChannel::WaitForAllConsumption` says a thread does not mark its own source; `ReduceMyChunks` does mark it, and the threshold needs that.
- Version 1's destructor says some buffers are both pooled and queued; none ever is.  It says at least one buffer leaks; exactly one does if the last Dequeue found the queue non-empty, and none otherwise (`LockedChannelRuns.LeaksBufferInUse`).
- Version 1 accepts several Dequeues before a Wait, and then loses the order: different messages are received in send order if and only if every Dequeue is waited for before the next one (`LockedChannelOrder.InOrderIff`).
- The comment that one communicator's new MPI ranks may need a rewrite is settled by `RunsAreRanksIffSorted`: they are right exactly when the origin ranks are sorted.

## Model

| member | source | states |
|---|---|---|
| WorkStealingRuns.ExactlyOnce | pure/src/runtime/pure_pipeline.cpp:439-678 | Over any number of executions, thieves and interleavings, thieves that entered in an earlier execution included: every chunk of every finished execution ran exactly once, and read exactly that execution's arguments. Both claim policies. |
| WorkStealingRuns.NeverTwice | pure/src/runtime/pure_pipeline.cpp:512-678 | In the execution in progress no chunk has run twice or with other arguments. |
| WorkStealingRuns.OwnerLeavesWhenAllFinished | pure/src/runtime/pure_pipeline.cpp:486-509 | The owner's wait ends if and only if all chunks are reported; the done counter never exceeds the number of chunks and is exactly that number when it ends (the two assertions), whatever the victim pointer holds. |
| WorkStealingRuns.NoLateWork | pure/src/runtime/pure_pipeline.cpp:452-463 | While the owner is outside an execution nobody holds a chunk, merges or reports, so no compare-and-swap or done-count add of an earlier execution lands after the resets. |
| WorkStealingRuns.VictimClearedBetween | pure/src/runtime/pure_thread.cpp:940-980 | However many threads clear the victim pointer, and however late, it is null whenever the owner is between executions. |
| WorkStealingRuns.ClaimsTile | pure/src/runtime/pure_pipeline.cpp:718-862 | The clipped claimed ranges start at 0, abut and end at the last chunk, and exactly one claim, the last, ends there; for any number of threads, any weight and any stale snapshots. |
| WorkStealingRuns.TilesCoverOnce | pure/src/runtime/pure_pipeline.cpp:773-788 | A tiling covers each chunk by exactly one range: no overlap and no gap. |
| WorkStealingRuns.WaitingOwnerHasAHelper | pure/src/runtime/pure_pipeline.cpp:486-488 | While the owner waits with a chunk missing, some thief holds work and its next step is enabled. |
| WorkStealingReduction.StolenEqualsSequential | pure/src/runtime/pure_pipeline.cpp:645-674 | For a commutative, associative reducer with the initial value as identity, the shared value read after the wait is the sequential reduction of all chunk results, and what one call on the whole range returns. |
| WorkStealingReduction.StepReduces | pure/src/runtime/pure_pipeline.cpp:883-910 | Every step keeps the shared value equal to the reduction of exactly the merged chunks, and each local value equal to the reduction of the thread's own unreported chunks. |
| WorkStealingBound.CounterBounded | pure/src/runtime/pure_pipeline.cpp:527-643 | The claim counter plus one maximal grab for every thread that may still claim never exceeds N - 1 + T grabs; with single chunks N - 1 + T, across executions. |
| WorkStealingBound.GrabBounds | pure/src/runtime/pure_pipeline.cpp:727-741 | A guided claim is at least one chunk and at most the share of a full stage times the receiver's weight. |
| WorkStealingVisits.FirstComeFirstServed | pure/src/runtime/pure_pipeline.cpp:527-560 | From every reachable state: a thief that is called, or the owner after its stores, claims exactly one range with its next own actions if and only if a chunk is unclaimed; the range starts at the first unclaimed chunk, is as long as the share (one chunk, or the chunks left over the threads, rounded up, times the owner's weight, and never none), is clipped to the last chunk, and is then held by that thread. |
| WorkStealingVisits.OneRangeAVisit | pure/src/runtime/pure_pipeline.cpp:562-643 | A thief called without work_until_done runs the one range it claimed, adds its length to the done counter and goes away, however many chunks are left. |
| WorkStealingVisits.VisitUntilDone | pure/src/runtime/pure_pipeline.cpp:718-919 | The owner, or a thief called with work_until_done, leaves only when all that was unclaimed has been run and reported, if nobody else takes it. |
| WorkStealingVisits.OwnerFinishesAlone | pure/src/runtime/pure_pipeline.cpp:439-509 | From every reachable state between its calls the owner's own actions start an execution with the given arguments, run every chunk and record the shared value as the result. |
| WorkStealingVisits.GivenIsCalled | pure/src/runtime/pure_pipeline.cpp:439-463 | The executions are exactly the owner's calls, in order, each with the arguments it was called with. |
| WorkStealingVisits.VictimShown | pure/src/runtime/pure_pipeline.cpp:465-484 | From the store of the victim pointer until the last chunk is claimed, the pointer stays up, so thieves find the pipeline. |
| WorkStealingSafety.StepControl | pure/src/runtime/pure_pipeline.cpp:439-919 | Every step of every thread keeps the partition of chunks into unclaimed, held, run and reported, the counters that go with it, and the record of runs. |
| PurePipelineObject.PurePipeline.ExecuteDequeueContinuationUntilDone | pure/src/runtime/pure_pipeline.cpp:512-919 | The object's next atomic action is the machine's step for that thread: entry check, snapshot, claim, run, merge, report; both policies. |
| PurePipelineObject.PurePipeline.StartStealableWorkContinuation | pure/src/runtime/pure_pipeline.cpp:439-509 | The owner's stores, in order with the counter last, its wait and its victim check are the machine's steps. |
| PurePipelineObject.PurePipeline.RunSchedule | pure/src/runtime/pure_pipeline.cpp:172-234 | Any interleaving of object calls ends in the machine's state for that schedule, so all results above hold of it. |
| VictimScan.PureThread.MaybeExecuteStolenWorkOfRandomReceiver | pure/src/runtime/pure_thread.cpp:1000-1045 | The circular scan stops at the first pipeline with work and stays there, or calls each once and is back where it began; it finds work if and only if there is some. |
| VictimScan.PureThread.GetVictimPipeline | pure/src/runtime/pure_thread.cpp:1140-1146 | The first victim thread with an active pipeline, and null if and only if there is none. |
| ReduceRoundsSteps.StepInv | pure/src/transport/reduce_process_channel.cpp:111-330 | Every atomic step of every thread keeps the round structure, the three counters, the offered buffers and each chunk's exact set of folded sources. |
| ReduceRoundsRuns.OneLeader | pure/src/transport/reduce_process_channel.cpp:263-278 | At most one thread leads; nobody follows or leaves a ticket round without another thread leading it; with a root process it is the root. |
| ReduceRoundsRuns.OneWinnerARound | pure/src/transport/reduce_process_channel.cpp:263-278 | The ticket is won exactly once a round, by the thread that leads the round. |
| ReduceRoundsRuns.RoundsDoNotOverlap | pure/src/transport/reduce_process_channel.cpp:118-124 | A thread at work on round k: all threads have finished all earlier rounds and the leader has reset the channel for k; nobody is more than one round ahead. |
| ReduceRoundsRuns.EntryCheckPasses | pure/src/transport/reduce_channel.cpp:46-58 | The check that the buffer slot is null on entry never fires. |
| ReduceRoundsRuns.SourcesStayWhileRead | pure/include/pure/transport/reduce_process_channel.h:173-199 | While a thread folds or marks a source, that source is of this round, still on offer, its owner still in its call, and not yet folded by the reader. |
| ReduceRoundsRuns.ClearedAfterUse | pure/src/transport/reduce_channel.cpp:77-95 | A source is cleared only after every computing thread has folded it. |
| ReduceRoundsRuns.ResetSeesEverybody | pure/src/transport/reduce_process_channel.cpp:296-305 | The leader's assertion that all threads are done holds at the reset, and neither counter overshoots. |
| ReduceRoundsRuns.ResultsComplete | pure/src/transport/reduce_process_channel.cpp:151-215 | Each completed round hands on every thread's source of that round exactly once in every computing thread's chunk. |
| ReduceRoundsRuns.NoDeadlock | pure/src/transport/reduce_process_channel.cpp:111-226 | Once every thread has entered a round some thread can always move. |
| ReduceRoundsProgress.ReducesComplete | pure/src/transport/reduce_process_channel.cpp:111-330 | From every reachable state and for every k, the threads can go on until each has returned from k reduces and k results have been handed on. |
| ReduceResult.ChunksPartition | pure/include/pure/transport/reduce_process_channel.h:127-147 | The computing threads' index ranges partition the elements of the buffer, for every count, element size and number of threads. |
| ReduceResult.ChunksAbut | pure/src/transport/reduce_process_channel.cpp:58-72 | Each computing thread's range is non-empty, they abut, the first starts at 0 and the last ends at count - 1. |
| ReduceResult.ChunksBalanced | pure/include/pure/transport/reduce_process_channel.h:127-147 | Chunks start on cache lines; with fewer lines than threads each computing thread has one line, and otherwise every chunk but the last has the same number of lines, the lines divided by the threads, rounded down. |
| ReduceResult.OrderIrrelevant | pure/include/pure/transport/reduce_process_channel.h:204-245 | Whatever order the sources were scanned in, a commutative and associative operation gives the value in thread order. |
| ReduceResult.ReduceIsReduction | pure/src/transport/reduce_process_channel.cpp:111-226 | Over every run: each element of each published buffer is the reduction of that element of all threads' sources of that round. |
| ReduceProcessChannelObject.ReduceProcessChannel.ReduceBlocking | pure/src/transport/reduce_process_channel.cpp:111-226 | The object's next atomic action for a thread is the machine's step. |
| ReduceProcessChannelObject.ReduceProcessChannel.RunSchedule | pure/src/transport/reduce_process_channel.cpp:111-330 | Any interleaving of calls is a run of the machine. |
| BufferedChannelRuns.Fifo | pure/src/transport/process_channel_v4.cpp:737-893 | Received messages are a prefix of the sent ones; every finished Enqueue has pushed exactly once; the queue holds exactly the difference plus the slot in hand, never more than max_buffered_msgs. |
| BufferedChannelRuns.WaitTakesNext | pure/src/transport/process_channel_v4.cpp:1081-1143 | A successful wait takes the next message in send order, whole. |
| BufferedChannelRuns.HandedSlotStable | pure/src/transport/process_channel_v4.cpp:761-765 | The slot handed to the receiver holds its message until its next call, and the sender never fills it. |
| BufferedChannelRuns.SenderCannotDisturb | pure/src/transport/process_channel_v4.cpp:806-835 | However far the sender runs on, the slot in the receiver's hands does not change. |
| BufferedChannelRuns.UserBuffersInOrder | pure/src/transport/process_channel_v4.cpp:743-760 | User buffers are filled in posting order, and the doubling rule never lets push_back meet a full ring. |
| BufferedChannelRuns.UserBufferHolds | pure/src/transport/process_channel_v4.cpp:1120-1142 | A received message is in its user buffer as long as that buffer is not filled again. |
| BufferedChannelRuns.DestructorChecks | pure/src/transport/process_channel_v4.cpp:214-229 | The destructor's two checks pass if and only if sends equal receives and the receiver's last call was a successful wait. |
| BufferedChannelRuns.PopHasFront | pure/src/transport/process_channel_v4.cpp:761-765 | When a pop is due there is an entry to pop, so the assertions around it hold. |
| BufferedChannelRuns.CachesAreExact | pure/include/pure/support/untyped_producer_consumer_queue.h:153-256 | Although each side looks at a stale copy of the other's index first, no room means a full ring and no message an empty one. |
| BufferedChannelRuns.NeverBothStuck | pure/src/transport/process_channel_v4.cpp:565-581 | The sender cannot find the ring full while the receiver finds it empty. |
| BufferedChannel.StepInv | pure/src/transport/process_channel_v4.cpp:384-415 | Every step of either party keeps indices, slots, handed buffer and user buffers consistent. |
| BufferedChannelCalls.SentIsCalled | pure/src/transport/process_channel_v4.cpp:361-436 | What counts as sent is exactly the messages passed to Enqueue and EnqueueBlocking, in call order: none altered, dropped or invented. |
| BufferedChannelCalls.CalledFifo | pure/src/transport/process_channel_v4.cpp:361-893 | So the receiver gets the callers' messages in call order, and what it has not received is in the queue once the sender is between calls. |
| BufferedChannelCalls.DequeuesAreAsked | pure/src/transport/process_channel_v4.cpp:738-765 | What counts as asked for is exactly the Dequeue calls, with the buffers they named. |
| BufferedChannelCalls.RingStaysSmall | pure/src/transport/process_channel_v4.cpp:743-760 | The ring of user buffers never grows past twice the number of Dequeues, and not at all when they name no buffers. |
| BufferedChannelCalls.WaitLooks | pure/src/transport/process_channel_v4.cpp:856-865 | A wait or test at its look finds a message if and only if the ring holds one, and then receives the next one with its next action; at an empty ring a blocking wait goes on looking and a test is over with nothing received. |
| BufferedChannelCalls.WaitOver | pure/src/transport/process_channel_v4.cpp:856-893 | Whatever both parties do meanwhile, a blocking wait is over only with the next message received; a test with the next message or with none. |
| BufferedChannelCalls.EnqueueCall | pure/src/transport/process_channel_v4.cpp:384-415 | Enqueue with room in the ring has published its message three sender actions later, whatever the receiver does between, with message_send_done; without room the message is left for the wait. |
| BufferedChannelCalls.PendingCall | pure/src/transport/process_channel_v4.cpp:558-581 | Each look of a blocking or pending send publishes the message if and only if there is room. |
| BufferedChannelCalls.SendOver | pure/src/transport/process_channel_v4.cpp:418-436 | A send, blocking or not, is over only with its message in the queue; a blocking one leaves no wait to be made. |
| BufferedProcessChannelObject.UntypedProducerConsumerQueue.HasSpace | pure/include/pure/support/untyped_producer_consumer_queue.h:162-176 | The wrapped-around indices and the refreshed cache decide exactly as counters that never wrap. |
| BufferedProcessChannelObject.UntypedProducerConsumerQueue.FrontPtr | pure/include/pure/support/untyped_producer_consumer_queue.h:243-256 | The same for the reader's side. |
| BufferedProcessChannelObject.ProcessChannel.Dequeue | pure/src/transport/process_channel_v4.cpp:738-765 | Posting the user buffer, doubling and the delayed pop are one step of the machine. |
| BufferedProcessChannelObject.ProcessChannel.FinalizeMessageReceive | pure/src/transport/process_channel_v4.cpp:1081-1143 | Receives exactly the next sent message and releases its user buffer. |
| BufferedProcessChannelObject.ProcessChannel.DestructorChecks | pure/src/transport/process_channel_v4.cpp:214-229 | Computed from the wrapped indices, the checks are the machine's. |
| BufferedProcessChannelObject.ProcessChannel.RunSchedule | pure/src/transport/process_channel_v4.cpp:361-893 | Any interleaving of the two parties' calls is a run of the machine. |
| RingIndices.WithinALap | pure/include/pure/support/untyped_producer_consumer_queue.h:243-256 | Indices less than a lap apart are equal exactly when their wrapped forms are. |
| RingIndices.SizeGuessExact | pure/include/pure/support/untyped_producer_consumer_queue.h:298-305 | sizeGuess is the number of entries when nobody is between actions. |
| RendezvousChannelRuns.WaitsMatchSends | pure/src/transport/process_channel_v4.cpp:482-508 | The i-th successful wait returns the i-th message's count, and that message has already been copied. |
| RendezvousChannelRuns.MessageInItsBuffer | pure/src/transport/process_channel_v4.cpp:500-501 | The i-th copied message is in the i-th posted buffer as long as no later message has been copied over it. |
| RendezvousChannelRuns.QueuesNeverFull | pure/src/transport/process_channel_v4.cpp:505-508 | With at most max_buffered_msgs dequeues outstanding neither queue-full check can fire. |
| RendezvousWindow.PastTheWindow | pure/src/transport/process_channel_v4.cpp:482-508 | In any reachable state with max_buffered_msgs dequeues outstanding, one more either fails its own check at once or lets the sender alone, with any messages that fit, reach its queue-full check. |
| RendezvousWindow.OverflowIff | pure/src/transport/process_channel_v4.cpp:505-508 | The sender alone can make its queue-full check fire if and only if more than max_buffered_msgs dequeues are outstanding. |
| RendezvousWindow.SenderOverflows | pure/src/transport/process_channel_v4.cpp:482-508 | Past the window the sender never waits: with any messages that fit, its own actions lead to the failing check. |
| RendezvousWindow.WindowCanBeLeft | pure/src/transport/process_channel_v4.cpp:776-781 | Such a state is reachable with no check failed, for every max_buffered_msgs. |
| RendezvousChannelRuns.NoFaults | pure/src/transport/process_channel_v4.cpp:482-508 | With counts between one and the receiver's limit as well, no check or assertion of the channel fails. |
| RendezvousChannelRuns.NeverBothStuck | pure/src/transport/process_channel_v4.cpp:583-597 | A sender with a message and a receiver waiting for one are never both stuck. |
| RendezvousChannel.StepInv | pure/src/transport/process_channel_v4.cpp:473-508 | Every step keeps both queues, the copies made and the counts returned in agreement with what was posted and sent. |
| RendezvousChannelCalls.SentIsCalled | pure/src/transport/process_channel_v4.cpp:361-436 | What counts as sent is exactly the messages passed to Enqueue and EnqueueBlocking, in call order. |
| RendezvousChannelCalls.WaitsMatchCalls | pure/src/transport/process_channel_v4.cpp:482-508 | The i-th successful wait returns the count of the message of the i-th send call. |
| RendezvousChannelCalls.DestsAreAsked | pure/src/transport/process_channel_v4.cpp:766-785 | The requests are exactly the buffers of the Dequeue calls, in order, but for the one whose check failed. |
| RendezvousChannelCalls.WaitLooks | pure/src/transport/process_channel_v4.cpp:866-891 | A wait or test takes a count if and only if one is queued, and it is the next message's; otherwise a blocking wait goes on looking and a test is over with nothing. |
| RendezvousChannelCalls.WaitOver | pure/src/transport/process_channel_v4.cpp:866-891 | A blocking wait is over only with the next message's count taken. |
| RendezvousChannelCalls.EnqueueCall | pure/src/transport/process_channel_v4.cpp:384-415 | Enqueue with a request waiting has copied the message and queued its count two sender actions later, with message_send_done, unless a check failed; without one the message is left for the wait. |
| RendezvousChannelCalls.PendingCall | pure/src/transport/process_channel_v4.cpp:583-597 | Each look of a blocking or pending send sends the message if and only if a request is there. |
| RendezvousChannelCalls.SendOver | pure/src/transport/process_channel_v4.cpp:418-436 | A send, blocking or not, is over only when its count has been queued; a blocking one leaves no wait to be made. |
| RendezvousProcessChannelObject.ProcessChannel.FinalizeUnbufferedSend | pure/src/transport/process_channel_v4.cpp:482-508 | Length check, copy and count write, each with its failure, are the machine's steps. |
| RendezvousProcessChannelObject.ProcessChannel.DequeueWaitBlockingThisOnly | pure/src/transport/process_channel_v4.cpp:866-891 | Takes the next count, and it is the count of the next message sent. |
| RendezvousProcessChannelObject.ProcessChannel.RunSchedule | pure/src/transport/process_channel_v4.cpp:361-893 | Any interleaving of the two parties' calls is a run of the machine. |
| ProducerConsumerQueues.ProducerConsumerQueue.Write | pure/include/pure/support/typed_producer_consumer_queue.h:89-103 | Appends unless size - 1 records are in; the contents otherwise unchanged. |
| ProducerConsumerQueues.ProducerConsumerQueue.Read | pure/include/pure/support/typed_producer_consumer_queue.h:107-124 | Takes the front record if there is one. |
| RecyclingChannel.StepInv | pure/src/transport/process_channel_v2.cpp:173-358 | Every step keeps each live buffer in exactly one pair of hands. |
| RecyclingChannelRuns.OneOwnerEach | pure/src/transport/process_channel_v2.cpp:297-358 | Each malloc'ed and not freed buffer is owned exactly once, by sender, queue, receiver or free list; none is freed twice; at most queue capacity + 2 are live; with and without the free list. |
| RecyclingChannelRuns.Fifo | pure/src/transport/process_channel_v2.cpp:222-291 | Messages arrive in send order and whole. |
| RecyclingChannelCalls.SentIsCalled | pure/src/transport/process_channel_v2.cpp:173-220 | What counts as sent is exactly the messages passed to Enqueue, counts and payloads, in call order. |
| RecyclingChannelCalls.CalledFifo | pure/src/transport/process_channel_v2.cpp:173-291 | So the receiver gets a prefix of the callers' messages, and all of them once both parties are idle with an empty queue. |
| RecyclingChannelCalls.EnqueueCompletes | pure/src/transport/process_channel_v2.cpp:173-220 | With room in the queue an Enqueue is over after three more sender actions, whatever the receiver does between, with its message queued. |
| RecyclingChannelCalls.DequeueCompletes | pure/src/transport/process_channel_v2.cpp:222-291 | A Dequeue whose look finds a message is over with the next message received; at an empty queue it goes on looking. |
| RecyclingChannelCalls.DequeueOver | pure/src/transport/process_channel_v2.cpp:222-291 | A Dequeue is over only with the next message received. |
| RecyclingChannelCalls.RecyclesWhenItCan | pure/src/transport/process_channel_v2.cpp:297-358 | With the free list in use, memory is allocated only when the list is empty and freed only when it is full. |
| RecyclingChannelRuns.ReceivedBufferStable | pure/src/transport/process_channel_v2.cpp:227-235 | Between Dequeues the receive pointer is to a live buffer holding the last message that nobody else owns. |
| RecyclingChannelRuns.NeverBothStuck | pure/src/transport/process_channel_v2.cpp:195-205 | A sender at a full queue and a receiver at an empty one cannot wait for each other. |
| RecyclingChannelRuns.DestroyedOnce | pure/src/transport/process_channel_v2.cpp:48-79 | With both parties idle the queue is empty if and only if sends equal receives, and then the destructor frees every live buffer exactly once. |
| RecyclingProcessChannelObject.ProcessChannel.EnqueueImpl | pure/src/transport/process_channel_v2.cpp:173-220 | Buffer, copy and write are the machine's steps. |
| RecyclingProcessChannelObject.ProcessChannel.Dequeue | pure/src/transport/process_channel_v2.cpp:222-291 | Return, front and pop are the machine's steps. |
| RecyclingProcessChannelObject.ProcessChannel.Destruct | pure/src/transport/process_channel_v2.cpp:48-79 | The check passes if and only if sends equal receives, and then nothing is left allocated. |
| LockedChannel.StepInv | pure/src/transport/process_channel_v1.cpp:165-321 | Every critical section keeps the free list, queue, buffer in use and own buffer disjoint, and the order of messages. |
| LockedChannelRuns.OnlyFullQueueFails | pure/src/transport/process_channel_v1.cpp:191-305 | The "this shouldn't happen" sentinel and the empty-queue assertion cannot be reached; the capacity check fails exactly when a message has to be queued and the queue is full. |
| LockedChannelRuns.OneOwnerEach | pure/src/transport/process_channel_v1.cpp:336-373 | Each live buffer is in exactly one place: own, queued, pooled or in use. |
| LockedChannelRuns.Fifo | pure/src/transport/process_channel_v1.cpp:165-321 | While every Dequeue is waited for before the next, messages are received in send order and none is lost. |
| LockedChannelCalls.SentIsCalled | pure/src/transport/process_channel_v1.cpp:165-235 | What counts as sent is exactly the messages of the Enqueue calls that were carried out, in call order, whichever way they went. |
| LockedChannelCalls.CalledFifo | pure/src/transport/process_channel_v1.cpp:165-333 | A receiver that waits for each Dequeue gets the callers' messages in call order, and all of them once nothing is queued. |
| LockedChannelCalls.WaitDelivers | pure/src/transport/process_channel_v1.cpp:323-333 | A Wait for the Dequeue just made delivers the next message if any has been sent, and otherwise goes on waiting. |
| LockedChannelCalls.FewLive | pure/src/transport/process_channel_v1.cpp:336-373 | At most queue capacity + 2 buffers are ever alive, since one is allocated only when the pool is empty. |
| LockedChannelRuns.DirectOnlyWhenEmpty | pure/src/transport/process_channel_v1.cpp:262-277 | A direct copy is possible only when the queue is empty. |
| LockedChannelRuns.ReceivedBufferStable | pure/src/transport/process_channel_v1.cpp:180-198 | The receiver's buffer keeps its message through any Enqueue before the next Dequeue. |
| LockedChannelOrder.InOrderIff | pure/src/transport/process_channel_v1.cpp:238-333 | With no Dequeue left to wait for, different messages were received in send order if and only if every Dequeue was waited for before the next; for every run. |
| LockedChannelOrder.TwoPendingRepeat | pure/src/transport/process_channel_v1.cpp:323-333 | After two Dequeues without a Wait between, however the run goes on, once all are waited for some message has been received twice in a row. |
| LockedChannelOrder.OrderCanBreak | pure/src/transport/process_channel_v1.cpp:238-333 | Such a run, for every capacity of at least one: two messages sent, the first received twice. |
| LockedChannelRuns.LeaksBufferInUse | pure/src/transport/process_channel_v1.cpp:64-95 | The destructor frees each pooled and queued buffer once and the two never share one; it leaks the buffer in use if and only if the last Dequeue found the queue non-empty, and nothing else. |
| LockedChannelRuns.LeakingRun | pure/src/transport/process_channel_v1.cpp:64-95 | A run that leaks, after one buffered message, and one more Dequeue with which it does not. |
| LockedProcessChannelObject.ProcessChannel.EnqueueImpl | pure/src/transport/process_channel_v1.cpp:165-235 | The critical section is the machine's step, pool and capacity check included. |
| LockedProcessChannelObject.ProcessChannel.Dequeue | pure/src/transport/process_channel_v1.cpp:238-321 | The critical section is the machine's step; it never fails. |
| DirectBcast.StepInv | pure/src/transport/bcast_process_channel.cpp:183-223 | Every step keeps all threads within one round of thread 0, flags and sequence number included. |
| DirectBcastRuns.CopiesOwnRound | pure/src/transport/bcast_process_channel.cpp:202-218 | In its k-th call each other thread copies exactly the buffer of thread 0's k-th call. |
| DirectBcastRuns.RootReturnsLast | pure/src/transport/bcast_process_channel.cpp:191-199 | Thread 0 returns from its k-th call only after every thread has copied k times. |
| DirectBcastRuns.BufferStableWhileCopied | pure/src/transport/bcast_process_channel.cpp:212-218 | While a thread copies, thread 0 is still in the same call with that call's buffer published. |
| DirectBcastRuns.NoRoundMissed | pure/src/transport/bcast_process_channel.cpp:206-210 | The wait for an equal sequence number passes exactly when the thread's own round is published, wherever the 32-bit numbers wrap. |
| DirectBcastRuns.FlagExact | pure/src/transport/bcast_process_channel.cpp:192-199 | Thread 0's flag test succeeds exactly when that thread has finished this round. |
| DirectBcastRuns.NoDeadlock | pure/src/transport/bcast_process_channel.cpp:183-223 | Once every thread is in its call some thread can move. |
| DirectBcastProgress.BroadcastsComplete | pure/src/transport/bcast_process_channel.cpp:183-223 | From every reachable state and for every k, the threads can go on until each has finished k broadcasts. |
| BcastProcessChannelObject.BcastProcessChannel.RunSchedule | pure/src/transport/bcast_process_channel.cpp:183-223 | Any interleaving of the object's calls is a run of the machine. |
| SenseBarrier.StepInv | pure/src/runtime/pure_process.cpp:1645-1704 | Every step keeps the count, the senses and everybody's place in step. |
| SenseBarrierRuns.NobodyLeavesEarly | pure/src/runtime/pure_process.cpp:1669-1704 | No thread passes its k-th barrier before all have entered theirs, and nobody is two ahead. |
| SenseBarrierRuns.ResetLosesNothing | pure/src/runtime/pure_process.cpp:1681-1684 | The count is exact up to the reset, everybody is in at the reset, and nobody can arrive between reset and release. |
| SenseBarrierRuns.SenseIsExact | pure/src/runtime/pure_process.cpp:1694-1703 | A waiting thread is let through exactly when its barrier has been released, for all rounds. |
| SenseBarrierRuns.NoDeadlock | pure/src/runtime/pure_process.cpp:1645-1704 | Once every thread has entered, some thread can move. |
| SenseBarrierProgress.BarriersComplete | pure/src/runtime/pure_process.cpp:1645-1704 | From every reachable state and for every k, the threads can go on until each has passed k barriers. |
| SenseBarrierObject.PureCommProcessDetail.RunSchedule | pure/src/runtime/pure_process.cpp:1645-1704 | Any interleaving of calls is a run of the machine. |
| SplitRendezvous.StepInv | pure/src/runtime/pure_comm.cpp:365-815 | Every step of a split's rendezvous keeps count, phase, details and results in agreement. |
| SplitRendezvousRuns.DetailsComplete | pure/src/runtime/pure_comm.cpp:375-386 | While thread 0 reads the details, every thread's are those of this very split and all others spin. |
| SplitRendezvousRuns.ResultsMatch | pure/src/runtime/pure_comm.cpp:811-815 | Every thread returns from its k-th split with the result made from its k-th details. |
| SplitRendezvousRuns.ResultReady | pure/src/runtime/pure_comm.cpp:785-808 | A thread let through finds its result written, for this split. |
| SplitRendezvousRuns.CountBounded | pure/src/runtime/pure_comm.cpp:167-187 | The count stays between 0 and n - 1 and tells who has arrived, counting up and down on alternate splits. |
| SplitRendezvousRuns.NobodyLeavesEarly | pure/src/runtime/pure_comm.cpp:167-187 | Nobody is let out of a split before everybody has entered it. |
| SplitRendezvousRuns.NoDeadlock | pure/src/runtime/pure_comm.cpp:385-388 | Once every thread has entered, the split goes on. |
| SplitRendezvousProgress.SplitsComplete | pure/src/runtime/pure_comm.cpp:365-815 | From every reachable state and for every k, the threads can go on until each has returned from k splits. |
| SplitRendezvousObject.PureCommProcessDetail.RunSchedule | pure/src/runtime/pure_comm.cpp:167-187 | Any interleaving of calls is a run of the machine. |
| SplitNumbers.RanksBijective | pure/src/runtime/pure_comm.cpp:703-722 | The new pure ranks of a color are an order-preserving bijection onto 0..size-1. |
| SplitNumbers.OriginRankIsOwn | pure/src/runtime/pure_comm.cpp:262-264 | OriginCommMyRank gives each thread its own rank in the origin communicator; both rank lists have the communicator's size. |
| SplitNumbers.ThreadNumbersDense | pure/src/runtime/pure_comm.cpp:725-759 | Thread numbers of a color in a process are distinct, ordered like the ranks, and fill 0..NumPureRanksThisProcess-1. |
| SplitNumbers.RankFromThreadNum | pure/src/runtime/pure_comm.cpp:719-759 | A thread's rank is its thread number plus the number of earlier processes' threads of its color. |
| SplitNumbers.NumLocalCountsCallers | pure/src/runtime/pure_comm.cpp:684-694 | The local size counts exactly the process's threads of the color. |
| SplitNumbers.RunsAreRanksIffSorted | pure/src/runtime/pure_comm.cpp:590-629 | Counting changes gives every entry's index in the sorted list without duplicates if and only if the origin MPI ranks come sorted. |
| SplitNumbers.MpiRankInGroup | pure/src/runtime/pure_comm.cpp:611-640 | With sorted origin ranks a thread's new MPI rank is where its process stands in the new group. |
| SplitLoops.Split | pure/src/runtime/pure_comm.cpp:519-783 | The leader's loop over all colors gives each thread the communicator with those numbers, and changes nothing else in the details. |
| SplitLoops.NumberRanks | pure/src/runtime/pure_comm.cpp:703-722 | The counter-array loop computes the numbering in place. |
| SplitLoops.NewMpiRanks | pure/src/runtime/pure_comm.cpp:590-602 | The loop counts the changes of value. |
| SplitLoops.CollectColor | pure/src/runtime/pure_comm.cpp:536-566 | The loop collects the color's ranks in the order of the details. |
| SplitLoops.MakeThreadComms | pure/src/runtime/pure_comm.cpp:725-782 | The loop gives each thread of the color its rank and its number. |
| SenderReceiverCollabRuns.ResultsRight | pure/src/runtime/pure_pipeline.cpp:319-431 | For any messages and stages, every stage of every executed message returned the right value: the reducer of its own two halves, or the whole. |
| SenderReceiverCollabRuns.HalvesOnce | pure/src/runtime/pure_pipeline.cpp:319-431 | In every run no half of a stage is done twice by either party; both halves of each collaborative stage of each executed message are done exactly once, and no half of any other stage or of a message not sent. |
| SenderReceiverCollabRuns.HalvesAgree | pure/src/runtime/pure_pipeline.cpp:319-431 | Between messages both parties have done the same halves in the same order, one for each collaborative stage of each message. |
| SenderReceiverCollabRuns.SameStage | pure/src/runtime/pure_pipeline.cpp:341-366 | While the sender works on a stage it is the receiver's active one, on the same message. |
| SenderReceiverCollabRuns.NeverBothStuck | pure/src/runtime/pure_pipeline.cpp:332-334 | No reachable state leaves both parties waiting. |
| SenderReceiverCollabProgress.MessagesComplete | pure/src/runtime/pure_pipeline.cpp:319-431 | From every reachable state and for every m, the two parties can go on until m messages have been executed. |
| SenderReceiverCollab.SenderKeeps | pure/src/runtime/pure_pipeline.cpp:319-377 | Every action of the sender keeps flags, places and values in step. |
| SenderReceiverCollab.ReceiverKeeps | pure/src/runtime/pure_pipeline.cpp:380-431 | Every action of the receiver does. |
| CollabPipelineObject.PurePipeline.RunSchedule | pure/src/runtime/pure_pipeline.cpp:237-431 | Any interleaving of the two parties is a run of the machine. |
| BundleRounds.StepInv | pure/src/transport/bundle_channel.cpp:249-295 | Every action of every endpoint keeps set, counter and condition frames in agreement with the rounds. |
| BundleRoundsRuns.OneContributionEach | pure/src/transport/send_bundle_channel.cpp:82-139 | Each bundle goes out with exactly one contribution of every endpoint; nobody is two rounds ahead. |
| BundleRoundsRuns.CounterBounded | pure/src/transport/send_bundle_channel.cpp:97-130 | The counter never exceeds the total and counts the current bundle. |
| BundleRoundsRuns.ReadyMeansTransferred | pure/src/transport/recv_bundle_channel.cpp:72-154 | After an endpoint's k-th call its buffer is reported ready only once bundle k has been sent or received, shared condition frames included. |
| BundleRoundsRuns.ReadyAfterRound | pure/src/transport/send_bundle_channel.cpp:141-156 | After the round it is reported ready, unless an endpoint of the same frame is in the next round. |
| BundleRoundsRuns.OneTransferAtATime | pure/src/transport/bundle_channel.cpp:249-253 | Only one thread at a time is in the counting section. |
| BundleRoundsRuns.NoDeadlock | pure/src/transport/bundle_channel.cpp:267-295 | Once every endpoint has made its call of the round, one of the calls can go on. |
| BundleRoundsProgress.RoundsComplete | pure/src/transport/bundle_channel.cpp:249-295 | From every reachable state and for every k, the endpoints can go on until each has finished k calls. |
| BundleChannelObject.BundleChannel.RunSchedule | pure/src/transport/bundle_channel.cpp:249-295 | Any interleaving of the endpoints' calls is a run of the machine. |
| HeaderCodec.RoundTripIff | pure/src/transport/mpi_message_metadata.cpp:114-134 | The six real fields come back exactly if and only if each is within its declared width, for all 32-bit values, negative ones included. |
| HeaderCodec.ParseSerialized | pure/src/transport/mpi_message_metadata.cpp:125-134 | Within the widths, parsing a serialized header gives the header, fails the check when the bytes are no multiple of the count, or divides by a zero count; the seventh field reads 42949. |
| HeaderCodec.FieldExact | pure/src/transport/mpi_message_metadata.cpp:28-28 | One conversion comes back exactly if and only if its value fits the width. |
| HeaderCodec.LastCut | pure/src/transport/mpi_message_metadata.cpp:117-121 | The seventh field, -1000 printed unsigned, is cut to its first five digits by the 43 characters. |
| HeaderLayout.SerializedLayout | pure/src/transport/mpi_message_metadata.cpp:114-121 | Within the widths, characters 0..6 of the text denote the count, 6..13 the bytes, 13..23 the datatype, 23..28 the destination, 28..33 the tag, sign included, and 33..38 the sender. |
| HeaderLayout.ParsedLayout | pure/src/transport/mpi_message_metadata.cpp:125-134 | Of any seven numerals of the format's widths the parser stores each field from those same characters, the datatype modulo 2^32, or stops at the check on the counts. |

## Left out

- Memory orders, cache padding and weak-memory effects: every access is sequentially consistent.
- Thieves across different collaborative stages of one pipeline: the code snapshots the stage's details before it claims, so a straddling thief would run the old stage; the model has one stage, executed any number of times.
- The return value of the guided `ExecuteDequeueContinuationUntilDone` when no chunk was done: the code returns none.
- `ExhaustRemainingWork` and the victim threads' order: a thief may enter the loop at any time in the model, whatever the victim pointer holds, which covers every caller.
- VictimScan.PureThread.MaybeExecuteStolenWorkOfRandomReceiver: the early return before all channels are initialised, and the case of no pipelines at all, are not modelled.
- PurePipelineObject.PurePipeline.RunSchedule: the continuation's run on a claimed range is one action, with its arguments read at its start.
- ReduceProcessChannelObject.ReduceProcessChannel.ReduceBlocking: the hand-over to MPI or to the root's buffer is one action of the leader; MAX and MIN initial values for doubles are not modelled.
- ReduceResult.ChunksPartition: element sizes are 1, 2, 4 or 8 bytes, those of the datatypes the code accepts.
- BufferedChannelRuns.Fifo: the receiver waits only for messages it has asked for, as the receive channel's own state checks demand; out-of-order waits are declared not working by the code and left out.
- BufferedProcessChannelObject.ProcessChannel.Dequeue: the user buffer's posting and the pop are one action, since only the pop is shared.
- RendezvousProcessChannelObject.ProcessChannel.DequeueWaitBlockingThisOnly: the typed queues' reads and writes are one action each.
- RecyclingProcessChannelObject.ProcessChannel.Destruct: the sender's own runtime buffer, allocated and freed once, is not modelled.
- LockedProcessChannelObject.ProcessChannel.EnqueueImpl: the capacity check stops the program as in a debug build; a release build overwrites the oldest message.
- SenderReceiverCollab.SenderKeeps: the sender's EnqueueWait only; EnqueueTest's help is outside any function in the code, and EnqueueBlocking gives none.
- SplitLoops.Split: ordering by `key` is not done by the code; MPI_Allgather is the array of gathered details, and a process's own details are its window of that array.
- SplitNumbers.MpiRankInGroup: nested origins beyond the immediate one (`CommWorldPureRank`) are not modelled.
- Binding of bundle endpoints, and the layout inside a bundled message: set up once before the rounds.
- The queue-style broadcast, the hybrid barrier, single-process broadcast with one thread, and roots other than thread 0: the direct-copy protocol needs thread 0 as root.
- Version 3 of the process channel, direct and RDMA MPI channels, batchers, thread pinning, timers, statistics and logging.
- The checks in the header's constructor, which a debug build makes before serializing.
- BufferedChannelRuns.WaitTakesNext: a message of zero elements is received like any other; the code's debug assertion rejects it.
