# uring_perf, modelled and proved

uring_perf is a network benchmark that drives io_uring by hand. Its workers keep
a submission queue, operations in flight, a completion queue, a map of
connections and several rings shared with the kernel in step with each other.
This project models that bookkeeping and proves that it holds on every run,
with the kernel as a nondeterministic party that may act between any two steps
of a worker.

`dafny verify dfyconfig.toml` checks the project.

## How the model is built

Each component has a pure description of one step, a state machine that
interleaves the worker with the kernel, an invariant proved of every step, and
main theorems about every reachable state. Beside it stand classes with the
loops and updates of the source. The worker classes read every completion
through its pointer into the shared completion ring and release it where the
source does, after which its slot may be written over. Each worker has a `Loop`
class in which the kernel attempts arbitrary steps before every test of a
harvest, before every completion and before every submit; one iteration of the
loop is proved to be a path of the machine, with every worker step on it named,
so that what is proved of the machine's reachable states holds of the loops.

| file | component |
|---|---|
| `Uring.dfy` | error numbers, the kernel's books |
| `Bits.dfy` | masks, tags, token splicing, `next_pow2`, `zcrx_align_up` on words |
| `Rings.dfy` | rings with free-running counters that wrap, mask indexing |
| `Bags.dfy`, `Runs.dfy` | what a queue names or adds up to; runs, reachability, invariants |
| `ProvidedBuffers.dfy` | the provided buffer ring of multishot receive |
| `CompletionQueue.dfy` | harvesting completions in batches; the completion ring itself |
| `RefillQueue.dfy` | the refill queue of zero-copy receive |
| `Zcrx.dfy`, `ZcrxBudget.dfy`, `ZcrxLoop.dfy` | the zero-copy receive server with its refill queue |
| `ServerModel.dfy`, `ServerLedger.dfy`, `ServerOwnership.dfy`, `ServerBudget.dfy`, `ServerSends.dfy`, `ServerReceives.dfy`, `ServerAccounting.dfy`, `ServerWorker.dfy`, `ServerLoop.dfy` | the TCP server |
| `SendPool.dfy`, `SendLoop.dfy` | the sending client |
| `ReverseClient.dfy`, `ReverseSingle.dfy`, `ReceiveLoop.dfy` | the receiving client |
| `Handshake.dfy` | the five-byte handshake over a fragmenting transport |
| `Stats.dfy` | per-thread counters, the reporter's scan, packet estimates |

The kernel is assumed to behave as follows.

- Without SQPOLL a submit takes the whole submission queue.
- A multishot operation posts any number of completions with MORE set, then one
  without, then nothing. With provided buffers a completion that has MORE set
  carries a buffer.
- A buffer appears only on a completion with a positive result, and has been
  taken from the head of the buffer ring. Without a buffer a multishot receive
  transfers nothing.
- A zero-copy send posts one result and at most one later notification.
- A zero-copy receive delivers data only with MORE set.
- An accept returns a descriptor that is not open; closed ones may come back.
- The completion ring is written only while it has room.
- The allocator may reuse the address of a destroyed object, never that of a
  live one.

Nothing is assumed about how the kernel uses zero-copy receive buffers, except
where a theorem names a limit: an area whose every delivery takes one whole
buffer, not delivered again before it has come back, or a bound on the
deliveries pending and queued at a check. The zero-copy loop itself faces a
kernel without such a limit, whose runs include those of a limited one.

The clock (nondecreasing), the stop flag (which only rises), handshake outcomes,
results of system calls and the order in which a hash map is visited are inputs.
The return value of every `prep_*` call is ignored by the source, so a full
submission queue is counted (`failed`) and the operation is lost, as in the
source. `-EAGAIN` stands for `-EWOULDBLOCK` too, which is the same number.

Some promises hold only under a condition, which is proved to be exact.

- No zero-copy buffer is ever dropped exactly when the limit fits the refill
  queue: an area of no more buffers than entries, or a bound on pending and
  queued deliveries of no more than the entries. With no limit some run drops
  (`RefillQueue.NoDropIffFits`).
- Multishot and single-shot receive account for the same stream in the same way
  exactly when no operation ends with a positive result or with `-EAGAIN`. A
  positive end without a buffer costs bytes and a packet, a retry is counted as
  an error, and each of them, as well as data without MORE, closes the multishot
  path only (`ReverseClient.RunsAgreeExactly`; a run for each in
  `ReverseClient.OddEndsHappen`).
- A reverse session has at most `in_flight` sends under way exactly when it is
  admitted on a descriptor that has no sends left over from a swept session
  (`ServerSends.SendsBoundedIffClean`; a run that exceeds it in
  `ServerSends.OverbookedRun`).
- A receiving session without multishot has exactly one receive per slot under
  way until its first end exactly when it is admitted on a descriptor that has no
  receives left over from an ended session (`ServerReceives.CompleteIffFresh`; a
  run that doubles one in `ServerReceives.DoubledRun`). All runs do so exactly
  when there is a single slot (`ServerReceives.AlwaysCompleteIffOneSlot`).
- No preparation of the server is lost exactly when the submission queue has
  twice `in_flight` slots (`ServerBudget.BudgetIsTight`).

## Model

| member | source | states |
|---|---|---|
| `ServerOwnership.ReceiveOwnership` | src/worker.cpp:442-590 | In every reachable state of a multishot server, reverse sessions included: every receive queued, in flight or named by an unread completion belongs to a session in the map now, with its own descriptor and context object, and exists once; while no preparation has failed there is exactly one accept and exactly one receive per receiving session. |
| `ServerOwnership.ExactlyOnceClose` | src/worker.cpp:412-425 | In every reachable state a descriptor has been accepted once more than closed exactly while a session owns it, whether it ends by refused handshake, EOF, error, deadline or final cleanup; after the worker quits the two agree. |
| `ServerAccounting.LeftOpen` | src/worker.cpp:623-629 | In every run the descriptors the kernel handed out are those closed, those of sessions and those named by unread accept completions; after the worker quits exactly the last are left open. |
| `ServerOwnership.ExactlyOnceFree` | src/worker.cpp:470-518 | In every reachable state each buffer ever allocated has been freed once or is owned once; after the worker quits each has been freed once. |
| `ServerOwnership.MultishotCloseLosesNothing` | src/worker.cpp:582-588 | Whenever a run processes a terminating multishot receive, the session found under its descriptor is a receiving one without buffers, so erasing it without freeing leaks nothing. |
| `ServerOwnership.SharedRingConservation` | src/worker.cpp:557-566 | In every multishot run each buffer id is in the shared ring or in exactly one unread completion, and every window slot holds the address of its own id. |
| `ServerOwnership.StepKeeps` | src/worker.cpp:405-621 | Every kernel and worker step keeps the whole server invariant: ledgers, descriptor discipline, the one accept, one receive per session, MORE ordering, buffer ring. |
| `ServerBudget.BudgetIsTight` | src/worker.cpp:427-620 | No preparation fails in any run if and only if the submission queue has at least twice `in_flight` slots. |
| `ServerBudget.ReachFailure` | src/uring_engine.cpp:104-181 | With fewer slots it constructs a run whose last step loses an operation. |
| `ServerBudget.StepKeepsBudget` | src/worker.cpp:433-620 | With twice `in_flight` slots every step keeps: nothing failed, an empty queue between batches, queue plus unread completions within `in_flight`, or twice that once the accept of the batch has been processed. |
| `ServerBudget.DeepQueueOwnership` | src/worker.cpp:433-620 | With that depth ownership is exact in every run: one accept, one receive per receiving session, never more than twice `in_flight` queued. |
| `ServerSends.SendsBoundedIffClean` | src/worker.cpp:465-492 | With that depth a run keeps every descriptor within `in_flight` outstanding sends if and only if it admits each reverse session on a descriptor without sends left over. |
| `ServerSends.OverbookedRun` | src/worker.cpp:524-544 | It constructs a run in which a swept session's descriptor comes back to another reverse session, which then exceeds `in_flight` sends. |
| `ServerReceives.ReceiveRotates` | src/worker.cpp:591-601 | In every single-shot run, processing a receive with a positive result or EAGAIN prepares the same receive again: with room in the queue what is outstanding stays unchanged, without room one preparation fails; sessions are untouched. |
| `ServerReceives.CompleteIffFresh` | src/worker.cpp:498-518 | With that depth, throughout a single-shot run every receiving session has exactly one receive per slot below `in_flight` on its own descriptor, from admission to first end, if and only if the run admits each one on a descriptor without receives left over. |
| `ServerReceives.DoubledRun` | src/worker.cpp:602-616 | It constructs, for more than one slot, a run in which a session ends with a receive still out, its descriptor comes back to another session, and a slot is under way twice. |
| `ServerReceives.AlwaysCompleteIffOneSlot` | src/worker.cpp:498-616 | All runs keep every receiving session at one receive per slot if and only if `in_flight` is 1. |
| `ServerReceives.ReceiveEndsSession` | src/worker.cpp:567-616 | In every run of either mode a final receive completion takes the session of its descriptor out of the map, after which the descriptor has been closed as often as accepted and all buffers of the session have been freed once, and prepares nothing; any other receive completion leaves sessions and ledgers alone. |
| `ServerLedger.SweepIsExact` | src/worker.cpp:412-425 | The sweep leaves exactly the sessions that are not both reverse and past their deadline, unchanged, and closes exactly the others. |
| `ServerLedger.AdmittedUntilDeadline` | src/worker.cpp:465-468 | A session admitted by an accept survives a sweep at any time, except a reverse one from the admission time plus the agreed duration on. |
| `ServerLedger.SendGating` | src/worker.cpp:524-555 | A send completion prepares another send exactly when it is no notification, its result is positive or EAGAIN, the worker is not stopped and its descriptor now belongs to a reverse session before its deadline. |
| `ServerOwnership.ReverseGating` | src/worker.cpp:529-552 | In every run, processing a send completion queues that send again exactly when its result allows it, the worker is not stopped and its descriptor belongs at that moment to a reverse session before its deadline; sessions are untouched. |
| `ServerLedger.EndKeepsLedger` | src/worker.cpp:603-615 | Ending a session keeps both ledgers provided a session that is not freed owns no buffers. |
| `ServerAccounting.CountsWhatMoved` | src/worker.cpp:534-606 | In every run counted plus unread bytes and packets are what the kernel transferred, counted plus unread plus owed notifications are those it announced, counted plus unread failures those it posted, and the completions processed and unread are those posted, in order. |
| `ServerWorker.Server.Completion` | src/worker.cpp:433-619 | The loop body reads a completion through its pointer, does the modelled step and releases it, at once without a context and at the bottom otherwise, and reads nothing of it afterwards. |
| `ServerLoop.Loop.Iterate` | src/worker.cpp:405-621 | From any reachable state, one iteration is a path of the machine to the state the worker and the rings are then in: its worker steps are one sweep, one harvest of `k` completions, exactly `k` processings in order and the submit, with kernel steps anywhere in between; `k` is `in_flight` or no less than what was unread. |
| `ServerLoop.Loop.Serve` | src/worker.cpp:405-629 | The whole loop and the clean-up after it are a path of the machine, which ends exactly when stop is seen. |
| `ServerLoop.Loop.Harvest` | src/uring_engine.cpp:268-282 | Harvesting with the kernel at work before every test yields pointers to the oldest unread completions, in order, all of them or `in_flight`, and takes no worker step. |
| `ServerWorker.Server.SweepSessions` | src/worker.cpp:412-425 | Erasing while iterating, in any order of the map, equals dropping the expired sessions all at once. |
| `ServerWorker.Server.FillPool` | src/worker.cpp:470-492 | The allocation loop gives fresh consecutive buffers and prepares one operation per slot, in order, as far as the queue has room. |
| `ServerWorker.Server.Cleanup` | src/worker.cpp:624-629 | The final loop, in any order of the map, closes every remaining session once and frees its buffers. |
| `Zcrx.ConnectionOwnership` | src/worker.cpp:761-773 | In every reachable state each pending receive word decodes, by clearing its tag bits, to a live connection object in the map under the descriptor of the operation; each connection has exactly one receive through any series of rearms; one accept until stop; no destroyed object is ever used. |
| `Zcrx.ServerDeliveryConservation` | src/worker.cpp:876-881 | In every run of the server the deliveries of the kernel are, in order, those handed to the refill queue, the one being returned and those in unread completions; each handed over was queued once, or dropped because its check saw a full queue; those queued are what the kernel consumed and finds in the ring; nothing is dropped when the limit fits. |
| `Zcrx.CountsWhatMoved` | src/worker.cpp:858-881 | In every run counted plus unread bytes are what the kernel transferred, every delivery is counted or unread, as a packet and as a zero-copy event, and counted plus unread failures are those posted. |
| `Zcrx.BatchBudget` | src/worker.cpp:840-885 | In every run a batch prepares at most two operations more than there were connections when it began. |
| `ZcrxBudget.BudgetIsTight` | src/worker.cpp:840-885 | For every number of connections that has room in the address space, batches beginning with `n` connections always fit a queue if and only if it has `n + 2` slots. |
| `ZcrxBudget.WorstBatch` | src/worker.cpp:843-866 | It constructs, for every `n`, a run whose batch prepares exactly `n + 2` operations. |
| `Zcrx.ExactlyOnceClose` | src/worker.cpp:867-891 | In every run the accepted descriptors are the closed ones and the keys of the map; after the loop all are closed. |
| `Zcrx.LeftOpen` | src/worker.cpp:887-892 | In every run the descriptors the kernel handed out are those closed, those in the map and those named by unread accept completions; after the loop exactly the last are left open. |
| `Zcrx.StepKeeps` | src/worker.cpp:821-886 | Every step keeps map and objects pointing at each other, one operation per connection, MORE ordering, descriptor discipline and the batch bound. |
| `Zcrx.RxDecodes` | src/worker.cpp:767-773 | The word built for a receive on an aligned object keeps both its tag and its address. |
| `ZcrxLoop.Server.Completion` | src/worker.cpp:840-884 | The loop body up to the full check, seeing only the word of an operation, does the modelled step, and goes on to return a buffer exactly for a delivery whose check finds room. |
| `ZcrxLoop.Loop.Iterate` | src/worker.cpp:819-885 | From any reachable state, one iteration is a path of the machine: a submit, then only processings and returns, then the release of everything processed, with kernel steps anywhere in between, also between check, stores and publication; everything unread at its beginning has been processed, once and in order. |
| `ZcrxLoop.Loop.GiveBack` | src/worker.cpp:747-759 | Past the check, the two stores and the publication are machine steps, each with the kernel at work before it. |
| `ZcrxLoop.Loop.Serve` | src/worker.cpp:819-889 | The whole loop, left on stop or a failed wait, and the closing loop after it are a path of the machine to its end, unless memory for a connection runs out. |
| `ZcrxLoop.Server.Cleanup` | src/worker.cpp:887-889 | The final loop closes every connection once, in any order. |
| `RefillQueue.RefinesBoundedFifo` | src/worker.cpp:740-759 | On every interleaving, the kernel consuming also between check, stores and publication: the distance of the counters stays between 0 and the entry count, and what the kernel read is what was kept of the deliveries, in order, each entry with its length, its low offset bits and the area token above them. |
| `RefillQueue.DeliveryConservation` | src/worker.cpp:744-759 | On every interleaving what was delivered is, in order, what has been handled, the delivery being returned and what is pending; each handled delivery was queued once or dropped, and dropped exactly when its check saw a full queue. |
| `RefillQueue.StepKeeps` | src/worker.cpp:747-759 | Every single check, store, publication and consumption keeps the queue a FIFO and every delivery in its place. |
| `RefillQueue.NoDropIffFits` | src/worker.cpp:744-750 | No run drops a buffer if and only if the limit fits the queue, be it an area of whole buffers or a bound on pending plus queued deliveries at every check; without a limit some run drops. |
| `RefillQueue.OffsetSurvives` | src/worker.cpp:756-756 | With the area id from bit 48 up, every offset below 2^48 comes back next to the token. |
| `RefillQueue.Queue.ReturnBuffer` | src/worker.cpp:747-759 | The method on the mapped array, with the kernel consuming before the check, before the stores and before the publication: it drops exactly when the check sees a full ring and otherwise appends one spliced entry behind everything unread. |
| `BufferRuns.BufferConservation` | src/uring_engine.cpp:214-244 | On every interleaving of kernel takes and worker returns, across wrap of the 16-bit tail, each buffer id is in the window or in one unprocessed completion and never both, the window never exceeds the ring, and every window slot holds the address of its own id in the block. |
| `ProvidedBuffers.ReturnKeepsPool` | src/uring_engine.cpp:238-244 | Returning a held buffer overwrites no unread slot and puts it behind the window with the address of its own id. |
| `ProvidedBuffers.TakeKeepsPool` | src/worker.cpp:557-558 | The buffer the kernel takes from the head moves from the window to the held ones. |
| `ProvidedBuffers.RecvBuffers.Setup` | src/uring_engine.cpp:192-222 | Set-up succeeds only with the least power of two of buffers and then leaves a ring holding every id once at its own address; it succeeds whenever kernel and allocator agree and at most 32768 buffers are asked for. |
| `ProvidedBuffers.RecvBuffers.ReturnRecvBuffer` | src/uring_engine.cpp:238-244 | The method on the mapped slots performs the modelled return. |
| `CompletionQueue.RefinesFifo` | src/uring_engine.cpp:268-286 | Posting appends to, and processing removes and sees the first of, an abstract queue; harvesting and releasing are invisible. |
| `CompletionQueue.ProcessedInOrder` | src/uring_engine.cpp:268-286 | Over every run and across counter wrap, what has been processed is a prefix of what was posted, and every pointer still held refers to the entry it was harvested for. |
| `CompletionQueue.HarvestStaysInside` | src/uring_engine.cpp:276-279 | Testing the counters for inequality only is enough to stay inside the unread window. |
| `CompletionRing.Queue.Peek` | src/uring_engine.cpp:276-279 | Past the pointers already held the test finds another entry exactly if there is one, and the pointer it gives continues them; nothing is released. |
| `CompletionRing.Queue.CqeSeen` | src/uring_engine.cpp:284-286 | Releasing gives back the oldest entry and promises nothing about its slot; the pointers still held stay good. |
| `SendPool.PoolConservation` | src/worker.cpp:129-202 | In every run no context is between preparation and result twice; before stop the live sends are the pool minus the contexts that died; nothing fails after priming, and nothing at all exactly when the queue is at least `in_flight` deep. |
| `SendPool.ResultFate` | src/worker.cpp:160-198 | In every run a processed result puts its context back into the queue exactly if it is positive or EAGAIN and stop is not set; otherwise nothing is prepared and the context has left rotation, retired by stop or dead. |
| `SendPool.StopDrains` | src/worker.cpp:181-194 | From the moment stop is set, on every path, what is in rotation only shrinks and no preparation is attempted in vain. |
| `SendPool.CountsWhatMoved` | src/worker.cpp:157-198 | In every run counted plus unread bytes and packets are what the kernel transferred, counted plus unread plus owed notifications are those it announced, and counted plus unread failures and dead contexts are those of its completions. |
| `SendPool.PacketsFallShort` | src/worker.cpp:163-170 | In every UDP run the packets counted and unread fall short of the datagrams taken by exactly the transfers that end in a short datagram, at most one each. |
| `SendLoop.Sender.Completion` | src/worker.cpp:147-200 | The loop body reads a completion through its pointer and releases it on each of its three ways out, the two early ones included, after its last read. |
| `SendLoop.Loop.Iterate` | src/worker.cpp:140-203 | From any reachable state, one iteration is a path of the machine: the test of stop, one harvest of `k` completions, exactly `k` processings in order and the submit, with kernel steps anywhere in between; `k` is `in_flight` or no less than what was unread. |
| `ReverseClient.StarvationRecovery` | src/worker.cpp:273-286 | Whenever a run processes an ENOBUFS termination there is no other completion and no operation, and after the rearm every buffer is back in the ring. |
| `ReverseClient.RearmStartsFull` | src/worker.cpp:279-281 | Whenever a run hands a rearmed receive to the kernel the ring is completely full. |
| `ReverseClient.MultishotAgainstSingleShot` | src/worker.cpp:273-301 | For every stream a multishot receive can post, with any number of starvations: single-shot also counts the bytes and packets of positive ends without a buffer, multishot also counts retries as errors, and it is closed exactly when single-shot is or some end was positive or a retry. |
| `ReverseClient.RunsAgreeExactly` | src/worker.cpp:273-301 | In every run the two paths agree on bytes and packets unless an end was positive without a buffer, on errors unless an end was a retry, on closedness and on everything together unless an end was either of these or cut data short; each is an equivalence. |
| `ReverseClient.OddEndsHappen` | src/worker.cpp:279-300 | Each of the three kinds of ends is processed by some run, in which the two paths then account differently. |
| `ReverseClient.BranchAccounts` | src/worker.cpp:273-301 | The two accounts compared are those of the two branches of the loop body. |
| `ReverseSingle.ReceivePool` | src/worker.cpp:233-301 | In every single-shot run no slot is in rotation twice; until stop or the first end exactly the slots of the pool are, all of `in_flight` if the queue is that deep; before stop each end processed has cost one; closed exactly if an end was processed; nothing fails after priming. |
| `ReverseSingle.Rotation` | src/worker.cpp:287-301 | In every single-shot run a processed receive goes back into the queue exactly if it delivered or is to be retried and stop is not set; an end closes the connection and prepares nothing. |
| `ReverseSingle.SingleShotAccount` | src/worker.cpp:287-301 | In every single-shot run the counters are the account the multishot path is compared with. |
| `ReceiveLoop.Receiver.Completion` | src/worker.cpp:265-304 | The loop body, multishot or single-shot, reads a completion through its pointer and releases it on both ways out after its last read. |
| `ReceiveLoop.Loop.Iterate` | src/worker.cpp:258-306 | From any reachable state of either mode, one iteration is a path of the machine: the test, one harvest of `k` completions, exactly `k` processings in order, also once the peer has closed, and the submit, with kernel steps anywhere in between; `k` is `in_flight` or no less than what was unread. |
| `StatsScan.EveryAdditionCounts` | src/stats.cpp:21-38 | In every run the true totals are the amounts of the additions made for threads of the table, each in the cell of its thread, and every cell holds its total modulo the word. |
| `StatsScan.ScanIsBetween` | src/stats.cpp:80-92 | Whenever a scan completes, its total lies between the amounts added before it began and those added until it ended, and is not below the previous one; below the wrap the printed interval is their exact difference. |
| `StatsScan.ReportsTelescope` | src/stats.cpp:90-118 | The printed intervals add up to the last total, modulo the word always and exactly below it. |
| `StatsScan.QuietScanIsExact` | src/stats.cpp:129-139 | A scan during which nothing is added yields the sum of all amounts ever added, modulo the word. |
| `StatsScan.Collector.Report` | src/stats.cpp:80-118 | The report loop over the shared cells, with workers adding before every single load, prints for each column a total between the amounts recorded before and after, not below the last, and below the wrap the exact interval. |
| `StatsScan.Counter.Summary` | src/stats.cpp:134-139 | The summing loop, when nobody adds, gives the sum of all amounts ever recorded for threads of the table, modulo the word. |
| `Stats.EstimateError` | src/worker.cpp:167-170 | For every sequence of positive results the estimated packet count falls short of the datagram count by exactly the number of results that are longer than a segment and no multiple of it, so by at most one each and by none on multiples. |
| `Handshake.WireBytes` | src/net_utils.cpp:222-227 | Whatever the byte order of the host, the wire holds the role, then the duration from its most to its least significant byte. |
| `Handshake.DecodeUndoesEncode` | src/net_utils.cpp:222-241 | Whatever the byte orders of the two hosts, every role and 32-bit duration survives the wire. |
| `Handshake.SendAll` | src/net_utils.cpp:183-200 | It succeeds exactly when the schedule of partial sends, retries and failures moves the whole buffer before it breaks; the peer has the whole then, and otherwise exactly what was moved before the break. |
| `Handshake.RecvAll` | src/net_utils.cpp:202-220 | What is read and what is left make up the stream; it succeeds exactly when the schedule completes and the stream is long enough, and otherwise has read what was moved before the break, or all there was. |
| `Handshake.Exchange` | src/net_utils.cpp:222-241 | The sender succeeds exactly when its schedule completes, the receiver then exactly when its own does; it has the pair sent, has consumed five bytes and left the payload untouched. A failed sender without payload behind it makes the receiver fail. |
| `Bits.NextPow2` | src/uring_engine.cpp:184-189 | The smearing steps give the least power of two not below the argument, and 0 above 2^31. |
| `Bits.AlignUpIsLeastMultiple` | src/worker.cpp:662-664 | For a power-of-two alignment the result is the least multiple not below the value if and only if the addition does not overflow. |
| `Bits.TagRoundTrip` | src/worker.cpp:856-856 | Clearing the tag bits gives the address back exactly on addresses whose tag bits are clear. |
| `Bits.SpliceKeepsOffset` | src/worker.cpp:756-756 | Masking and or-ing keeps the low offset bits and adds the token, for every token without low bits. |
| `Rings.SlotIsModulo` | src/uring_engine.cpp:214-218 | For a power-of-two entry count that fits the counter, the masked index is the counter modulo the count, also after the counter has wrapped. |
| `Rings.PushAppends` | src/uring_engine.cpp:241-243 | Storing at the tail slot of a ring that is not full and advancing appends to the window and touches none of its entries. |
| `Rings.FullTailHitsOldest` | src/worker.cpp:748-750 | On a full ring the tail slot is the slot of the oldest unread entry. |

## Left out

- UDP server: its shared listener has no sessions; the accounting of UDP results is covered by the estimate.
- SQPOLL: a submit then no longer drains the queue, so the queue budgets would not apply.
- Socket creation, tuning and name resolution; registration of buffers, files and interface queues; ring set-up flags: system-call plumbing.
- A zero-copy receive that ends with a positive result: the source closes the connection without counting it, and the kernel is taken not to transfer anything there.
- Context lifetime of single-shot and reverse-send sessions: those contexts are carried by value (kind, descriptor, slot), because the source erases such a session while sibling completions may be pending; only descriptors, buffers, gating and counters are claimed.
- Contents and early reuse of zero-copy send buffers: the payload is irrelevant to the benchmark.
- Failed buffer allocation in the server's and client's own pools: the source stores a null pointer, which the model does not distinguish.
- `run_client_reverse_recv_zcrx`: the single-connection mirror of the zero-copy server, which would only repeat a special case.
- ZcrxBudget.BudgetIsTight: for `n` beyond the number of aligned addresses no such run exists, so the address space bounds `n`.
- The zero-copy server's submission queue is not bounded in the model: the source does not check for a missing slot, and the theorem says how deep the queue must be.
- Room in the completion ring is modelled in `CompletionQueue.dfy` and in the loops, whose kernel does not post into a full ring; the worker machines leave it out and so admit more runs.
- The `Loop` classes take a bounded number of iterations, as many as worlds are given; the loops of the source have no bound but stop, so every prefix of their runs is covered.
- ZcrxLoop.Loop.Serve: a failed allocation leaves the function by an exception, which the model ends with; unwinding is not modelled.
- The columns of the reporter's scan run as separate machines, since no property relates them; the report loop drives all three.
- Rates, text formatting, command-line parsing, affinity, fork, signals and real time.
- The wait bounds of `submit_and_wait` and `poll`: a wait may end at any moment in the model.
