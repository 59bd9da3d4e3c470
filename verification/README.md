# Verification of the RDMA request-response benchmark

This project models the logic of the benchmark that sits above the verbs calls and proves what that logic is meant
to guarantee. The network and the card are replaced by abstract queues and memory.

* **Dispatcher protocol** (`Protocol*.dfy`). Any number of workers fill a request slot each, one dispatcher forwards
  the slots and hands out the responses, any number of receivers answer. Threads are program counters over shared
  memory, one step is one access, and all interleavings are covered; both sides may poll buffers (BUF) or use a shared
  receive queue (SRQ), in all four combinations. `ProtocolInvariant` relates the memory to a history that says where
  every request and finish message is; the `Protocol*Steps` files show that every step keeps it. `ProtocolSafety` and
  `ProtocolTheorems` read off what holds in all runs, `ProtocolAnswers` follows the answers of one worker, `Draws` says
  what the random draws can ask for, `ProtocolMeasure` and `ProtocolProgress` that runs get to their
  end, `ProtocolFairness` that fair runs cannot do otherwise, and `ProtocolCredit` finds the exact number of receive
  buffers that makes a configuration safe. `Setup` has all senders and
  receivers set the run up, shows that they always get done and that the initial state is what comes about, and `DispatcherLoop`,
  `ReceiverLoop` and `SenderLoop` write the loops of the three threads in their own imperative form and tie them to the
  steps.
* **Allocator** (`FreeList`, `Allocator`). The first-fit allocator as written, including its sum of offsets and the
  used entry it erases too early, against a byte-level specification.
* **Barrier** (`Barrier`). The reusable spin barrier with its 8-bit round.
* **Simultaneous connect** (`Handshake`, `Sequencer`). Two servers dial each other; the sequencer's IDs break the tie.
* **Hardware-queue accounting** (`Signaling`, `Partition`, `RpcRing`, `CircBuf`, `Bits`). Selective signalling, response
  slices, the RPC buffer ring, the mask-indexed ring and the rounding to a power of two.

`Sums`, `Counting` (in `Sums.dfy`) and `Arithmetic` hold the counting, division and remainder facts the proofs share.

Assumptions. Shared memory is sequentially consistent and a message becomes visible atomically. A forwarded request is
a snapshot taken when it is posted (64 bytes are sent inline); a response is read from the receiver's memory as late as
its arrival. A message that finds no posted receive buffer breaks the connection (`rnr_retry` is 0,
`src/net/src/rdma/ReliableRDMA.cc:656`). Send completions come in order and receive queues are first in, first out.
The receiver's buffers for the InitExp messages are posted before these messages arrive. All senders go through the
receivers in the same order, that of the sequencer's list.

The protocol's barrier step is taken at once when all workers have arrived; `Barrier.ReturnsAfterArrivals` is why.

Where comments and code differ the code is followed, and it is shown exactly when the comment is true. `CircBuf::add`
and `remove` are said to report a full or an empty ring (`src/benchmark/BenchmarkDispatcher.h:62` and `:70`); `add`
always returns true, which is right exactly if the ring was not full, and `remove` returns nothing
(`CircBuffer.CircBuf.Add`, `CircBuffer.CircBuf.Remove`). `upper_power_of_two` is named for all words but smears only 32
bits (`CircBuffer.UpperPowerOfTwo`). `connect` is documented to return true on success
(`src/net/src/rdma/RDMAClient.h:97-104`) but can do so after a refusal, before anything is connected; it cannot exactly
if the caller's ID is not the smaller one (`Handshake.ConnectedOnReturnIff`). A worker's one random number picks both the
receiver and the response, so not every pair of them can come up (`Draws.PairDrawnIff`), and the last response of a
slice is never asked for, since the bound of the slice is its last slot and the remainder stays below it.

## Model

| member | source | states |
|---|---|---|
| Protocol.MaxOf | src/benchmark/BenchmarkReceiver.h:199-204 | the largest sender ID is one of the IDs and no other exceeds it |
| ProtocolWorkerSteps.WorkerKeeps | src/benchmark/BenchmarkSender.h:325-387 | every step of a worker - filling the slot, publishing, taking the mail, the barrier, each finish message - keeps the invariant and moves the history as described |
| ProtocolDispatcherSteps.DispatcherKeeps | src/benchmark/BenchmarkDispatcher.h:265-372 | every step of the dispatcher loop keeps the invariant, in particular slot before mailbox before repost |
| ProtocolReceiverSteps.ReceiverKeeps | src/benchmark/BenchmarkReceiver.h:99-139 | every step of a receiver keeps the invariant, in particular slot released before the response (BUF) and reposted after it (SRQ) |
| ProtocolReceiverSteps.BuildKeeps | src/benchmark/BenchmarkReceiver.h:109-115 | writing a response disturbs no response that another worker is still owed |
| ProtocolReceiverSteps.TransferKeeps | src/benchmark/BenchmarkReceiver.h:86-96 | the response is addressed by the fields of the request being answered although a BUF slot has been released before |
| ProtocolNetworkSteps.RequestArrives | src/benchmark/BenchmarkReceiver.h:49-71 | an arriving request or finish message finds room, overwrites nothing unread and keeps the invariant |
| ProtocolNetworkSteps.ResponseArrives | src/benchmark/BenchmarkDispatcher.h:131-137 | an arriving response finds its slot or a posted buffer, carries the answer to the worker's current request and keeps the invariant |
| ProtocolNetworkSteps.ResponseCredit | src/benchmark/BenchmarkDispatcher.h:255-262 | in SRQ mode a response under way has a posted buffer, even between the mailbox flip and the repost |
| ProtocolNetworkSteps.CreditLeft | src/benchmark/BenchmarkReceiver.h:141-154 | with enough credit an SRQ receiver has a buffer posted for every message under way, counting answered, not yet reposted and finish-message buffers |
| ProtocolFrames.AddressRoundTrip | src/benchmark/BenchmarkDispatcher.h:340-341 | subtracting the base and dividing by the slot size recovers the slot an address was made from |
| ProtocolFrames.ResponseIdsDiffer | src/benchmark/BenchmarkSender.h:348 | different workers never ask for the same prepared response |
| ProtocolFrames.SlotsApart | src/benchmark/BenchmarkReceiver.h:226 | two slots of the request or response memory share no byte and lie in the memory reserved |
| ProtocolSafety.InitOk | src/dispatcherMain.cc:58-82 | the state before the measured phase satisfies the invariant |
| ProtocolSafety.StepKeeps | src/dispatcherMain.cc:75-103 | every step of every thread and of the network keeps the invariant |
| ProtocolSafety.RunKeeps | src/dispatcherMain.cc:75-103 | the invariant holds after any number of steps of any run |
| ProtocolSafety.NoErrors | src/benchmark/BenchmarkDispatcher.h:313-330 | in no run is "Has not been transfered" reached, does a mailbox exchange fail, does a message find no buffer, or is an unread message overwritten |
| ProtocolSafety.EverythingFits | src/benchmark/BenchmarkDispatcher.h:313-330 | in every state of every run each message under way has a free place waiting, the mailbox about to be flipped is empty and the owner of the response about to be handled has its request transferred |
| ProtocolSafety.PlaceIff | src/benchmark/BenchmarkDispatcher.h:289-332 | the place the history names is where the request is found in memory, and the only one |
| ProtocolTheorems.ExactlyOnePlace | src/benchmark/BenchmarkSender.h:339-366 | while a worker waits its request is in exactly one place (own slot, wire, receive buffer, receiver, response wire, response slot, dispatcher, mailbox), and otherwise in none |
| ProtocolTheorems.WiresCarryOneEach | src/benchmark/BenchmarkDispatcher.h:241-252 | no message is on a wire twice and no worker has two requests or two responses under way |
| ProtocolTheorems.LandedAnswersOwner | src/benchmark/BenchmarkDispatcher.h:333-348 | a landed response names the worker whose forwarded request it answers, and answers its current request |
| ProtocolTheorems.ForwardedExactlyOnce | src/benchmark/BenchmarkDispatcher.h:289-297 | what the dispatcher has posted for a worker is exactly its first requests, in order, each once |
| ProtocolAnswers.AnsweredExactlyOnce | src/benchmark/BenchmarkReceiver.h:106-126 | what receivers have posted for a worker are the answers to its first requests, in order, each once and from the receiver asked; a worker goes on only after its request was answered, and no answer precedes the forwarding |
| Draws.AnyTargets | src/benchmark/BenchmarkSender.h:343-344 | for any choice of receivers, request by request, some draws make the workers pick exactly these |
| Draws.AnyResponses | src/benchmark/BenchmarkSender.h:348 | for any choice of response slots, each below the last of its slice, some draws make the workers ask for exactly these |
| Draws.PairDrawnIff | src/benchmark/BenchmarkSender.h:343-348 | one number gives a request a receiver and a slot exactly if the receiver's position and the slot's distance from the slice's beginning differ by a multiple of the greatest common divisor of their ranges |
| Draws.RequestsGoWherePicked | src/benchmark/BenchmarkDispatcher.h:289-297 | whatever receivers are chosen, there are draws with which in every run the k-th request of a worker is posted to the receiver chosen for it, into its request memory, asking for a slot of the worker's slice |
| ProtocolTheorems.DispatcherCountersExact | src/benchmark/BenchmarkDispatcher.h:294-312 | when all workers have arrived at the barrier, reqDispatched and msgReceived equal the number of requests |
| ProtocolTheorems.FinishAfterBarrier | src/dispatcherMain.cc:93-95 | no finish message is under way or counted before all workers have arrived and every request has been forwarded and answered |
| ProtocolTheorems.ReturnedHandledAll | src/benchmark/BenchmarkReceiver.h:127-131 | a receiver that returns has counted one finish message per client, after all had been sent to it, and reports exactly the requests addressed to it |
| ProtocolTheorems.FinishConservation | src/benchmark/BenchmarkReceiver.h:127-136 | at any time clientsFinished is the number of finish messages sent to the receiver and no longer under way |
| ProtocolTheorems.ByReceiverAddsUp | src/benchmark/BenchmarkSender.h:343-344 | counting requests by the receiver picked or by worker comes to the same |
| ProtocolTheorems.ReportsAddUp | src/dispatcherMain.cc:103-107 | when all receivers have returned their reports add up to all requests issued |
| ProtocolTheorems.StoppedMeansQuiet | src/dispatcherMain.cc:99-101 | when running becomes false all workers have finished and no request or response is anywhere |
| ProtocolTheorems.SpareIdGivesCredit | src/benchmark/BenchmarkReceiver.h:199-204 | maxNodeID + 1 buffers are one more than there are senders exactly if some ID below the largest sender's is not a sender's |
| ProtocolMeasure.StepMeasure | src/benchmark/BenchmarkDispatcher.h:282-372 | every step other than an empty poll makes the measure of remaining work smaller, and an empty poll leaves it alone |
| ProtocolProgress.BusyStepsBounded | src/dispatcherMain.cc:88-103 | however threads are interleaved, a run has a bounded number of steps that are not empty polls |
| ProtocolProgress.DriveDispatcher | src/benchmark/BenchmarkDispatcher.h:282-303 | with a request to forward, a response to take or the end to notice, the dispatcher gets to it by empty polls alone |
| ProtocolProgress.CanProgress | src/benchmark/BenchmarkReceiver.h:49-71 | until every thread has ended, one thread is only empty polls of its own away from a step that does something |
| ProtocolProgress.NoDeadlock | src/dispatcherMain.cc:88-103 | from every reachable state the run can get on and can be completed |
| ProtocolFairness.SomeonePassedOver | src/benchmark/BenchmarkDispatcher.h:282-303 | while all threads poll in vain before the end, one that could take a step has had only a bounded number of turns |
| ProtocolFairness.FairRunsEnd | src/dispatcherMain.cc:88-103 | every run in which something happens in each window of steps, or each thread gets its turns, is bounded in length |
| ProtocolFairness.StuckIffEnded | src/dispatcherMain.cc:99-103 | a run cannot be continued exactly if every thread has ended |
| ProtocolProgress.EndIsComplete | src/dispatcherMain.cc:99-107 | at the end dispatched, received and reported requests all equal the requests issued and both wires are empty |
| ProtocolCredit.CreditNeeded | src/benchmark/BenchmarkReceiver.h:117-131 | without the spare buffer some run makes a message arrive at a receiver that is not ready |
| ProtocolCredit.SafeIffCredit | src/benchmark/BenchmarkReceiver.h:141-154 | a configuration is safe in all runs exactly if an SRQ receiver with requests to answer has more buffers than senders |
| ProtocolCredit.SafeIffSpareId | src/benchmark/BenchmarkReceiver.h:199-208 | for SRQ receivers: safe exactly if some ID below the largest sender's is not a sender's |
| Setup.ReadyMeansPosted | src/benchmark/BenchmarkReceiver.h:170-229 | when a receiver has answered any sender, all InitExp messages are in, their buffers are used up and exactly the request buffers are posted, in order, or all set to EMPTY |
| Setup.ReadyIsProtocolStart | src/benchmark/BenchmarkReceiver.h:206-226 | that queue, or these cleared slots, are what the protocol run starts from, at every receiver |
| Setup.SetUpCompletes | src/benchmark/BenchmarkReceiver.h:183-231 | in every interleaving the set-up of all receivers takes a bounded number of steps and stops exactly when every receiver runs and every sender has the answer of every receiver |
| Setup.StepLowers | src/benchmark/BenchmarkReceiver.h:183-231 | every step of an exchange lowers what is left to do in it |
| Setup.StepOrDone | src/benchmark/BenchmarkSender.h:57-70 | an exchange that is not done can take a step |
| Setup.AnsweredInOrder | src/benchmark/BenchmarkReceiver.h:214-229 | a receiver that runs has answered every sender; while it answers, exactly those before its index in the list of connected senders have been |
| Setup.ReadyKnowsSlice | src/benchmark/BenchmarkSender.h:67-69 | the slice and the address a sender has been told are the ones its requests are made from |
| Setup.AnswersApart | src/benchmark/BenchmarkReceiver.h:217-226 | different senders are told slices without a common slot and request slots without a common byte, all inside the receiver's memory |
| Setup.ArriveKeeps | src/benchmark/BenchmarkReceiver.h:179-190 | every InitExp message finds one of the buffers posted for them; that these are posted before the first message comes is an assumption about the start-up order |
| DispatcherLoop.BenchmarkDispatcher.ForwardAll | src/benchmark/BenchmarkDispatcher.h:289-297 | the scan loop, undisturbed, is a sequence of the protocol's steps from the start of the scan to its end |
| DispatcherLoop.BenchmarkDispatcher.PollBuffer | src/benchmark/BenchmarkDispatcher.h:176-186 | the BUF poll takes one response and resets its flag, as the protocol's steps do |
| DispatcherLoop.BenchmarkDispatcher.PollQueueBatch | src/benchmark/BenchmarkDispatcher.h:188-203 | the SRQ poll takes the oldest completions, up to the maximum, as the protocol's steps do |
| DispatcherLoop.BenchmarkDispatcher.FlipOne | src/benchmark/BenchmarkDispatcher.h:317-325 | the exchange on the mailbox succeeds at the first try |
| DispatcherLoop.BenchmarkDispatcher.HandleAll | src/benchmark/BenchmarkDispatcher.h:303-371 | the loop over the responses hands out all of them, as the protocol's steps do |
| DispatcherLoop.BenchmarkDispatcher.Turn | src/benchmark/BenchmarkDispatcher.h:282-372 | a whole turn of the run loop leads from the start of the scan to the top by the protocol's steps and keeps the invariant |
| ReceiverLoop.BenchmarkReceiver.ScanSlots | src/benchmark/BenchmarkReceiver.h:53-59 | one pass of the BUF poll returns the first slot that holds a message, or finds that there is none, by the protocol's steps |
| ReceiverLoop.BenchmarkReceiver.Answer | src/benchmark/BenchmarkReceiver.h:106-126 | answering a request posts exactly what the protocol's steps post |
| ReceiverLoop.BenchmarkReceiver.Turn | src/benchmark/BenchmarkReceiver.h:102-137 | one turn of the receive loop, with or without a message to be found, is at least one of the protocol's steps and ends at the next poll or with the return |
| SenderLoop.BenchmarkSender.IssueRequest | src/benchmark/BenchmarkSender.h:343-359 | the slot holds the whole request when its type is set: the receiver is the draw's remainder, the response is one of the worker's slice, and both addresses decode to the worker's own slots; in two of the protocol's steps |
| SenderLoop.BenchmarkSender.TryCollect | src/benchmark/BenchmarkSender.h:362-365 | the mail is taken exactly if it is there |
| SenderLoop.BenchmarkSender.FinalizePhase | src/benchmark/BenchmarkSender.h:378-387 | the finish loop sends one message to every receiver |
| Partition.Partition | src/benchmark/BenchmarkReceiver.h:157-167 | the bounds of a node's slice lie inside the prepared slots |
| Partition.SlicesDisjoint | src/benchmark/BenchmarkReceiver.h:157-167 | slices of different nodes are disjoint and ordered like the IDs |
| Partition.SlicesCover | src/benchmark/BenchmarkReceiver.h:157-167 | every prepared slot is in exactly one slice |
| Partition.SliceSizes | src/benchmark/BenchmarkReceiver.h:157-167 | every slice but the last holds the quotient of slots, the last also what the division leaves over |
| Partition.SlicesUsable | src/benchmark/BenchmarkSender.h:348 | the remainder a sender takes is defined for every slice exactly if each slice holds two slots |
| FreeList.InitSound | src/net/src/rdma/BaseRDMA.cc:21-28 | the initial list partitions the memory |
| FreeList.AllocKeeps | src/net/src/rdma/BaseRDMA.cc:234-253 | an allocation keeps the list canonical and every byte accounted for; its bytes were free and are used now |
| FreeList.AllocFirstFit | src/net/src/rdma/BaseRDMA.cc:234-253 | it fails exactly if no run of that many free bytes exists and otherwise returns the lowest |
| FreeList.AllocRefinesFirstFit | src/net/src/rdma/BaseRDMA.cc:234-253 | if no release has thrown, the same holds of unused bytes: the list scan is byte-level first fit |
| FreeList.MergeLoose | src/net/src/rdma/BaseRDMA.cc:257-292 | joining the new block with its neighbours restores the gaps and changes no byte |
| FreeList.FreeSucceedsIff | src/net/src/rdma/BaseRDMA.cc:198-230 | a release of a live offset returns exactly if the list is empty, or some free block lies above and the offsets of the free blocks below add up to no more than it |
| FreeList.FreeKeeps | src/net/src/rdma/BaseRDMA.cc:198-230 | a release that returns gives back exactly the block's bytes; one that throws leaves the list alone and loses exactly these bytes |
| FreeList.CanonicalUnique | src/net/src/rdma/BaseRDMA.cc:257-292 | the free list is the only canonical list of its bytes |
| FreeList.AllocThenFree | src/net/src/rdma/BaseRDMA.cc:198-253 | allocating and then freeing the result without an exception restores list and map exactly |
| FreeList.RunKeeps | src/net/src/rdma/BaseRDMA.cc:198-292 | after any run of legal calls the list is canonical and every byte is free, used or lost, and nothing is lost unless a release threw |
| FreeList.FreeListForgets | src/net/src/rdma/BaseRDMA.cc:198-292 | two such runs without exceptions that leave the same blocks in use leave the same free list |
| FreeList.EverythingFreed | src/net/src/rdma/BaseRDMA.cc:198-292 | once everything has been freed without an exception, the list is the one initial block |
| FreeList.LegalReleaseThrows | src/net/src/rdma/BaseRDMA.cc:207-229 | a run in which the release of a live block throws and loses it |
| FreeList.ZeroSizeShares | src/net/src/rdma/BaseRDMA.cc:238-246 | a zero-size allocation takes no byte, and the next allocation gets the same offset and its used entry exactly if the first free block has room for it |
| FreeList.UnknownRelease | src/net/src/rdma/BaseRDMA.cc:200-225 | releasing an offset that is not in use frees no byte but may leave an empty null block in the list |
| FreeList.SumFits | src/net/src/rdma/BaseRDMA.cc:218 | the sum of offsets stays below half the square of the memory size, hence within 64 bits up to 6074000999 bytes |
| Allocator.BaseRDMA.constructor | src/net/src/rdma/BaseRDMA.cc:21-28 | the initial list and map |
| Allocator.BaseRDMA.InternalAlloc | src/net/src/rdma/BaseRDMA.cc:234-253 | the loop over the list computes the first-fit function |
| Allocator.BaseRDMA.InternalFree | src/net/src/rdma/BaseRDMA.cc:198-230 | the loop, its sum and its exception compute the release function |
| Allocator.BaseRDMA.MergeFreeMem | src/net/src/rdma/BaseRDMA.cc:257-292 | the iterator code joins exactly the touching neighbours |
| Allocator.BaseRDMA.ReliableLocalAlloc | src/net/src/rdma/ReliableRDMA.cc:27-33 | a pointer to the block, or the exception |
| Allocator.BaseRDMA.ReliableLocalFree | src/net/src/rdma/ReliableRDMA.cc:41-46 | frees the block at this address |
| Allocator.BaseRDMA.UnreliableLocalAlloc | src/net/src/rdma/UnreliableRDMA.cc:25-32 | a pointer behind the 40-byte header, or the exception |
| Allocator.BaseRDMA.UnreliableLocalFree | src/net/src/rdma/UnreliableRDMA.cc:38-43 | frees the block whose header precedes the pointer |
| Allocator.BaseRDMA.RequestMemoryResource | src/net/src/rdma/RDMAServer.h:125-138 | allocation on behalf of another node, with its error code |
| Allocator.BaseRDMA.ReleaseMemoryResource | src/net/src/rdma/RDMAServer.h:140-153 | release on behalf of another node; the exception becomes an error code |
| Allocator.LocalAllocThenFree | src/net/src/rdma/UnreliableRDMA.cc:25-43 | through either wrapper the bytes at the returned address were free and are the caller's, and freeing it without an exception undoes the call |
| Allocator.PointerOffsetMissesBlock | src/net/src/rdma/UnreliableRDMA.cc:34-36 | the overload that takes an offset does not skip the header: given the pointer's own offset it frees nothing |
| Barrier.ReturnsAfterArrivals | src/utils/Concurrency.h:19-37 | nobody returns from a wait before all threads have arrived at theirs, over any number of rounds |
| Barrier.RoundTellsTruth | src/utils/Concurrency.h:13-36 | a spinner sees the 8-bit round changed exactly if its own round is over, and its saved round lags by at most one |
| Barrier.FinalizerOncePerRound | src/utils/Concurrency.h:22-27 | the finalizer runs once per round, after all arrivals and before any return |
| Barrier.CounterNeverUnderflows | src/utils/Concurrency.h:21-24 | the counter is between 1 and the number of threads whenever it is decremented |
| Barrier.StuckOnlyForAbsentees | src/utils/Concurrency.h:28-35 | if no thread inside can move, some thread has not called wait for this round |
| Barrier.MoveIff | src/utils/Concurrency.h:19-37 | a step changes something exactly if it is a call or a move; only a look at an unchanged round does not |
| Barrier.MovesEnd | src/utils/Concurrency.h:19-37 | without new calls the threads make at most four moves each, and when none can move each has returned exactly as often as the thread that has called least often has called |
| Barrier.AllReturn | src/utils/Concurrency.h:19-37 | once all threads are inside the same wait, every run of moves ends with each of them returned once more, after at most four moves a thread |
| Handshake.LeadsKeeps | src/net/src/rdma/RDMAServer.h:155-249 | the tables of both nodes are what the positions of client and handler say, in every interleaving |
| Handshake.SettledOneLink | src/net/src/rdma/RDMAClient.h:171-258 | once things have settled there is exactly one link, both ends name each other's queue pair and neither node has any other |
| Handshake.OnlySmallerRefused | src/net/src/rdma/RDMAServer.h:176-180 | only the caller with the smaller ID is refused, and its queue pair is gone in the end |
| Handshake.OneWriter | src/net/src/rdma/RDMAClient.h:234-258 | at most one of the two requests is ever welcome, so the client's unlocked writes have no rival |
| Handshake.LeadsIsShort | src/net/src/rdma/RDMAClient.h:171-258 | every step lowers the rank of what is left to do |
| Handshake.AtMostFortySteps | src/net/src/rdma/RDMAClient.h:171-258 | every interleaving ends after at most forty steps |
| Handshake.NoDeadlock | src/net/src/rdma/RDMAServer.h:158-249 | until things have settled some step can be taken |
| Handshake.OneLinkIffIdsDiffer | src/net/src/rdma/RDMAServer.h:165-181 | the tie-break is sound exactly for distinct IDs |
| Handshake.ConnectedOnReturnIff | src/net/src/rdma/RDMAClient.h:97-104 | that a returned connect means a connected queue pair holds in all interleavings exactly if the caller's ID is not the smaller one |
| Handshake.ReturnsBeforeLinked | src/net/src/rdma/RDMAClient.h:240-249 | whichever server has the smaller ID, its refused connect can return true although nothing is connected yet |
| Sequencer.LatestServerIs | src/net/src/rdma/NodeIDSequencer.cc:35-38 | what looking up the latest server of an address means |
| Sequencer.NodeIDSequencer.HandleNodeIDRequest | src/net/src/rdma/NodeIDSequencer.cc:17-46 | the new entry's ID is its position and larger than all before; the map names the latest server of every address |
| Sequencer.NodeIDSequencer.HandleGetAllNodeIDsRequest | src/net/src/rdma/NodeIDSequencer.cc:48-65 | all entries, in order |
| Sequencer.NodeIDSequencer.HandleGetNodeIDForIpPortRequest | src/net/src/rdma/NodeIDSequencer.cc:66-91 | the entry returned has the address asked for and is the latest server's |
| Signaling.AccessKeeps | src/net/src/rdma/BaseRDMA.h:169-182 | a send, write or read finds room and keeps the count exact; signalled, or the last there is room for, it is posted signalled, reaps its own completion and leaves nothing outstanding; otherwise it is counted and left |
| Signaling.RequestReadNeedsPoll | src/net/src/rdma/ReliableRDMA.cc:182-186 | requestRead leaves its signalled request behind, pollSend then leaves nothing, and the account is restored exactly if the next call is pollSend |
| Signaling.RunAccounted | src/net/src/rdma/BaseRDMA.h:169-182 | for any sequence of calls with any flags in which pollSend follows each requestRead, the queue never overflows and the counter is exact |
| Signaling.ExactIffFollowed | src/net/src/rdma/ReliableRDMA.cc:182-186 | for any sequence of calls that does not end in requestRead, the counter is exact after every other call exactly if each requestRead is followed at once by pollSend |
| Signaling.UnpolledReadOverflows | src/net/src/rdma/ReliableRDMA.cc:182-186 | without the poll, one more request than the queue holds can be outstanding |
| Signaling.Connections.SetQP | src/net/src/rdma/BaseRDMA.cc:178-185 | the tables grow and new numbers start with an exact count; a new queue pair under an old number has one exactly if the old counter, which is kept, was zero |
| Signaling.Connections.CheckSignaled | src/net/src/rdma/BaseRDMA.h:169-182 | counter and flag after the check, all other counters unchanged |
| Signaling.Connections.PollCq | src/net/src/rdma/ReliableRDMA.cc:525-539 | a poll takes the oldest completion and frees the requests up to it |
| Signaling.Connections.RemoteAccess | src/net/src/rdma/ReliableRDMA.h:88-152 | check, post and wait change the one channel as specified; from an exact account a signalled access ends with counter 0, nothing outstanding and its own completion reaped |
| Signaling.Connections.Write | src/net/src/rdma/ReliableRDMA.cc:158-170 | one access on this connection and no other; from an exact account a signalled one leaves nothing outstanding |
| Signaling.Connections.Read | src/net/src/rdma/ReliableRDMA.cc:174-178 | one access on this connection and no other; from an exact account a signalled one leaves nothing outstanding |
| Signaling.Connections.RequestRead | src/net/src/rdma/ReliableRDMA.cc:182-186 | a signalled read that leaves its completion behind |
| Signaling.Connections.PollSend | src/net/src/rdma/ReliableRDMA.cc:525-551 | the oldest completion is taken |
| Signaling.Connections.Send | src/net/src/rdma/ReliableRDMA.cc:304-367 | one access on this connection and no other; from an exact account a signalled one leaves nothing outstanding and has reaped its own completion |
| Signaling.Connections.UnreliableSend | src/net/src/rdma/UnreliableRDMA.cc:183-231 | all connections share counter 0 and the one queue pair |
| RpcRing.MatchesForeverIff | src/net/src/RPC/RPCMemory.h:22-26 | every completion's message is found, for ever, exactly if the ring size divides 2^32 |
| RpcRing.BeforeWrap | src/net/src/RPC/RPCMemory.h:22-26 | until the index wraps every completion's message is found |
| RpcRing.AtWrap | src/net/src/RPC/RPCMemory.h:22-26 | the first message looked for after the wrap is found exactly if the ring size divides 2^32 |
| RpcRing.PostedDiffer | src/net/src/RPC/RPCVoidHandlerThread.h:142-168 | numbers of buffers posted at the same time are different |
| RpcRing.RPCMemory.RoundApart | src/net/src/RPC/RPCMemory.h:22-26 | buffers handed out within one round of the ring lie in its memory and share no byte, before the index wraps or if the ring size divides 2^32 |
| RpcRing.RPCHandler.WaitingApart | src/net/src/RPC/RPCVoidHandlerThread.h:142-168 | the receives posted at any time, filled, waiting or just being read, lie in the ring's memory and share no byte |
| RpcRing.RPCMemory.GetNext | src/net/src/RPC/RPCMemory.h:22-26 | the next buffer round the ring, a whole message inside the memory given, with the index wrapping at 2^32 |
| RpcRing.RPCHandler.InitMemory | src/net/src/RPC/RPCVoidHandlerThread.h:142-152 | all buffers are posted in order |
| RpcRing.RPCHandler.HandleNext | src/net/src/RPC/RPCVoidHandlerThread.h:154-168 | the handler reads the buffer the oldest completion filled and reposts it, exactly as long as the counting matches |
| CircBuffer.UpperPowerOfTwo | src/benchmark/BenchmarkDispatcher.h:15-26 | up to 2^63 the result is the least power of two no less than the input exactly if the input less one has no 32 zeros in a row below its leading one; up to 2^32 always |
| CircBuffer.RoundedIff | src/benchmark/BenchmarkDispatcher.h:15-26 | the smeared word is all ones exactly without such a gap |
| CircBuffer.RoundingFails | src/benchmark/BenchmarkDispatcher.h:15-26 | for 2^32 + 1, the smallest such input, the result is not the least power of two |
| CircBuffer.ZeroWraps | src/benchmark/BenchmarkDispatcher.h:15-26 | for zero the result is zero |
| CircBuffer.CircBuf.Add | src/benchmark/BenchmarkDispatcher.h:62-68 | the slot at the current index is written and success reported; the element has been appended exactly if the ring was not full, and a full ring loses its oldest element |
| CircBuffer.CircBuf.Remove | src/benchmark/BenchmarkDispatcher.h:70-75 | the slot at the front is handed out; it is the oldest waiting element exactly if the ring was not empty |
| CircBuffer.CircBuf.Create | src/benchmark/BenchmarkDispatcher.h:51-56 | sizes the code rejects give no ring |
| CircBuffer.SlotIsRemainder | src/benchmark/BenchmarkDispatcher.h:46-48 | for a power of two the mask is the remainder |
| CircBuffer.FifoIffPow2 | src/benchmark/BenchmarkDispatcher.h:63-75 | the first element comes out first exactly for sizes that are powers of two |

## Left out

- ProtocolFairness.FairRunsEnd: that a scheduler and the network are fair is what the lemma asks for, not something the model can promise.
- ProtocolCredit.SafeIffCredit: needs slices of at least two response slots (see Partition.SlicesUsable) and distinct sender IDs, as the set-up provides.
- FreeList.AllocThenFree: offsets are unbounded numbers; FreeList.SumFits shows that sums fit 64 bits for memories up to 6074000999 bytes, and 5 * 2^30 are configured.
- CircBuffer.CircBuf.Add: does not model a ring that has been underflowed before, nor `front + count` leaving the range of `int`, which needs more than 2^30 slots.
- Setup.SetUpCompletes: the two barriers between the senders are left out (`Barrier.AllReturn`), and the receivers' answers are delivered without loss.
- Setup.ArriveKeeps: that the receiver posts the buffers for InitExp messages before a sender, in another thread or process, sends one is assumed; nothing in the start-up code makes the sender wait.
- Handshake.SettledOneLink: covers each server calling connect to the other at most once; later calls return at the check of the existing connection.
- The three benchmarkPhase overloads in which senders talk to receivers without a dispatcher, with the no-ops of the empty-mailbox one: the receiver's side is the same, the sender's is a part of the worker's and the dispatcher's.
- More than one dispatcher process, and the fields of a finish message other than its type.
- The repeated lookups of a server's ID in `connect`, and its failure after 150 of them.
- The RQ way of receiving: no main program instantiates it.
- Threads are program counters that one step at a time may interleave; the imperative loops beside them are undisturbed turns.
- A response's payload: its header fields are modelled, the bytes behind them are not looked at by anybody.
- The `poll` of the dispatcher that takes a single response: the run loop uses `pollBatch`.
- `sendBatch`: its `batches` is never initialised, so its behaviour is not settled. `fetchAndAdd` and `compareAndSwap` bypass the signalling check.
- Verbs failures and their exceptions, device discovery, huge pages, multicast, ZMQ, protobuf and thread start and stop.
- Connecting a server to itself, and connections that use a shared receive queue on the server side of the handshake.
- Timing, latency logs, CSV output, performance counters, flags and configuration parsing.
