# Pingweave, verified

Pingweave measures round-trip times in a cluster. A client sends pings chosen by a
scheduler, servers answer them, results travel through lock-free queues to a
thread that aggregates them, and reports leave through a ring in shared memory.
This project models those protocols and proves what they are for:

- **The result queue** (`Bits`, `Spsc`, `SpscProof`, `SpscTheorems`,
  `ReaderWriterQueue`, `Semaphore`, `BlockingQueue`). Producer and consumer are two
  program counters; each event is one load or store of a variable the other thread
  stores, and a run is any sequence of events. What the queue holds is the ring of
  blocks walked from `frontBlock` to `tailBlock`, so an element put into a new block
  becomes visible when `tailBlock` is stored. The spinning semaphore is a machine of
  the same kind, and the blocking queue is the two machines composed.
- **The other rings** (`CircularBuffer`, `CircularBufferObject`, `IpcRing`,
  `SharedRing`): the two-semaphore buffer with indices that wrap at 64 bits, and the
  shared-memory ring, copied character by character while the other side may be
  reading.
- **The ping tables** (`ExpiringTable`, `RdmaPingTable`, `RdmaPinginfoMap`,
  `PingResults`, `PingMsgMap`, `TcpUdpPinginfoMap`): a map, a list in order of
  insertion, and expiry that stops at the first fresh entry.
- **The RDMA protocol** (`PingId`, `Protocol`, `ProtocolProof`, `ProtocolTheorems`,
  `RoundTrips`, `LosslessExchange`): one client and any number of servers, each with a
  receive thread, a sending thread and a completion thread, over a fabric that loses
  and reorders messages. A ledger records, for each ping, what has happened to it; no
  step reads it. `RoundTrips` says from which events of a run the numbers of a result
  were read.
- **From the protocol to the report** (`Aggregation`, `Delivery`): the client hands
  each result to the blocking queue, access by access, and the result thread takes it
  out and counts it. `Delivery` is the protocol, the queue and that thread as one
  machine.
- **Scheduling, arithmetic, statistics, text** (`Scheduler`, `Fairness`, `TargetList`,
  `ScheduledTargets`, `TimeDelta`, `Statistics`, `Gid`).

State machines carry history variables (`enqueued`, `dequeued`, `arrivals`,
`ledger`, ...) that no step reads; they let a theorem speak of a whole run. A `run` or
an event sequence in a theorem is arbitrary. Classes are the program's objects with
their fields; their methods are proved against the machine of the same name or
against what the caller sees. Clocks and file contents are parameters.

Two places where the code does less than its comments say:

- The scheduler clears its targets "if successively failed" three times. A list that
  is cut short by a malformed entry is installed and sets the failure count to 1, so
  after it two unreadable files are enough: `ScheduledTargets.TwoFailuresClear` has
  such a file. `TcpUdpSurvivesTwoIff` and `RdmaSurvivesTwoIff` say exactly which files
  give a list that outlives two failures: every mesh group is strings only, every
  arrow group is readable as far as it is read, and for RDMA every row of the address
  store is well formed and none that is needed lacks its fields.
- The client keeps 0 for "not seen" in a ping's network delay. A hardware timestamp
  of 0 therefore changes the result with the order of arrival
  (`RdmaPingTable.OrderShows`); `SentinelSafe` says exactly for which timestamps it
  does not (`SentinelSafeIff`, `SameResultIff`).

And one thing to know when the load period and the interval are configured. Each
reload starts the round over from the first target, also when it finds the same list.
Nothing promises otherwise, but a list that takes longer to go through than the load
period is never gone through: with 22 seconds for a round of two targets, reloads after
more than 10 seconds, and a call every 11 seconds, the second target is never pinged
(`ScheduledTargets.SecondNeverPinged`). `Fairness` says which targets are, from the
times of the calls alone (`ServedExactly`), and from the configuration alone which
never are (`TooFarDown`) and which always are by a caller who calls again when told to
(`NearEnough`).

## Model

| member | source | states |
|---|---|---|
| `SpscProof.RunKeepsInv` | libs/readerwriterqueue/readerwriterqueue.h:291-657 | in every interleaving: blocks strictly between front and tail block are full, blocks outside are empty but for the one being entered, and the stale indices stay in order around each ring |
| `SpscProof.SwingAppends` | libs/readerwriterqueue/readerwriterqueue.h:605-630 | an element put into the next block joins the contents at the store of `tailBlock` |
| `SpscProof.StoreTailAppends` | libs/readerwriterqueue/readerwriterqueue.h:569-590 | an element put into the tail block joins the contents at the store of `tail` |
| `SpscProof.FillKeepsCells` | libs/readerwriterqueue/readerwriterqueue.h:569-630 | no other producer step changes the contents |
| `SpscTheorems.FirstInFirstOut` | libs/readerwriterqueue/readerwriterqueue.h:291-388 | at every moment of every interleaving, dequeued followed by held is enqueued, and a success hands out the last element dequeued |
| `SpscTheorems.RefusedDequeueMetEmpty` | libs/readerwriterqueue/readerwriterqueue.h:315-388 | `try_dequeue` returns false only if the queue was empty at some moment of the call |
| `SpscTheorems.RefusedEnqueueMetFull` | libs/readerwriterqueue/readerwriterqueue.h:564-652 | `try_enqueue` returns false only if the queue held its capacity at some moment of the call |
| `SpscTheorems.RefusedEnqueueMetPending` | libs/readerwriterqueue/readerwriterqueue.h:564-652 | with several blocks, only if at some moment of the call that many elements had not been moved out yet |
| `ReaderWriterQueueObject.RefusedMetSize` | libs/readerwriterqueue/readerwriterqueue.h:123-172 | a queue made for `size` elements refuses one only if at some moment of the call it held at least `size` |
| `SpscTheorems.CapacityOf` | libs/readerwriterqueue/readerwriterqueue.h:123-142 | the capacity, (blocks - 1)(size - 1) or size - 1 for one block, never changes |
| `SpscTheorems.AssertsNeverFail` | libs/readerwriterqueue/readerwriterqueue.h:355-364 | the next block is not empty when the consumer enters it and empty when the producer does |
| `SpscTheorems.SlotDiscipline` | libs/readerwriterqueue/readerwriterqueue.h:317-380 | nothing is constructed over a live element or moved from raw memory |
| `SpscTheorems.EnqueueTakesSeven` | libs/readerwriterqueue/readerwriterqueue.h:552-657 | in every run, the steps an enqueue call has made and the most it can still make add up to at most seven, whatever the consumer does |
| `SpscTheorems.DequeueTakesEight` | libs/readerwriterqueue/readerwriterqueue.h:291-388 | and those of a dequeue call to at most eight |
| `ReaderWriterQueueObject.ReaderWriterQueue.constructor` | libs/readerwriterqueue/readerwriterqueue.h:108-172 | the blocks made have room for `size` elements below 2^63; from there on the rounding wraps to 0 and the one block has no slot |
| `ReaderWriterQueueObject.MakeBlocks` | libs/readerwriterqueue/readerwriterqueue.h:123-165 | a ring of blocks with room for `size` elements outside the block being consumed, or one empty block from 2^63 on |
| `ReaderWriterQueueObject.MakeRing` | libs/readerwriterqueue/readerwriterqueue.h:139-158 | the loop links the blocks into one ring |
| `ReaderWriterQueueObject.BlockCountSuffices` | libs/readerwriterqueue/readerwriterqueue.h:136-137 | (blocks - 1)(MAX_BLOCK_SIZE - 1) >= size |
| `ReaderWriterQueueObject.ReaderWriterQueue.TryEnqueue` | libs/readerwriterqueue/readerwriterqueue.h:552-657 | on any memory a run may leave: appends the element, or refuses with at least the capacity held |
| `ReaderWriterQueueObject.ReaderWriterQueue.TryDequeue` | libs/readerwriterqueue/readerwriterqueue.h:291-388 | hands out the oldest element, or refuses exactly when there is none |
| `Bits.CeilToPow2` | libs/readerwriterqueue/readerwriterqueue.h:673-685 | the least power of two at or above the argument on 1 .. 2^63, and 0 elsewhere |
| `Bits.MaskIsNextIndex` | libs/readerwriterqueue/readerwriterqueue.h:568 | masking steps around a ring of a power of two |
| `Semaphore.Conservation` | libs/readerwriterqueue/atomicops.h:693-759 | in every interleaving the count stays at least -1, successful waits never exceed tokens, and at rest the kernel semaphore is 0 and the count is the tokens left |
| `Semaphore.NoLostWakeup` | libs/readerwriterqueue/atomicops.h:707-759 | a waiter blocked in the kernel while a token is left has a post made or about to be made |
| `Semaphore.RetryAwaitsPost` | libs/readerwriterqueue/atomicops.h:707-730 | in every interleaving a waiter going round the loop after a timeout misses its post only while the signaller is about to make it |
| `Semaphore.UndoEnds` | libs/readerwriterqueue/atomicops.h:707-730 | when the signaller is not, the loop ends within three steps of the waiter, with success, whatever the signaller does |
| `Semaphore.TokenPerCall` | libs/readerwriterqueue/atomicops.h:693-744 | over a whole call of any interleaving, a wait that returns true takes one token and a wait that returns false takes none |
| `Semaphore.FailsOnlyExpired` | libs/readerwriterqueue/atomicops.h:707-744 | over a whole call, a wait with time left or none set never returns false, whatever the signaller does |
| `Semaphore.ImpatientNeverBlocks` | libs/readerwriterqueue/atomicops.h:736-758 | a tryWait, or a wait with timeout 0, is never blocked in the kernel |
| `Semaphore.SpinningEnds` | libs/readerwriterqueue/atomicops.h:693-758 | a tryWait returns within two steps, and a wait is done spinning within 1024 loads and three steps |
| `BlockingQueue.InnerDequeueAlwaysSucceeds` | libs/readerwriterqueue/readerwriterqueue.h:885-922 | after a successful wait the inner dequeue succeeds and hands out the next element |
| `BlockingQueue.TokensAreElements` | libs/readerwriterqueue/readerwriterqueue.h:816-833 | tokens are the elements held, but for one published and not yet signalled and one claimed |
| `BlockingQueue.RefusedEnqueueMetFull` | libs/readerwriterqueue/readerwriterqueue.h:816-833 | `try_enqueue` returns false only if the queue held its capacity at some moment of the call |
| `BlockingQueue.RefusedWaitMetNoToken` | libs/readerwriterqueue/readerwriterqueue.h:885-922 | a dequeue or timed wait returns false only from a moment of the call with no token, and no element but one published and not yet signalled |
| `BlockingQueue.WaitFailsOnlyExpired` | libs/readerwriterqueue/readerwriterqueue.h:896-922 | in every run, a timed wait whose time does not run out returns with an element or goes on waiting |
| `BlockingQueue.TryNeverBlocks` | libs/readerwriterqueue/readerwriterqueue.h:836-848 | and a `try_dequeue` is never blocked in the kernel |
| `CircularBuffer.MaskFor` | libs/readerwriterqueue/readerwritercircularbuffer.h:44-52 | the mask is one less than the least power of two at or above the capacity, and all ones exactly for 0 and above 2^63 |
| `CircularBuffer.TokensConserved` | libs/readerwriterqueue/readerwritercircularbuffer.h:110-114 | free slots, items and operations in flight add up to the capacity in every interleaving |
| `CircularBuffer.FirstInFirstOut` | libs/readerwriterqueue/readerwritercircularbuffer.h:271-286 | first in first out across any number of index wraps, and no live element is overwritten |
| `CircularBuffer.EnqueueAddsItsOwn` | libs/readerwriterqueue/readerwritercircularbuffer.h:110-162 | in every interleaving, an enqueue that returns true has added its own element and no other; one that returns false has added none, and met a moment with no room |
| `CircularBuffer.DequeueReturnsWhatItTook` | libs/readerwriterqueue/readerwritercircularbuffer.h:172-230 | a dequeue that returns true has taken out the one element it returns; one that returns false none, and met a moment with none to take |
| `CircularBuffer.EnqueueFailsOnlyExpired` | libs/readerwriterqueue/readerwritercircularbuffer.h:123-162 | an enqueue with time left or none set does not return false |
| `CircularBuffer.DequeueFailsOnlyExpired` | libs/readerwriterqueue/readerwritercircularbuffer.h:211-230 | nor does a dequeue |
| `CircularBuffer.IndexDistance` | libs/readerwriterqueue/readerwritercircularbuffer.h:271-286 | in every run `nextSlot - nextItem` modulo 2^64 is what is stored and not taken out, at most the capacity |
| `CircularBufferObject.BlockingReaderWriterCircularBuffer.constructor` | libs/readerwriterqueue/readerwritercircularbuffer.h:34-57 | an empty buffer of the capacity asked for below 2^63; at 0 and above 2^63 no slot is made, and no token is given but for capacities from 1 to below 2^63 |
| `CircularBufferObject.BlockingReaderWriterCircularBuffer.TryEnqueue` | libs/readerwriterqueue/readerwritercircularbuffer.h:110-114 | enqueues exactly when fewer than the capacity are held |
| `CircularBufferObject.BlockingReaderWriterCircularBuffer.TryDequeue` | libs/readerwriterqueue/readerwritercircularbuffer.h:202-206 | hands out the oldest element, or refuses exactly when there is none |
| `IpcRing.ReadsBack` | src/ipc_producer.hpp:169-171 | a slot reads back as the text up to its first NUL, cut to the slot, whatever it held before |
| `IpcRing.ReadsBackWholeIff` | src/ipc_producer.hpp:169-171 | it is the message itself, cut, exactly when no NUL comes before the cut |
| `IpcRing.ReturnedOnceInOrder` | src/ipc_consumer.py:84-105 | at every moment of every interleaving, the lists returned by the calls so far, one after the other, and then the one under way are the texts of the accepted messages from the first on, each once; at most n - 1 are still to be read |
| `IpcRing.CallReturnsAll` | src/ipc_consumer.py:84-105 | a call returns the texts of exactly the messages accepted by its end that no call before it returned, in order |
| `IpcRing.WriteOffersItsOwn` | src/ipc_producer.hpp:150-173 | a write that returns true has its own message accepted and no other, or was empty; one that returns false has nothing accepted and is counted |
| `IpcRing.NeverTheSameSlot` | src/ipc_producer.hpp:155-172 | the slot being written is never the slot being read |
| `IpcRing.RefusedIffFull` | src/ipc_producer.hpp:158-167 | a write is refused exactly when n - 1 messages are pending, and refusals are counted |
| `SharedRingObject.SharedRing.WriteMessage` | src/ipc_producer.hpp:150-173 | accepts, drops and counts exactly as the ring's fill says |
| `SharedRingObject.SharedRing.ReadMessages` | src/ipc_consumer.py:84-105 | empties the ring in order |
| `SharedRingObject.RoundTrip` | src/ipc_consumer.py:84-105 | a message written and read is its text up to the first NUL, cut to the slot |
| `ExpiringTable.ExpireIsFullScan` | src/rdma_ping_info.hpp:304-361 | expiry that stops at the first fresh entry removes exactly the entries stale by the threshold |
| `ExpiringTable.ExpiredIsFront` | src/rdma_ping_info.hpp:304-361 | what expires is the front of the list, one value for each id that leaves |
| `ExpiringTable.RemovedByAge` | src/rdma_ping_info.hpp:318-327 | for an entry stamped no later than now and a threshold of at least 0: removed exactly if it is at least the threshold times 1000000 nanoseconds old |
| `RdmaPingTable.FrontNeverLacks` | src/rdma_ping_info.hpp:312-316 | over every run, at no point of an expiry is the branch for an id the map lacks taken |
| `ExpiringTable.RemoveKeepsOrdered` | src/rdma_ping_info.hpp:365-374 | removal keeps the list duplicate-free, complete and sorted |
| `ExpiringTable.AppendKeepsOrdered` | src/rdma_ping_info.hpp:75-86 | so does insertion under a clock that does not go back |
| `RdmaPingTable.PingsConserved` | src/rdma_ping_info.hpp:65-361 | over every run and for each id, inserts are outcomes plus what is in the table; in total by kind |
| `RdmaPingTable.OutcomesMeanArrivals` | src/rdma_ping_info.hpp:190-281 | SUCCESS and WEIRD only when each of the three arrived exactly once, with the ACK's delay; no entry at rest is complete |
| `RdmaPingTable.EntryFollowsArrivals` | src/rdma_ping_info.hpp:102-188 | while fresh and incomplete, an entry is what its own arrivals make of it, whatever happens to other pings |
| `RdmaPingTable.SameResultInAnyOrder` | src/rdma_ping_info.hpp:102-281 | completion, PONG and ACK in any order, among any events for other pings, give one result, always the same |
| `RdmaPingTable.AnyOrderSameTimes` | src/rdma_ping_info.hpp:109-160 | the three times after all six orders |
| `RdmaPingTable.SentinelSafeIff` | src/rdma_ping_info.hpp:109-160 | for which timestamps both orders of completion and PONG give the difference modulo 2^32, exactly |
| `RdmaPingTable.SameResultIff` | src/rdma_ping_info.hpp:109-281 | for 64-bit timestamps both orders give one result exactly when the timestamps are safe |
| `RdmaPingTable.OrderShows` | src/rdma_ping_info.hpp:109-160 | with a completion at 5 and a PONG at 0 they do not |
| `PingResults.InsertHasItsResult` | src/rdma_ping_info.hpp:65-361 | every insert that adds an id is followed through any events, more inserts of that id among them: it is still there with its values and all arrivals since, or the next outcome of the id is its own, with its values: a FAILURE with no numbers, or the times between the clock at the insert, the completion, the PONG and the ACK |
| `PingResults.InsertSweeps` | src/rdma_ping_info.hpp:304-361 | an insert removes of the other pings exactly the stale, to the nanosecond; each leaves as a FAILURE with its own values, or without a result after three arrivals |
| `PingResults.ReportedSharesSum` | src/rdma_ping_info.hpp:65-281 | a ping inserted with the clock at `sent`, then any events for other pings and the three arrivals in any order, with safe readings of one 64-bit clock: the result names the ping as inserted, the client's share does not underflow, SUCCESS is exactly a claim below the network delay, and then the shares sum to the delay seen |
| `RdmaPinginfoMapObject.RdmaPinginfoMap.Insert` | src/rdma_ping_info.hpp:65-87 | takes the machine's step for an insert, whatever the key; adds the ping exactly if it is not there or stale, with its values and the clock |
| `RdmaPinginfoMapObject.RdmaPinginfoMap.UpdatePingCqeTime` | src/rdma_ping_info.hpp:102-130 | takes the machine's step for a completion |
| `RdmaPinginfoMapObject.RdmaPinginfoMap.UpdatePongInfo` | src/rdma_ping_info.hpp:132-169 | takes the machine's step for a PONG |
| `RdmaPinginfoMapObject.RdmaPinginfoMap.UpdateAckInfo` | src/rdma_ping_info.hpp:171-188 | takes the machine's step for an ACK |
| `RdmaPinginfoMapObject.RdmaPinginfoMap.StoreAndLog` | src/rdma_ping_info.hpp:190-281 | stores, and lets a complete ping go with its result |
| `RdmaPinginfoMapObject.RdmaPinginfoMap.ExpireEntries` | src/rdma_ping_info.hpp:304-361 | the loop removes and reports what the specification lists, and terminates |
| `RdmaPinginfoMapObject.RdmaPinginfoMap.Remove` | src/rdma_ping_info.hpp:365-374 | removes the id from map and list |
| `RdmaPinginfoMapObject.RdmaPinginfoMap.PingsConserved` | src/rdma_ping_info.hpp:65-361 | at any time of the object's life each insert of an id is in the table or has its one outcome, of the kind its arrivals call for |
| `PingMsgMapObject.PingMsgMap.ExpireEntries` | src/rdma_ping_msg.hpp:80-110 | leaves exactly the entries that are not stale |
| `PingMsgMapObject.PingMsgMap.Insert` | src/rdma_ping_msg.hpp:22-36 | expires, then inserts exactly when the id is not there |
| `PingMsgMapObject.InsertedIsFound` | src/rdma_ping_msg.hpp:22-61 | what was inserted is found again after any calls for other ids, as long as no clock reading makes it stale |
| `PingMsgMapObject.KeptWhileFresh` | src/rdma_ping_msg.hpp:22-61 | such calls leave any entry as it is |
| `PingMsgMapObject.FoundUntilStale` | src/rdma_ping_msg.hpp:22-49 | at a later insert of another id it is still found exactly if it is not stale by then |
| `PingMsgMapObject.ProcessPongCqe` | src/rdma_server.cpp:171-216 | an ACK with the time since the PING's arrival exactly if the PING is in the table, which it then leaves unless posting fails |
| `PingMsgMapObject.PingMsgMap.Remove` | src/rdma_ping_msg.hpp:51-61 | removes the id and nothing else |
| `TcpUdpPinginfoMapObject.TcpUdpPinginfoMap.TwoOutcomes` | src/tcpudp_ping_info.hpp:36-171 | at any time of the object's life each insert of an id is in the table or has its one result, SUCCESS as often as a PONG came while it was in the table, FAILURE otherwise; in total too |
| `TcpUdpPinginfoMapObject.DelayIsTimeSinceInsert` | src/tcpudp_ping_info.hpp:81-83 | the delay reported is the time since the insert exactly when that fits 64 bits |
| `TcpUdpPinginfoMapObject.TcpUdpPinginfoMap.Insert` | src/tcpudp_ping_info.hpp:36-56 | fails the stale, then inserts exactly when the id is not there |
| `TcpUdpPinginfoMapObject.TcpUdpPinginfoMap.UpdatePongInfo` | src/tcpudp_ping_info.hpp:71-104 | one result for an entry that is there, which leaves: kind SUCCESS, its id, destination and time, and as delay the time since the insert where that fits |
| `TcpUdpPinginfoMapObject.TcpUdpPinginfoMap.ExpireEntries` | src/tcpudp_ping_info.hpp:127-171 | one result for each stale entry, oldest first: kind FAILURE, delay 0, its id, destination and time |
| `PingId.PingidRoundTrip` | src/common.cpp:328-336 | the halves come back from the id |
| `PingId.PingidOfHalves` | src/common.cpp:328-336 | and the id from its halves |
| `PingId.WridCollidesIff` | src/rdma_server.cpp:256-268 | a PONG's completion is taken for an ACK's exactly when the address half is 0 and the counter 1024 |
| `ProtocolTheorems.AtMostOnceInOrder` | src/rdma_server.cpp:171-216 | in every run each PING is taken, answered and acknowledged at most once, in that order, the ACK with the time from arrival to completion modulo 2^32 |
| `ProtocolTheorems.ResultMeansRoundTrip` | src/rdma_server.cpp:171-216 | SUCCESS or WEIRD means the ledger has the PING sent and taken once, one PONG posted and completed, and one ACK posted, with the server delay reported |
| `RoundTrips.ResultIsMeasured` | src/rdma_client.cpp:8-35 | over every run, a SUCCESS or WEIRD names its ping as recorded, and its numbers come from six events before it: the client's clock at the record, the completion of the PING, the receipt and stamp of the PONG, the ACK, and at the server the arrival of the PING and the completion of the PONG; with safe stamps the client's, network's and server's shares are spelled out |
| `RoundTrips.SourcesAreOnly` | src/rdma_server.cpp:171-216 | of each of the six there is no other event in the run |
| `RoundTrips.FailureIsUnanswered` | src/rdma_ping_info.hpp:329-351 | a FAILURE names its ping as recorded, and no numbers |
| `RoundTrips.FailedPostIsTheLast` | src/rdma_server.cpp:203-214 | a server whose post of a PONG failed posts no PONG for the rest of the run, and one whose post of an ACK failed no ACK |
| `LosslessExchange.LosslessSucceeds` | src/rdma_server.cpp:457-503 | after any run, when nothing is lost and each thread makes its steps, the ping has its one result, SUCCESS or WEIRD, with the values above, and has left the server |
| `ProtocolTheorems.NeverCorrupted` | src/rdma_ping_info.hpp:192-201 | the branches for corrupted and overlaid pings are never taken |
| `ProtocolTheorems.OneResultPerPing` | src/rdma_client.cpp:353-400 | each ping recorded is waiting or has had exactly one result, never both |
| `Delivery.EachPingInOnePlace` | src/rdma_client.cpp:486-574 | over every interleaving of protocol, queue and result thread: each ping recorded is waiting, or its one result is with the client, was refused by the queue, is in the queue, counts towards the next report, or is counted in exactly one report |
| `Delivery.MessagesCarryResults` | src/rdma_client.cpp:489-517 | wherever a message is, it has the id, destination, time, delays and kind of a result of the client |
| `Delivery.NothingHeldBack` | src/rdma_client.cpp:503-574 | in any state a run reaches, handing in puts the next result on its way, and a turn of the result thread leaves nothing dequeued undealt with |
| `Delivery.ReportsAreBatches` | src/rdma_client.cpp:503-574 | and each report has for each destination of its messages their number by kind, the delays of the successes in order, and the first and last times |
| `ProtocolTheorems.NextKeepsInv` | src/rdma_server.cpp:457-503 | every step of client, fabric and servers keeps the ledger's invariant |
| `ProtocolProof.HeldIsHere` | src/rdma_server.cpp:457-503 | whatever a server has in its queue, table, sender, completer or posted sends, or is on its way to it, was sent to it |
| `TimeDelta.DeltaIsDifference` | src/common.cpp:432-441 | the modulo delta is the difference of the times, modulo |
| `TimeDelta.DeltaRecoversIff` | src/common.cpp:432-441 | for counters that wrap at any multiple of the modulus it is the true difference exactly when that is below the modulus |
| `TimeDelta.DeltasAgree` | src/common.cpp:420-430 | with a mask of k <= 63 ones both deltas are the same |
| `TimeDelta.BitwrapRecoversIff` | src/common.cpp:420-430 | with all 64 bits the bitwrap delta is the true difference exactly when that fits |
| `Scheduler.EachOnceInAnyWindow` | src/tcpudp_scheduler.hpp:35-40 | any n consecutive targets between loads are the list up to order |
| `Scheduler.SameTargetIsPaced` | src/tcpudp_scheduler.hpp:30-50 | two returns of one target are at least n gaps apart, more than the interval less n microseconds |
| `Scheduler.RefusedThenServed` | src/tcpudp_scheduler.hpp:29-49 | in every run, a call that waits as long as a refusal for being early says gets the next target in turn, and one that waits a microsecond less is refused again |
| `Scheduler.AnsweredWhenDue` | src/tcpudp_scheduler.hpp:17-50 | in every run, a call reads the files exactly if a second more than the load period has passed since the last reload, is refused exactly if the gap has not passed since the last call that was not, and is told there is no target exactly if the list is empty |
| `Scheduler.RunKeepsPaced` | src/rdma_scheduler.hpp:237-248 | whenever there are targets the gap is their share of the interval |
| `Scheduler.ThreeStrikes` | src/tcpudp_scheduler.hpp:182-214 | over any loads, the last list is kept until the third strike, a list cut short being one itself |
| `Scheduler.RunKeepsList` | src/tcpudp_scheduler.hpp:17-50 | so it is in every run of calls, for the files read in it |
| `Scheduler.MsgScheduler.KeepsList` | src/rdma_scheduler.hpp:19-53 | and at any time of the object's life |
| `ScheduledTargets.TcpUdpSurvivesTwoIff` | src/tcpudp_scheduler.hpp:55-214 | a list outlives two file failures and not three exactly when each mesh group and each arrow group reads through |
| `ScheduledTargets.RdmaSurvivesTwoIff` | src/rdma_scheduler.hpp:58-269 | for RDMA exactly when the rows of the address store do as well |
| `ScheduledTargets.TcpUdpInstalls` | src/tcpudp_scheduler.hpp:55-180 | the list a reload installs has no target twice, only those of the file's groups and arrows, and all of them when it reads through |
| `ScheduledTargets.RdmaInstalls` | src/rdma_scheduler.hpp:58-250 | for RDMA those in the address store, each with its first row there |
| `ScheduledTargets.TwoFailuresClear` | src/tcpudp_scheduler.hpp:202-214 | a file whose list of two targets is cut short and cleared by two failures |
| `Scheduler.ServedByCount` | src/tcpudp_scheduler.hpp:17-50 | whatever the files hold, the target handed out is the list's at the number handed out since the last reload, around the list |
| `Fairness.ServedExactly` | src/tcpudp_scheduler.hpp:17-60 | while the list stays the same, target k is ever pinged exactly if between two reloads there are k + 1 calls, each at least a gap after the one before |
| `Fairness.TooFarDown` | src/tcpudp_scheduler.hpp:17-60 | so never, if k gaps are longer than the load period and a second |
| `Fairness.NearEnough` | src/tcpudp_scheduler.hpp:17-60 | and between any two reloads, if k + 2 gaps are shorter and the calls come when told |
| `ScheduledTargets.SecondNeverPinged` | src/tcpudp_scheduler.hpp:17-60 | a configuration and calls for which the second of two targets is never pinged, however long the run |
| `Scheduler.MsgScheduler.Next` | src/rdma_scheduler.hpp:19-53 | the object takes the machine's step and stays paced |
| `Scheduler.MsgScheduler.LoadAddressInfo` | src/rdma_scheduler.hpp:237-269 | installs a list, or counts a failure |
| `TargetList.TcpUdpTargetsMean` | src/tcpudp_scheduler.hpp:76-171 | the list is duplicate-free, names only targets, and all of them unless it is cut short |
| `TargetList.TcpUdpOkIff` | src/tcpudp_scheduler.hpp:76-171 | it is not cut short exactly when every mesh group is strings only and every arrow group reads through as far as it is read |
| `TargetList.BuildTcpUdp` | src/tcpudp_scheduler.hpp:76-171 | so it is with the list the loops build, in both respects |
| `TargetList.RdmaTargetsMean` | src/rdma_scheduler.hpp:94-230 | each target with its first row in the address store, none twice; exactly the targets in the store unless it is cut short |
| `TargetList.RdmaOkIff` | src/rdma_scheduler.hpp:94-230 | it is not cut short exactly when groups and rows read through and no target's first row lacks its fields |
| `TargetList.BuildRdma` | src/rdma_scheduler.hpp:94-230 | so it is with the list the loops build, in both respects |
| `TargetList.JoinMeans` | src/rdma_scheduler.hpp:122-144 | one pass over the address store adds the first row of each new address asked for, and all of them unless it is cut short |
| `TargetList.JoinOkIff` | src/rdma_scheduler.hpp:122-144 | a pass is not cut short exactly when every row names an address and the first row of none asked for and not taken before lacks its fields |
| `Statistics.CalcResultStats` | src/common.cpp:554-579 | zeros for no history; otherwise the maximum, a mean at most that, percentiles at their ranks and in order |
| `Statistics.PercentileMeans` | src/common.cpp:573-576 | at most that share of samples is below a percentile and more than that share is not above it |
| `Statistics.SortedIsUnique` | src/common.cpp:569-571 | there is one sorted order, whatever the algorithm |
| `Statistics.SortPermutes` | src/common.cpp:569-571 | sorting keeps the samples |
| `Statistics.WrappedSumIs` | src/common.cpp:563 | the 64-bit sum is the sum modulo 2^64 |
| `Aggregation.NothingLost` | src/rdma_client.cpp:503-574 | per destination, reports in order and then pending add up to the messages dequeued: the number of each kind, and the delays of the successes in order |
| `Aggregation.EachReportIsItsBatch` | src/rdma_client.cpp:503-574 | the messages dequeued fall into one batch for each report and the rest, in order; each report has a line for exactly the destinations of its batch, with the number of messages of each kind, the delays of the successes in order, the last time and the first that is not 0 |
| `Aggregation.ReportWhenDue` | src/rdma_client.cpp:541-544 | a turn reports exactly if the interval, in milliseconds of 1000000 nanoseconds, has passed since the last report |
| `Aggregation.CountsConserved` | src/rdma_client.cpp:503-574 | counts reported and pending are the messages of known kind |
| `Aggregation.SuccessesAreEven` | src/rdma_client.cpp:520-524 | the count of successes is the length of each delay history |
| `Aggregation.ResultThread.NothingLostHere` | src/rdma_client.cpp:503-574 | the same at any time of the object's life |
| `Aggregation.ResultThread.Iterate` | src/rdma_client.cpp:503-574 | one turn of the loop takes the machine's step |
| `Gid.BytesOfText` | src/rdma_common.cpp:687-709 | parsing undoes printing |
| `Gid.TextOfBytes` | src/rdma_common.cpp:687-709 | printing undoes parsing of lower-case digits |
| `Gid.TextDigits` | src/rdma_common.cpp:701-709 | characters 2i and 2i + 1 are the high and the low digit of byte i, of `0` to `9` and `a` to `f` |
| `Gid.BytesDigits` | src/rdma_common.cpp:687-698 | and byte i is read from them, in either case of letters |
| `Gid.GidToWireGid` | src/rdma_common.cpp:701-709 | the same text on hosts of either byte order |
| `Gid.WireGidToGid` | src/rdma_common.cpp:687-698 | the same bytes on hosts of either byte order |
| `Gid.RoundTrip` | src/rdma_common.cpp:687-709 | a GID survives printing on one host and parsing on another |

## Left out

- Weak memory: steps interleave sequentially consistently, and the fences are no-ops.
- Block allocation (`enqueue`, `CanAlloc`), `peek`, `pop`, `size_approx`, moves and destructors of the queues: pingweave only calls `try_enqueue` and the dequeues.
- ReaderWriterQueueObject.ReaderWriterQueue.TryEnqueue: runs without interference; interleavings are the subject of `SpscTheorems`. So is `TryDequeue`.
- SpscTheorems.RefusedEnqueueMetFull: the element being moved out counts as held until `front` is stored; with several blocks `RefusedEnqueueMetPending` does without it.
- Delivery.EachPingInOnePlace: other threads of the client may go on before its results are handed in, which the table's lock forbids in the source; one result thread and one client.
- Fairness.ServedExactly: the reloads all find the same list, complete; the general case is `Scheduler.ServedByCount`.
- Semaphore.Conservation: one waiter and one signaller of one token each, as the queues use it; the width of `m_count` and a failing kernel wait are not modelled.
- CircularBufferObject.BlockingReaderWriterCircularBuffer.TryEnqueue: runs without interference, where a semaphore is its count; interleavings are the subject of `CircularBuffer`. So does `TryDequeue`.
- IpcRing.ReturnedOnceInOrder: characters stand for bytes, so decoding of bytes that are not ASCII is not modelled.
- SharedRingObject.SharedRing.WriteMessage: runs without interference; interleavings are the subject of `IpcRing`.
- `discardAllPendingMessages`, re-initialisation of shared memory and restarts of threads, which reset indices outside the normal protocol.
- `empty` and `size` of the client tables, which expire entries under a shared lock.
- RdmaPinginfoMapObject.RdmaPinginfoMap.Insert: `Valid` is kept when the key is the message's ping id, as both callers have it; with another key the step is the machine's, and nothing is said of what follows. A result counts as handed in whether or not the result queue had room, and `recv_cnt` does not wrap at 32 bits. The erase through a list iterator is a search from the front.
- RoundTrips.ResultIsMeasured: one client, fewer than 2^32 pings (the counter then wraps and ids repeat), a non-zero address, and sends that carry a copy of the message, so reuse of the send buffers is not modelled.
- Protocol handlers are steps of a machine; the objects behind them are `RdmaPinginfoMap`, `PingMsgMap` and the queues. A thread that stops on a failed post stays stopped.
- Scheduler.SameTargetIsPaced: the configured interval is not negative.
- TargetList.BuildTcpUdp: the groups come parsed; a missing or null section is an empty one, and YAML parsing is not modelled.
- Statistics.CalcResultStats: `std::sort` is the function `Sort`; `SortedIsUnique` says any sorting gives the same.
- Aggregation.NothingLost: the counts do not wrap at 32 bits, and the text of a report is not modelled. The TCP and UDP threads have the same loop with one history.
- Gid.WireGidToGid: the text is 32 hexadecimal digits; what `sscanf` makes of blanks, signs and other characters is not modelled.
- `process_collected_message` in the controller, the web server, the plotter, logging and process supervision.
