# Verified model of the graph partitioner and the RPC layer

This project models the parts of the repository that carry algorithms or
protocols, and proves what they promise.

* `Graphs`, `BlockScan`, `SeedPhase`, `RoundPhase`, `Decomposition`,
  `NodeBlocks` model the growing of one block per training seed over a shared
  table. The result is proved to be the nearest-seed decomposition of the graph:
  every reachable node that is no seed stands once, in one layer of one block,
  the layer number is its shortest-path distance, and the block belongs to the
  first seed in list order among its nearest seeds. `Graphs.DistanceByWalks` ties
  the distance to written-out walks.
* `Partitions` models the sorting and merging of blocks.
* `ReplicaCount` models the message count and the balance report.
* `ThreadPool`, `EventLoop`, `Timers` model the concurrent parts as a state, the
  steps a thread can take, and all runs of such steps. A step is one section under
  the lock, one system call, or code of one thread alone.
* `ByteBuffer` models the buffer class on an array, `Framing` the length-prefixed
  messages on top of it, down to the buffer object. `Streams` is about whole streams,
  however they are cut, and `Silence` about streams after which nothing is delivered.
* `Json`, `RpcBatch`, `BatchResponse` model which batch entries are dispatched and
  the reference-counted aggregator; `ClientCalls` models the table of pending calls.

Each class has a function that gives its value, its methods are proved against
functions on such values, and the lemmas are about those functions.

## What the code does not do

* A seed that an earlier seed touched is in two blocks: its own, and layer 1 of the
  block that touched it first (`Decomposition.LayersAreCells`). `Reowned` counts these.
  Two adjacent seeds are enough (`Decomposition.TwoAdjacentSeeds`).
* `BlockToPartition` uses four blocks. With more, each node of the others is lost, unless
  it is a seed whose own block, or whose first toucher's block, is one of the four
  (`Partitions.WhereNodesLand`, `Partitions.WhereSeedsLand`, `Partitions.NothingLostIff`).
  Of five seeds without edges one is lost (`Partitions.FifthSeedLost`). With fewer than
  four blocks, or fewer than two partitions, it reads out of bounds; the precondition of
  `Partitions.BlockToPartition` excludes this.
* `CountBalance` does not end if a partition id is negative (`ReplicaCount.LoopEndsIff`,
  and with one node in partition -1 `ReplicaCount.NegativePartition`).
* Neither sender checks the receiver's limit, and the client's limit is below the
  server's (`Framing.MessageAcceptedIff`, `Framing.LimitsDiffer`).
* A header that announces too much stays in the buffer of either side, a bad one in the
  server's, and nothing behind it is ever delivered; `Silence.SilentIff` says exactly when
  a receiver is silent for good. One response of 65534 bytes does it to the client
  (`Silence.LongResponseSilencesClient`), the line "x" to the server
  (`Silence.BadLineSilencesServer`). The client's `onMessage` catches its exception; no
  code in the repository catches the one that the server's `handleMessage` throws, and the
  model goes on as if its caller did.
* A blank line on the server, a bad one on the client and a handler that throws end the
  loop with unread bytes in the buffer, which wait for the next chunk. So the cut matters
  (`Streams.CutsMatterIff`, `Streams.BlankLineDelays`), though not in the end
  (`Streams.CutsAgreeInTheEnd`).
* A stopped pool and a loop that has left drop the tasks still queued
  (`ThreadPool.QueuedIsLost`, `ThreadPool.StopLosesTask`, `EventLoop.PendingIsLost`,
  `EventLoop.QuitLosesTask`).
* Calls are numbered with 64 bits, but a response's id must be an int32, so calls from
  2^31 on are never answered (`ClientCalls.AnswerableIff`, `ClientCalls.LateCallExists`).
* A malformed element of a batch response throws away the valid ones behind it, whose
  calls stay pending (`ClientCalls.BatchDelivers`, `ClientCalls.MalformedFirst`).
* The server stops a batch at its first rejected entry, answers a notification to an
  unknown service, drops an entry without id of another version, and sends an empty array
  for a batch of notifications, which its own client rejects. Section 6 of the JSON-RPC 2.0
  specification wants none of this. `BatchResponse.SectionSixIff` says exactly which batches
  are answered as it wants, and `BatchResponse.UnknownServiceInFront`,
  `BatchResponse.OldVersionIgnored` and `BatchResponse.NotificationsOnly` are batches that
  are not.

## Model

| member | source | states |
|---|---|---|
| NodeBlocks.NodeBlockConstruct | src/partition/GraphPartitionAlgo.cpp:138-209 | the method ends and leaves the nearest-seed decomposition in the blocks and the table, the exact halo of each block, the total size, and numbered blocks with their sizes |
| NodeBlocks.SeedBlocks | src/partition/GraphPartitionAlgo.cpp:143-166 | after the seed loop exactly the nodes within one edge of the seeds are claimed |
| NodeBlocks.SeedBlock | src/partition/GraphPartitionAlgo.cpp:143-165 | a seed's first scan, on the object and the table, is the scan whose meaning `ScanMeans` gives |
| NodeBlocks.GrowBlocks | src/partition/GraphPartitionAlgo.cpp:168-205 | the loop over the rounds ends, and then table and blocks are the nearest-seed decomposition |
| NodeBlocks.VisitNeighbour | src/partition/GraphPartitionAlgo.cpp:186-196 | one neighbour is claimed, noted as halo, or passed over |
| NodeBlocks.GrowBlock | src/partition/GraphPartitionAlgo.cpp:180-203 | a scan of the last layer, on the object and the table; the flag tells whether any node was claimed |
| NodeBlocks.Round | src/partition/GraphPartitionAlgo.cpp:174-205 | one pass over the active table keeps the invariant, and claims at least one more node if any block stays active |
| NodeBlocks.NumberBlocks | src/partition/GraphPartitionAlgo.cpp:207-208 | every block gets its index as number and its size, and keeps its layers |
| NodeBlocks.Block.RefactorBlock | src/partition/GraphPartitionAlgo.cpp:26-33 | the size is the number of entries of all layers, and the layers stay as they were |
| BlockScan.ScanMeans | src/partition/GraphPartitionAlgo.cpp:184-198 | the new layer is exactly the unclaimed neighbours, each once, and the new halo entries exactly the claimed neighbours not seen before, each once, whatever the order of the loops |
| BlockScan.ScanInOrder | src/partition/GraphPartitionAlgo.cpp:184-198 | the new layer and the new halo entries are in the order in which the neighbours are met |
| BlockScan.SpreadInOrder | src/partition/GraphPartitionAlgo.cpp:184-185 | the neighbours are met node by node, in the order of the nodes |
| SeedPhase.SeedStep | src/partition/GraphPartitionAlgo.cpp:143-166 | claiming from the next seed keeps the invariant, also when that seed was already claimed |
| RoundPhase.NewMember | src/partition/GraphPartitionAlgo.cpp:184-190 | a node claimed in round r is r+1 edges from its block's seed, from no seed fewer, and from no earlier seed as few |
| RoundPhase.RoundStep | src/partition/GraphPartitionAlgo.cpp:177-204 | scanning one active block keeps the invariant and raises the number of claimed nodes by the size of the new layer |
| RoundPhase.RoundReaches | src/partition/GraphPartitionAlgo.cpp:174-205 | a whole round moves the claimed nodes out by exactly one edge |
| RoundPhase.QuietMeansDone | src/partition/GraphPartitionAlgo.cpp:174-205 | when no block stays active, the claimed nodes are exactly the nodes reachable from the seeds |
| Decomposition.Finished | src/partition/GraphPartitionAlgo.cpp:174-205 | the invariant at the end is the whole result: cells, halos and the sum of the sizes |
| Decomposition.LayersAreCells | src/partition/GraphPartitionAlgo.cpp:138-205 | a layer holds a node if and only if the node belongs there by distance and seed order, seeds touched by an earlier seed included |
| Decomposition.OwnerIsFirstNearest | src/partition/GraphPartitionAlgo.cpp:177-190 | the table names the first of the nearest seeds of each reachable node |
| Graphs.DistanceByWalks | src/partition/GraphPartitionAlgo.cpp:174-205 | the distance is the length of a shortest written-out walk from a seed |
| Graphs.ReachableByWalks | src/partition/GraphPartitionAlgo.cpp:174-205 | a node is reachable exactly if a written-out walk leads to it from a seed |
| Decomposition.EachNodeOnce | src/partition/GraphPartitionAlgo.cpp:138-205 | a reachable node that is no seed is in one layer of one block, at its distance, and in no other |
| Decomposition.CellsDetermined | src/partition/GraphPartitionAlgo.cpp:138-205 | graph and seed order alone fix the table and the nodes of every layer |
| Decomposition.TwoAdjacentSeeds | src/partition/GraphPartitionAlgo.cpp:143-166 | of two adjacent seeds the second stands in two blocks, and the sizes add up to one more than the nodes reached |
| Decomposition.HaloIsExact | src/partition/GraphPartitionAlgo.cpp:150-161 | the halo is exactly the neighbours of the nodes in layers 0, 1 and 2 outside the block, each once, and each is owned by another block in the end |
| Decomposition.PathHalos | src/partition/GraphPartitionAlgo.cpp:20-20 | on a path of six nodes with seeds at its ends each block takes its half, and its halo is the one node behind its layer 2 |
| Partitions.Partition.MergeBlock | src/partition/GraphPartitionAlgo.cpp:58-71 | new nodes are appended once, the size grows by every entry of the block |
| Partitions.MergedIsUnion | src/partition/GraphPartitionAlgo.cpp:62-70 | merging is a union without repeats that leaves earlier nodes in place |
| Partitions.FirstBlockFirst | src/partition/GraphPartitionAlgo.cpp:229-238 | the nodes of the first of two merged blocks come first, in the order of its layers, and those of the second behind them |
| Partitions.BlockSort | src/partition/GraphPartitionAlgo.cpp:211-216 | the same blocks, largest first |
| Partitions.BlockToPartition | src/partition/GraphPartitionAlgo.cpp:225-238 | blocks 0 and 2 of the sorted order go to partition 0, blocks 1 and 3 to partition 1, the other partitions stay empty |
| Partitions.WhereNodesLand | src/partition/GraphPartitionAlgo.cpp:229-238 | for any number of blocks from four up, a node that is no seed is in a partition exactly if the partition took its owner, and never in both |
| Partitions.WhereSeedsLand | src/partition/GraphPartitionAlgo.cpp:229-238 | for any number of blocks from four up, a seed is in a partition exactly if the partition took its own block or that of the earlier seed that touched it first |
| Partitions.NothingLostIff | src/partition/GraphPartitionAlgo.cpp:229-238 | no reachable node, seeds included, is lost exactly if each block past the fourth holds only seeds and its own seed was touched first by an earlier seed whose block is one of the four |
| Partitions.FifthSeedLost | src/partition/GraphPartitionAlgo.cpp:229-238 | of five seeds without edges one is lost, though all blocks hold only seeds |
| Partitions.FourBlocksCover | src/partition/GraphPartitionAlgo.cpp:229-238 | with four blocks every reachable node that is no seed is in exactly one partition |
| Partitions.FourBlocksBalance | src/partition/GraphPartitionAlgo.cpp:229-238 | the two sizes add up to the sizes of all blocks, and differ by no less than 0 and no more than the largest block less the smallest |
| ReplicaCount.ReplicaCounter.CountMsg | src/partition/graphCheck.cpp:91-108 | the count is the number of distinct (partition, node) pairs in need of a copy, the lists grow by exactly those pairs, and the total growth is the count |
| ReplicaCount.ReplicaCounter.CountOne | src/partition/graphCheck.cpp:99-104 | a message is counted and a copy added exactly if the partition is not in the list |
| ReplicaCount.OrderDoesNotMatter | src/partition/graphCheck.cpp:96-106 | every iteration order of the sample map meets the same pairs |
| ReplicaCount.HomeKept | src/partition/graphCheck.cpp:97-104 | the home of a training node stays the same while lists grow |
| ReplicaCount.CountBalance | src/partition/graphCheck.cpp:110-123 | partitions 0 to the largest id are reported once each with their true counts, which add up to the number of training nodes |
| ReplicaCount.AfterTurnsAre | src/partition/graphCheck.cpp:120-122 | after i turns the map has the keys 0 to i-1 besides its own, whatever its own are |
| ReplicaCount.GuardHolds | src/partition/graphCheck.cpp:120-122 | with no negative key the guard over the growing map holds exactly while some partition is unreported |
| ReplicaCount.LoopEndsIff | src/partition/graphCheck.cpp:120-122 | the guard over the map after i turns fails for some i if and only if no partition id is negative |
| ReplicaCount.NegativePartition | src/partition/graphCheck.cpp:110-123 | one training node in partition -1 makes the guard hold for ever |
| ThreadPool.StepKeepsInv | src/RPC/bearTCP/ThreadPool.cc:29-100 | every step of a worker, a caller or the stopper keeps all invariants |
| ThreadPool.NoLostWakeup | src/RPC/bearTCP/ThreadPool.cc:29-100 | in every state of every run an un-notified sleeper implies a notified worker for each queued task, and an un-notified blocked caller a notified caller for each free slot |
| ThreadPool.NeverAllAsleep | src/RPC/bearTCP/ThreadPool.cc:39-43 | a sleeping worker and a blocked caller together imply at least as many notified threads as the queue has slots |
| ThreadPool.CallsAreKept | src/RPC/bearTCP/ThreadPool.cc:29-43 | over every run the tasks accepted and those in the hands of callers are together the tasks of all calls, each as often as it was called with |
| ThreadPool.HoldsLastCall | src/RPC/bearTCP/ThreadPool.cc:39-43 | a caller inside runTask holds the task of its last call, also after a wait |
| ThreadPool.PushAppends | src/RPC/bearTCP/ThreadPool.cc:39-43 | only a push to a queue with room grows what is accepted, by the task that this caller called with; without room the caller waits with it |
| ThreadPool.WaitSets | src/RPC/bearTCP/ThreadPool.cc:39-43 | exactly which steps put a worker or a caller to sleep, and which wake it |
| ThreadPool.CallIff | src/RPC/bearTCP/ThreadPool.cc:31-31 | every idle caller may call until the flag is cleared, and nobody after that |
| ThreadPool.Progress | src/RPC/bearTCP/ThreadPool.cc:77-100 | while running, queued work or a blocked caller implies that a thread can take a step without a spurious wakeup |
| ThreadPool.AcceptedIsFinished | src/RPC/bearTCP/ThreadPool.cc:77-100 | from every state of every run of a running pool with a worker, steps of workers alone finish every task accepted so far |
| ThreadPool.EverythingSettles | src/RPC/bearTCP/ThreadPool.cc:29-100 | from each such state workers and the callers inside runTask, with no spurious wakeup and no new call, come to where every call has returned and every task has been run: exactly those accepted before and those in the hands of these callers |
| ThreadPool.StopIsSeenByAll | src/RPC/bearTCP/ThreadPool.cc:65-75 | after stop has notified no worker sleeps, each can step until it leaves, and every own step brings it nearer to leaving |
| ThreadPool.ExactlyOnePlace | src/RPC/bearTCP/ThreadPool.cc:87-100 | the queue is bounded, tasks leave in the order they came, and each accepted task is queued, in one worker's hands, or finished, and only one of these |
| ThreadPool.QueuedIsLost | src/RPC/bearTCP/ThreadPool.cc:77-85 | once all workers have left, whatever callers still do, task i has been run if and only if it had been popped |
| ThreadPool.StopLosesTask | src/RPC/bearTCP/ThreadPool.cc:65-85 | a run in which an accepted task is lost, because the only worker sees the flag before the task |
| ThreadPool.Pool.PushSection | src/RPC/bearTCP/ThreadPool.cc:39-43 | the locked section of runTask is the push step and keeps the invariants |
| ThreadPool.Pool.TakeSection | src/RPC/bearTCP/ThreadPool.cc:87-100 | the locked section of take is the take step and keeps the invariants |
| ThreadPool.Pool.ClearFlag | src/RPC/bearTCP/ThreadPool.cc:67-68 | the beginning of stop clears the flag and touches nothing else |
| ThreadPool.Pool.StopSection | src/RPC/bearTCP/ThreadPool.cc:69-72 | the notification of stop is its step and keeps the invariants |
| EventLoop.StepKeepsInv | src/RPC/bearTCP/Eventloop.cc:62-204 | every step of the loop or of another thread keeps order, wakeup and quit invariants |
| EventLoop.NothingLostAtPoll | src/RPC/bearTCP/Eventloop.cc:101-123 | at the poll, a pending task or a quit implies a positive counter or a thread about to write it |
| EventLoop.RunInPushOrder | src/RPC/bearTCP/Eventloop.cc:183-196 | the tasks run are the first tasks queued, in push order, each once, and the rest is the batch and the pending list |
| EventLoop.LoopDrains | src/RPC/bearTCP/Eventloop.cc:62-75 | from the poll with a positive counter the loop thread alone runs every task queued so far, and leaves the counter at zero |
| EventLoop.QuitEndsLoop | src/RPC/bearTCP/Eventloop.cc:77-83 | once a quit has been made, the poll returns and the loop thread alone comes to leave, with every task queued so far run |
| EventLoop.ToldByLabels | src/RPC/bearTCP/Eventloop.cc:77-123 | what is queued is what was pushed, in order, and the flag is set exactly if quit was called, on the loop thread or another |
| EventLoop.LoopQuitEndsLoop | src/RPC/bearTCP/Eventloop.cc:77-83 | after quit on the loop thread no continuation polls again, and the loop thread alone comes to leave, with the tasks pending then, or the rest of its batch, run |
| EventLoop.DoingWhileRunning | src/RPC/bearTCP/Eventloop.cc:183-196 | the flag that decides on a wakeup is set exactly while tasks are being run |
| EventLoop.PendingIsLost | src/RPC/bearTCP/Eventloop.cc:62-75 | once the loop has left, whatever other threads still do, the tasks run are those run so far, and the pending and later ones never run |
| EventLoop.QuitLosesTask | src/RPC/bearTCP/Eventloop.cc:68-74 | a run in which a task queued between the last swap and the test of the flag is lost, with its wakeup given |
| EventLoop.Loop.QueueInLoopThread | src/RPC/bearTCP/Eventloop.cc:101-113 | on the loop thread the wakeup is given exactly while tasks are being run |
| EventLoop.Loop.PushFromThread | src/RPC/bearTCP/Eventloop.cc:103-106 | the locked push of another thread |
| EventLoop.Loop.WakeFromThread | src/RPC/bearTCP/Eventloop.cc:111-112 | the wakeup that follows it |
| EventLoop.Loop.QuitOnLoop | src/RPC/bearTCP/Eventloop.cc:77-83 | quit on the loop thread sets the flag and gives no wakeup |
| EventLoop.Loop.QuitFromThread | src/RPC/bearTCP/Eventloop.cc:79-80 | the store of quit on another thread |
| EventLoop.Loop.WakeForQuit | src/RPC/bearTCP/Eventloop.cc:81-82 | and the wakeup that follows it |
| EventLoop.Loop.HandleWakeup | src/RPC/bearTCP/Eventloop.cc:198-204 | the read finds a positive counter and clears it |
| EventLoop.Loop.SwapTasks | src/RPC/bearTCP/Eventloop.cc:186-192 | the swap takes all pending tasks and keeps the invariants |
| Timers.Timer.Restart | src/RPC/bearTCP/Timer.h:24-28 | the expiry moves on from the last expiry by the interval |
| Timers.Timer.Cancel | src/RPC/bearTCP/Timer.h:30-34 | only the flag changes |
| Timers.ExpiredExactly | src/RPC/bearTCP/TimerQueue.cc:129-139 | exactly the entries with a time not after now are taken, and both parts stay in order |
| Timers.InsertIsSet | src/RPC/bearTCP/TimerQueue.cc:86-91 | insertion keeps the order, adds one entry, and tells whether it became the first |
| Timers.EraseIsSet | src/RPC/bearTCP/TimerQueue.cc:98-100 | erasing keeps the order and removes just that entry |
| Timers.StepKeepsInv | src/RPC/bearTCP/TimerQueue.cc:83-139 | keys equal their timers' times, firing records and the alarm bound are kept by adds, cancels, callbacks and passing time |
| Timers.NeverEarlyNeverTwice | src/RPC/bearTCP/TimerQueue.cc:105-123 | firing k of a timer is not before start + k times the interval, and a one-shot timer fires at most once |
| Timers.NeverDrifts | src/RPC/bearTCP/TimerQueue.cc:117-121 | after n firings the key of a waiting timer is exactly start + n times the interval, and it is in the set once |
| Timers.RecordsTold | src/RPC/bearTCP/TimerQueue.cc:83-91 | every timer has the start and the interval that it was added with, and every timer added is known |
| Timers.FiresNow | src/RPC/bearTCP/TimerQueue.cc:115-116 | a timer fires in the run of its callback only, and then at the present time |
| Timers.CancelledNeverFires | src/RPC/bearTCP/TimerQueue.cc:96-103 | after a cancel, whatever follows, the timer is in no set and no batch and never fires again |
| Timers.CallersMay | src/RPC/bearTCP/TimerQueue.cc:83-103 | exactly when a timer may be added or cancelled, which is all that the model assumes of callers |
| Timers.AlarmNeverMissed | src/RPC/bearTCP/TimerQueue.cc:36-62 | outside handleRead the alarm of a non-empty set is armed, at least a millisecond after it was set, no later than that or the earliest time, and when it goes off exactly the due timers are taken |
| Timers.AlarmNeverNeedless | src/RPC/bearTCP/TimerQueue.cc:88-126 | in a run without a cancel the alarm is set for exactly the earliest time, or a millisecond after it was set if that is later |
| Timers.LiveTimerIsTaken | src/RPC/bearTCP/TimerQueue.cc:105-139 | every live timer is in what is left of the batch or in the set under its own time, and outside handleRead the next run of it takes the timer once it is due |
| Timers.DeletedOnlyWhen | src/RPC/bearTCP/TimerQueue.cc:96-123 | a timer is deleted only by a cancel or after the one firing of a one-shot timer |
| Timers.AssertionsHold | src/RPC/bearTCP/TimerQueue.cc:83-123 | an added entry is new, a timer of the batch has expired, and only repeating timers are restarted |
| Timers.BatchGoesOn | src/RPC/bearTCP/TimerQueue.cc:111-123 | inside handleRead the next entry can always be run, finished or passed |
| Timers.HandleReadFires | src/RPC/bearTCP/TimerQueue.cc:105-127 | from every state outside handleRead, handleRead by itself comes back with exactly one more firing for each timer that was due, and none for any other |
| Timers.TimerQueue.AddTimer | src/RPC/bearTCP/TimerQueue.cc:83-94 | insertion, and a new alarm exactly if the entry is the first |
| Timers.TimerQueue.CancelTimer | src/RPC/bearTCP/TimerQueue.cc:96-103 | the entry and the timer go, the alarm stays |
| Timers.TimerQueue.BeginHandle | src/RPC/bearTCP/TimerQueue.cc:105-111 | the expired entries leave the set; it may run before its alarm is due, and then the alarm stays |
| Timers.TimerQueue.BeforeCallback | src/RPC/bearTCP/TimerQueue.cc:111-116 | the assertion in front of a callback holds, and the run of the callback is recorded at the present time |
| Timers.TimerQueue.AfterCallback | src/RPC/bearTCP/TimerQueue.cc:117-122 | a repeating timer is restarted and inserted again, any other is deleted |
| Timers.TimerQueue.EndHandle | src/RPC/bearTCP/TimerQueue.cc:125-126 | the alarm is set for the earliest entry if there is one |
| ByteBuffer.Buffer.Append | src/RPC/bearTCP/Buffer.h:130-135 | the readable bytes grow by the data |
| ByteBuffer.Buffer.Retrieve | src/RPC/bearTCP/Buffer.h:75-107 | the readable bytes lose their first len bytes |
| ByteBuffer.Buffer.RetrieveAsString | src/RPC/bearTCP/Buffer.h:112-118 | the first len bytes are returned and dropped |
| ByteBuffer.Buffer.Prepend | src/RPC/bearTCP/Buffer.h:261-267 | the data comes before the readable bytes |
| ByteBuffer.Buffer.EnsureWritableBytes | src/RPC/bearTCP/Buffer.h:140-146 | room is made, the readable bytes stay, the source's assertions hold |
| ByteBuffer.Buffer.Compact | src/RPC/bearTCP/Buffer.h:283-290 | the overlapping copy to the front keeps the readable bytes |
| ByteBuffer.Buffer.Resize | src/RPC/bearTCP/Buffer.h:281-281 | a larger array with the old bytes in place |
| ByteBuffer.Buffer.FindCRLF | src/RPC/bearTCP/Buffer.h:47-51 | the first CRLF among the readable bytes, or none if there is none |
| ByteBuffer.Buffer.AppendInt | src/RPC/bearTCP/Buffer.h:160-179 | the big-endian bytes of the integer are appended |
| ByteBuffer.Buffer.ReadInt | src/RPC/bearTCP/Buffer.h:181-207 | the first bytes are decoded and dropped |
| ByteBuffer.Buffer.PeekInt | src/RPC/bearTCP/Buffer.h:209-238 | the first bytes are decoded |
| ByteBuffer.Buffer.PrependInt | src/RPC/bearTCP/Buffer.h:240-259 | the big-endian bytes come before the readable bytes |
| ByteBuffer.Buffer.ReadFd | src/RPC/bearTCP/Buffer.cc:14-37 | whatever was received follows the readable bytes, however it was split between tail and extra buffer |
| ByteBuffer.Buffer.Swap | src/RPC/bearTCP/Buffer.h:28-33 | the two buffers change places |
| ByteBuffer.IntRoundTrip | src/RPC/bearTCP/Buffer.h:160-238 | decoding inverts encoding for signed integers of any width |
| ByteBuffer.FirstIsHighest | src/RPC/bearTCP/Buffer.h:160-238 | the first byte of an integer is its most significant one |
| ByteBuffer.IntOnTheWire | src/RPC/bearTCP/Buffer.h:160-179 | 0x01020304 is written as the bytes 1, 2, 3, 4 |
| ByteBuffer.AppendThenRead | src/RPC/bearTCP/Buffer.h:160-207 | an integer appended behind other bytes is read back after them |
| ByteBuffer.PrependThenPeek | src/RPC/bearTCP/Buffer.h:209-259 | a prepended integer is what a peek sees |
| ByteBuffer.EnsureKeeps | src/RPC/bearTCP/Buffer.h:278-292 | making room keeps the indices in order and the growth bound, and compaction happens only with room in front |
| ByteBuffer.GrowsIff | src/RPC/bearTCP/Buffer.h:278-292 | the array grows exactly if the bytes that are not readable, but for eight, are fewer than those wanted, and by no more than is missing |
| ByteBuffer.GrowthOverRuns | src/RPC/bearTCP/Buffer.h:130-146 | over every run of operations the size stays within 8 + the initial size or 8 + twice the largest readable length after an append |
| Framing.TakeOne | src/RPC/bearTcpServer.cc:62-91 | one turn of the receive loop on the buffer object |
| Framing.HandleMessage | src/RPC/bearTcpServer.cc:60-104 | the receive loop on the buffer object delivers and leaves what `Drain` says, and stops when its handler throws |
| Framing.Receive | src/RPC/bearTcpClinet.h:63-108 | the buffer object fed chunk by chunk, with whatever it held before, delivers and leaves what `Resume` says |
| Framing.TurnStable | src/RPC/bearTcpServer.cc:62-91 | a turn that does more than wait does the same when more bytes follow |
| Streams.CutsMatterIff | src/RPC/bearTcpServer.cc:60-104 | all cuts of a stream give one result if and only if one run of the loop on the whole stream leaves nothing to do; otherwise a cut behind what the loop drops gives another |
| Streams.FeedLeadsOn | src/RPC/bearTcpServer.cc:60-104 | for every stream and every cut, with dropped lines and throwing handlers too, what has been delivered and what the buffer still leads to are together what the whole stream leads to |
| Streams.CutsAgreeInTheEnd | src/RPC/bearTcpClinet.h:63-75 | after enough further runs of the loop every cut of a stream has come to the same deliveries and the same buffer |
| Streams.BlankLineDelays | src/RPC/bearTcpServer.cc:67-70 | a blank line and a message in one chunk deliver nothing, in two chunks the message |
| Streams.ThrowStopsLoop | src/RPC/bearTcpServer.cc:91-104 | the handler gets the body it throws on, and the loop does not go on; otherwise it does |
| Framing.MessageAcceptedIff | src/RPC/bearTcpServer.cc:120-133 | what a sender writes is taken back as body and CRLF exactly if it is below the receiver's limit |
| Framing.LimitsDiffer | src/RPC/bearTcpClinet.h:98-100 | a body of 65534 bytes passes the server's limit and not the client's |
| Framing.LimitsInBytes | src/RPC/bearTcpClinet.h:98-100 | the server takes bodies up to 104857597 bytes, the client bodies up to 65533 |
| Framing.HeaderIsInt32 | src/RPC/bearTcpServer.cc:76-81 | a header is accepted exactly for the lengths 1 to 2147483647 |
| Framing.MessageOnTheWire | src/RPC/bearTcpServer.cc:128-131 | the bytes of a message, written out for one body |
| Streams.ChunkingIndependence | src/RPC/bearTcpClinet.h:77-108 | however the stream of some messages is cut, exactly their bodies with CRLF are delivered in order and the buffer ends empty, if the handler throws on none |
| Streams.DeliveredInTheEnd | src/RPC/bearTcpClinet.h:63-75 | whatever the handler throws on, any cut of a stream of messages delivers the first bodies in order, and after enough further runs of the loop all of them |
| Streams.DrainConserves | src/RPC/bearTcpServer.cc:90-91 | the frames taken and the bytes left are the bytes that were there, also when the handler throws |
| Silence.RefusedHeaderStays | src/RPC/bearTcpServer.cc:76-85 | a refused header that stays in the buffer is one that is too long, or a bad one on the server, and it stays in front of all that follows |
| Silence.SilentIff | src/RPC/bearTcpServer.cc:60-104 | after any input nothing more is delivered, whatever follows and however it is cut, exactly if the buffer is stuck: at a header announcing the limit or more, or on the server at one that is bad or can only become bad |
| Silence.RefusedHeaderIsLast | src/RPC/bearTcpClinet.h:98-100 | in a stream cut anyhow, whatever stands behind a header that announces too much, only messages before it are delivered, and all of them if the handler throws on none |
| Silence.RefusedMessageIsLast | src/RPC/bearTcpClinet.h:98-108 | the same for a message that is not below the limit, which stays in the buffer with all that follows |
| Silence.LongResponseSilencesClient | src/RPC/bearTcpClinet.h:98-100 | a response of 65534 bytes at the front of a stream, cut anyhow, silences the client for good |
| Silence.BadLineSilencesServer | src/RPC/bearTcpServer.cc:76-81 | the line "x" at the front of a stream, cut anyhow, silences the server for good |
| Streams.NothingLost | src/RPC/bearTcpClinet.h:104-106 | after any number of chunks, whatever the handler throws on, frames delivered and bytes buffered are the bytes received, and the bodies so far are those of the first messages sent |
| Framing.DecimalOfValue | src/RPC/bearTcpServer.cc:74-83 | a header is the only text of its value |
| Framing.ValueOfDecimal | src/RPC/bearTcpServer.cc:128-129 | the printed length parses back to the length |
| RpcBatch.DispatchedIffWellFormed | src/RPC/bearTcpServer.cc:297-320 | an entry reaches a procedure exactly if it is a well-formed call to a registered procedure, said without the order of the checks |
| RpcBatch.NotifiedIffWellFormed | src/RPC/bearTcpServer.cc:360-381 | an entry reaches a notification procedure exactly if it is a well-formed notification to a registered one |
| RpcBatch.ErrorCarriesId | src/RPC/bearTcpServer.cc:383-407 | a request error carries the id of the entry, or null if the entry has none of an allowed type |
| RpcBatch.ErrorCodeIff | src/RPC/bearTcpServer.cc:297-320 | a request error says "method not found" exactly for calls and notifications that name no registered target, and "invalid request" otherwise |
| RpcBatch.AnswersIff | src/RPC/bearTcpServer.cc:360-420 | the server answers an entry if and only if section 6 wants it, unless the entry is ignored or answered unasked, and then it does the opposite |
| RpcBatch.ValidIffShape | src/RPC/bearTcpServer.cc:383-407 | the field checks accept exactly the objects with the right members |
| BatchResponse.StepKeepsInv | src/RPC/bearTcpServer.cc:232-264 | every step of the dispatcher or of a service keeps the count of holders, the single call of done and the list of responses |
| BatchResponse.DoneExactlyOnce | src/RPC/bearTcpServer.cc:251-255 | done is called at most once, and has been called exactly if dispatcher and all callback copies are gone |
| BatchResponse.DoneWithEveryAnswer | src/RPC/bearTcpServer.cc:345-354 | done gets exactly one response for each answered request and one more, for the entry that was rejected, exactly if a RequestException ended the loop |
| BatchResponse.AnswersTold | src/RPC/bearTcpServer.cc:238-242 | besides the wrapped exception the responses are the answers given, in the order in which they were given |
| BatchResponse.AnswerIffGiven | src/RPC/bearTcpServer.cc:238-242 | a value is in what done is called with exactly if a service gave it as its answer to that entry |
| BatchResponse.ServicesMay | src/RPC/bearTcpServer.cc:345-347 | exactly when a callback may be copied or used, which is all that the model assumes of services |
| BatchResponse.BatchEnds | src/RPC/bearTcpServer.cc:251-255 | from every state of every run the dispatcher alone and the dropping of callbacks lead to the call of done with all responses |
| BatchResponse.SectionSixIff | src/RPC/bearTcpServer.cc:331-357 | a finished batch with all requests answered is answered as section 6 wants, each entry that wants a response once, no other, and no empty array, if and only if some entry wants one and, of the entries the loop reaches, none is ignored or answered unasked and none is rejected with one behind it that wants a response |
| BatchResponse.UnknownServiceInFront | src/RPC/bearTcpServer.cc:370-372 | a notification to an unknown service is answered with a null id, and the call behind it is not |
| BatchResponse.NotificationsOnly | src/RPC/bearTcpServer.cc:92-96 | a batch of notifications is answered with an empty array |
| BatchResponse.OldVersionIgnored | src/RPC/bearTcpServer.cc:409-412 | in every finished run an entry without id of another version gets no response, which section 6 wants |
| BatchResponse.NewVersionConforms | src/RPC/bearTcpServer.cc:335-348 | with the right version the same batch is answered as section 6 wants |
| BatchResponse.JunkIsAnswered | src/RPC/bearTcpServer.cc:351-354 | in every finished run an object that is no request gets one error with a null id, as section 6 wants |
| BatchResponse.FinishedBatchSends | src/RPC/bearTcpServer.cc:322-358 | the loop stops at the first rejected entry, and a finished batch with all requests answered has answered exactly the calls before it, and itself if it was a RequestException, each once |
| BatchResponse.Aggregator.HandleBatchRequests | src/RPC/bearTcpServer.cc:322-358 | the dispatcher's loop stops at the first rejected entry; the responses are then exactly the answers given at once, in order, and the wrapped exception, the copies those that services kept, and done has been called exactly if there are none |
| BatchResponse.Aggregator.HandleNext | src/RPC/bearTcpServer.cc:335-348 | one turn of that loop is its step |
| BatchResponse.Aggregator.AddResponse | src/RPC/bearTcpServer.cc:238-242 | an answer is appended while a reference is held |
| BatchResponse.Aggregator.DropCallback | src/RPC/bearTcpServer.cc:251-255 | the last reference to go calls done |
| ClientCalls.ValidIffResponse | src/RPC/bearTcpClinet.h:159-179 | a response is accepted exactly if it is a version 2.0 object of three members with an int32 id and a result or an error object |
| ClientCalls.StepKeepsInv | src/RPC/bearTcpClinet.h:33-75 | every call and every incoming body keeps the table invariants |
| ClientCalls.IdsSplit | src/RPC/bearTcpClinet.h:33-75 | the ids handed out are exactly the pending, answered and erased ones, and these are disjoint |
| ClientCalls.InvokedOnceWithOwnResponse | src/RPC/bearTcpClinet.h:136-157 | each callback is invoked at most once, with a valid response that carries its own id |
| ClientCalls.BatchDelivers | src/RPC/bearTcpClinet.h:119-157 | of an array exactly the elements run their callbacks, in order, that are valid, pending, behind no invalid element and behind none with the same id; otherwise only an id that the first invalid element names is given up |
| ClientCalls.MalformedFirst | src/RPC/bearTcpClinet.h:125-126 | a malformed first element throws the whole array away, and the calls stay pending |
| ClientCalls.LoneIsBatchOfOne | src/RPC/bearTcpClinet.h:116-118 | an object by itself is handled as an array of one element |
| ClientCalls.UselessBody | src/RPC/bearTcpClinet.h:110-133 | a body that is no JSON text, no object and no array, or an empty array, changes nothing |
| ClientCalls.AnswerableIff | src/RPC/bearTcpClinet.h:166-167 | a pending call can still be answered, by the next body or by any later input, exactly if its number is below 2^31 |
| ClientCalls.LateCallExists | src/RPC/bearTcpClinet.h:33-42 | after 2^31 + 1 calls the last one is pending and is never answered |
| ClientCalls.BaseClient.SendCall | src/RPC/bearTcpClinet.h:33-42 | the callback is stored under the next id |
| ClientCalls.BaseClient.HandleSingleResponse | src/RPC/bearTcpClinet.h:136-157 | one response, on the object |
| ClientCalls.BaseClient.HandleResponse | src/RPC/bearTcpClinet.h:110-133 | a body: one object, or the elements of an array up to the first failure |
| ClientCalls.BaseClient.OnMessage | src/RPC/bearTcpClinet.h:63-75 | a failure that names an id erases its callback |

## Left out

- File input of both partition programs, random sampling and the commented-out scoring: sample lists and graphs are arbitrary inputs.
- `nodeViewed` and `NodeViewed` are modelled as sets, because the source only asks for their keys; `fanout` is not used by the source.
- `BlockSort`: the order among blocks of equal size is left open, as it is for `std::sort`.
- Sockets, poll, accept and connect, logging and address formatting; the poll, the eventfd and the timer descriptor are small pieces of state.
- The sleeping and waking of threads inside one locked section: a section and the wait at its end are one step. A pool without worker threads, which runs a task in its caller, and tasks that submit to their own pool are not part of the thread pool model.
- Callers still blocked in `runTask` after `stop` stay blocked in the model as they do in the source.
- Tasks queued on the loop thread before `loop()` starts, and the store of `quit_` at the start of `loop()`; `loop()` is called once.
- Cancelling a timer from a callback of its own batch, and freeing of timer memory: not doing the first is an assumption of the timer model. Its clock is one clock, though the source compares a system time with a monotonic timer.
- `findEOL`, and `findCRLF` from a given start: the same search from another place.
- JSON parsing and printing: bodies are byte strings or JSON values.
- Framing.TakeOne: a header counts as a number only in the form the senders print; one such as " 5", which a JSON parser may accept, is bad in the model, because that parser is not part of this model.
- Framing.HandleMessage: whether a handler throws depends on the body alone.
- BatchResponse.Aggregator.HandleBatchRequests: what a service does in its call to the callbacks of other entries, and what other threads do meanwhile, are steps of the state machine only.
- Parameter checks of a procedure: `Procedure::invoke` is not part of this model, and a registered procedure accepts any parameters. Section 6 is read with parameters that are neither array nor object making a request invalid.
- Response elements that are neither object nor array count as having no members.
- Callbacks that re-enter the client's table while it is being read.
- Python tools, scripts, `Serialization.cc`, `RPCException.h` and the samples under `src/RPC/test`.
