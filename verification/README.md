# Verified model of the concurrent containers

A Dafny model of the queues (`queue/`), the connection pool (`pool/pool.go`), the sliding-window
limiters (`pool/connlimit/limiter.go`), the work pool (`workpool/`), the sets (`set/`) and index
deletion (`slice/slice.go`).

Two forms are used.

* **Step machines** for what runs concurrently. The shared state is a value, every thread has a
  program counter whose constructors name its next operation, and one step is one atomic operation,
  one channel operation or one locked region. `Apply(s, step)` takes one step, `Run(s, steps)` a whole
  schedule; scheduling, the outcomes of foreign calls, timeouts and cancellations are chosen by the
  steps. A theorem holds for every list of steps, that is, for every interleaving.
* **Classes** for what one caller does to one object, proved against functions on abstract values
  (a queue as a sequence, a history of grants, a heap as a multiset, a set).

What a call does is stated through observers: functions that read a schedule and the states it passes
through (which thread moves, where its program counter stands, what the shared histories gain) and keep
a record of each call, without naming the functions that take the steps.

Where the code does not meet what its interface suggests, the condition under which it does is stated
as an if-and-only-if, and the failing direction is proved by building a schedule or an input.

| file | subject |
|---|---|
| `Basics.dfy`, `Counting.dfy`, `Runs.dfy` | shared datatypes, sums over threads, ring indices, schedules put together |
| `Rings.dfy`, `QueueSpec.dfy` | circular buffer, abstract queue |
| `BlockingQueue.dfy`, `NonBlockingQueue.dfy`, `QueueAgreement.dfy` | the two queues as array code, and their agreement |
| `BlockingProtocol.dfy`, `BlockingCalls.dfy` | the monitor with wait loops, and what each of its calls does |
| `NonBlockingProtocol.dfy`, `NonBlockingCalls.dfy`, `NonBlockingFifo.dfy`, `NonBlockingLimits.dfy` | the compare-and-swap protocol |
| `PoolProtocol.dfy`, `PoolSteps.dfy`, `PoolPlaces.dfy`, `PoolLedgers.dfy`, `PoolStock.dfy` | the connection pool interleaved: places and counters |
| `PoolFates.dfy`, `PoolOutcomes.dfy`, `PoolSweeps.dfy` | what its calls and sweeps do: which connections are handed out, sent on and closed |
| `PoolLimits.dfy`, `PoolNesting.dfy`, `PoolSolo.dfy`, `PoolDepth.dfy` | its limits: connections, nested waits, waiters |
| `PoolCalls.dfy`, `PoolPeaks.dfy`, `PoolWaiters.dfy`, `PoolRetries.dfy` | the runs that reach them, and the best bounds |
| `ConnectionRules.dfy`, `ConnectionPool.dfy` | the connection pool for a single caller |
| `Windows.dfy`, `WindowLimiter.dfy`, `WindowHistory.dfy`, `AdaptiveLimiter.dfy` | limiters |
| `TaskHeap.dfy`, `TaskHandle.dfy`, `PeakWorkers.dfy` | parts of the work pool |
| `WorkPoolProtocol.dfy`, `WorkPoolShutdown.dfy`, `WorkPoolLedgers.dfy`, `WorkPoolSplit.dfy`, `WorkPoolLimits.dfy` | the work pool interleaved |
| `WorkPoolTasks.dfy`, `WorkPoolRequests.dfy` | what becomes of one task, and what the calls of Submit, Start and Shutdown do |
| `WorkPoolCalls.dfy`, `WorkPoolRestarts.dfy`, `WorkPoolLate.dfy`, `WorkPoolExits.dfy` | for which configurations its limits, its shutdown and its counters hold |
| `Orders.dfy`, `SetSpec.dfy`, `HashSet.dfy`, `SortedSet.dfy`, `SetAgreement.dfy` | the sets |
| `BatchDelete.dfy` | deletion by index |

Where code and documentation differ, the code is followed: `NonBlockingQueue` claims slots before it
writes them, so it is first-in-first-out for one producer and one consumer only; `SortedSet.RemoveAll`
counts arguments rather than elements; a cancelled task becomes running again when a worker starts it.

## Model

| member | source | states |
|---|---|---|
| NonBlockingProtocol.CountersExact | queue/nonblocking_queue.go:102-220 | for any number of threads and every schedule, tail and head are the successful swaps modulo capacity, size is their difference corrected by the claims in flight, and size <= capacity + producers - 1 |
| NonBlockingLimits.BoundReached | queue/nonblocking_queue.go:102-144 | for every capacity and number of producers a schedule reaches that bound |
| NonBlockingLimits.CapacityExact | queue/nonblocking_queue.go:102-144 | size stays within capacity under every schedule if and only if there is at most one producer |
| NonBlockingLimits.TwoConsumers | queue/nonblocking_queue.go:171-220 | two consumers can share one item: one is handed a cleared slot and size drops to -1 |
| NonBlockingLimits.NonNegativeExact | queue/nonblocking_queue.go:171-220 | size is never negative under every schedule if and only if there is at most one consumer |
| NonBlockingFifo.WriteHitsFreeSlot | queue/nonblocking_queue.go:116-125 | the slot a producer writes holds no item still to be read |
| NonBlockingFifo.ClearHitsReadSlot | queue/nonblocking_queue.go:186-200 | the slot a consumer clears has been read |
| NonBlockingFifo.SingleProducerSingleConsumer | queue/nonblocking_queue.go:70-224 | one producer, one consumer, every schedule: the items handed out are a prefix of those accepted, unread slots keep their items, 0 <= size <= capacity, and from the moment it is closed the queue lets in one more item at most |
| NonBlockingCalls.EveryEnqueue | queue/nonblocking_queue.go:70-150 | any number of threads, every schedule: an Enqueue that has returned has claimed a slot for its item and counted it exactly once if and only if it never loaded that the queue is closed or full, and otherwise has done neither; each claim swaps the tail that it loaded, and then found with the queue not full, since its last failed swap |
| NonBlockingCalls.EveryDequeue | queue/nonblocking_queue.go:153-224 | a Dequeue that has returned has moved head exactly once and handed out the value of its last read if and only if it never loaded that the queue is empty; each move swaps the head that it loaded, found with the queue not empty and read since its last failed swap |
| NonBlockingCalls.CloseLetsInFew | queue/nonblocking_queue.go:77-125 | from a closed queue on, every schedule lets in at most one item for each producer that was then past its closed test |
| NonBlockingCalls.CloseKeepsOut | queue/nonblocking_queue.go:77-82 | an Enqueue begun after Close lets nothing in, under every schedule, and comes back refused |
| NonBlockingCalls.ClosedByClose | queue/nonblocking_queue.go:281-291 | the queue is closed from the first Close on, and not before |
| NonBlockingLimits.OvertakenProducer | queue/nonblocking_queue.go:120-125 | with two producers a slot that is claimed and not yet written is handed out |
| NonBlockingLimits.OverwrittenSlot | queue/nonblocking_queue.go:116-125 | with two producers and room for one, both write the same slot and an item is lost |
| NonBlockingLimits.FifoExact | queue/nonblocking_queue.go:70-224 | order holds under every schedule if and only if there is exactly one producer and one consumer |
| NonBlockingLimits.EnqueueRun | queue/nonblocking_queue.go:70-144 | an Enqueue that runs alone on an open queue with room stores its item in the slot at tail and counts it |
| NonBlockingLimits.DequeueRun | queue/nonblocking_queue.go:153-220 | a Dequeue that runs alone on a queue with size > 0 hands out the slot at head and clears it |
| Rings.SlotIsRemainder | queue/nonblocking_queue.go:116-116 | stepping by comparison visits the slots of the remainder |
| Rings.PutAppends | queue/blocking_queue.go:470-472 | storing at the tail appends to the contents |
| Rings.TakeRemoves | queue/blocking_queue.go:509-513 | reading and clearing the head removes the oldest item |
| Rings.ExpandKeeps | queue/blocking_queue.go:658-687 | doubling keeps contents and order from any wrapped position |
| QueueSpec.Conservation | queue/blocking_queue.go:446-535 | enqueued = dequeued + size + cleared after every history, and size never exceeds the limit |
| QueueSpec.FirstInFirstOut | queue/blocking_queue.go:446-535 | without Clear, what was handed out followed by what is stored is what was let in, in order |
| QueueSpec.AnswersExact | queue/blocking_queue.go:446-640 | after every history, the answer of each operation from the operations and answers before it: an item is refused by a closed queue and by one whose outstanding items reach the limit, TryDequeue and Peek give the oldest item outstanding, Size and Stats count what the answers tell, Clear leaves nothing |
| QueueSpec.ClosedHandsOutOldest | queue/blocking_queue.go:579-595 | a closed queue only loses items from its front |
| QueueSpec.ClosedLetsNothingIn | queue/blocking_queue.go:446-470 | no history lets an item into a closed queue |
| QueueSpec.SameLimit | queue/blocking_queue.go:648-655 | two queues answer all histories alike if and only if their limits are equal |
| BlockingQueues.BlockingQueue.TryEnqueue | queue/blocking_queue.go:446-491 | the abstract TryEnqueue, with its error cases and statistics |
| BlockingQueues.BlockingQueue.TryDequeue | queue/blocking_queue.go:494-534 | the abstract TryDequeue |
| BlockingQueues.BlockingQueue.Peek | queue/blocking_queue.go:537-550 | the oldest item, or the error, and nothing changes |
| BlockingQueues.BlockingQueue.Clear | queue/blocking_queue.go:603-630 | empties queue and slots |
| BlockingQueues.BlockingQueue.Close | queue/blocking_queue.go:579-595 | the abstract Close |
| BlockingQueues.BlockingQueue.Expand | queue/blocking_queue.go:658-687 | the copy loop is the ring's expansion |
| NonBlockingQueues.NonBlockingQueue.TryEnqueue | queue/nonblocking_queue.go:70-150 | the abstract TryEnqueue, with the 32-bit comparison of size and capacity; an unbounded queue that has once held more than 2^30 items panics on the next one, by a remainder by zero, and no other call does |
| NonBlockingQueues.NonBlockingQueue.TryDequeue | queue/nonblocking_queue.go:153-236 | the abstract TryDequeue |
| NonBlockingQueues.NonBlockingQueue.Peek | queue/nonblocking_queue.go:239-255 | the oldest item, or the error, and nothing changes |
| NonBlockingQueues.NonBlockingQueue.Clear | queue/nonblocking_queue.go:299-333 | empties queue and slots |
| NonBlockingQueues.NonBlockingQueue.Expand | queue/nonblocking_queue.go:347-366 | the copy loop is the ring's expansion, up to 2^31 slots |
| QueueAgreement.RunBoth | queue/nonblocking_queue.go:42-366 | given the same history, both queues give the same answers if and only if no enqueue of an unbounded queue comes after it has once held more than 2^30 items; capacities up to 2^31 - 1 always agree |
| QueueAgreement.OutgrownOnlyIfLarge | queue/nonblocking_queue.go:93-99 | a history that never stores more than 2^30 items is never outgrown, however long it is |
| QueueAgreement.OutgrownExact | queue/nonblocking_queue.go:93-99 | for an unbounded queue: a bound on the items stored at any point rules the panic out, over all histories, if and only if it is at most 2^30 |
| QueueAgreement.AgreementExact | queue/nonblocking_queue.go:85-109 | bounded queues of the two kinds agree on all histories if and only if the capacity is at most 2^31 - 1 |
| BlockingProtocol.StepRefines | queue/blocking_queue.go:76-443 | every locked region, the wait loops included, leaves the abstract queue alone or performs one operation on it with the answer given; which of the two, and when, is the subject of the rows of BlockingCalls |
| BlockingProtocol.Linearizable | queue/blocking_queue.go:76-443 | any number of threads: the effects in their order are a history of the abstract queue, with its answers, contents and statistics |
| BlockingProtocol.DeliveredInOrder | queue/blocking_queue.go:76-443 | concurrent calls deliver in order |
| BlockingProtocol.WaitersArePatient | queue/blocking_queue.go:120-256 | a waiting call never fails because the queue is full or empty |
| BlockingProtocol.ClosedDrains | queue/blocking_queue.go:579-595 | after Close, in every schedule, nothing is let in and the stored items leave from the front |
| BlockingCalls.EveryEnqueue | queue/blocking_queue.go:76-256 | every schedule: an Enqueue that has returned has given up its wait and done nothing, or has had exactly one effect, with its own item, answered with success or queue closed; before it returns it has stored nothing |
| BlockingCalls.EveryDequeue | queue/blocking_queue.go:269-443 | a Dequeue that has returned has given up its wait and done nothing, or has been handed exactly one item, or has been told that the queue is closed |
| BlockingCalls.EnqueueDecides | queue/blocking_queue.go:90-256 | from an open queue with room the first two steps of Enqueue append its item, in an array twice as long if no slot was left; from a full one they leave it waiting and nothing changed; from a closed one they are refused, and the rejection is counted by the next |
| BlockingCalls.WaiterDecides | queue/blocking_queue.go:120-256 | a waiting Enqueue that retries appends its item as soon as there is room, is refused when the queue is closed, and changes nothing otherwise; a timeout or cancellation leaves the queue alone |
| BlockingCalls.DequeueDecides | queue/blocking_queue.go:283-443 | the two steps of Dequeue hand out the oldest item; from an empty queue they leave it waiting, or tell it that the queue is closed |
| BlockingCalls.WaitingGetDecides | queue/blocking_queue.go:310-443 | a waiting Dequeue that retries takes the oldest item as soon as there is one |
| BlockingCalls.OneEffectEach | queue/blocking_queue.go:446-630 | TryEnqueue, TryDequeue, Clear and Close have exactly one effect each, whoever is waiting |
| PoolPlaces.ExactlyOnePlace | pool/pool.go:139-652 | every interleaving of clients and cleaner: each connection is in exactly one place, its raw Close is called at most once, the channel holds it at most once and never more than MaxIdle |
| PoolPlaces.PlacedSend | pool/pool.go:446-464 | a send keeps every connection in exactly one place, whether it goes to the channel, to a waiting client or is refused |
| PoolPlaces.PlacedReceive | pool/pool.go:149-156 | so does a receive, successful or not |
| PoolPlaces.PlacedPass | pool/pool.go:360-396 | so does the program when one of its threads hands a connection to another, which may put it back |
| PoolPlaces.PlacedGot | pool/pool.go:614-638 | so does the cleaner with the connection it has taken, whether it is put back, handed over or doomed |
| PoolFates.ClosedExactly | pool/pool.go:169-643 | in every run a connection is closed, or about to be, if and only if it was condemned: put back with an error, found expired, dead or not to be reset, sent into a full channel, or rejected by OnCreate; from then on it is neither in the channel nor with a client |
| PoolFates.ChannelInOrder | pool/pool.go:149-643 | whoever sends and receives, the connections received followed by those in the channel are those sent, in the order they were sent |
| PoolOutcomes.EveryCall | pool/pool.go:139-465 | in every run, a Get that has returned has met a refusal and handed out nothing, or has met none and handed out exactly the connection it found fit or created; it has begun a wait exactly when it found neither room nor too many waiters, and called the factory exactly when it found room; a Put that has returned has closed its connection if that was condemned, or else sent it |
| PoolOutcomes.LookDecides | pool/pool.go:149-297 | a look into the channel receives its first connection if there is one, and otherwise the call creates or waits, waits on, or tries again |
| PoolOutcomes.SendDecides | pool/pool.go:446-464 | a send serves a client that waits, or else goes to the end of the channel if there is room, or else ends in a close |
| PoolOutcomes.LeaveDecides | pool/pool.go:226-232 | a Get that is over signs off as a waiter once for every wait it has nested, and then returns |
| PoolOutcomes.PublishDecides | pool/pool.go:118-136 | the pool is published once every connection of the fill has been created, or not, and put back |
| PoolOutcomes.PassDecides | pool/pool.go:360-383 | a thread may hand a connection it got to another, which may put it back |
| PoolSweeps.EverySweep | pool/pool.go:596-652 | in every run a sweep begins only with more than MinEvictableIdle connections in the channel, looks into it as often as it then held connections, and puts back, or closes once if condemned, each connection it received |
| PoolSweeps.CleanerDecides | pool/pool.go:596-638 | a sweep begins exactly with more than MinEvictableIdle connections; a look takes the first connection if there is one, and a connection found expired is dropped and discounted |
| PoolLedgers.CountersExact | pool/pool.go:187-203 | in every reachable state Total = Active + Idle, Acquired = Active + Released + Puts that closed, and Idle, Active, Waiters equal channel, map and callers corrected by the updates in flight; activeConns holds exactly the connections registered |
| PoolLedgers.QuietCounters | pool/pool.go:385-464 | with no call in flight Idle is the channel's length, Active = size of activeConns = the connections clients hold, Waiters = 0 |
| PoolStock.TotalIsStock | pool/pool.go:177-192 | in every reachable state Total is exactly the number of connections in the channel, with clients and with the cleaner, and never negative |
| PoolLimits.FillStaysLow | pool/pool.go:118-128 | during the initial fill Total stays within MaxIdle + 1, whatever InitialSize is |
| PoolLimits.LimitsOverrunByCallers | pool/pool.go:209-286 | for all options, Active + Idle <= max(min(InitialSize, MaxIdle + 1), MaxActive + callers - 1) and Waiters <= MaxWaiters + callers - 1, although check and update are separate steps |
| PoolPeaks.CallersReach | pool/pool.go:209-224 | for all options with MaxActive and all numbers of callers a schedule reaches MaxActive + callers - 1 |
| PoolPeaks.FillPeakReached | pool/pool.go:118-128 | for all options a fill reaches min(InitialSize, MaxIdle + 1) |
| PoolPeaks.TotalBoundExact | pool/pool.go:118-224 | for all options and at least one caller: a number bounds Active + Idle over all runs if and only if MaxActive is set and it is at least max(min(InitialSize, MaxIdle + 1), MaxActive + callers - 1) |
| PoolDepth.WaitsBounded | pool/pool.go:159-303 | in every run, for all options, one Get begins at most so many waits as its depth: none without MaxActive; at most MaxWaiters when that is set; with a negative MaxActive at most one more than the fill left connections; alone, one for every connection that the fill left beyond MaxActive, and at least one |
| PoolDepth.WaitersBounded | pool/pool.go:226-238 | in every run Waiters stays within its peak: none without MaxActive; alone, the depth of one Get; otherwise at most MaxWaiters + callers - 1 when MaxWaiters is set, and with a negative MaxActive at most the connections of the fill + callers |
| PoolWaiters.DepthExact | pool/pool.go:159-303 | for all options and at least one caller: a number bounds the waits one Get begins, over all runs, if and only if there is a depth and it is at least that |
| PoolWaiters.WaitersBoundExact | pool/pool.go:226-238 | for all options and at least one caller: a number bounds Waiters over all runs if and only if there is a peak and it is at least that |
| PoolRetries.RetriesBounded | pool/pool.go:158-303 | in every run, one Get retries at most MaxRetries times for every wait it has begun; a retry that receives an expired connection can begin another |
| PoolRetries.TooManyRetries | pool/pool.go:259-299 | for all options that are not careful, a run in which one Get retries MaxRetries + 1 times |
| PoolRetries.RetriesExact | pool/pool.go:259-299 | for all options and at least one caller: every Get stays within MaxRetries retries in all runs if and only if MaxRetries <= 0, or MaxActive = 0, or MaxIdle = 0, or MaxWaiters = 1, or there are several callers, MaxActive is negative and InitialSize <= 0, or there is one caller and the fill leaves at most MaxActive connections, or one more that the cleaner never touches |
| ConnectionPools.ConnectionPool.constructor | pool/pool.go:99-136 | the initial fill makes exactly the connections the factory yields and leaves idle, up to MaxIdle, exactly those that could be put back, whatever fails; min(InitialSize, MaxIdle) when nothing does |
| ConnectionRules.FollowsIsServed | pool/pool.go:159-303 | however the mutual recursion goes, a call drops some unfit connections from the front of the channel and then returns the next, creates one when there is room, or gives up, because too many wait, nothing is there, or its context has ended and no retry is left: which, with which raw closes, and after how many waits and timeouts |
| ConnectionRules.CourseLaws | pool/pool.go:171-193 | a call that drops the first idle connection creates another without waiting if and only if MaxActive is 0 or Total was at most MaxActive |
| ConnectionPools.ConnectionPool.Get | pool/pool.go:139-224 | a Get that finds an idle connection returns it exactly when it has not idled longer than MaxIdleTime, is not older than MaxLifetime and is alive if that is tested, and what it returns from the channel meets all three as it returns; otherwise it closes it, and waits if and only if MaxActive is not 0 and Total exceeds it; every outcome is one of those above; result, statistics and raw closes |
| ConnectionRules.HandedWithinLimits | pool/pool.go:170-195 | in terms of the limits: a connection handed out from the channel has neither idled nor lived too long when the call returns, and is alive when that is tested |
| ConnectionRules.ClosedPastLimits | pool/pool.go:170-195 | every connection that a call closes is the one that OnCreate rejects, or one from the channel that is past a limit or dead |
| ConnectionPools.ConnectionPool.HandleIdleConnection | pool/pool.go:159-206 | which of the two happens, by idle time, lifetime and the test on borrow, what follows, and termination by the channel's length and the phase |
| ConnectionPools.ConnectionPool.DropIdleConnection | pool/pool.go:172-193 | the unfit connection is closed once and discounted, and what follows |
| ConnectionPools.ConnectionPool.CreateOrWaitForConnection | pool/pool.go:209-303 | room: creates; too many waiters: refuses; otherwise waits, with every outcome of the wait |
| ConnectionPools.ConnectionPool.CreateConnection | pool/pool.go:306-357 | the new connection, statistics and raw closes for each outcome of factory and OnCreate |
| ConnectionPools.ConnectionPool.Retry | pool/pool.go:259-301 | no retry of a single caller finds room; it receives the first idle connection, with every outcome of that, or times out when there is none, none left to try or the context was cancelled |
| ConnectionPools.ConnectionPool.Put | pool/pool.go:360-465 | exactly when the connection is kept, closed, or refused as pool full |
| ConnectionPools.ConnectionPool.CleanIdleConnections | pool/pool.go:596-652 | the channel becomes its connections within MaxIdleTime and MaxLifetime, in their order; the others are closed once each and leave Idle and Total; with no MaxLifetime they are a prefix; up to MinEvictableIdle connections nothing happens |
| ConnectionPools.ConnectionPool.Sweep | pool/pool.go:606-643 | the loop keeps exactly the connections within both limits and never reaches its pool-full or empty-channel branch |
| ConnectionRules.SweepSplits | pool/pool.go:614-638 | kept and expired connections together are the channel |
| ConnectionRules.ExpiredArePrefix | pool/pool.go:614-616 | in a channel ordered by last use, without MaxLifetime, the expired connections are a prefix |
| ConnectionRules.KeptInOrder | pool/pool.go:625-629 | a sweep keeps the order by last use |
| Windows.SpreadBounds | pool/connlimit/limiter.go:166-180 | grants of which every maxRequests + 1 in a row span a window never exceed maxRequests in one |
| Windows.AdmitsAt | pool/connlimit/limiter.go:217-242 | whether a grant fits at a time is decided by the oldest stamp kept |
| Windows.DelayExact | pool/connlimit/limiter.go:217-242 | a grant fits exactly from the end of the computed delay on |
| WindowLimiters.WindowLimiter.CleanupOldRequests | pool/connlimit/limiter.go:147-163 | what is kept are the grants in the current window |
| WindowLimiters.WindowLimiter.Allow | pool/connlimit/limiter.go:166-180 | granted if and only if fewer than maxRequests grants lie in the current window |
| WindowLimiters.WindowLimiter.Reserve | pool/connlimit/limiter.go:217-242 | with no grant in between, Allow succeeds exactly from now + delay on |
| WindowLimiters.WindowLimiter.Wait | pool/connlimit/limiter.go:183-214 | called alone, for maxRequests > 0: a timeout if and only if the window is full, a maximal wait is set and the window is still full when that is over; cancelled if and only if it has to wait, does not time out and the context ends; granted otherwise, at once exactly when there is room and else at the first time there is; for maxRequests = 0 ErrLimitExceeded unless cancelled |
| WindowHistories.Replay | pool/connlimit/limiter.go:147-251 | the limiter grants what the log of the history says, for every history of Allow, Reserve and Close |
| WindowHistories.BoundedDespiteClose | pool/connlimit/limiter.go:245-251 | all histories of a limiter, Close included, are bounded if and only if windowSize <= 0 or maxRequests = 0 |
| WindowHistories.CloseForgets | pool/connlimit/limiter.go:245-251 | for every positive windowSize and maxRequests a history with one Close that grants maxRequests + 1 at one instant |
| WindowHistories.BoundedWithoutClose | pool/connlimit/limiter.go:147-242 | every history without Close: no window of length windowSize holds more than maxRequests grants |
| WindowHistories.BoundedExact | pool/connlimit/limiter.go:166-251 | any history, Close included: no window holds more if and only if no call is granted while the grants before it, forgotten ones included, fill its window |
| AdaptiveLimiters.AdaptiveLimiter.Allow | pool/connlimit/limiter.go:285-296 | when the combination grants, in each mode, and exactly which limiters are charged; a refused call charges one if and only if it is an AllRequired call that only the secondary refuses |
| AdaptiveLimiters.AdaptiveLimiter.Reserve | pool/connlimit/limiter.go:341-382 | with no grant in between, the combination admits a request once the combined delay is over and none before it, up to the time between the two readings of the clock |
| AdaptiveLimiters.AdaptiveLimiter.EachBound | pool/connlimit/limiter.go:285-296 | the grants obey the bound of each limiter charged for them |
| AdaptiveLimiters.AdaptiveLimiter.SumBound | pool/connlimit/limiter.go:285-296 | AnyAllowed grants at most max1 + max2 in any window of the shorter length |
| TaskHeaps.RootIsHighest | workpool/queue.go:31-34 | nothing in the heap has a higher priority than its root |
| TaskHeaps.PriorityQueue.Up | workpool/queue.go:59-63 | sifting up restores the heap and keeps the tasks |
| TaskHeaps.PriorityQueue.Down | workpool/queue.go:66-75 | sifting down restores the heap, or reports that only the parent edge is left |
| TaskHeaps.PriorityQueue.Enqueue | workpool/queue.go:59-63 | a heap again, with one task more |
| TaskHeaps.PriorityQueue.Dequeue | workpool/queue.go:66-75 | hands out the task Peek shows; no waiting task has a higher priority |
| TaskHeaps.PriorityQueue.Peek | workpool/queue.go:92-101 | the root, of highest priority |
| TaskHeaps.PriorityQueue.Remove | workpool/queue.go:112-125 | removes the first task with the id from any position and restores the heap; found exactly when there is one |
| TaskHeaps.PriorityQueue.Drain | workpool/queue.go:66-75 | draining gives every task once, in non-increasing priority |
| TaskHandles.DoneClosedAtMostOnce | workpool/work.go:176-237 | any order of racing Cancel, setRunning, setCompleted closes done at most once, and once if completed |
| TaskHandles.TerminalIsStable | workpool/work.go:176-194 | in a terminal status cancels change nothing |
| TaskHandles.WorkerDecides | workpool/work.go:207-237 | with cancels at any point, the task ends Completed if and only if Execute returned a value, Failed if and only if an ordinary error, Canceled if and only if a context error, with that result and done closed once |
| TaskHandles.CanceledUnstarted | workpool/work.go:176-194 | before the worker starts the first Cancel cancels the task and closes done |
| TaskHandles.CanceledWhileRunning | workpool/work.go:176-212 | while the worker executes the task it is running until the first Cancel and canceled from then on, whatever happened before |
| TaskHandles.CanceledStays | workpool/work.go:207-212 | a cancelled status is permanent if and only if the task is never started and only completes with a cancellation error |
| TaskHandles.TaskHandle.Cancel | workpool/work.go:176-194 | the locked region performs the abstract Cancel: accepted for a pending or running task, which becomes canceled, and refused otherwise |
| TaskHandles.TaskHandle.SetRunning | workpool/work.go:207-212 | the locked region overwrites any status |
| TaskHandles.TaskHandle.SetCompleted | workpool/work.go:215-237 | the locked region performs the abstract completion: Completed for a value, Failed for an ordinary error, Canceled for a context error |
| WorkPoolShutdown.ShutdownCompletesTasks | workpool/workpool.go:144-210 | when Shutdown returns nil, every task enqueued before it saw the queue empty has a result and its done closed exactly once |
| WorkPoolShutdown.NothingLeftBehind | workpool/workpool.go:144-230 | when Shutdown returns nil and no Submit was past its status check with its task not yet enqueued as Shutdown saw the queue empty, every task ever accepted has a result |
| WorkPoolLate.LeftBehind | workpool/workpool.go:213-245 | for every configuration, a run in which such a Submit enqueues its task into the stopped pool, after the nil return, with no worker left |
| WorkPoolLate.LeftBehindExact | workpool/workpool.go:144-245 | for every configuration: a nil Shutdown leaves no accepted task without a result, in all runs, if and only if nobody submits or no such Submit is in flight |
| WorkPoolShutdown.NothingTwice | workpool/workpool.go:391-487 | in every run done is closed at most once, no task is in two hands, no exiting worker holds one, stopCh is closed once |
| WorkPoolTasks.ResultIsExecuted | workpool/workpool.go:440-466 | every schedule: Execute is called at most once for a task, and its handle has a result only if it was and then the one Execute returned, with the status that fits it; while Execute is under way the status is Running, or Canceled if Cancel was called; the handle is what the calls on it make of it |
| WorkPoolTasks.OutcomesCounted | workpool/metrics.go:89-111 | modulo 2^64, CompletedTasks counts the tasks whose Execute returned a value and FailedTasks those whose Execute returned an error, but for those about to be counted |
| WorkPoolRequests.EverySubmit | workpool/workpool.go:213-260 | every schedule: a Submit that has returned has added exactly one task if and only if it found the pool running, and exactly one worker if and only if each of its tests said so: fewer workers than the maximum, more tasks waiting than workers idle, and fewer workers than the maximum still under the lock |
| WorkPoolRequests.StopTakesFew | workpool/workpool.go:415-428 | once stopCh is closed, until the next Start, or the context is cancelled, for ever, a schedule takes at most one task from the queue for each worker that had already looked |
| WorkPoolRequests.WorkerLooks | workpool/workpool.go:413-438 | a worker between two tasks leaves exactly when it looks, or sleeps, and is told to stop; otherwise it takes any one of the waiting tasks, or sleeps when there is none |
| WorkPoolRequests.EveryStart | workpool/workpool.go:78-141 | New raises the initial number to the minimum and the maximum to that; each Start that finds the pool neither running nor shutting down adds as many workers as the number it loads falls short of the initial number |
| WorkPoolRequests.StartDecides | workpool/workpool.go:111-126 | a refused Start changes nothing; any other makes the pool running, with a new stopCh |
| WorkPoolRequests.EveryShutdown | workpool/workpool.go:144-210 | a Shutdown that returns nil has found the queue empty, closed stopCh, found the wait group empty and stopped the pool, and every task enqueued when it found the queue empty has its result; one that returns an error has given up; the context is cancelled if and only if some Shutdown has given up |
| WorkPoolRequests.EveryTick | workpool/workpool.go:308-362 | a tick that acts aims at a quarter of the workers more for a high load, or less for a low one, within the configured numbers, and adds as many workers as the number it loads again falls short of that; it never takes workers away |
| WorkPoolRequests.TickDecides | workpool/workpool.go:308-349 | a tick acts if and only if the ticker runs, scaling is configured, the lock is free, and the load and the worker number call for it |
| WorkPoolRequests.LockExact | workpool/workpool.go:308-372 | in every run the scale lock is free exactly when no submitter is about to add a worker and no tick is under way, and no two of them are |
| WorkPoolShutdown.AllGoneAllFinished | workpool/workpool.go:180-199 | an empty wait group leaves no task of before in anybody's hands |
| WorkPoolLedgers.WorkerLedger | workpool/workpool.go:375-400 | workerCount is the number of live workers in every state, and activeCount + idleCount whenever no worker is between two updates |
| WorkPoolLedgers.TaskLedger | workpool/metrics.go:61-111 | modulo 2^64, with no call in flight, QueuedTasks is the queue's length and TotalTasks = queued + running + completed + failed |
| WorkPoolRestarts.Overfills | workpool/workpool.go:111-141 | for every configuration whose restarts are not harmless, a run with two Starts that exceeds maxWorkers, by a scaling or a submission left over from before the restart |
| WorkPoolRestarts.WorkersBoundedExact | workpool/workpool.go:308-388 | for every configuration and number of submitters: workerCount <= maxWorkers in all runs with at most n successful Starts if and only if n <= 1, or initialWorkers = 0, or minWorkers = maxWorkers and nobody submits |
| WorkPoolSplit.SplitExact | workpool/workpool.go:391-404 | for every pool and schedule: activeCount and idleCount are each exact in all states of the run if and only if no worker exits while activeCount is positive |
| WorkPoolExits.ExactForConfig | workpool/workpool.go:391-404 | for every configuration and number of submitters: both counters are exact in all states of all runs with at most n successful Starts if and only if n = 0, or nobody submits, or maxWorkers <= 1 and restarts add no second worker (n <= 1 or initialWorkers = 0) |
| WorkPoolSplit.ExactUntilStopped | workpool/workpool.go:391-404 | in a run in which stopCh is not closed and the context not cancelled, both are exact in every state |
| WorkPoolExits.ActiveBelowZero | workpool/workpool.go:391-404 | for every other configuration a run with at most n Starts in which a worker does exit so: activeCount ends at -1 |
| WorkPoolExits.ActiveNonNegativeExact | workpool/workpool.go:391-404 | for every configuration and number of submitters: activeCount is never negative, in all runs with at most n successful Starts, if and only if the condition of ExactForConfig holds |
| PeakWorkers.PeakIsMaximum | workpool/metrics.go:120-131 | any number of callers of the swap loop: PeakWorkers never falls, and at rest is the maximum of all totals published |
| PeakWorkers.PublishAlone | workpool/metrics.go:120-131 | a call alone raises the peak to its total if that is higher |
| Orders.InsertAt | set/sortedset.go:80-91 | insertion puts an element after everything equivalent to it |
| Orders.SortedUnique | set/sortedset.go:149-155 | under a total order the contents determine the sorted slice |
| Orders.UniqueIffTotal | set/sortedset.go:149-155 | every set has one sorted slice if and only if the order is total |
| Orders.AddEachKeeps | set/sortedset.go:72-94 | adding one by one keeps the slice sorted and duplicate-free with the keys of the map |
| SortedSets.SortedSet.Search | set/sortedset.go:81-83 | binary search finds where the slice splits |
| SortedSets.SortedSet.Add | set/sortedset.go:72-94 | map and slice stay in agreement; the new element goes to its place |
| SortedSets.SortedSet.Remove | set/sortedset.go:97-120 | takes exactly the element out of both, in order |
| SortedSets.SortedSet.AddAll | set/sortedset.go:129-158 | the union, the number really added, and under a total order the slice that adding one by one gives |
| SortedSets.SortedSet.RemoveAll | set/sortedset.go:161-197 | the difference; the count is of arguments found |
| SortedSets.SortedSet.RetainAll | set/sortedset.go:200-240 | the intersection and the number removed |
| SortedSets.SortedSet.Union | set/sortedset.go:276-291 | a new valid set, the union |
| SortedSets.SortedSet.Intersection | set/sortedset.go:294-304 | a new valid set, the intersection |
| SortedSets.SortedSet.Difference | set/sortedset.go:307-317 | a new valid set, the difference |
| SortedSets.SortedSet.SymmetricDifference | set/sortedset.go:320-325 | union minus intersection is the symmetric difference |
| SortedSets.SortedSet.IsSubset | set/sortedset.go:328-339 | true if and only if a subset, the size shortcut included |
| HashSets.HashSet.AddAll | set/hashset.go:46-54 | the union and the number really added |
| HashSets.HashSet.RemoveAll | set/hashset.go:57-65 | the difference and the number really removed |
| HashSets.HashSet.RetainAll | set/hashset.go:69-90 | the intersection and the number removed |
| HashSets.HashSet.Union | set/hashset.go:127-140 | the union |
| HashSets.HashSet.SymmetricDifference | set/hashset.go:167-172 | union minus intersection is the symmetric difference |
| HashSets.HashSet.IsSubset | set/hashset.go:175-186 | true if and only if a subset |
| SetSpec.CountExact | set/sortedset.go:166-171 | RemoveAll's count is the number of members named if and only if no member is named twice, and otherwise too large |
| SetSpec.OccurrencesExact | set/sortedset.go:161-197 | what SortedSet.RemoveAll answers is the number of positions among its arguments that hold members |
| SetSpec.AgreementExact | set/sortedset.go:161-197 | the answers of the two sets to a history agree if and only if no RemoveAll of it names a member twice |
| SetSpec.AnswersExact | set/sortedset.go:72-339 | after every history Contains, Add, Remove and IsSubset answer for the elements that the last call concerning each has left in, and Size is the sum of the changes reported so far |
| SetAgreement.RunBoth | set/hashset.go:20-186 | the two classes, given the same history, agree exactly then |
| BatchDeletes.SurvivorAt | slice/slice.go:171-196 | simultaneous removal keeps every survivor, in order |
| BatchDeletes.WithoutLength | slice/slice.go:171-196 | it removes exactly the positions in range |
| BatchDeletes.DescendingExact | slice/slice.go:186-193 | deleting in descending order removes at least the positions named, and no more if and only if no repeated index has a survivor above it |
| BatchDeletes.HarmlessMeansLossless | slice/slice.go:176-181 | the condition on the sorted indices gives that on the indices as passed |
| BatchDeletes.LosslessMeansHarmless | slice/slice.go:176-181 | and the other way round |
| BatchDeletes.SafeSlice.BatchDelete | slice/slice.go:171-196 | equal to simultaneous removal if and only if the indices are lossless, in particular if distinct; then the count is that of the indices in range |
| BatchDeletes.SafeSlice.Delete | slice/slice.go:95-106 | one position removed, or the error |
| BatchDeletes.SafeSlice.DeleteRange | slice/slice.go:109-120 | the positions of the range removed, or the error |

## Left out

- `Shutdown` of the connection pool: runs end before it, since it closes the channel under calls in progress.
- `pooledConnection.Close`: it hands the raw connection to `Put`, so clients here return connections through `Put` only, at most once per `Get`, though not necessarily from the thread that got them; a `Put` of nil or of a foreign connection is not modelled.
- ConnectionPools.ConnectionPool.Get: a connection is a value with identity, creation time and time of last use; aliasing and the unread `state` field are not modelled, and one clock reading serves a call up to its wait. A call whose context never ends and finds nothing does not return and is not modelled.
- ConnectionPools.ConnectionPool.CleanIdleConnections: one clock reading per sweep; sweeps interleaved with clients are in `PoolProtocol`.
- Waits of the interleaved pool may take any time. In the code a wait that begins after its context has expired ends at once; the runs built to reach a bound make no use of the difference.
- The statistics `Timeouts` and `Errors` of the interleaved pool, events, listeners, the dial timeout, the drivers in `pool/adapters`.
- NonBlockingQueues.NonBlockingQueue.TryEnqueue: memory is unlimited, and a queue that has panicked is not used again.
- NonBlockingProtocol.CountersExact: bounded queues without Clear; `size` is an unbounded integer there, its 32-bit conversion is modelled in `NonBlockingQueue.dfy`. Unbounded expansion and Clear are not synchronised by the code and are modelled sequentially.
- BlockingProtocol.Linearizable: a wait is a release of the lock followed by a retry, a timeout or a cancellation at any time; condition variables, timers and watcher goroutines are not modelled. The counters of blocked and timed-out calls are not either.
- The uint64 statistics of the queues are unbounded numbers.
- `TokenBucketLimiter` wraps a library that is not part of this model; `AdaptiveLimiter.Wait` races goroutines over a context.
- WindowLimiters.WindowLimiter.Wait: one caller, with the clock readings of its steps as parameters.
- WorkPoolShutdown.ShutdownCompletesTasks: `Dequeue` may return any waiting task there; the order is the subject of `TaskHeap.dfy`. Executing a task always ends, without a panic. Adding a worker, and the counter updates of an exiting one, are single steps.
- WorkPoolRestarts.WorkersBoundedExact: the load thresholds, which are floating point, are chosen by the steps, so a tick may find any load, as may one left in the ticker by a shutdown; the target is computed as in the code. The same holds for WorkPoolExits.ExactForConfig.
- PeakWorkers.PeakIsMaximum: the swap loop alone, for arbitrary totals; `workerStatusChanged` is not a step of the work pool's machine.
- `AvgWaitTime`, `AvgProcessTime`, utilisation ratios, `Snapshot`, `Reset`, logging.
- SortedSets.SortedSet.Union: the other set is given by its elements, in any order of iteration; sorting and iteration over a map are contracts with one implementation each.
- `ConcurrentSet`, the atomic and iterating slices, transactions, `BatchUpdate`, `GetMany`, the command line tool.
