# A verified model of the POD gateway

The gateway takes requests from PODs over a WebSocket, puts them on a durable Redis queue (or an
in-memory one), runs an adapter for each under a rate limit, and sends the results back. This
project models the parts of it whose correctness depends on interleavings, on arithmetic, or on two
pieces of code agreeing, and proves what they keep.

| part | files |
|---|---|
| Durable queue: Redis keys, two Lua scripts, enqueuers, dispatchers, retry promotion, crashes, failing commands | `QueueModel`, `QueueSafety`, `QueueDepth`, `QueueCapacity`, `QueueView`, `QueueIsolation`, `QueueHarm`, `QueueFaultFree`, `QueueFaults`, `QueueConsumer`, `QueueProgress`, `RedisStreamQueue`, `GatewayHandler` |
| Rate limiters: the GCRA script, its expiring keys, the in-memory form, buckets | `Gcra`, `GcraExpiry`, `RateLimiters` |
| In-memory scheduler and idempotency tables | `MemoryScheduler`, `MemorySafety`, `MemoryOutcomes`, `MemoryGateway` |
| Idempotency through Redis | `QueueIdempotency` |
| The client's table of calls | `ClientModel`, `ClientSafety`, `ClientCalls`, `GatewayClient` |
| Requests and templates: admission against execution | `Json`, `UrlTemplate`, `TemplateMeaning`, `RequestContract`, `RequestRules`, `RequestAgreement` |
| JavaScript strings | `JsText` |

How it is built: each protocol is a transition system whose events are one Redis command, one Lua
script, or one stretch of JavaScript between two awaits. `Allowed` says which sequences of events can
happen, `Run` where they lead, and the main results hold for every allowed sequence. In the durable
queue every command may succeed, fail without effect, or take effect and lose its reply, and a process
may crash between any two events. Code that updates state in place is a class whose methods equate the
new state with one transition (or one function) of the specification. What I/O, clocks and the outside
world decide is a parameter.

## What holds, and what does not

- Durable queue. Once an XADD has landed the request is never lost, whatever fails; the retry
  structures always agree; the depth counter is exact up to a drift that each event changes by a stated
  amount. One consumer never has an entry twice. Every stored entry stays within reach: however a run left it,
  each process's loop can go on without failure until a handler has the entry, and bulk messages are read
  only when no normal one is left. Faults are isolated: `QueueIsolation.Harms` names the
  requests an event can harm, and every other request keeps one copy, one handler, bounded attempts and a
  single response, whatever fails elsewhere. A failed or reply-less INCR, XADD, DECR or promotion, a failed
  fetch or lookup, a failed hand-over, and a crash of handlers that tried nothing yet harm nobody. The set is
  exact: after any event that harms a request in order there is a continuation that does the request no
  further harm and leaves it out of order - with two copies, two handlers, too many adapter calls or two
  responses. Every kind of harm is reached by a run.
- Capacity. In every run the stored requests without a response, and the slots in use, stay within
  `maxQueueSize` plus the slots freed too early: by an XADD or hand-over whose reply was lost, by the release
  or hand-over of an entry that owns no slot, and by hand-overs taken back when their dispatch crashes or its
  XACK fails. Lost XADD replies reach the bound for every number of them. Nothing else costs capacity: not
  a failing INCR or DECR, nor a refetch by itself. Without faults the drift is 0 and capacity is
  `maxQueueSize`; with one process, a run without failures is fault-free.
- `QueueFaults` has runs from the empty queue: a leaked slot (crash between INCR and XADD), a second answer (a
  persisted response whose reply was lost), a second copy under one slot (failed XACK after the hand-over), a
  second handler (another process reclaims a slow handler's entry), any number of adapter calls (crashes
  during them), any excess over the capacity (lost XADD replies).
- Rate limiters. The window bound holds for the expiring keys of the script under a nondecreasing clock and
  for the in-memory limiter's store under any clock. The two limiters decide alike exactly for positive rates.
- In-memory scheduler. As written, normal items are served before bulk ones exactly when they were enqueued
  before them, although lib/protocol.js:7-10 ranks bulk lower: `PRIORITY.bulk` is 0, which `||` replaces by
  the weight of normal. The length of the queue is tested before the idempotency key, so on a full queue
  even a duplicate, or a message whose result is cached, gets `QUEUE_FULL`. The model follows the code.
- Idempotency through Redis. One item per key holds until the record expires, and it survives crashes,
  lost result writes and several dispatches of one item. It can break only when the record expires while
  somebody still counts on it - an owner, an item, a dispatch even after the ACK of its item, or a result on
  its way - or an XADD takes effect although its caller saw a failure, and both do break it. A duplicate is
  told no request id when the owner released the key between the duplicate's SET and GET, which takes no fault.
- In memory, a key's result is the adapter's success, or the failure that was thrown or timed; which it is, and when
  an item is tried again, is stated for every reachable state. The durable handler's whole trace is stated per
  case, with what each response says.
- Client. A `send` that receives its success before `accepted` (the gateway answers a cached duplicate that
  way) loses its timer and entry and never settles, because `send` stores no `resolve`. No other message
  orphans a promise. Two pending calls with one request id also orphan one. An accepted duplicate that
  times out is told `DEADLINE_EXCEEDED`. A socket's close event empties the tables only if the client still
  counted as connected.
- Templates. Whatever admission resolves, execution resolves to the same text. The converse fails: a field
  that only the execution context has reads as missing at admission.

Maps are filtered by subtracting a set of keys and rebuilt by recursion; no proof rests on a map
comprehension, whose values outside its domain Dafny 4.11 lets a proof compare.

## Model

| member | source | states |
|---|---|---|
| QueueSafety.AtLeastOnce | lib/redis-stream-queue.js:425-453 | over every run with crashes, failed and reply-less commands: a landed request is an un-ACKed entry, a delayed retry with its payload, or was answered |
| QueueSafety.RetryStoreAgreement | lib/redis-stream-queue.js:42-55 | over every run: sorted set and hash have the same members, each payload is its own member's, each scheduling is promoted at most once |
| QueueSafety.PromotionIsDue | lib/redis-stream-queue.js:19-31 | over every run: a member is promoted exactly when its current due time has come, even if rescheduled after the range scan; the payload-missing branch is never taken; the payload moves unchanged to a new entry |
| QueueSafety.XAckSecured | lib/redis-stream-queue.js:432-433 | an ACK of a handler that answered or handed over leaves every landed request secured by another copy or its answer |
| QueueSafety.ConsistentStep | lib/redis-stream-queue.js:187-238 | every event keeps entries, dispatches and the two retry structures consistent |
| QueueDepth.DepthAccounting | lib/redis-stream-queue.js:187-206 | over every run: depth is owned entries + delayed retries + calls between INCR and XADD or DECR + dispatches between XACK and DECR + drift |
| QueueDepth.GapStep | lib/redis-stream-queue.js:425-453 | every event changes depth minus the accounted slots by exactly the amount stated for it |
| QueueIsolation.DriftExactly | lib/redis-stream-queue.js:433-445 | an event that is no fault drifts exactly when it ACKs an entry that owns no slot, or hands over a slot that is not there or to a retry that has one |
| QueueIsolation.DriftNeedsHarm | lib/redis-stream-queue.js:433-445 | over every run: such an event concerns a request that an earlier event harmed |
| QueueIsolation.UnharmedRequest | lib/redis-stream-queue.js:425-453 | over every run, whatever fails: a request no event harmed has one handler at a time, at most maxAttempts + 1 adapter calls, at most one response, and one slot-owning copy |
| QueueHarm.HarmsExactly | lib/redis-stream-queue.js:425-453 | after every run that did not harm the request: an event harms it if and only if some continuation without further harm leaves it with two copies, two handlers, too many adapter calls or two responses |
| QueueHarm.EveryHarmHappens | lib/gateway-server.js:509-564 | for every stage of a handler and every event that harms its request there, a run without harm reaches that stage: reclaim, failed or reply-less response, reply-less hand-over, failed XACK, crash |
| QueueIsolation.SoundStep | lib/gateway-server.js:509-564 | every event keeps every request it does not harm in order |
| QueueIsolation.FaultFreeHarmsNobody | lib/redis-stream-queue.js:425-453 | a fault-free run harms nobody |
| QueueDepth.RescheduleGap | lib/gateway-server.js:543-549 | handing a slot from an entry to its delayed retry conserves it, with the exact deviation when it fails |
| QueueDepth.CrashGap | lib/redis-stream-queue.js:447-451 | how far a crash makes the counter drift: abandoned reservations, unreleased slots, hand-overs taken back |
| QueueFaultFree.ExactDepth | lib/redis-stream-queue.js:425-453 | fault-free: the counter equals the slots in use, and is 0 once everything is drained |
| QueueCapacity.CapacityUnderFaults | lib/redis-stream-queue.js:191-202 | over every run, whatever fails: stored requests without a response are at most the slots in use, and these at most maxQueueSize plus the slots freed too early |
| QueueCapacity.FreedExactly | lib/redis-stream-queue.js:425-453 | an event frees a slot too early if and only if it is a reply-less XADD or hand-over, a release or hand-over of an entry that owns no slot, or takes a hand-over back by a failed XACK or a crash |
| QueueCapacity.WithinStep | lib/redis-stream-queue.js:187-206 | every event keeps depth, calls over the limit and drift within the limit and what was freed |
| QueueFaultFree.Capacity | lib/redis-stream-queue.js:191-202 | fault-free: no slot is freed too early, so stored requests without a response, and slots in use, never exceed maxQueueSize |
| QueueSafety.UnansweredHasCopy | lib/redis-stream-queue.js:214-238 | a stored request that is safe but not answered has a slot-owning entry or a delayed retry, whatever failed |
| QueueFaultFree.AllInOrder | lib/redis-stream-queue.js:396-408 | fault-free: every request has one handler at a time, even when its retry is promoted before the original is ACKed, bounded attempts across any number of deferrals, and at most one response |
| QueueIsolation.NoDrift | lib/redis-stream-queue.js:433-445 | an event that is no fault, on a request in order, never makes the counter drift |
| QueueConsumer.ConsumerExclusion | lib/redis-stream-queue.js:321-356 | over every run of the loops: no two dispatches of a process are on one entry, and its next claim or read never returns an entry it still has a dispatch of |
| QueueConsumer.StepOk | lib/redis-stream-queue.js:425-470 | every step of any loop keeps the dispatches of every process within its round |
| QueueConsumer.LoopsRunQueue | lib/redis-stream-queue.js:321-356 | every run of the loops is a run of the queue's transition system |
| QueueConsumer.OneProcess | lib/redis-stream-queue.js:463-470 | with one process a run without failures or crashes never refetches a live entry, so it is fault-free |
| QueueProgress.RoundOrder | lib/redis-stream-queue.js:321-337 | from the top of a loop: pending normal messages, then pending bulk ones, are claimed; when neither claim finds any, new normal messages are read, and exactly when there are none, new bulk ones; each command may return any such message |
| QueueProgress.BulkAfterNormal | lib/redis-stream-queue.js:329-337 | over every run: before a process reads bulk messages its last step was a normal read that came back empty, with no undelivered normal entry |
| QueueProgress.EveryEntryIsReached | lib/redis-stream-queue.js:321-337 | over every run of the loops: from wherever it is left, the loop of each process can go on without failure - ending its round, reading what comes before - until one of its handlers has any given undelivered entry of either stream |
| QueueProgress.FailureStartsOver | lib/redis-stream-queue.js:338-355 | a failed command takes the loop to its top, the first claim's messages being dropped |
| QueueFaults.CrashLeaksSlot | lib/redis-stream-queue.js:191-198 | a run: a crash between INCR and XADD takes a slot for good |
| QueueFaults.PersistenceFailureAnswersTwice | lib/gateway-server.js:461-484 | a run: a response whose persisting lost its reply is answered again from the catch block |
| QueueFaults.FailedAckDoublesCopy | lib/redis-stream-queue.js:432-433 | a run: a failed XACK after the hand-over leaves two entries of one request under one slot |
| QueueFaults.ReclaimDoublesHandler | lib/gateway-server.js:491-496 | a run: another process reclaims the entry of a slow handler, and two handlers work on one request |
| QueueFaults.CrashesUnboundAttempts | lib/redis-stream-queue.js:447-451 | for every k a run with k adapter calls of one request, by crashes in the middle of them |
| QueueFaults.LostRepliesExceedCapacity | lib/redis-stream-queue.js:196-202 | the capacity bound is met: for every n a run with n lost XADD replies, freeing n slots too early, ends with maxQueueSize + n unanswered requests and a counter of maxQueueSize |
| RedisStreamQueue.RedisKeys.EvalSchedule | lib/redis-stream-queue.js:42-55 | the scheduling script command by command is the atomic transition of the model, in all fields and in its reply |
| RedisStreamQueue.RedisKeys.EvalPromote | lib/redis-stream-queue.js:19-31 | the promotion script command by command is the atomic transition of the model |
| RedisStreamQueue.RedisStreamQueue.Enqueue | lib/redis-stream-queue.js:187-206 | the keys and the result for every combination of command outcomes; enqueued exactly when ready, under the limit and both commands succeeded |
| RedisStreamQueue.RedisStreamQueue.ScheduleRetry | lib/redis-stream-queue.js:214-238 | when a retry is scheduled, for when, what is stored, and who pays the slot; a full queue changes nothing |
| RedisStreamQueue.RedisStreamQueue.PromoteMembers | lib/redis-stream-queue.js:372-394 | the promotion loop is the pass specified, and its counters count the promoted |
| RedisStreamQueue.EnqueueIsRun | lib/redis-stream-queue.js:187-206 | an enqueue pass is a run of the transition system to the same keys that leaves no call behind |
| RedisStreamQueue.RejectionLeavesNoTrace | lib/redis-stream-queue.js:191-202 | QUEUE_FULL exactly at a full counter; a pass that stores nothing changes at most the counter, restored exactly when INCR failed or its rollback took effect |
| RedisStreamQueue.PromotePassMoves | lib/redis-stream-queue.js:372-394 | a pass moves exactly the due members, each into an entry of its own, whatever list the scan returned, and its count is their number |
| GatewayHandler.MoveAgrees | lib/gateway-server.js:509-564 | an event of a dispatch is enabled in the transition system exactly when the handler automaton allows it, and leads to the same place |
| GatewayHandler.GatewayServer.HandleQueuedItem | lib/gateway-server.js:509-564 | the whole trace and what each response says, per case: a cached response is delivered and nothing else happens, then a passed deadline, a failing limiter, a wait; the adapter is called if and only if nothing is cached, the deadline is ahead and the limiter allows |
| GatewayHandler.GatewayServer.ExecuteItem | lib/gateway-server.js:426-489 | one attempt is counted and one call made; then the response, or, when something was thrown, a retry after the stated wait exactly while it is retryable, attempts last and the deadline is ahead, else a failure with the thrown code |
| GatewayHandler.GatewayServer.HandleFailure | lib/gateway-server.js:461-485 | the catch block: a retry with the wait asked for or a second an attempt up to ten, else a response |
| GatewayHandler.GatewayServer.Requeue | lib/gateway-server.js:543-552 | deferred exactly when the hand-over succeeded, else a failure response |
| GatewayHandler.GatewayServer.DispatchMessage | lib/redis-stream-queue.js:425-453 | XACK follows exactly an answer or a hand-over, DECR exactly an answer whose XACK succeeded; the dispatch always comes to its end |
| GatewayHandler.TraceIsRun | lib/redis-stream-queue.js:425-453 | a trace the handler automaton accepts is a run of the queue's transition system from every state in which the dispatch stands where the trace begins |
| Gcra.WorstWaitIsMax | lib/redis-rate-limiter.js:15-31 | the script's accumulator is the largest positive wait of its keys, attained by one of them |
| Gcra.AllOrNothing | lib/redis-rate-limiter.js:15-41 | over distinct keys the script writes every key's new tat from the old store, or none; other keys never change |
| Gcra.RetryAfter | lib/redis-rate-limiter.js:25-31 | a denied call stays denied before the unrounded wait, and from retryAfterMs on is admitted exactly if its cost fits every burst |
| Gcra.WindowBound | lib/redis-rate-limiter.js:15-31 | on a store that never forgets, from any contents, over any run and interval: admitted cost of a key is at most burst + rate * span / 1000 |
| GcraExpiry.WindowBoundExpiring | lib/redis-rate-limiter.js:15-41 | the same for the keys as the script keeps them, with their expiry, under a nondecreasing clock |
| GcraExpiry.TatBeforeExpiry | lib/redis-rate-limiter.js:33-39 | a tat written by an admitted call is at most now + emission * burst, which is before the key expires |
| GcraExpiry.CellWritten | lib/redis-rate-limiter.js:19-42 | an admitted call moves its key's tat on by cost * 1000 / rate from the later of the old tat and now, sets the time to live of the script, and leaves every other key |
| GcraExpiry.SameDecision | lib/redis-rate-limiter.js:21-39 | one call decides alike on the expiring and on the lasting store, and leaves them related |
| GcraExpiry.ExpiryRefinesPersistence | lib/redis-rate-limiter.js:33-39 | over every run under a nondecreasing clock the expiring limiter decides as one that never forgets |
| GcraExpiry.RateStore.Eval | lib/redis-rate-limiter.js:8-41 | the script's two loops compute the specified decision and the specified keys |
| GcraExpiry.RateStore.Examine | lib/redis-rate-limiter.js:15-29 | the first loop: new tats and largest wait of every key, or a rate that is not positive |
| GcraExpiry.RateStore.ExamineKey | lib/redis-rate-limiter.js:19-28 | one key's clamp to now, its new tat and its wait, an expired key reading as absent |
| RateLimiters.ParsedParts | lib/protocol.js:18-37 | an accepted operation is service, slash, name, both non-empty and slash-free where they must be; parsing its value gives it back |
| RateLimiters.ParsedIff | lib/protocol.js:18-37 | an operation is accepted if and only if it is, trimmed, a service, a slash and a name of the allowed characters, none empty |
| RateLimiters.BucketOwner | lib/redis-rate-limiter.js:101-114 | an operation's own limit wins, then the entry for the operation, for its service, "default", or no limit; a bucket with a slash belongs to one operation, any other is a key of the limits, with its configuration |
| RateLimiters.OneBudgetPerBucket | lib/redis-rate-limiter.js:71-74 | registered operations with the same bucket have the same configuration |
| RateLimiters.KeyInjective | lib/redis-rate-limiter.js:85 | different buckets have different keys |
| RateLimiters.JointWindowBound | lib/redis-rate-limiter.js:71-94 | all operations sharing a bucket stay jointly within one allowance in every interval of every run, on expiring keys under a nondecreasing clock |
| RateLimiters.MemoryWindowBound | lib/in-memory-rate-limiter.js:19-33 | the window bound on the in-memory limiter's own store, whatever other buckets are charged in between |
| RateLimiters.JointMemoryBound | lib/in-memory-rate-limiter.js:12-34 | the joint bound for the in-memory limiter |
| RateLimiters.RedisGcraRateLimiter.Allow | lib/redis-rate-limiter.js:71-114 | which limit and key is charged - the operation's own, the operation's entry, the service's, the default, or none - with bypass, unavailability, decision and new keys; a missing burst admits a cost of 1 and no more on a fresh key |
| RateLimiters.InMemoryGcraRateLimiter.Allow | lib/in-memory-rate-limiter.js:12-52 | the same choice of limit and bucket, with bypass, decision and new state; a missing burst admits a cost of 1 and no more on a fresh bucket |
| RateLimiters.MemoryDecidesAsScript | lib/in-memory-rate-limiter.js:19-33 | for a positive rate the in-memory limiter decides exactly as the one-key script, and the stores stay related |
| RateLimiters.MemoryRefinesScript | lib/in-memory-rate-limiter.js:12-34 | over every run, with the same waits, as the script with expiring keys at equal times |
| RateLimiters.LimitersAgreeIff | lib/in-memory-rate-limiter.js:19-33 | for every nonzero rate, cost and related stores: the two limiters decide alike if and only if the rate is positive |
| MemorySafety.NormalFirstIff | lib/gateway-server.js:803-808 | the sorted queue has no bulk item before a normal one exactly when every normal item was enqueued before every bulk one, position deciding ties |
| MemorySafety.BulkServedFirst | lib/protocol.js:7-10 | a bulk item enqueued no later than a normal one is served first |
| MemorySafety.SortQueueStable | lib/gateway-server.js:803-808 | sorting keeps the order of items enqueued at the same time |
| MemorySafety.SortQueueSorts | lib/gateway-server.js:803-808 | sorting orders by enqueue time and keeps exactly the items |
| MemorySafety.Scheduling | lib/gateway-server.js:382-424 | over every run: running and active never exceed the concurrency; a non-empty queue means a suspended pump, an armed timer or full slots; and an event that runs or resumes the pump is enabled, or becomes so with the next adapter's answer |
| MemorySafety.AwakeStep | lib/gateway-server.js:382-424 | every event keeps the concurrency bound and the wake-up invariant |
| MemorySafety.PlacesStep | lib/gateway-server.js:382-424 | every event moves items between places and neither copies nor drops one |
| MemorySafety.Conservation | lib/gateway-server.js:566-576 | over every run: an accepted item is in exactly one place and finished at most once, and exactly once when all is quiet |
| MemorySafety.BoundedRuns | lib/gateway-server.js:468-484 | over every run: at most maxAttempts + 1 adapter calls an item |
| MemorySafety.OneItemPerKey | lib/gateway-server.js:273-324 | over every run: at most one unfinished item a key; the reply is QUEUE_FULL exactly on a full queue, and otherwise a duplicate is told that item's request id, a key with a result gets it under the message's own id, and a new item is made exactly when there is neither |
| MemorySafety.AnswerStays | lib/gateway-server.js:273-324 | over every run, from a result until its expiry: the reply to every message with the key is exactly that result, under the message's id with the original named, if and only if the queue is not full, and nothing changes |
| MemorySafety.ClaimEndsAnswered | lib/gateway-server.js:630-643 | over every run: a key claimed after any prefix stays with its call until that call's own result takes its place |
| MemoryOutcomes.AdapterSucceeds | lib/gateway-server.js:456-461 | over every run: when the adapter returns, the item's key gets its success under its request id, and the item is finished, once |
| MemoryOutcomes.AdapterThrows | lib/gateway-server.js:461-485 | over every run: after a throw the item waits for a retry if and only if it is retryable, attempts last and the deadline is ahead; else it is finished as a failure with the thrown code |
| MemoryOutcomes.LimiterAnswers | lib/gateway-server.js:382-424 | over every run: the limiter's answer takes the item to the adapter, back to the head of the queue until the pump's timer, or to a failure |
| MemoryOutcomes.PumpServesHead | lib/gateway-server.js:382-424 | over every run: a pump that runs with a slot free fails the head of the queue if its deadline has passed, else asks the limiter, else calls the adapter |
| MemoryOutcomes.SuccessIsAdapters | lib/gateway-server.js:630-643 | a key gets a successful result only when the adapter returns for its item |
| MemoryOutcomes.ItemsCarryMessages | lib/gateway-server.js:326-342 | over every run: an unfinished item carries its message's fields, its arrival time, and as attempts the adapter calls made for it |
| MemoryOutcomes.AcceptedLast | lib/gateway-server.js:372-378 | over every run: an accepted message is told the number of those before it and the end of the queue as its place |
| MemoryOutcomes.JoinsInOrder | lib/gateway-server.js:566-576 | a retry or a new item joins the queue in the order of arrival, and everything else stays |
| MemoryGateway.GatewayMemory.PumpUntilAwait | lib/gateway-server.js:382-424 | the pump's loop from start or resumption to its next await is the specified transition |
| MemoryGateway.GatewayMemory.DecisionReturns | lib/gateway-server.js:393-420 | the pump's resumption with a decision: start and go on, put back and arm the timer, or fail the item |
| MemoryGateway.GatewayMemory.AdapterReturns | lib/gateway-server.js:456-489 | an adapter's answer finishes the item; a failure arms a retry exactly while it is retryable, attempts last and the deadline has not passed |
| MemoryGateway.GatewayMemory.SlotReturns | lib/gateway-server.js:414-418 | the slot is released and the pump runs |
| MemoryGateway.GatewayMemory.RetryTimerFires | lib/gateway-server.js:566-576 | the item joins the queue in order and the pump runs |
| MemoryGateway.GatewayMemory.PumpTimerFires | lib/gateway-server.js:795-801 | the timer is cleared and the pump runs |
| MemoryGateway.GatewayMemory.FinishItem | lib/gateway-server.js:630-643 | the key is freed and its result kept before delivery |
| MemoryGateway.GatewayMemory.ClaimIdempotency | lib/gateway-server.js:737-745 | the reply to a duplicate, and none exactly when the specification has none |
| MemoryGateway.GatewayMemory.EnqueueRequest | lib/gateway-server.js:273-379 | full, duplicate, cached or accepted, with the whole new state, in one stretch without an await |
| QueueIdempotency.OneItemPerKey | lib/redis-stream-queue.js:240-254 | under all interleavings and crashes, several dispatches of an item and dispatches that outlive its ACK included: one item a key, the record names it, nobody else claims or releases, a duplicate is told it |
| QueueIdempotency.OnlyClaimantReleases | lib/redis-stream-queue.js:256-264 | the record a DEL removes is the releasing call's own, without a result, and no item is left without it |
| QueueIdempotency.NoRunAfterResult | lib/gateway-server.js:514-520 | over every such run, from a stored result until expiry: no dispatch whose lookup follows it runs the adapter, not even one that outlives the ACK of its item, and duplicates get the result |
| QueueIdempotency.ExclusiveStep | lib/redis-stream-queue.js:240-279 | every event but a lost XADD reply and an early expiry keeps the record with whoever counts on it |
| QueueIdempotency.ExpiryKeepsIff | lib/redis-stream-queue.js:243 | expiry keeps the key exclusive exactly when nobody counts on the record any more |
| QueueIdempotency.ExpiryDoublesItem | lib/redis-stream-queue.js:243 | from any state with an item and a claimant: an early expiry leads to two items |
| QueueIdempotency.LateResultReplacesRecord | lib/redis-stream-queue.js:266-272 | from any state with a dispatch still running and a claimant: an expiry, even after the ACK of its item, lets the late result replace the record of the next item |
| QueueIdempotency.LostReplyDoublesItem | lib/gateway-server.js:354-359 | an XADD that took effect behind its caller's failure leads to two items |
| QueueIdempotency.NamelessMeansNoItem | lib/redis-stream-queue.js:248-253 | over every such run: a duplicate is told no request id exactly when the record is gone at its GET, and then nobody owns the key or has an item, a dispatch or a result on its way |
| QueueIdempotency.NamelessDuplicate | lib/gateway-server.js:354-359 | which needs no fault, from any ordinary run with an owner and a claimant: the owner's enqueueing fails between the duplicate's SET and GET |
| QueueIdempotency.EarlyExpiryRun | lib/redis-stream-queue.js:243 | for any two calls a run from the start, ordinary but for one expiry, with two items |
| QueueIdempotency.LateResultRun | lib/redis-stream-queue.js:266-272 | likewise, after a result was stored and its item ACKed: another dispatch's late result stands in the record while the next call's item is queued |
| QueueIdempotency.LostReplyRun | lib/gateway-server.js:354-359 | likewise, but for one reply-less XADD and without any expiry: two items |
| QueueIdempotency.NamelessRun | lib/redis-stream-queue.js:248-253 | an ordinary run from the start in which a duplicate is told no request id |
| QueueIdempotency.IdempotencyKey.ClaimIdempotency | lib/redis-stream-queue.js:240-254 | the protocol's SET and GET of one call: its record, its phase and what it is told |
| QueueIdempotency.IdempotencyKey.ReleaseIdempotency | lib/redis-stream-queue.js:256-264 | the protocol's GET and DEL of one release |
| QueueIdempotency.StoreOverwritesOwn | lib/redis-stream-queue.js:266-272 | over every such run: the blind write of a result replaces its own call's record, never another's |
| QueueIdempotency.IdempotencyKey.StoreIdempotencyResult | lib/redis-stream-queue.js:266-272 | the protocol's blind write after any run: it replaces the call's own record if records were kept so far |
| QueueIdempotency.IdempotencyKey.LooksUp | lib/redis-stream-queue.js:274-279 | the protocol's lookup: the adapter is run exactly when nothing was cached |
| ClientSafety.NoOrphan | lib/gateway-client.js:138-186 | over every run with distinct request ids: a call is settled, or its timer is armed and settles it, or it is a send that met its success before its acceptance |
| ClientSafety.SendBreaks | lib/gateway-client.js:231-242 | a run that breaks a send: the success of a cached duplicate before any acceptance |
| ClientSafety.BrokenForever | lib/gateway-client.js:226-242 | such a send is in no table, has no timer and never settles |
| ClientSafety.ResultOrphansIff | lib/gateway-client.js:231-242 | a result orphans a promise exactly when it is a success for an open send not yet accepted |
| ClientSafety.ResultOutcomes | lib/gateway-client.js:231-250 | a result settles the call and every duplicate filed under it with the same outcome, a success under each one's own id, and changes nothing settled before |
| ClientSafety.DuplicateGetsResult | lib/gateway-client.js:216-257 | a filed duplicate waits however long for its original's result and is settled by it unless its timer was first |
| ClientSafety.LossSettlesAll | lib/gateway-client.js:298-312 | without the broken case: close, or a lost connection, settles every call and empties both tables, and every open call has its timer |
| ClientSafety.LossRejectsIff | lib/gateway-client.js:114-130 | a close event empties the tables exactly when the client counted as connected or they were empty |
| ClientSafety.StaleClose | lib/gateway-client.js:31-48 | from any connected run: a reconnect begun while the socket is closing makes the old socket's close event leave the pending calls alone |
| ClientSafety.StaleCloseKeepsPending | lib/gateway-client.js:114-130 | such a run with a pending call exists |
| ClientSafety.PendingTimeoutCode | lib/gateway-client.js:163-173 | over every run: an open call in the table has its timer, which tells it whether it was accepted |
| ClientSafety.DuplicateTimeoutCode | lib/gateway-client.js:213-224 | over every run: an open duplicate has its timer too, which tells it the deadline passed although it was accepted |
| ClientSafety.SharedIdOrphans | lib/gateway-client.js:174-181 | two pending calls with one request id: the first one's acceptance timer leaves the second without timer and entry |
| ClientSafety.InvStep | lib/gateway-client.js:138-259 | every callback keeps tables, timers and promises consistent |
| ClientCalls.CallBegins | lib/gateway-client.js:143-185 | over every run: a new call has its deadline, a request its acceptance timer too; a failed write rejects it |
| ClientCalls.SendResolves | lib/gateway-client.js:216-232 | over every run: an accepted send resolves with its acceptance, and no timer of it is left |
| ClientCalls.ResultSettlesRequest | lib/gateway-client.js:236-257 | over every run: a result settles its request with its body or with its error code, and takes its entry, timers and list of duplicates |
| ClientCalls.AcceptedTimesOut | lib/gateway-client.js:163-173 | over every run: a request accepted under its own id and pending ever after is told at its deadline that the result did not come |
| ClientCalls.NeverAcceptedTimesOut | lib/gateway-client.js:163-181 | over every run without its acceptance: both timers of a request are armed, and each rejects it with its own code |
| ClientCalls.DuplicateFollowsOriginal | lib/gateway-client.js:216-257 | over every run: a request accepted as a duplicate of d and still open is settled by the result of d, however much later, under its own id naming d, or with the same error |
| ClientCalls.EndSettles | lib/gateway-client.js:298-312 | close and a lost connection tell every open call so, each with its code |
| ClientCalls.ClosedForGood | lib/gateway-client.js:188-197 | over every run: after close no connection is made and no call begins |
| GatewayClientTable.GatewayClient.BeginCall | lib/gateway-client.js:143-185 | entry and timers of a call, and its rejection when writing throws |
| GatewayClientTable.GatewayClient.DeadlineFires | lib/gateway-client.js:163-173 | the timer's effect on table and promise, with its code |
| GatewayClientTable.GatewayClient.AcceptTimerFires | lib/gateway-client.js:174-181 | the acceptance timer's effect, by request id |
| GatewayClientTable.GatewayClient.HandleMessage | lib/gateway-client.js:199-259 | acceptance, result or neither: the specified transition |
| GatewayClientTable.GatewayClient.SettleDuplicates | lib/gateway-client.js:246-250 | the loop over the duplicates settles each in order and clears its timer |
| GatewayClientTable.GatewayClient.RejectAll | lib/gateway-client.js:298-312 | both loops together reject every filed call and empty the tables |
| GatewayClientTable.GatewayClient.SocketClosed | lib/gateway-client.js:114-130 | rejects only from the connected state |
| GatewayClientTable.GatewayClient.Close | lib/gateway-client.js:188-197 | rejects all and closes |
| UrlTemplate.PlainText | lib/url-template.js:3-8 | the detector finds exactly the texts with a hole, and any other text resolves to itself |
| UrlTemplate.HoleReadBack | lib/url-template.js:3-4 | a hole written after brace-free text is read as that text, that hole with its expression trimmed, and the pieces of the rest |
| UrlTemplate.PathReadBack | lib/url-template.js:82-89 | a path of valid segments written with dots parses to that path |
| UrlTemplate.BracketsReadBack | lib/url-template.js:83 | a path written with brackets, bare or in either quotes, parses to the same path |
| Json.IndexNames | lib/url-template.js:78 | the keys naming positions of an array or string are exactly the decimal forms of the positions |
| UrlTemplate.WalkPath | lib/url-template.js:74-80 | the loop along the segments computes the recursive walk, with its unsafe-key and missing-value exits |
| UrlTemplate.PathAgrees | lib/url-template.js:49-80 | a scalar read through a smaller context is the one read through any larger one |
| UrlTemplate.ReplaceAgrees | lib/url-template.js:28-47 | a template that resolves in the smaller context resolves to the same text in the larger |
| UrlTemplate.ExtraFieldsAreMissing | lib/url-template.js:52-60 | a field only the larger context has is missing in the smaller and found in the larger |
| UrlTemplate.HeaderOnOneLine | lib/url-template.js:42-45 | a resolved header has no line break its own text did not have |
| TemplateMeaning.HoleResolves | lib/url-template.js:28-47 | a template of one hole between plain texts resolves to those texts with the value between them, encoded in a URL and as it is in a header, or to the error its value deserves |
| TemplateMeaning.RootsName | lib/url-template.js:49-80 | what payload, request, _request, context, gateway and global give access to |
| TemplateMeaning.MessageNames | lib/url-template.js:53-57 | what msg gives access to |
| TemplateMeaning.OtherRoots | lib/url-template.js:70-72 | a path is refused for its root if and only if that is none of the seven |
| TemplateMeaning.UnsafeRefused | lib/url-template.js:76-93 | a prototype name behind a value is refused |
| TemplateMeaning.SegmentSyntax | lib/url-template.js:82-88 | a segment is accepted if and only if it is an identifier or a number |
| TemplateMeaning.BlanksDropped | lib/url-template.js:82-84 | blanks around the dots of a path do not matter |
| TemplateMeaning.EmptyDropped | lib/url-template.js:82-84 | empty segments do not matter |
| TemplateMeaning.SingleBraces | lib/url-template.js:3-4 | a text in single braces is no hole |
| TemplateMeaning.BelowValues | lib/url-template.js:74-80 | below a list or a text there are exactly its positions and its length, below other scalars nothing |
| TemplateMeaning.NoRequest | lib/url-template.js:52 | an absent or falsy request has no fields |
| TemplateMeaning.PayloadInUrl | lib/url-template.js:10-15 | a field of the payload named in a URL template stands in the URL encoded |
| RequestContract.NormalizeRequest | lib/request-contract.js:65-73 | the loop keeps exactly the carried keys with their values |
| RequestRules.CarriedFields | lib/request-contract.js:65-73 | params, query and headers go on if they are defined, a body whenever it is there, nothing else, all as they are |
| RequestContract.ValidateRequest | lib/request-contract.js:116-194 | the errors are exactly the problems the rules define, and ok means there is none |
| RequestContract.RequestHeaders | lib/request-contract.js:229-248 | the loop over the headers sends exactly the specified texts or throws exactly when one header does |
| RequestRules.AcceptedIff | lib/request-contract.js:116-194 | a request is accepted if and only if it keeps the rules on shape, keys, method, parts, values, header names and texts, body and URL template, all names written out |
| RequestRules.HeadersCarryValues | lib/request-contract.js:229-248 | each header sent carries the text of its value, a string with its holes filled |
| RequestRules.EnvelopeInput | lib/request-contract.js:75-81 | the input of an envelope is the method if there is one, what of the request goes on, and the payload, nothing else |
| RequestRules.EnvelopeOutput | lib/request-contract.js:83-95 | the output of an envelope is what the response has of status, code, body and error, nothing else |
| RequestAgreement.NormalizeIdempotent | lib/request-contract.js:65-73 | normalising a normalised request changes nothing |
| RequestAgreement.EnvelopeRoundTrip | lib/request-contract.js:75-95 | the request of an envelope is the request it was made from, for every payload, method and output |
| RequestAgreement.EnvelopeReadmitted | lib/request-contract.js:116-131 | the envelope of an accepted request, for any schema, method and output, is accepted again with the same payload and context if and only if it names no method or an HTTP method that is the schema's, if that has one |
| RequestAgreement.FilledAgrees | lib/gateway-server.js:441-452 | a text admission could fill is filled alike with the execution context |
| RequestAgreement.AdmissionImpliesExecution | lib/gateway-server.js:245-250 | an accepted request executes: same URL text, no header throws, the headers sent are exactly those neither null nor undefined, none of them protected, with the texts admission computed |
| RequestAgreement.GatewayContexts | lib/gateway-server.js:441-452 | the contexts the gateway builds at admission and at execution are as the agreement of both assumes |

## Left out

- Stream retention (XDEL), unparsable payloads, consumer-group creation and recovery: the group is taken to exist before the first XADD.
- Retry tokens and idempotency keys are taken to be distinct for distinct requests: joining with ':' and hashing are not modelled.
- The promotion fallback without EVAL and the `setTimeout` deferral for queues without `scheduleRetry`.
- Which members a range scan or which entries a read or reclaim returns, and their limits: any choice is allowed, so every result holds for the real one; only an empty read says something, that nothing undelivered was there.
- The queue's `retrySequence` is the serial number of a scheduling; `lastQueuedAt`, `queueId` and timing fields are dropped.
- Replay of pending results, delivery to connections, and what happens to a result after it was sent or persisted.
- Clocks of different processes that disagree: the durable queue's processes read one clock.
- Metrics, logging, heartbeats, reconnect delays, authentication and the handshake's own timers.
- Several Redis primaries, failover and data loss inside Redis.
- GCRA uses exact reals: floating-point rounding and Lua's printing of a stored tat are not modelled.
- Limits, sizes and concurrency are taken to be numbers of the right kind; parsing of configuration and environment is left out.
- The in-memory path takes delivery and `_finish` as not throwing; the pump's `finally` after such a throw is left out.
- Items are values: the in-memory queue, the claim table and the retry timers share one object per item in the source, whose `attempts` is read only through the queue.
- The idempotency class holds one key, and its two-command methods take what the GET finds as a parameter instead of suspending.
- A client callback that throws (the broken `send`) is taken to leave the process running.
- Alias entries whose original is not pending on the same client settle by their own timers only; nothing stronger is claimed.
- JSON objects have own properties only: prototypes, getters, `__proto__` as a header name and cross-realm objects are left out.
- Characters are Unicode scalar values, so string length and index differ from UTF-16 beyond the basic plane; lower- and upper-casing, `encodeURIComponent` and `Number` are parameters.
- Error messages and the order of validation errors: the set of problems is modelled, not their wording or sequence.
- `appendQuery`, `parseRetryAfter`, the HTTP adapter's call itself, and all editor and node files: wiring or library behaviour.
